/**
  The user routes of backend/routes/api/users.js: the signup validation chain,
  the signup insert, and GET /current; with the safe-user projection that the
  session routes share.

  express-validator's `isEmail` and bcrypt's `hashSync` are library code and
  arrive as function parameters.
 */
module Users {
  import opened Wrappers
  import Validation

  /** A row of the Users table. */
  datatype User = User(id: nat, firstName: string, lastName: string, email: string, username: string,
                       hashedPassword: string)

  /** The user object the routes send: five fields, never the password hash. */
  datatype SafeUser = SafeUser(id: nat, firstName: string, lastName: string, email: string, username: string)

  function SafeUserOf(u: User): SafeUser
  {
    SafeUser(u.id, u.firstName, u.lastName, u.email, u.username)
  }

  /**
    Two users project to the same safe user exactly when their five public
    fields agree: the hash plays no part, and no public field is lost.
   */
  lemma SafeUserIsPublicFields(u1: User, u2: User)
    ensures SafeUserOf(u1) == SafeUserOf(u2) <==>
              && u1.id == u2.id && u1.firstName == u2.firstName && u1.lastName == u2.lastName
              && u1.email == u2.email && u1.username == u2.username
  {
  }

  /** The body of POST /api/users; a missing field is None. */
  datatype SignupRequest = SignupRequest(email: Option<string>, username: Option<string>, password: Option<string>,
                                         firstName: Option<string>, lastName: Option<string>)

  /** `exists({ checkFalsy: true })` on a string field: present and not empty. */
  predicate Present(v: Option<string>)
  {
    v.Some? && v.value != ""
  }

  /** The string the later validators of a chain see: a missing field reads as "". */
  function Text(v: Option<string>): string
  {
    if v.Some? then v.value else ""
  }

  const UsernameLengthMessage := "Please provide a username with at least 4 characters."
  const UsernameEmailMessage := "Username cannot be an email."

  /** validateSignup's chains, in declaration order. */
  function SignupChains(req: SignupRequest, isEmail: string -> bool): seq<Validation.Chain>
  {
    [ Validation.Chain(Present(req.email) && isEmail(Text(req.email)), "email", "Please provide a valid email."),
      Validation.Chain(Present(req.username) && |Text(req.username)| >= 4, "username", UsernameLengthMessage),
      Validation.Chain(!isEmail(Text(req.username)), "username", UsernameEmailMessage),
      Validation.Chain(Present(req.password) && |Text(req.password)| >= 6, "password", "Password must be 6 characters or more."),
      Validation.Chain(Present(req.firstName), "firstName", "First name is required."),
      Validation.Chain(Present(req.lastName), "lastName", "Last name is required.") ]
  }

  /** The entries validateSignup leaves for a request. */
  function SignupErrors(req: SignupRequest, isEmail: string -> bool): seq<Validation.FieldError>
  {
    Validation.Run(SignupChains(req, isEmail))
  }

  /** The signup rules, field by field. */
  predicate EmailOk(req: SignupRequest, isEmail: string -> bool)
  {
    req.email.Some? && req.email.value != "" && isEmail(req.email.value)
  }

  predicate UsernameOk(req: SignupRequest, isEmail: string -> bool)
  {
    req.username.Some? && |req.username.value| >= 4 && !isEmail(req.username.value)
  }

  predicate PasswordOk(req: SignupRequest)
  {
    req.password.Some? && |req.password.value| >= 6
  }

  predicate FirstNameOk(req: SignupRequest)
  {
    req.firstName.Some? && req.firstName.value != ""
  }

  predicate LastNameOk(req: SignupRequest)
  {
    req.lastName.Some? && req.lastName.value != ""
  }

  /** The validation chain accepts a request exactly when every signup rule holds. */
  lemma SignupAcceptedIff(req: SignupRequest, isEmail: string -> bool)
    ensures SignupErrors(req, isEmail) == [] <==>
              EmailOk(req, isEmail) && UsernameOk(req, isEmail) && PasswordOk(req) && FirstNameOk(req) && LastNameOk(req)
  {
    var cs := SignupChains(req, isEmail);
    assert (forall j :: 0 <= j < |cs| ==> cs[j].passes) <==>
             cs[0].passes && cs[1].passes && cs[2].passes && cs[3].passes && cs[4].passes && cs[5].passes;
  }

  /** The chain map of six chains, unfolded. */
  lemma ChainsMapOfSix(c0: Validation.Chain, c1: Validation.Chain, c2: Validation.Chain,
                       c3: Validation.Chain, c4: Validation.Chain, c5: Validation.Chain)
    ensures var m0 := if c0.passes then map[] else map[c0.param := c0.msg];
            var m1 := if c1.passes then m0 else m0[c1.param := c1.msg];
            var m2 := if c2.passes then m1 else m1[c2.param := c2.msg];
            var m3 := if c3.passes then m2 else m2[c3.param := c3.msg];
            var m4 := if c4.passes then m3 else m3[c4.param := c4.msg];
            Validation.ChainsMap([c0, c1, c2, c3, c4, c5]) == if c5.passes then m4 else m4[c5.param := c5.msg]
  {
    var m0 := if c0.passes then map[] else map[c0.param := c0.msg];
    var m1 := if c1.passes then m0 else m0[c1.param := c1.msg];
    var m2 := if c2.passes then m1 else m1[c2.param := c2.msg];
    var m3 := if c3.passes then m2 else m2[c3.param := c3.msg];
    var m4 := if c4.passes then m3 else m3[c4.param := c4.msg];
    assert [c0][..0] == [];
    assert Validation.ChainsMap([c0]) == m0;
    assert [c0, c1][..1] == [c0];
    assert Validation.ChainsMap([c0, c1]) == m1;
    assert [c0, c1, c2][..2] == [c0, c1];
    assert Validation.ChainsMap([c0, c1, c2]) == m2;
    assert [c0, c1, c2, c3][..3] == [c0, c1, c2];
    assert Validation.ChainsMap([c0, c1, c2, c3]) == m3;
    assert [c0, c1, c2, c3, c4][..4] == [c0, c1, c2, c3];
    assert Validation.ChainsMap([c0, c1, c2, c3, c4]) == m4;
    assert [c0, c1, c2, c3, c4, c5][..5] == [c0, c1, c2, c3, c4];
  }

  /** The signup `errors` object: each failing chain sets its field in turn, so a later chain overrides an earlier one. */
  lemma SignupErrorsMap(req: SignupRequest, isEmail: string -> bool)
    ensures var cs := SignupChains(req, isEmail);
            Validation.ErrorsMap(SignupErrors(req, isEmail)) == Validation.ChainsMap(cs)
  {
    Validation.RunErrorsMap(SignupChains(req, isEmail));
  }

  /** The 400 error's `errors` object has a key for exactly the fields whose rule fails. */
  lemma SignupErrorFields(req: SignupRequest, isEmail: string -> bool)
    ensures var errors := Validation.ErrorsMap(SignupErrors(req, isEmail));
            && ("email" in errors <==> !EmailOk(req, isEmail))
            && ("username" in errors <==> !UsernameOk(req, isEmail))
            && ("password" in errors <==> !PasswordOk(req))
            && ("firstName" in errors <==> !FirstNameOk(req))
            && ("lastName" in errors <==> !LastNameOk(req))
  {
    var cs := SignupChains(req, isEmail);
    SignupErrorsMap(req, isEmail);
    ChainsMapOfSix(cs[0], cs[1], cs[2], cs[3], cs[4], cs[5]);
  }

  /** A username that is an email gets the email message, whatever its length: the later chain wins. */
  lemma EmailUsernameMessage(req: SignupRequest, isEmail: string -> bool)
    requires isEmail(Text(req.username))
    ensures var errors := Validation.ErrorsMap(SignupErrors(req, isEmail));
            "username" in errors && errors["username"] == UsernameEmailMessage
  {
    var cs := SignupChains(req, isEmail);
    SignupErrorsMap(req, isEmail);
    ChainsMapOfSix(cs[0], cs[1], cs[2], cs[3], cs[4], cs[5]);
    assert |"username"| == 8 && |"firstName"| == 9;
    assert "username"[0] != "password"[0] && "username"[0] != "lastName"[0];
  }

  /** The responses of POST /api/users. */
  datatype SignupResult = SignupRejected(err: Validation.BadRequestError) | SignupCreated(user: SafeUser)
  {
    function Status(): nat
    {
      if SignupCreated? then 201 else err.status
    }
  }

  /** The responses of GET /api/users/current. */
  datatype CurrentUserResult = NoUserLoggedIn | CurrentUser(user: SafeUser)
  {
    function Status(): nat
    {
      if NoUserLoggedIn? then 404 else 200
    }

    function Message(): string
    {
      if NoUserLoggedIn? then "No user logged in" else ""
    }
  }

  /** GET /current: 404 without a user, otherwise the user's five public fields. */
  function GetCurrentUser(user: Option<User>): (r: CurrentUserResult)
    ensures r.Status() == 404 <==> user.None?
    ensures user.None? ==> r.Message() == "No user logged in"
    ensures user.Some? ==> r.Status() == 200 && r.user.id == user.value.id && r.user.email == user.value.email
                           && r.user.username == user.value.username && r.user.firstName == user.value.firstName
                           && r.user.lastName == user.value.lastName
  {
    match user
    case None => NoUserLoggedIn
    case Some(u) => CurrentUser(SafeUserOf(u))
  }

  /** The Users table. */
  class UserTable {
    var users: seq<User>
    /** The next value of the auto-increment primary key. */
    var nextId: nat

    ghost predicate Valid()
      reads this
    {
      && (forall k :: 0 <= k < |users| ==> users[k].id < nextId)
      && (forall i, j :: 0 <= i < j < |users| ==> users[i].id != users[j].id)
    }

    constructor ()
      ensures Valid() && users == [] && nextId == 1
    {
      users := [];
      nextId := 1;
    }

    /**
      POST /api/users: validateSignup, then hash the password, insert one user
      and answer 201 with its safe projection. A rejected request changes nothing.
     */
    method Signup(req: SignupRequest, isEmail: string -> bool, hash: string -> string) returns (r: SignupResult)
      requires Valid()
      modifies this
      ensures Valid()
      ensures SignupErrors(req, isEmail) != [] ==>
                && r == SignupRejected(Validation.BadRequestError(400, Validation.BadRequestText, Validation.BadRequestText,
                                                                  Validation.ErrorsMap(SignupErrors(req, isEmail))))
                && users == old(users) && nextId == old(nextId)
      ensures SignupErrors(req, isEmail) == [] ==>
                var u := User(old(nextId), Text(req.firstName), Text(req.lastName), Text(req.email),
                              Text(req.username), hash(Text(req.password)));
                && users == old(users) + [u]
                && nextId == old(nextId) + 1
                && r == SignupCreated(SafeUserOf(u))
    {
      var errs := SignupErrors(req, isEmail);
      var calls := Validation.HandleValidationErrors(errs);
      if calls[0].WithError? {
        return SignupRejected(calls[0].err);
      }
      SignupAcceptedIff(req, isEmail);
      var hashedPassword := hash(req.password.value);
      var u := User(nextId, req.firstName.value, req.lastName.value, req.email.value, req.username.value,
                    hashedPassword);
      users := users + [u];
      nextId := nextId + 1;
      r := SignupCreated(SafeUserOf(u));
    }
  }
}
