/**
  The session routes of backend/routes/api/session.js: log in, read the
  session, log out. Login is a read-only lookup in the Users table followed by
  a decision and the safe-user projection; the cookie it sets is left out.

  bcrypt's `compareSync` arrives as a function parameter.
 */
module Session {
  import opened Wrappers
  import Validation
  import Users

  /** The body of POST /api/session; a missing field is None. */
  datatype LoginRequest = LoginRequest(credential: Option<string>, password: Option<string>)

  /** validateLogin's chains: the credential must be present and non-empty, the password present. */
  function LoginChains(req: LoginRequest): seq<Validation.Chain>
  {
    [ Validation.Chain(Users.Present(req.credential) && Users.Text(req.credential) != "", "credential",
                       "Please provide a valid email or username."),
      Validation.Chain(Users.Present(req.password), "password", "Please provide a password.") ]
  }

  /** The entries validateLogin leaves; empty exactly when both fields are present and non-empty. */
  function LoginErrors(req: LoginRequest): (errs: seq<Validation.FieldError>)
    ensures errs == [] <==> && req.credential.Some? && req.credential.value != ""
                            && req.password.Some? && req.password.value != ""
  {
    var cs := LoginChains(req);
    assert (forall j :: 0 <= j < |cs| ==> cs[j].passes) <==> cs[0].passes && cs[1].passes;
    Validation.Run(cs)
  }

  /** A user the credential names, by username or by email. */
  predicate Matches(u: Users.User, credential: string)
  {
    u.username == credential || u.email == credential
  }

  /** `User.unscoped().findOne` with `username = credential OR email = credential`: the first match, if any. */
  function FindByCredential(users: seq<Users.User>, credential: string): (r: Option<Users.User>)
    ensures r.Some? ==> r.value in users && Matches(r.value, credential)
    ensures r.None? <==> forall k :: 0 <= k < |users| ==> !Matches(users[k], credential)
  {
    if users == [] then None
    else if Matches(users[0], credential) then Some(users[0])
    else FindByCredential(users[1..], credential)
  }

  const InvalidCredentialsText := "Invalid credentials"

  /** The responses of POST /api/session. */
  datatype LoginResult =
    | LoginRejected(err: Validation.BadRequestError)
    | InvalidCredentials
    | LoggedIn(user: Users.SafeUser)
  {
    function Status(): nat
    {
      match this
      case LoginRejected(err) => err.status
      case InvalidCredentials => 401
      case LoggedIn(_) => 200
    }

    function Title(): string
    {
      match this
      case LoginRejected(err) => err.title
      case InvalidCredentials => InvalidCredentialsText
      case LoggedIn(_) => ""
    }

    function Message(): string
    {
      match this
      case LoginRejected(err) => err.message
      case InvalidCredentials => InvalidCredentialsText
      case LoggedIn(_) => ""
    }
  }

  /**
    The login route: validateLogin, the lookup, then one uniform 401 for an
    unknown credential and for a wrong password alike, or the five public
    fields of the user found.
   */
  function Login(users: seq<Users.User>, req: LoginRequest, compare: (string, string) -> bool): (r: LoginResult)
    ensures r.LoginRejected? <==> LoginErrors(req) != []
    ensures r.LoginRejected? ==> r.Status() == 400 && r.err.errors == Validation.ErrorsMap(LoginErrors(req))
    ensures r.InvalidCredentials? ==> r.Status() == 401 && r.Title() == "Invalid credentials" && r.Message() == "Invalid credentials"
    ensures r.LoggedIn? ==>
              exists u :: u in users && Matches(u, req.credential.value) && compare(req.password.value, u.hashedPassword)
                          && r.user == Users.SafeUserOf(u)
    ensures r.LoggedIn? <==>
              && LoginErrors(req) == []
              && FindByCredential(users, req.credential.value).Some?
              && compare(req.password.value, FindByCredential(users, req.credential.value).value.hashedPassword)
    ensures LoginErrors(req) == [] && (forall k :: 0 <= k < |users| ==> !Matches(users[k], req.credential.value))
            ==> r.InvalidCredentials?
  {
    var errs := LoginErrors(req);
    if errs != [] then
      LoginRejected(Validation.BadRequestError(400, Validation.BadRequestText, Validation.BadRequestText,
                                               Validation.ErrorsMap(errs)))
    else
      match FindByCredential(users, req.credential.value)
      case None => InvalidCredentials
      case Some(u) =>
        if !compare(req.password.value, u.hashedPassword) then InvalidCredentials
        else LoggedIn(Users.SafeUserOf(u))
  }

  /**
    An unknown credential and a wrong password are indistinguishable to the
    caller: both requests get the very same response.
   */
  lemma UnknownUserAndWrongPasswordAlike(users: seq<Users.User>, unknown: LoginRequest, wrong: LoginRequest,
                                         compare: (string, string) -> bool)
    requires LoginErrors(unknown) == [] && LoginErrors(wrong) == []
    requires forall k :: 0 <= k < |users| ==> !Matches(users[k], unknown.credential.value)
    requires FindByCredential(users, wrong.credential.value).Some?
    requires !compare(wrong.password.value, FindByCredential(users, wrong.credential.value).value.hashedPassword)
    ensures Login(users, unknown, compare) == Login(users, wrong, compare) == InvalidCredentials
  {
  }

  /** The body of GET /api/session. */
  datatype SessionBody = SessionBody(user: Option<Users.SafeUser>)

  /** GET /api/session: `{ user: null }` without a user, otherwise its five public fields. */
  function GetSession(user: Option<Users.User>): (r: SessionBody)
    ensures r.user.None? <==> user.None?
    ensures user.Some? ==> r.user == Some(Users.SafeUserOf(user.value))
  {
    match user
    case None => SessionBody(None)
    case Some(u) => SessionBody(Some(Users.SafeUserOf(u)))
  }

  /** The body of DELETE /api/session. */
  datatype LogoutBody = LogoutBody(message: string)

  /** DELETE /api/session: whatever the session, the answer is `{ message: "success" }`. */
  function Logout(): (r: LogoutBody)
    ensures r.message == "success"
  {
    LogoutBody("success")
  }
}
