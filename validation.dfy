/**
  The validation-error middleware of backend/utils/validation.js.

  express-validator leaves behind an ordered list of (param, msg) entries. The
  middleware folds that list into an `errors` object, one key per param, and
  then calls `next` exactly once: with nothing when the list is empty, with a
  400 "Bad Request" error carrying the object otherwise.
 */
module Validation {

  /** One entry of express-validator's error list: the request field and its message. */
  datatype FieldError = FieldError(param: string, msg: string)

  /**
    One `check(field)...withMessage(msg)` chain, already evaluated against the
    request: whether all of its validators passed, and the entry it leaves otherwise.
   */
  datatype Chain = Chain(passes: bool, param: string, msg: string)

  /** The entry one chain leaves: none when it passes. */
  function ChainErrors(c: Chain): seq<FieldError>
  {
    if c.passes then [] else [FieldError(c.param, c.msg)]
  }

  /** The error list express-validator collects from chains run in declaration order. */
  function Run(chains: seq<Chain>): (errs: seq<FieldError>)
    ensures errs == [] <==> forall j :: 0 <= j < |chains| ==> chains[j].passes
  {
    if chains == [] then []
    else Run(chains[..|chains| - 1]) + ChainErrors(chains[|chains| - 1])
  }

  /** The errors object chains produce, one chain at a time: a failing chain sets its field, overriding earlier ones. */
  function ChainsMap(chains: seq<Chain>): map<string, string>
  {
    if chains == [] then map[]
    else
      var m, c := ChainsMap(chains[..|chains| - 1]), chains[|chains| - 1];
      if c.passes then m else m[c.param := c.msg]
  }

  /** The error object handed to `next` when validation fails. */
  datatype BadRequestError = BadRequestError(status: nat, title: string, message: string, errors: map<string, string>)

  /** The argument of one call to `next`. */
  datatype NextArg = NoError | WithError(err: BadRequestError)

  const BadRequestText := "Bad Request"

  /** The `errors` object after `forEach` has assigned every entry in list order. */
  function ErrorsMap(errs: seq<FieldError>): map<string, string>
  {
    if errs == [] then map[]
    else ErrorsMap(errs[..|errs| - 1])[errs[|errs| - 1].param := errs[|errs| - 1].msg]
  }

  /** The `forEach` loop that assigns `errors[error.param] = error.msg`. */
  method CollectErrors(errs: seq<FieldError>) returns (errors: map<string, string>)
    ensures errors == ErrorsMap(errs)
  {
    errors := map[];
    for i := 0 to |errs|
      invariant errors == ErrorsMap(errs[..i])
    {
      assert errs[..i + 1][..i] == errs[..i];
      errors := errors[errs[i].param := errs[i].msg];
    }
    assert errs[..|errs|] == errs;
  }

  /**
    handleValidationErrors: the sequence of calls made to `next`. It is always
    exactly one call; it carries no error iff the list is empty.
   */
  method HandleValidationErrors(errs: seq<FieldError>) returns (calls: seq<NextArg>)
    ensures |calls| == 1
    ensures calls[0] == NoError <==> errs == []
    ensures errs != [] ==> calls[0] == WithError(BadRequestError(400, BadRequestText, BadRequestText, ErrorsMap(errs)))
  {
    if errs != [] {
      var errors := CollectErrors(errs);
      var err := BadRequestError(400, BadRequestText, BadRequestText, errors);
      calls := [WithError(err)];
    } else {
      calls := [NoError];
    }
  }

  /** The keys of the errors object are exactly the params named in the list. */
  lemma {:induction false} ErrorsMapKeys(errs: seq<FieldError>)
    ensures forall p :: p in ErrorsMap(errs) <==> exists i :: 0 <= i < |errs| && errs[i].param == p
  {
    if errs != [] {
      var init := errs[..|errs| - 1];
      ErrorsMapKeys(init);
      forall p
        ensures p in ErrorsMap(errs) <==> exists i :: 0 <= i < |errs| && errs[i].param == p
      {
        if p in ErrorsMap(init) {
          var i :| 0 <= i < |init| && init[i].param == p;
          assert errs[i] == init[i];
        }
        if exists i :: 0 <= i < |errs| && errs[i].param == p {
          var i :| 0 <= i < |errs| && errs[i].param == p;
          if i < |init| {
            assert init[i] == errs[i];
          }
        }
      }
    }
  }

  /**
    When several entries share a param, the object keeps the message of the
    last of them: the entry at `i` wins when no later entry names its param.
   */
  lemma {:induction false} ErrorsMapLastWins(errs: seq<FieldError>, i: nat)
    requires i < |errs|
    requires forall j :: i < j < |errs| ==> errs[j].param != errs[i].param
    ensures errs[i].param in ErrorsMap(errs) && ErrorsMap(errs)[errs[i].param] == errs[i].msg
  {
    if i < |errs| - 1 {
      var init := errs[..|errs| - 1];
      assert init[i] == errs[i];
      ErrorsMapLastWins(init, i);
    }
  }

  /** Folding the collected list gives the chain-by-chain map. */
  lemma {:induction false} RunErrorsMap(chains: seq<Chain>)
    ensures ErrorsMap(Run(chains)) == ChainsMap(chains)
  {
    if chains != [] {
      var init, c := chains[..|chains| - 1], chains[|chains| - 1];
      RunErrorsMap(init);
      if !c.passes {
        var errs := Run(init) + ChainErrors(c);
        assert errs[..|errs| - 1] == Run(init);
      } else {
        assert Run(init) + ChainErrors(c) == Run(init);
      }
    }
  }
}
