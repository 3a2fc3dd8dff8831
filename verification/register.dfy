/**
 * The registration form: three ordered checks with early exit, then one call to the
 * auth service whose outcome decides the message shown.
 */
module Register {
  import opened Wrappers
  import opened Http
  import opened ErrorMessages

  /** The three inputs, in the order they are checked. */
  datatype Field = Username | Email | Password

  const UsernameError := "Username must be between 3 and 20 characters."
  const EmailError := "Invalid email address."
  const PasswordError := "Password must be between 6 and 40 characters."

  /** The text stored under a field's key in `errors`. */
  function ErrorText(f: Field): string
  {
    match f
    case Username => UsernameError
    case Email => EmailError
    case Password => PasswordError
  }

  predicate UsernameLengthOk(username: string)
  {
    !(|username| < 3 || |username| > 20)
  }

  predicate PasswordLengthOk(password: string)
  {
    !(|password| < 6 || |password| > 40)
  }

  /**
   * The validation prefix of `handleRegister`: the first check that fails, or None.
   * `isEmail` is the foreign `validator` predicate, left uninterpreted.
   */
  function Validate(username: string, email: string, password: string, isEmail: string -> bool): (r: Option<Field>)
    ensures r == Some(Username) <==> !UsernameLengthOk(username)
    ensures r == Some(Email) <==> UsernameLengthOk(username) && !isEmail(email)
    ensures r == Some(Password) <==> UsernameLengthOk(username) && isEmail(email) && !PasswordLengthOk(password)
    ensures r == None <==> UsernameLengthOk(username) && isEmail(email) && PasswordLengthOk(password)
  {
    if !UsernameLengthOk(username) then Some(Username)
    else if !isEmail(email) then Some(Email)
    else if !PasswordLengthOk(password) then Some(Password)
    else None
  }

  /** The checks as an ordered list of (field, passed). */
  function Checks(username: string, email: string, password: string, isEmail: string -> bool): seq<(Field, bool)>
  {
    [(Username, UsernameLengthOk(username)), (Email, isEmail(email)), (Password, PasswordLengthOk(password))]
  }

  /** Reference definition: the field of the first failed check in a list. */
  function FirstFailure(checks: seq<(Field, bool)>): Option<Field>
  {
    if checks == [] then None
    else if !checks[0].1 then Some(checks[0].0)
    else FirstFailure(checks[1..])
  }

  /** FirstFailure names a failed check that every earlier check passed, and is None only when all pass. */
  lemma {:induction false} FirstFailureIsFirst(checks: seq<(Field, bool)>)
    ensures FirstFailure(checks).None? <==> forall i :: 0 <= i < |checks| ==> checks[i].1
    ensures FirstFailure(checks).Some? ==>
      exists i :: 0 <= i < |checks| && checks[i] == (FirstFailure(checks).value, false) &&
        forall j :: 0 <= j < i ==> checks[j].1
  {
    if checks != [] && checks[0].1 {
      FirstFailureIsFirst(checks[1..]);
      if FirstFailure(checks).Some? {
        var i :| 0 <= i < |checks[1..]| && checks[1..][i] == (FirstFailure(checks).value, false) &&
          forall j :: 0 <= j < i ==> checks[1..][j].1;
        assert checks[i + 1] == (FirstFailure(checks).value, false);
        assert forall j :: 0 <= j < i + 1 ==> checks[j].1 by {
          forall j | 0 <= j < i + 1 ensures checks[j].1 {
            if j > 0 { assert checks[j] == checks[1..][j - 1]; }
          }
        }
      } else {
        forall i | 0 <= i < |checks| ensures checks[i].1 {
          if i > 0 { assert checks[i] == checks[1..][i - 1]; }
        }
      }
    } else if checks != [] {
      assert checks[0] == (FirstFailure(checks).value, false);
    }
  }

  /** The nested early returns of `handleRegister` report exactly the first failed check, in field order. */
  lemma {:induction false} ValidateIsFirstFailure(username: string, email: string, password: string, isEmail: string -> bool)
    ensures Validate(username, email, password, isEmail) == FirstFailure(Checks(username, email, password, isEmail))
  {
    var c := Checks(username, email, password, isEmail);
    var rest := [(Email, isEmail(email)), (Password, PasswordLengthOk(password))];
    var last := [(Password, PasswordLengthOk(password))];
    assert c[1..] == rest && rest[1..] == last && last[1..] == [];
    assert FirstFailure(last) == if PasswordLengthOk(password) then None else Some(Password);
  }

  /** `AuthService.register(username, email, password)`: the one request the form issues. */
  datatype RegisterCall = RegisterCall(username: string, email: string, password: string)

  /** `response.data` of a successful registration. */
  datatype RegisterReply = RegisterReply(message: string)

  /** What the form shows: `errors`, `message` and `successful`. */
  datatype Feedback = Feedback(errors: map<Field, string>, message: string, successful: bool)

  class RegisterForm {
    var username: string
    var email: string
    var password: string
    var errors: map<Field, string>
    var message: string
    var successful: bool

    function Shown(): Feedback
      reads this
    {
      Feedback(errors, message, successful)
    }

    constructor ()
      ensures username == "" && email == "" && password == ""
      ensures Shown() == Feedback(map[], "", false)
    {
      username, email, password := "", "", "";
      errors, message, successful := map[], "", false;
    }

    /** The three `onChange` handlers. */
    method Fill(u: string, e: string, p: string)
      modifies this
      ensures username == u && email == e && password == p
      ensures Shown() == old(Shown())
    {
      username, email, password := u, e, p;
    }

    /**
     * `handleRegister`: reset the feedback, run the checks in order and stop at the first
     * failure with only that field's error; otherwise call the service once and show its
     * message (success) or the resolved error text (failure). `atRequest` is what the form
     * shows while the call is pending.
     */
    method HandleRegister(isEmail: string -> bool, outcome: AxiosOutcome<RegisterReply>)
      returns (call: Option<RegisterCall>, ghost atRequest: Feedback)
      modifies this
      ensures username == old(username) && email == old(email) && password == old(password)
      ensures |errors| <= 1
      ensures call.Some? <==> Validate(username, email, password, isEmail).None?
      ensures call.Some? ==> call.value == RegisterCall(username, email, password)
      ensures call.Some? ==> atRequest == Feedback(map[], "", false)
      ensures Validate(username, email, password, isEmail).Some? ==>
        var f := Validate(username, email, password, isEmail).value;
        Shown() == Feedback(map[f := ErrorText(f)], "", false)
      ensures call.Some? && outcome.Resolved? ==> Shown() == Feedback(map[], outcome.data.message, true)
      ensures call.Some? && outcome.Rejected? ==> Shown() == Feedback(map[], ResMessage(outcome.error), false)
    {
      message := "";
      errors := map[];
      successful := false;
      atRequest := Shown();

      if !UsernameLengthOk(username) {
        errors := errors[Username := UsernameError];
        call := None;
        return;
      }
      if !isEmail(email) {
        errors := errors[Email := EmailError];
        call := None;
        return;
      }
      if !PasswordLengthOk(password) {
        errors := errors[Password := PasswordError];
        call := None;
        return;
      }

      call := Some(RegisterCall(username, email, password));
      match outcome {
        case Resolved(reply) =>
          message := reply.message;
          successful := true;
        case Rejected(e) =>
          message := ResMessage(e);
          successful := false;
      }
    }
  }
}
