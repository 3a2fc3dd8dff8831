/**
 * The login form: an empty-credential guard, then one call to the auth service;
 * a failure shows the resolved error text, a success navigates away.
 */
module Login {
  import opened Wrappers
  import opened Http
  import opened ErrorMessages

  const RequiredMessage := "Username and password are required"

  /** `AuthService.login(username, password)`. */
  datatype LoginCall = LoginCall(username: string, password: string)

  /** What the form shows: the button's `loading` state and the `message` banner. */
  datatype LoginShown = LoginShown(loading: bool, message: string)

  class LoginForm {
    var username: string
    var password: string
    var loading: bool
    var message: string

    function Shown(): LoginShown
      reads this
    {
      LoginShown(loading, message)
    }

    constructor ()
      ensures username == "" && password == ""
      ensures Shown() == LoginShown(false, "")
    {
      username, password := "", "";
      loading, message := false, "";
    }

    /** The two `onChange` handlers. */
    method Fill(u: string, p: string)
      modifies this
      ensures username == u && password == p
      ensures Shown() == old(Shown())
    {
      username, password := u, p;
    }

    /**
     * `handleLogin`: clear the message and start loading; refuse empty credentials
     * without calling the service; otherwise call it once. On success the page
     * navigates to the dashboard and `loading` is left on; on failure the resolved error
     * text is shown and `loading` is turned off. `atRequest` is what the form shows while
     * the call is pending.
     */
    method HandleLogin<T>(outcome: AxiosOutcome<T>)
      returns (call: Option<LoginCall>, navigated: bool, ghost atRequest: LoginShown)
      modifies this
      ensures username == old(username) && password == old(password)
      ensures call.Some? <==> username != "" && password != ""
      ensures call.None? ==> !navigated && Shown() == LoginShown(false, RequiredMessage)
      ensures call.Some? ==> call.value == LoginCall(username, password) && atRequest == LoginShown(true, "")
      ensures call.Some? && outcome.Resolved? ==> navigated && Shown() == LoginShown(true, "")
      ensures call.Some? && outcome.Rejected? ==> !navigated && Shown() == LoginShown(false, ResMessage(outcome.error))
    {
      message := "";
      loading := true;
      navigated := false;
      atRequest := Shown();

      if username == "" || password == "" {
        message := RequiredMessage;
        loading := false;
        call := None;
        return;
      }

      call := Some(LoginCall(username, password));
      match outcome {
        case Resolved(_) =>
          navigated := true;
        case Rejected(e) =>
          message := ResMessage(e);
          loading := false;
      }
    }
  }
}
