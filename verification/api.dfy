/**
 * The session helper: the single browser-storage slot named "token" and the three
 * calls that touch the backend. The slot is a field of TokenStore; every other
 * storage entry is outside the model.
 */
module Api {
  import opened Wrappers
  import opened Http

  /** The `{ email, password }` body posted to the auth endpoints. */
  datatype Credentials = Credentials(email: string, password: string)

  /** `response.data` of the login call: its `token` and whatever other properties it has. */
  datatype LoginBody = LoginBody(token: Option<string>, others: map<string, string>)

  /** What a traffic-stats request carries: the website and the `Authorization` header value. */
  datatype StatsRequest = StatsRequest(website: string, authorization: Option<string>)

  /** `if (response.data.token)`: a token is stored only when it is a non-empty string. */
  predicate HasToken(body: LoginBody)
  {
    body.token.Some? && body.token.value != ""
  }

  /** What a settled axios call hands back to its caller. */
  function Settle<T>(outcome: AxiosOutcome<T>): (r: Result<T, RequestError>)
    ensures r.Success? <==> outcome.Resolved?
    ensures outcome.Resolved? ==> r.value == outcome.data
    ensures outcome.Rejected? ==> r.error == outcome.error
  {
    match outcome
    case Resolved(d) => Success(d)
    case Rejected(e) => Failure(e)
  }

  /**
   * `register(email, password)`: posts the credentials and hands back the axios result.
   * It is not a member of TokenStore and reads nothing, so it cannot see or change the slot.
   */
  function Register<T>(email: string, password: string, outcome: AxiosOutcome<T>): (r: (Credentials, Result<T, RequestError>))
    ensures r.0.email == email && r.0.password == password
    ensures r.1.Success? <==> outcome.Resolved?
    ensures r.1 == Settle(outcome)
  {
    (Credentials(email, password), Settle(outcome))
  }

  class TokenStore {
    /** `localStorage.getItem("token")`: None when the entry is absent. */
    var token: Option<string>

    /** Storage outlives the page, so a fresh page may start with a token already present. */
    constructor (stored: Option<string>)
      ensures token == stored
    {
      token := stored;
    }

    /**
     * `login(email, password)`: posts the credentials; on a resolved call stores a truthy
     * `token` and returns the body unchanged; on a rejected call storage is untouched.
     */
    method Login(email: string, password: string, outcome: AxiosOutcome<LoginBody>)
      returns (sent: Credentials, r: Result<LoginBody, RequestError>)
      modifies this
      ensures sent == Credentials(email, password)
      ensures r == Settle(outcome)
      ensures outcome.Resolved? && HasToken(outcome.data) ==> token == outcome.data.token
      ensures !(outcome.Resolved? && HasToken(outcome.data)) ==> token == old(token)
    {
      sent := Credentials(email, password);
      match outcome {
        case Resolved(body) =>
          if HasToken(body) {
            token := body.token;
          }
          r := Success(body);
        case Rejected(e) =>
          r := Failure(e);
      }
    }

    /**
     * `getTrafficStats(website)`: reads the slot without checking it and sends it as the
     * `Authorization` header, absent or not; storage is not modified.
     */
    method GetTrafficStats<T>(website: string, outcome: AxiosOutcome<T>)
      returns (request: StatsRequest, r: Result<T, RequestError>)
      ensures request.website == website
      ensures request.authorization == token
      ensures r.Success? <==> outcome.Resolved?
      ensures outcome.Resolved? ==> r.value == outcome.data
      ensures outcome.Rejected? ==> r.error == outcome.error
    {
      var stored := token;
      request := StatsRequest(website, stored);
      r := Settle(outcome);
    }

    /** `logout()`: removes the slot. */
    method Logout()
      modifies this
      ensures token == None
    {
      token := None;
    }
  }

  /** Logging out twice leaves the same storage as logging out once. */
  method LogoutTwice(store: TokenStore)
    modifies store
    ensures store.token == None
  {
    store.Logout();
    ghost var once := store.token;
    store.Logout();
    assert store.token == once;
  }

  /** After a logout, the next traffic-stats request carries no Authorization value. */
  method StatsAfterLogout<T>(store: TokenStore, website: string, outcome: AxiosOutcome<T>)
    returns (request: StatsRequest)
    modifies store
    ensures request.authorization == None && store.token == None
  {
    store.Logout();
    var settled;
    request, settled := store.GetTrafficStats(website, outcome);
  }
}
