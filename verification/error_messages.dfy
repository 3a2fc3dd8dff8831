/**
 * The text both auth forms show when a request is rejected:
 * the server's message, else `error.message`, else `error.toString()`.
 */
module ErrorMessages {
  import opened Wrappers
  import opened Http

  /** A string is truthy in JavaScript exactly when it is not empty. */
  predicate Truthy(s: string)
  {
    s != ""
  }

  /**
   * `error.response && error.response.data && error.response.data.message`
   * (equally `error.response?.data?.message`): the server's message, if every link is present.
   */
  function ServerMessage(e: RequestError): (m: Option<string>)
    ensures m.Some? <==> e.response.Some? && e.response.value.data.Some? && e.response.value.data.value.message.Some?
    ensures m.Some? ==> m.value == e.response.value.data.value.message.value
  {
    match e.response
    case None => None
    case Some(r) =>
      match r.data
      case None => None
      case Some(d) => d.message
  }

  /** JavaScript's `a || b` where `a` is an optional string: `a` when it is a non-empty string, else `b`. */
  function OrElse(a: Option<string>, b: string): string
  {
    if a.Some? && Truthy(a.value) then a.value else b
  }

  /** The `resMessage` expression of both auth forms. */
  function ResMessage(e: RequestError): (m: string)
    // the server's message wins whenever it is non-empty
    ensures ServerMessage(e).Some? && Truthy(ServerMessage(e).value) ==> m == ServerMessage(e).value
    // otherwise a non-empty error.message wins
    ensures !(ServerMessage(e).Some? && Truthy(ServerMessage(e).value)) && Truthy(e.message) ==> m == e.message
    // otherwise the error's string form is shown, whatever it is
    ensures !(ServerMessage(e).Some? && Truthy(ServerMessage(e).value)) && !Truthy(e.message) ==> m == e.text
  {
    OrElse(ServerMessage(e), OrElse(Some(e.message), e.text))
  }

  /** The message is empty only when all three sources are empty or absent. */
  lemma ResMessageEmpty(e: RequestError)
    ensures ResMessage(e) == "" <==>
      (ServerMessage(e).None? || ServerMessage(e).value == "") && e.message == "" && e.text == ""
  {
  }
}
