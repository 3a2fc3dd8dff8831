/**
 * Abstract outcomes of the HTTP calls made by the dashboard and the auth forms.
 * The transport itself (URLs, headers, axios, fetch) is not modelled: each call is
 * replaced by a parameter that says how it ended.
 */
module Http {
  import opened Wrappers

  /** `error.response.data` of a rejected axios call: the body the server sent. */
  datatype ErrorBody = ErrorBody(message: Option<string>)

  /** `error.response` of a rejected axios call; absent when no response arrived. */
  datatype ErrorResponse = ErrorResponse(data: Option<ErrorBody>)

  /**
   * The value a rejected call throws: `error.response` (if the server answered),
   * `error.message` and what `error.toString()` returns.
   */
  datatype RequestError = RequestError(response: Option<ErrorResponse>, message: string, text: string)

  /** How an axios call ends: resolved with `response.data`, or rejected (network error or non-2xx). */
  datatype AxiosOutcome<+T> = Resolved(data: T) | Rejected(error: RequestError)

  /**
   * How a `fetch` call followed by `response.json()` ends: the request itself throws,
   * or a response arrives with its `ok` flag and the parsed body (None when
   * `response.json()` throws).
   */
  datatype FetchOutcome<+T> = NetworkFailure | Response(ok: bool, json: Option<T>)

  /** The fetch handler reaches `setTrafficData` only for an ok response whose body parses. */
  predicate FetchSucceeded<T>(outcome: FetchOutcome<T>)
  {
    outcome.Response? && outcome.ok && outcome.json.Some?
  }
}
