/**
 * Failed responses, the runtime exceptions the library raises, and the rule that
 * turns a failed response into an exception through a status-code table.
 */
module Errors {
  import opened Primitives

  /**
   * A `WebClientResponseException`: the response arrived but reported failure.
   * The library only ever looks at its raw status code and its body as text.
   */
  datatype ResponseException = ResponseException(rawStatusCode: Int32, responseBody: string)

  /** The runtime exceptions that flow through the library. */
  datatype Throwable =
    | WebClientResponse(failure: ResponseException)
      /** `RestClientException(message, cause)`, or `RestClientException(message)` with no cause. */
    | RestClientException(message: string, cause: Option<Throwable>)
      /** Any other exception, named by its class, such as the one a caller's factory builds
          or a timeout raised by the reactive pipeline. */
    | Raised(className: string, message: string, cause: Option<Throwable>)

  /** A caller-supplied `Function<WebClientResponseException, RuntimeException>`. */
  type Factory = ResponseException -> Throwable

  const UnexpectedError: string := "Unexpected error: "

  /**
   * The fallback used when no factory is registered for the status code: a
   * `RestClientException` whose message is the fixed prefix followed by the response
   * body, and whose cause is the failure itself (so its status code is kept).
   */
  function DefaultError(e: ResponseException): (r: Throwable)
    ensures r.RestClientException?
    ensures UnexpectedError <= r.message && r.message[|UnexpectedError|..] == e.responseBody
    ensures r.cause == Some(WebClientResponse(e)) && r.cause.value.failure.rawStatusCode == e.rawStatusCode
  {
    RestClientException(UnexpectedError + e.responseBody, Some(WebClientResponse(e)))
  }

  /**
   * Resolution of a failed response against a status-code table: the registered
   * factory applied to the failure, or the default error when the code is absent.
   */
  function Resolve(mappings: map<Int32, Factory>, e: ResponseException): (r: Throwable)
    ensures e.rawStatusCode in mappings ==> r == mappings[e.rawStatusCode](e)
    ensures e.rawStatusCode !in mappings ==> r == DefaultError(e)
  {
    if e.rawStatusCode in mappings then mappings[e.rawStatusCode](e) else DefaultError(e)
  }

  /** With nothing registered, every status code resolves to the default error. */
  lemma EmptyTableResolvesToDefault(e: ResponseException)
    ensures Resolve(map[], e) == DefaultError(e)
  {
  }

  /** Registering a factory for one code never changes how a different code resolves. */
  lemma RegisteringOtherCodeKeepsResolution(mappings: map<Int32, Factory>, code: Int32, f: Factory, e: ResponseException)
    requires e.rawStatusCode != code
    ensures Resolve(mappings[code := f], e) == Resolve(mappings, e)
  {
  }

  /** The latest registration for a code decides its resolution, whatever was there before. */
  lemma RegisteringCodeOverrides(mappings: map<Int32, Factory>, code: Int32, f: Factory, e: ResponseException)
    requires e.rawStatusCode == code
    ensures Resolve(mappings[code := f], e) == f(e)
  {
  }
}
