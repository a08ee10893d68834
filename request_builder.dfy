/**
 * The per-call request description (`RequestBuilder`): fluent mutators over its
 * fields, the outgoing request it prepares, and how it resolves failed responses
 * through its own status-code table.
 */
module Builder {
  import opened Primitives
  import opened Errors
  import opened Reactive

  /** Spring's `HttpMethod`. */
  datatype HttpMethod = GET | HEAD | POST | PUT | PATCH | DELETE | OPTIONS | TRACE

  /** What `prepareRequest` hands to the HTTP client: verb, address, headers and an optional body. */
  datatype Request<B> = Request(httpMethod: HttpMethod, uri: string, headers: map<string, string>, body: Option<B>)

  const AuthorizationHeader: string := "Authorization"
  const BearerPrefix: string := "Bearer "
  /** `Duration.ofSeconds(10)`, the timeout of a new builder. */
  const DefaultTimeout: Duration := OfSeconds(10)

  /** A request description whose body has type `B`; the HTTP client itself is not part of the model. */
  class RequestBuilder<B> {
    const httpMethod: HttpMethod
    const url: string
    var headers: map<string, string>
    var exceptionMappings: map<Int32, Factory>
    var body: Option<B>
    var timeout: Duration
    var retryCount: Int32

    /** A new builder: the given verb and address, no headers, no mappings, no body, 10 s, no retry. */
    constructor (httpMethod: HttpMethod, url: string)
      ensures this.httpMethod == httpMethod && this.url == url
      ensures headers == map[] && exceptionMappings == map[] && body == None
      ensures timeout == DefaultTimeout && timeout.nanos == 10 * NanosPerSecond
      ensures retryCount == 0
    {
      this.httpMethod := httpMethod;
      this.url := url;
      headers := map[];
      exceptionMappings := map[];
      body := None;
      timeout := DefaultTimeout;
      retryCount := 0;
    }

    /** `header(name, value)`: sets one header, replacing an earlier value for that name. */
    method Header(name: string, value: string) returns (self: RequestBuilder<B>)
      modifies this`headers
      ensures self == this
      ensures headers == old(headers)[name := value]
    {
      headers := headers[name := value];
      self := this;
    }

    /** `headers(m)`: merges `m` into the headers; on a shared name the value from `m` wins. */
    method Headers(m: map<string, string>) returns (self: RequestBuilder<B>)
      modifies this`headers
      ensures self == this
      ensures headers.Keys == old(headers).Keys + m.Keys
      ensures forall name :: name in m ==> headers[name] == m[name]
      ensures forall name :: name in old(headers) && name !in m ==> headers[name] == old(headers)[name]
    {
      headers := headers + m;
      self := this;
    }

    /** `body(b)`: replaces the body; `None` stands for a null argument, which clears it. */
    method Body(b: Option<B>) returns (self: RequestBuilder<B>)
      modifies this`body
      ensures self == this
      ensures body == b
    {
      body := b;
      self := this;
    }

    /** `timeout(d)`: replaces the timeout. */
    method Timeout(d: Duration) returns (self: RequestBuilder<B>)
      modifies this`timeout
      ensures self == this
      ensures timeout == d
    {
      timeout := d;
      self := this;
    }

    /** `retry(count)`: replaces the retry count. */
    method Retry(count: Int32) returns (self: RequestBuilder<B>)
      modifies this`retryCount
      ensures self == this
      ensures retryCount == count
    {
      retryCount := count;
      self := this;
    }

    /** `authenticate(token)`: writes `Authorization: Bearer <token>`, replacing any earlier value. */
    method Authenticate(token: string) returns (self: RequestBuilder<B>)
      modifies this`headers
      ensures self == this
      ensures headers == old(headers)[AuthorizationHeader := BearerPrefix + token]
    {
      headers := headers[AuthorizationHeader := BearerPrefix + token];
      self := this;
    }

    /** `exceptionMapping(code, f)`: registers `f` for `code`, replacing an earlier one. */
    method ExceptionMapping(statusCode: Int32, f: Factory) returns (self: RequestBuilder<B>)
      modifies this`exceptionMappings
      ensures self == this
      ensures exceptionMappings == old(exceptionMappings)[statusCode := f]
      ensures forall e: ResponseException :: e.rawStatusCode == statusCode ==> MapException<B>(e) == MonoError(f(e))
      ensures forall e: ResponseException :: e.rawStatusCode != statusCode ==> MapException<B>(e) == old(MapException<B>(e))
    {
      exceptionMappings := exceptionMappings[statusCode := f];
      self := this;
    }

    /**
     * `prepareRequest()`: the outgoing request has this builder's verb and address,
     * exactly its headers (copied one at a time, in the map's unspecified iteration
     * order), and a body exactly when one is set.
     */
    method PrepareRequest() returns (r: Request<B>)
      ensures r.httpMethod == httpMethod && r.uri == url
      ensures r.headers == headers
      ensures r.body.Some? <==> body.Some?
      ensures body.Some? ==> r.body.value == body.value
    {
      var sent: map<string, string> := map[];
      var remaining := headers.Keys;
      while remaining != {}
        invariant remaining <= headers.Keys
        invariant sent.Keys == headers.Keys - remaining
        invariant forall name :: name in sent ==> sent[name] == headers[name]
        decreases remaining
      {
        var name :| name in remaining;
        sent := sent[name := headers[name]];
        remaining := remaining - {name};
      }
      r := Request(httpMethod, url, sent, None);
      if body.Some? {
        r := r.(body := body);
      }
    }

    /**
     * `mapException(e)`: a `Mono` that fails with the exception the local table
     * gives for the status code, or with the default `RestClientException`.
     */
    function MapException<T>(e: ResponseException): (r: Mono<T>)
      reads this
      ensures r.MonoError?
      ensures e.rawStatusCode in exceptionMappings ==> r.error == exceptionMappings[e.rawStatusCode](e)
      ensures e.rawStatusCode !in exceptionMappings ==> r.error == DefaultError(e)
    {
      MonoError(Resolve(exceptionMappings, e))
    }

    /** `mapExceptionFlux(e)`: a `Flux` that emits nothing and fails the same way. */
    function MapExceptionFlux<T>(e: ResponseException): (r: Flux<T>)
      reads this
      ensures r.items == [] && r.completion.Failed?
      ensures e.rawStatusCode in exceptionMappings ==> r.completion.error == exceptionMappings[e.rawStatusCode](e)
      ensures e.rawStatusCode !in exceptionMappings ==> r.completion.error == DefaultError(e)
    {
      Flux([], Failed(Resolve(exceptionMappings, e)))
    }

    /**
     * The error routing of the `Mono` pipeline, `onErrorResume(WebClientResponseException.class,
     * this::mapException)`: only response failures are mapped; any other outcome is kept.
     */
    function ResumeOnError<R>(outcome: Mono<R>): (r: Mono<R>)
      reads this
      ensures outcome.MonoError? && outcome.error.WebClientResponse? ==> r == MapException<R>(outcome.error.failure)
      ensures !(outcome.MonoError? && outcome.error.WebClientResponse?) ==> r == outcome
    {
      match outcome
      case MonoError(WebClientResponse(failure)) => MapException(failure)
      case _ => outcome
    }

    /**
     * The error routing of the `Flux` pipeline: elements already emitted stay, and a
     * terminal response failure is replaced by the error `mapException` gives.
     */
    function ResumeFluxOnError<R>(outcome: Flux<R>): (r: Flux<R>)
      reads this
      ensures r.items == outcome.items
      ensures outcome.completion.Failed? && outcome.completion.error.WebClientResponse? ==>
                r.completion == Failed(MapException<R>(outcome.completion.error.failure).error)
      ensures !(outcome.completion.Failed? && outcome.completion.error.WebClientResponse?) ==> r == outcome
    {
      match outcome.completion
      case Failed(WebClientResponse(failure)) => Flux(outcome.items, Failed(MapException<R>(failure).error))
      case _ => outcome
    }
  }

  /** `mapExceptionFlux` resolves every failure exactly as `mapException` does. */
  lemma FluxResolvesAsMono<B, T>(b: RequestBuilder<B>, e: ResponseException)
    ensures b.MapExceptionFlux<T>(e) == Flux([], Failed(b.MapException<T>(e).error))
  {
  }

  /** A builder's `Flux` pipeline ends with the same error its `mapExceptionFlux` describes. */
  lemma FluxPipelineAgreesWithMapExceptionFlux<B, R>(b: RequestBuilder<B>, items: seq<R>, e: ResponseException)
    ensures b.ResumeFluxOnError(Flux(items, Failed(WebClientResponse(e)))).completion
         == b.MapExceptionFlux<R>(e).completion
  {
  }

  /** Authenticating twice leaves only the latest token in the `Authorization` header. */
  method AuthenticateTwice<B>(b: RequestBuilder<B>, first: string, second: string)
    modifies b
    ensures b.headers == old(b.headers)[AuthorizationHeader := BearerPrefix + second]
    ensures b.exceptionMappings == old(b.exceptionMappings) && b.body == old(b.body)
    ensures b.timeout == old(b.timeout) && b.retryCount == old(b.retryCount)
  {
    var self := b.Authenticate(first);
    self := self.Authenticate(second);
  }

  /** A fresh builder resolves every failure to the default `RestClientException`. */
  method FreshBuilderResolvesToDefault(httpMethod: HttpMethod, url: string, e: ResponseException)
    returns (r: Throwable)
    ensures r == DefaultError(e)
  {
    var b := new RequestBuilder<string>(httpMethod, url);
    r := b.MapException<string>(e).error;
  }

  /** The application's own exception for a missing resource, as a caller registers it for 404. */
  function ResourceNotFound(e: ResponseException): Throwable
  {
    Raised("ResourceNotFoundException", "Resource not found", Some(WebClientResponse(e)))
  }

  /** A 404 on a builder with an `Accept` header and a 404 mapping yields the mapped exception. */
  method NotFoundWithCustomMapping() returns (r: Throwable)
    ensures r.Raised? && r.className == "ResourceNotFoundException" && r.message == "Resource not found"
    ensures r.cause == Some(WebClientResponse(ResponseException(404, "Not Found")))
  {
    var b := new RequestBuilder<string>(GET, "/test");
    var self := b.Headers(map["Accept" := "application/json"]);
    self := self.ExceptionMapping(404, ResourceNotFound);
    r := self.ResumeOnError<string>(MonoError(WebClientResponse(ResponseException(404, "Not Found")))).error;
  }

  /** A 500 on a builder without mappings yields the default message carrying the body. */
  method ServerErrorWithoutMapping() returns (r: Throwable)
    ensures r.RestClientException? && r.message == "Unexpected error: Internal Server Error"
  {
    var b := new RequestBuilder<string>(GET, "/test");
    var self := b.Headers(map["Accept" := "application/json"]);
    r := self.ResumeOnError<string>(MonoError(WebClientResponse(ResponseException(500, "Internal Server Error")))).error;
  }

  /** A failure that is not a response failure, such as a timeout, passes through unmapped. */
  method TimeoutIsNotMapped(t: Throwable) returns (r: Mono<string>)
    requires !t.WebClientResponse?
    ensures r == MonoError(t)
  {
    var b := new RequestBuilder<string>(GET, "/test");
    var self := b.ExceptionMapping(500, ResourceNotFound);
    r := self.ResumeOnError<string>(MonoError(t));
  }
}
