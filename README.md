# Request builder and error mapping of a reactive REST client wrapper

This project models the part of the REST client wrapper that has logic of its own:

- `RequestBuilder`, the per-call request description. It holds a fixed HTTP verb and URL, a header map, a local table from status code to exception factory, an optional body, a timeout (10 seconds by default) and a retry count (0 by default). Each fluent mutator changes one field in place and returns the same builder. `prepareRequest` turns that state into the request handed to the HTTP client. `mapException` and `mapExceptionFlux` turn a failed response into the exception the caller sees.
- `ErrorMapper`, a standalone status-code to factory table. `map` registers a factory. `mapException` looks up the code and falls back to a default `RestClientException`.

Layout:

- `primitives.dfy` (`Primitives`): Java's nullable references (`Option`), the 32-bit `int` (`Int32`) and `java.time.Duration`.
- `reactive.dfy` (`Reactive`): how a finished `Mono` or `Flux` ended, as a value.
- `errors.dfy` (`Errors`): the failed response (`WebClientResponseException`, reduced to its raw status code and body text), the exceptions that flow through the library, and `Resolve`. `Resolve` is the lookup-or-default rule that both classes use. The source writes it out three times.
- `error_mapper.dfy` (`ErrorMapping`): the `ErrorMapper` class.
- `request_builder.dfy` (`Builder`): the `RequestBuilder` class, the error routing of its reactive pipelines, and the test scenarios.

The classes keep the source's form. Their fields are updated in place by methods whose `modifies` clauses name only the field the source assigns. Their lookups are functions that read the object. `prepareRequest` copies the headers one at a time with `forEach`. It is a loop that picks the next name arbitrarily from the names that remain, because a `HashMap` iterates in no specified order.

Three points where the code does less than a reader might expect. The model follows the code on each:

- The default error's message holds only `"Unexpected error: "` and the body text. The status code is kept only through the cause, the original failure.
- Nothing connects `ErrorMapper` to `RequestBuilder`. A builder resolves failures through its own table and the default only. No shared table takes part.
- The `Flux` pipeline routes failures through `mapException`, not `mapExceptionFlux`, so `mapExceptionFlux` is never called. `FluxPipelineAgreesWithMapExceptionFlux` shows that the outcome is the same either way.

## Model

| member | source | states |
|---|---|---|
| Primitives.OfSeconds | src/main/java/com/sagarv/webclient/RequestBuilder.java:27 | `Duration.ofSeconds(s)` is exactly `s` whole seconds and no fraction |
| Errors.DefaultError | src/main/java/com/sagarv/webclient/ErrorMapper.java:18 | the fallback is a `RestClientException` whose message is `"Unexpected error: "` followed by the body text, and whose cause is the original failure, so the status code is kept |
| Errors.Resolve | src/main/java/com/sagarv/webclient/ErrorMapper.java:17-19 | a registered code resolves to its factory applied to the failure, and an unregistered code resolves to the default error |
| Errors.EmptyTableResolvesToDefault | src/main/java/com/sagarv/webclient/ErrorMapper.java:10-18 | with nothing registered, every status code resolves to the default error |
| Errors.RegisteringOtherCodeKeepsResolution | src/main/java/com/sagarv/webclient/ErrorMapper.java:12-18 | registering code `c1` never changes how a different code `c2` resolves |
| Errors.RegisteringCodeOverrides | src/main/java/com/sagarv/webclient/ErrorMapper.java:12-18 | after registering `f` for a code, that code resolves to `f` applied to the failure, whatever was registered before |
| ErrorMapping.ErrorMapper.constructor | src/main/java/com/sagarv/webclient/ErrorMapper.java:10 | a new table has no registrations |
| ErrorMapping.ErrorMapper.Map | src/main/java/com/sagarv/webclient/ErrorMapper.java:12-15 | stores `f` under the code and overwrites any earlier entry. It returns the same table. Afterwards that code resolves through `f` and every other code resolves as before |
| ErrorMapping.ErrorMapper.MapException | src/main/java/com/sagarv/webclient/ErrorMapper.java:17-19 | a total lookup: the registered factory's exception, or else a `RestClientException` with message `"Unexpected error: " + body` and the failure as its cause |
| ErrorMapping.FreshMapperResolvesToDefault | src/main/java/com/sagarv/webclient/ErrorMapper.java:10-18 | a freshly built table resolves any failure to the default error |
| ErrorMapping.ChainedRegistrations | src/main/java/com/sagarv/webclient/ErrorMapper.java:12-18 | in a chain `map(c, f1).map(c, f2).map(c + 1, g)`, code `c` resolves through `f2` |
| Builder.RequestBuilder.constructor | src/main/java/com/sagarv/webclient/RequestBuilder.java:22-34 | a new builder has the given verb and URL and no headers, mappings or body. Its timeout is 10 seconds and its retry count is 0. Verb and URL are constants |
| Builder.RequestBuilder.Header | src/main/java/com/sagarv/webclient/RequestBuilder.java:36-39 | sets `headers[name] := value` and overwrites any earlier value. Every other field is unchanged, and the same builder is returned |
| Builder.RequestBuilder.Headers | src/main/java/com/sagarv/webclient/RequestBuilder.java:41-44 | the new headers are the old ones overridden by `m`: names in `m` take `m`'s values, and other names keep their old values. No other field changes |
| Builder.RequestBuilder.Body | src/main/java/com/sagarv/webclient/RequestBuilder.java:46-49 | replaces only the body, so the last call wins. A null argument clears it |
| Builder.RequestBuilder.Timeout | src/main/java/com/sagarv/webclient/RequestBuilder.java:51-54 | replaces only the timeout |
| Builder.RequestBuilder.Retry | src/main/java/com/sagarv/webclient/RequestBuilder.java:56-59 | replaces only the retry count |
| Builder.RequestBuilder.Authenticate | src/main/java/com/sagarv/webclient/RequestBuilder.java:61-64 | sets `headers["Authorization"] := "Bearer " + token` and changes nothing else |
| Builder.RequestBuilder.ExceptionMapping | src/main/java/com/sagarv/webclient/RequestBuilder.java:66-69 | sets the local mapping for the code and overwrites an earlier one. That code then resolves through `f`, and every other code resolves as before |
| Builder.RequestBuilder.PrepareRequest | src/main/java/com/sagarv/webclient/RequestBuilder.java:71-78 | the outgoing request has the builder's verb, URL and exactly its headers. It carries a body if and only if the builder's body is non-null, and then that body |
| Builder.RequestBuilder.MapException | src/main/java/com/sagarv/webclient/RequestBuilder.java:111-118 | fails with the local factory's exception when one is registered for the status code, and with the default `RestClientException` otherwise |
| Builder.RequestBuilder.MapExceptionFlux | src/main/java/com/sagarv/webclient/RequestBuilder.java:120-127 | a `Flux` that emits nothing and fails with the same exception as `mapException` |
| Builder.RequestBuilder.ResumeOnError | src/main/java/com/sagarv/webclient/RequestBuilder.java:92-100 | in the `Mono` pipeline, only a `WebClientResponseException` goes to `mapException`. Every other outcome, a value or another error, passes unchanged |
| Builder.RequestBuilder.ResumeFluxOnError | src/main/java/com/sagarv/webclient/RequestBuilder.java:102-109 | in the `Flux` pipeline, emitted elements stay. Only a terminal response failure is replaced by `mapException`'s error |
| Builder.FluxResolvesAsMono | src/main/java/com/sagarv/webclient/RequestBuilder.java:111-127 | `mapExceptionFlux` resolves every failure exactly as `mapException` does |
| Builder.FluxPipelineAgreesWithMapExceptionFlux | src/main/java/com/sagarv/webclient/RequestBuilder.java:102-127 | the `Flux` pipeline ends with the same error that `mapExceptionFlux` describes |
| Builder.AuthenticateTwice | src/main/java/com/sagarv/webclient/RequestBuilder.java:61-64 | authenticating twice leaves only the latest bearer token, and no other field changes |
| Builder.FreshBuilderResolvesToDefault | src/main/java/com/sagarv/webclient/RequestBuilder.java:111-118 | a builder without mappings resolves every failure to the default error |
| Builder.NotFoundWithCustomMapping | src/test/java/com/sagarv/webclient/RequestBuilderGetIntegrationTest.java:61-78 | a 404 with a registered 404 mapping yields the caller's `ResourceNotFoundException("Resource not found")`, whose cause is the failure |
| Builder.ServerErrorWithoutMapping | src/test/java/com/sagarv/webclient/RequestBuilderGetIntegrationTest.java:81-97 | a 500 with body `Internal Server Error` and no mapping yields a `RestClientException` with message `Unexpected error: Internal Server Error` |
| Builder.TimeoutIsNotMapped | src/main/java/com/sagarv/webclient/RequestBuilder.java:99 | an error that is not a response failure, such as a timeout, is not mapped, even when a mapping exists |

## Left out

- The HTTP transport (`WebClient`): issuing the request, decoding the body (JSON, text, bytes, lists, newline-framed streams) and deciding which failures arrive as `WebClientResponseException`s are library behaviour. `prepareRequest` is modelled as building a request value, and executing it is not modelled. One example is the transport reporting an undecodable 200 body as a response failure.
- `executeRequest`'s `.timeout` and `.retry` operators and their timing, and the `doOnSubscribe`/`doOnSuccess`/`doOnError` logging: these are Reactor scheduling and I/O. Only the `onErrorResume` routing is modelled. The `timeout` and `retryCount` fields are stored and never interpreted.
- `executeReactive` and `executeReactiveAsFlux` (lines 80-90) are modelled only through that error routing, because their success path is transport decoding.
- Null arguments, except a null body (`Option`): the model does not cover a null factory, a null header name or value, a null map, a null timeout or a null token. Two examples are `authenticate(null)` writing `Bearer null`, and `ErrorMapper.mapException` throwing `NullPointerException` for a code registered with a null factory where `RequestBuilder` would fall back to the default. Dafny's functions and strings cannot be null.
- Factories that throw or return null: Dafny functions are total and always return an exception value.
- The circuit breaker (`AbstractRequestExecutor`), the executor implementations, the facade, the empty `api` interfaces and the Jackson configuration: these only delegate to libraries.
- Local-before-shared two-level precedence: the code never consults `ErrorMapper` from `RequestBuilder`, so the model does not either.
