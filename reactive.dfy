/**
 * The finished outcome of a Reactor publisher, as a value. A `Mono` ends with
 * at most one element or an error; a `Flux` emits a sequence of elements and then
 * either completes or fails.
 */
module Reactive {
  import opened Errors

  datatype Mono<T> = Just(value: T) | Empty | MonoError(error: Throwable)

  datatype Completion = Complete | Failed(error: Throwable)

  datatype Flux<T> = Flux(items: seq<T>, completion: Completion)
}
