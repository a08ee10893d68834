/** The standalone status-code to exception table (`ErrorMapper`). */
module ErrorMapping {
  import opened Primitives
  import opened Errors

  class ErrorMapper {
    /** The registered factories, keyed by raw status code (a `HashMap` in place). */
    var exceptionMappings: map<Int32, Factory>

    /** A new table has no registrations. */
    constructor ()
      ensures exceptionMappings == map[]
    {
      exceptionMappings := map[];
    }

    /**
     * `map(statusCode, f)`: stores `f` under `statusCode`, replacing any earlier
     * registration for that code, and returns the same table for chaining.
     */
    method Map(statusCode: Int32, f: Factory) returns (self: ErrorMapper)
      modifies this
      ensures self == this
      ensures exceptionMappings == old(exceptionMappings)[statusCode := f]
      ensures forall e: ResponseException :: e.rawStatusCode == statusCode ==> MapException(e) == f(e)
      ensures forall e: ResponseException :: e.rawStatusCode != statusCode ==> MapException(e) == old(MapException(e))
    {
      exceptionMappings := exceptionMappings[statusCode := f];
      self := this;
    }

    /**
     * `mapException(e)`: a lookup that never fails. A registered code yields its
     * factory's exception; any other code yields a `RestClientException` carrying
     * the body text and, as its cause, the failure.
     */
    function MapException(e: ResponseException): (r: Throwable)
      reads this
      ensures e.rawStatusCode in exceptionMappings ==> r == exceptionMappings[e.rawStatusCode](e)
      ensures e.rawStatusCode !in exceptionMappings ==>
                && r.RestClientException?
                && r.message == UnexpectedError + e.responseBody
                && r.cause == Some(WebClientResponse(e))
    {
      Resolve(exceptionMappings, e)
    }
  }

  /** A fresh table resolves every failure to the default error. */
  method FreshMapperResolvesToDefault(e: ResponseException) returns (r: Throwable)
    ensures r == DefaultError(e)
  {
    var mapper := new ErrorMapper();
    r := mapper.MapException(e);
  }

  /**
   * Chained registrations: the later of two registrations for one code wins, and
   * a registration for another code leaves it alone.
   */
  method ChainedRegistrations(e: ResponseException, first: Factory, second: Factory, other: Factory)
    returns (r: Throwable)
    requires e.rawStatusCode < 0x7fff_ffff
    ensures r == second(e)
  {
    var mapper := new ErrorMapper();
    var m := mapper.Map(e.rawStatusCode, first);
    m := m.Map(e.rawStatusCode, second);
    m := m.Map(e.rawStatusCode + 1, other);
    r := m.MapException(e);
  }
}
