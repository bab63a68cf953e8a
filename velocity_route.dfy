/** The cached metrics endpoint of app/api/velocity/route.ts (`GET /api/velocity`). The
    module-level cache cell becomes the two fields of one endpoint object; the clock reading and the
    outcome of the warehouse query are inputs of each request. */
module VelocityRoute {
  import opened Wrappers
  import opened JsMath
  import opened BigQuery

  /** How long a cached value is served without asking the warehouse again. */
  const CacheDurationSeconds: int := 60

  const DefaultError: string := "Failed to fetch velocity metrics"

  /** The body (and status) the endpoint answers with. */
  datatype Response =
    | RawRecords(records: seq<VelocityRecord>, count: nat)        // raw=true
    | Fresh(data: VelocityMetrics)                               // cached: false
    | FromCache(data: VelocityMetrics, cacheAge: int)            // cached: true
    | Stale(data: VelocityMetrics, cacheAge: int, error: string) // cached: true, stale: true
    | ServerError(error: string)                                 // status 500, success: false
  {
    predicate Succeeded() {
      !ServerError?
    }

    function Status(): int {
      if ServerError? then 500 else 200
    }
  }

  /** `error.message || "Failed to fetch velocity metrics"` */
  function ErrorText(message: string): string {
    if message != "" then message else DefaultError
  }

  class VelocityEndpoint {
    var cachedMetrics: Option<VelocityMetrics>
    var cacheTimestamp: int

    /** The cell as the process starts: empty, stamped at the epoch. */
    constructor ()
      ensures cachedMetrics == None && cacheTimestamp == 0
    {
      cachedMetrics := None;
      cacheTimestamp := 0;
    }

    /** `isCacheValid`: a value is cached and it is less than 60 seconds old at `now` (ms). */
    predicate IsCacheValid(now: int)
      reads this
      ensures IsCacheValid(now) <==> cachedMetrics.Some? && now - cacheTimestamp < CacheDurationSeconds * 1000
    {
      cachedMetrics.Some? && ((now - cacheTimestamp) as real) / 1000.0 < CacheDurationSeconds as real
    }

    /** `Math.round((now - cacheTimestamp) / 1000)`: the cache's age in whole seconds. */
    function CacheAge(now: int): (age: int)
      reads this
      ensures 1000 * age - 500 <= now - cacheTimestamp < 1000 * age + 500
    {
      Round(((now - cacheTimestamp) as real) / 1000.0)
    }

    /** The `catch` block: any failure is answered from the cache, however old, when one exists. */
    function Recover(message: string, now: int): Response
      reads this
    {
      if cachedMetrics.Some? then Stale(cachedMetrics.value, CacheAge(now), message)
      else ServerError(ErrorText(message))
    }

    /** One `GET` request. `refresh` and `raw` are the two query flags, `now` the clock in ms, and
        `query` the outcome of the warehouse query the request issues if its path needs one. */
    method Get(refresh: bool, raw: bool, now: int, query: Result<seq<Row>, string>) returns (response: Response)
      modifies this
      // raw passthrough: the mapped rows and their count; the cache is not touched
      ensures raw && query.Success? ==>
                response == RawRecords(MapRows(query.value), |query.value|)
                && cachedMetrics == old(cachedMetrics) && cacheTimestamp == old(cacheTimestamp)
      // a fresh cache hit, unless a refresh is forced
      ensures !raw && !refresh && old(IsCacheValid(now)) ==>
                response == FromCache(old(cachedMetrics).value, old(CacheAge(now)))
                && cachedMetrics == old(cachedMetrics) && cacheTimestamp == old(cacheTimestamp)
      // otherwise a fresh aggregation, which overwrites the cache when it succeeds
      ensures !raw && (refresh || !old(IsCacheValid(now))) && query.Success? ==>
                response == Fresh(MetricsOf(MapRows(query.value)))
                && cachedMetrics == Some(MetricsOf(MapRows(query.value))) && cacheTimestamp == now
      // any failure (raw path included) falls back to the cache, whatever its age, or to a 500
      ensures (raw || refresh || !old(IsCacheValid(now))) && query.Failure? ==>
                cachedMetrics == old(cachedMetrics) && cacheTimestamp == old(cacheTimestamp)
                && (old(cachedMetrics).Some? ==>
                      response == Stale(old(cachedMetrics).value, old(CacheAge(now)), query.error) && response.Succeeded())
                && (old(cachedMetrics).None? ==>
                      response == ServerError(ErrorText(query.error)) && response.Status() == 500)
      // only a successful aggregation writes the cell, and a filled cell stays filled
      ensures (cachedMetrics != old(cachedMetrics) || cacheTimestamp != old(cacheTimestamp)) ==> response.Fresh?
      ensures old(cachedMetrics).Some? ==> cachedMetrics.Some?
    {
      if raw {
        var records := QueryVelocityData(query);
        if records.Failure? {
          return Recover(records.error, now);
        }
        return RawRecords(records.value, |records.value|);
      }
      if !refresh && IsCacheValid(now) && cachedMetrics.Some? {
        return FromCache(cachedMetrics.value, CacheAge(now));
      }
      var metrics := GetVelocityMetrics(query);
      if metrics.Failure? {
        return Recover(metrics.error, now);
      }
      cachedMetrics := Some(metrics.value);
      cacheTimestamp := now;
      return Fresh(metrics.value);
    }
  }

  // ---------------------------------------------------------------------------
  // Request sequences against a freshly started endpoint
  // ---------------------------------------------------------------------------

  /** A request fills the cache; one 30 s later is served from it, aged 30; one 61 s later
      goes back to the warehouse. */
  method FreshnessWindow(rows: seq<Row>, start: int) returns (first: Response, second: Response, third: Response)
    ensures first == Fresh(MetricsOf(MapRows(rows)))
    ensures second == FromCache(MetricsOf(MapRows(rows)), 30)
    ensures third == Fresh(MetricsOf(MapRows(rows)))
  {
    var endpoint := new VelocityEndpoint();
    first := endpoint.Get(false, false, start, Success(rows));
    second := endpoint.Get(false, false, start + 30000, Success(rows));
    third := endpoint.Get(false, false, start + 61000, Success(rows));
  }

  /** A forced refresh goes to the warehouse even while the cached value is fresh. */
  method RefreshBypassesCache(before: seq<Row>, after: seq<Row>, start: int) returns (first: Response, second: Response)
    ensures first == Fresh(MetricsOf(MapRows(before)))
    ensures second == Fresh(MetricsOf(MapRows(after)))
  {
    var endpoint := new VelocityEndpoint();
    first := endpoint.Get(false, false, start, Success(before));
    second := endpoint.Get(true, false, start + 1000, Success(after));
  }

  /** Filled at `start`, the cache answers a failed refresh 70 s later, marked stale, without a 500. */
  method StaleFallback(rows: seq<Row>, start: int, message: string) returns (first: Response, late: Response)
    ensures first == Fresh(MetricsOf(MapRows(rows)))
    ensures late == Stale(MetricsOf(MapRows(rows)), 70, message) && late.Status() == 200
  {
    var endpoint := new VelocityEndpoint();
    first := endpoint.Get(false, false, start, Success(rows));
    late := endpoint.Get(false, false, start + 70000, Failure(message));
  }

  /** With nothing cached yet, a failure is a 500 whose message falls back to a default. */
  method FailureWithoutCache(now: int, message: string) returns (response: Response)
    ensures !response.Succeeded() && response.Status() == 500
    ensures response.error == if message == "" then DefaultError else message
  {
    var endpoint := new VelocityEndpoint();
    response := endpoint.Get(false, false, now, Failure(message));
  }

  /** Raw requests query every time and never fill the cache: a later failure still has
      nothing to fall back on. */
  method RawBypassesCache(first: seq<Row>, second: seq<Row>, now: int)
    returns (a: Response, b: Response, afterwards: Response)
    ensures a == RawRecords(MapRows(first), |first|)
    ensures b == RawRecords(MapRows(second), |second|)
    ensures afterwards.Status() == 500
  {
    var endpoint := new VelocityEndpoint();
    a := endpoint.Get(false, true, now, Success(first));
    b := endpoint.Get(false, true, now, Success(second));
    afterwards := endpoint.Get(false, false, now, Failure(""));
  }
}
