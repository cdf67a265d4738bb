/**
 * The forecast client (`PVNode` in pvnode.py): the installation parameters,
 * the request it sends, and its one-snapshot cache.
 *
 * The HTTP call itself is not modelled: a fetch is represented by the record
 * list the response would parse into, passed in by the caller together with
 * the clock reading.
 */
module Client {
  import opened Wrappers
  import opened Forecast

  /** The cache's freshness window: 8 hours in microseconds. */
  const CacheWindowUs: int := 8 * HourUs

  const ForecastUrl: string := "https://api.pvnode.com/v1/forecast/"
  const BearerPrefix: string := "Bearer "

  /** The GET request of `_estimate`: endpoint, `Authorization` header and query parameters. */
  datatype Request = Request(
    url: string,
    authorization: string,
    latitude: real,
    longitude: real,
    slope: int,
    orientation: int,
    pastDays: int,
    forecastDays: int,
    requiredData: string)

  /** The `Authorization` header value for a key. */
  function Authorization(apiKey: string): string {
    BearerPrefix + apiKey
  }

  /** The key carried by a bearer `Authorization` header, if it is one. */
  function BearerToken(header: string): Option<string> {
    if |header| >= |BearerPrefix| && header[..|BearerPrefix|] == BearerPrefix
    then Some(header[|BearerPrefix|..])
    else None
  }

  /** The header carries exactly the configured key. */
  lemma BearerRoundTrip(apiKey: string)
    ensures BearerToken(Authorization(apiKey)) == Some(apiKey)
  {
    var h := Authorization(apiKey);
    assert h[..|BearerPrefix|] == BearerPrefix;
    assert h[|BearerPrefix|..] == apiKey;
  }

  /** The cache test as written: `last_update < last_update + timedelta(hours=8)`, which always holds. */
  function CacheTestAsWritten(lastUpdate: int): (passes: bool)
    ensures passes
  {
    lastUpdate < lastUpdate + CacheWindowUs
  }

  /** The age test the freshness window calls for: the snapshot is less than 8 hours old at `now`. */
  predicate IsFresh(lastUpdate: int, now: int) {
    now - lastUpdate < CacheWindowUs
  }

  /** A snapshot taken at 0 is kept by the test as written at 9 hours, although it is stale. */
  lemma StaleSnapshotPassesAsWritten()
    ensures CacheTestAsWritten(0) && !IsFresh(0, 9 * HourUs)
  {
  }

  class PVNode {
    const apiKey: string
    const latitude: real
    const longitude: real
    const slope: int
    const orientation: int
    const kWp: real
    var estimateCached: Option<Estimate>

    constructor (apiKey: string, latitude: real, longitude: real, slope: int, orientation: int, kWp: real)
      ensures this.apiKey == apiKey && this.latitude == latitude && this.longitude == longitude
      ensures this.slope == slope && this.orientation == orientation && this.kWp == kWp
      ensures estimateCached == None
    {
      this.apiKey := apiKey;
      this.latitude := latitude;
      this.longitude := longitude;
      this.slope := slope;
      this.orientation := orientation;
      this.kWp := kWp;
      estimateCached := None;
    }

    /**
     * The request `_estimate` sends: the configured location and geometry,
     * today only (no past days, one forecast day), only `spec_watts`, and the
     * key as a bearer token.
     */
    function ForecastRequest(): (q: Request)
      ensures q.url == ForecastUrl && BearerToken(q.authorization) == Some(apiKey)
      ensures q.latitude == latitude && q.longitude == longitude
      ensures q.slope == slope && q.orientation == orientation
      ensures q.pastDays == 0 && q.forecastDays == 1 && q.requiredData == "spec_watts"
    {
      BearerRoundTrip(apiKey);
      Request(ForecastUrl, Authorization(apiKey), latitude, longitude, slope, orientation, 0, 1, "spec_watts")
    }

    /**
     * `estimate()` as written. With no snapshot it fetches once (`response`
     * is what that fetch parses into, `now` the clock at that moment) and
     * caches the new snapshot; once a snapshot is cached the freshness test
     * always passes, so every later call returns that same snapshot and
     * fetches nothing.
     */
    method GetEstimateAsWritten(response: seq<Record>, now: int) returns (e: Estimate, fetched: bool)
      modifies this
      ensures old(estimateCached).Some? ==>
        !fetched && e == old(estimateCached).value && estimateCached == old(estimateCached)
      ensures old(estimateCached).None? ==>
        && fetched && fresh(e) && estimateCached == Some(e)
        && e.kWp == kWp && e.lastUpdate == now
        && e.watts == WattsOf(response, kWp) && e.whHours == HourlyOf(response, kWp)
    {
      if estimateCached.Some? && CacheTestAsWritten(estimateCached.value.lastUpdate) {
        return estimateCached.value, false;
      }
      e := new Estimate(kWp, response, now);
      estimateCached := Some(e);
      fetched := true;
    }

    /**
     * The cache with the age test the 8-hour window calls for: a snapshot
     * younger than 8 hours at `now` is returned without a fetch; otherwise
     * exactly one fetch replaces it.
     */
    method GetEstimate(response: seq<Record>, now: int) returns (e: Estimate, fetched: bool)
      modifies this
      ensures old(estimateCached).Some? && IsFresh(old(estimateCached).value.lastUpdate, now) ==>
        !fetched && e == old(estimateCached).value && estimateCached == old(estimateCached)
      ensures !(old(estimateCached).Some? && IsFresh(old(estimateCached).value.lastUpdate, now)) ==>
        && fetched && fresh(e) && estimateCached == Some(e)
        && e.kWp == kWp && e.lastUpdate == now
        && e.watts == WattsOf(response, kWp) && e.whHours == HourlyOf(response, kWp)
    {
      if estimateCached.Some? && IsFresh(estimateCached.value.lastUpdate, now) {
        return estimateCached.value, false;
      }
      e := new Estimate(kWp, response, now);
      estimateCached := Some(e);
      fetched := true;
    }
  }
}
