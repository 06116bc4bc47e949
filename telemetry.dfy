/** The data that flows between the telemetry script, the server and the
    viewer: one driver's payload, the query that produced it and the record
    the viewer keeps after fetching both drivers. */
module Telemetry {
  import opened Optional

  /** One sample as JavaScript renders it (`Number.prototype.toString` for
      speed, throttle and sector times, `"true"`/`"false"` for brake). */
  type Sample = string

  /** The query-string parameters of `GET /api/telemetry`. */
  datatype Query = Query(driver: string, track: string, year: string, session: string)

  /** The JSON object the telemetry script prints for one driver. Every field
      may be absent: on failure the script prints only `{"error": ...}`. */
  datatype Payload = Payload(
    driver: Option<string>,
    sectorTimes: Option<seq<Sample>>,
    speed: Option<seq<Sample>>,
    throttle: Option<seq<Sample>>,
    brake: Option<seq<Sample>>,
    error: Option<string>)

  /** The payload the script prints when it fails (no telemetry fields). */
  function ErrorPayload(message: string): (p: Payload)
    ensures p.driver.None? && p.sectorTimes.None? && p.speed.None?
    ensures p.throttle.None? && p.brake.None? && p.error == Some(message)
  {
    Payload(None, None, None, None, None, Some(message))
  }

  /** The three per-sample series a chart can show, named by `dataKey`. */
  datatype SeriesKey = Speed | Throttle | Brake

  /** `payload[dataKey]`. */
  function Series(p: Payload, key: SeriesKey): Option<seq<Sample>> {
    match key
    case Speed => p.speed
    case Throttle => p.throttle
    case Brake => p.brake
  }

  /** The `telemetry` state of the viewer: copies of both payloads, the
      circuit image and the fun-fact list of the track (absent for a track
      the table does not know). */
  datatype Merged = Merged(
    driver1: Payload,
    driver2: Payload,
    circuitImage: string,
    funFacts: Option<seq<string>>)

}
