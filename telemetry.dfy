/** The telemetry record shared by gateway and server (shared/types/telemetry.go), and time
    values as used throughout. */
module Telemetry {
  import opened Wrappers

  /** A time.Time as nanoseconds since Go's zero time (January 1, year 1, 00:00 UTC); the
      zero time is exactly the instant 0. Time zones and monotonic readings are not modelled. */
  type Instant = int

  const ZeroTime: Instant := 0

  predicate IsZero(t: Instant) {
    t == ZeroTime
  }

  /** Telemetry; each reading is either present or absent. */
  datatype Telemetry = Telemetry(
    stationId: string,
    timestamp: Instant,
    temperature: Option<real>,
    humidity: Option<real>,
    pressure: Option<real>,
    battery: Option<real>,
    sequence: Option<int>)
}
