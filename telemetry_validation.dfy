/** validateTelemetry, written out identically in server/internal/modules/weather/service/mqtt.go
    and server/internal/mqtt/mqtt.go. Readings are compared as reals; NaN is not modelled. */
module TelemetryValidation {
  import opened Wrappers
  import opened Telemetry

  /** The failures, in the order they are checked; the formatted value (%f) is kept as a real. */
  datatype ValidationError =
    | MissingStationId
    | MissingTimestamp
    | HumidityOutOfRange(humidity: real)
    | PressureNotPositive(pressure: real)
    | NoReadings

  /** The message text of each failure, up to the formatting of the value. */
  function Message(e: ValidationError, formatFloat: real -> string): string {
    match e
    case MissingStationId => "station_id is required"
    case MissingTimestamp => "timestamp is required"
    case HumidityOutOfRange(h) => "humidity_pct out of range: " + formatFloat(h) + " (must be 0-100)"
    case PressureNotPositive(p) => "pressure_hpa must be positive: " + formatFloat(p)
    case NoReadings => "at least one sensor reading (temperature, humidity, or pressure) is required"
  }

  predicate HumidityOk(t: Telemetry) {
    t.humidity.None? || 0.0 <= t.humidity.value <= 100.0
  }

  predicate PressureOk(t: Telemetry) {
    t.pressure.None? || t.pressure.value > 0.0
  }

  predicate HasReading(t: Telemetry) {
    t.temperature.Some? || t.humidity.Some? || t.pressure.Some?
  }

  function ValidateTelemetry(t: Telemetry): (r: Option<ValidationError>)
    ensures t.stationId == "" ==> r == Some(MissingStationId)
    ensures t.stationId != "" && IsZero(t.timestamp) ==> r == Some(MissingTimestamp)
    ensures t.stationId != "" && !IsZero(t.timestamp) && !HumidityOk(t) ==> r == Some(HumidityOutOfRange(t.humidity.value))
    ensures t.stationId != "" && !IsZero(t.timestamp) && HumidityOk(t) && !PressureOk(t) ==>
      r == Some(PressureNotPositive(t.pressure.value))
    ensures t.stationId != "" && !IsZero(t.timestamp) && HumidityOk(t) && PressureOk(t) && !HasReading(t) ==>
      r == Some(NoReadings)
  {
    if t.stationId == "" then Some(MissingStationId)
    else if IsZero(t.timestamp) then Some(MissingTimestamp)
    else if t.humidity.Some? && (t.humidity.value < 0.0 || t.humidity.value > 100.0) then
      Some(HumidityOutOfRange(t.humidity.value))
    else if t.pressure.Some? && t.pressure.value <= 0.0 then Some(PressureNotPositive(t.pressure.value))
    else if t.temperature.None? && t.humidity.None? && t.pressure.None? then Some(NoReadings)
    else None
  }

  /** Valid telemetry, stated on its own: a station, a time, humidity within [0, 100] and a
      positive pressure when present, and at least one of the three readings. */
  predicate Valid(t: Telemetry) {
    t.stationId != "" && !IsZero(t.timestamp) && HumidityOk(t) && PressureOk(t) && HasReading(t)
  }

  /** validateTelemetry accepts exactly the valid telemetry. */
  lemma ValidateAcceptsValid(t: Telemetry)
    ensures ValidateTelemetry(t).None? <==> Valid(t)
  {
  }

  /** Battery and sequence play no part in validation. */
  lemma BatteryAndSequenceIgnored(t: Telemetry, battery: Option<real>, sequence: Option<int>)
    ensures ValidateTelemetry(t.(battery := battery, sequence := sequence)) == ValidateTelemetry(t)
  {
  }

  /** The humidity bounds are inclusive. */
  lemma HumidityEndpointsAccepted(t: Telemetry)
    requires t.stationId != "" && !IsZero(t.timestamp) && t.pressure.None? && t.temperature.None?
    requires t.humidity == Some(0.0) || t.humidity == Some(100.0)
    ensures ValidateTelemetry(t) == None
  {
  }
}
