/** The weather module's MQTT message handler and its log formatters
    (server/internal/modules/weather/service/mqtt.go). JSON decoding is the parameter `parse`,
    fmt's %f is `formatFloat`, and the repository's InsertReading is observed as the call it
    receives together with the error it answers. */
module WeatherService {
  import opened Wrappers
  import opened GoText
  import opened Telemetry
  import opened TelemetryValidation
  import LittleEndian

  /** formatOptFloat: "-" when absent, otherwise the value and its unit. */
  function FormatOptFloat(p: Option<real>, unit: string, formatFloat: real -> string): (s: string)
    ensures s == "-" <==> p.None?
    ensures p.Some? ==> s == formatFloat(p.value) + " " + unit
  {
    match p
    case None => "-"
    case Some(v) =>
      var s := formatFloat(v) + " " + unit;
      assert s[|formatFloat(v)|] == ' ';
      s
  }

  /** formatOptInt: "-" when absent, otherwise the decimal value. */
  function FormatOptInt(p: Option<int>): (s: string)
    ensures s == "-" <==> p.None?
    ensures p.Some? ==> s == Itoa(p.value)
  {
    match p
    case None => "-"
    case Some(n) =>
      assert n < 0 ==> |Itoa(n)| >= 2;
      assert n >= 0 ==> IsDigit(Itoa(n)[0]);
      Itoa(n)
  }

  /** A logged sequence number reads back as the number. */
  lemma FormatOptIntReadsBack(n: int)
    requires MinInt64 <= n <= MaxInt64
    ensures Atoi(FormatOptInt(Some(n))) == Some(n)
  {
    AtoiItoa(n);
  }

  /** The arguments of repo.InsertReading. */
  datatype InsertCall = InsertCall(
    stationId: string, timestamp: Instant, temperature: Option<real>, humidity: Option<real>, pressure: Option<real>)

  datatype HandlerError = ParseFailed | Invalid(error: ValidationError) | InsertFailed(message: string)

  /** The handler registered with the subscriber: decode, validate, then insert. It returns the
      insert call made (None when none is) and its error. */
  function HandleMessage(payload: seq<LittleEndian.byte>, parse: seq<LittleEndian.byte> -> Option<Telemetry>,
                         insertErr: Option<string>): (r: (Option<InsertCall>, Option<HandlerError>))
    ensures parse(payload).None? ==> r == (None, Some(ParseFailed))
    ensures parse(payload).Some? && ValidateTelemetry(parse(payload).value).Some? ==>
      r == (None, Some(Invalid(ValidateTelemetry(parse(payload).value).value)))
    ensures r.0.Some? <==> parse(payload).Some? && Valid(parse(payload).value)
    ensures r.0.Some? ==> var t := parse(payload).value;
      r.0.value == InsertCall(t.stationId, t.timestamp, t.temperature, t.humidity, t.pressure)
    ensures r.0.Some? ==> r.1 == (if insertErr.Some? then Some(InsertFailed(insertErr.value)) else None)
  {
    match parse(payload)
    case None => (None, Some(ParseFailed))
    case Some(t) =>
      match ValidateTelemetry(t)
      case Some(e) => (None, Some(Invalid(e)))
      case None =>
        ValidateAcceptsValid(t);
        var call := InsertCall(t.stationId, t.timestamp, t.temperature, t.humidity, t.pressure);
        (Some(call), if insertErr.Some? then Some(InsertFailed(insertErr.value)) else None)
  }
}
