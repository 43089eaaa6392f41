/** The weather repository's write path and row decoding
    (server/internal/modules/weather/repository/repository.go). The database is abstracted as the
    station table (name to id) and the list of rows inserted; query failures are parameters.
    Timestamps are formatted by `formatTime` (RFC 3339 with nanoseconds) and parsed by
    `parseNano` and `parseRfc3339`. */
module WeatherRepository {
  import opened Wrappers
  import opened GoText
  import opened Telemetry

  /** A row of the readings table; None is SQL NULL. */
  datatype Row = Row(stationId: int, timestamp: string, temperature: Option<real>, humidity: Option<real>, pressure: Option<real>)

  datatype RepoError =
    | StationNotFound(station: string)
    | LookupFailed(station: string, error: string)
    | HumidityOutOfRange(humidity: real)
    | PressureNotPositive(pressure: real)
    | InsertFailed(error: string)

  /** Station resolution: an id that parses as an integer is used as is; anything else is looked
      up by name. */
  function ResolveStation(stations: map<string, int>, station: string, lookupErr: Option<string>): (r: Result)
    ensures Atoi(station).Some? ==> r == Resolved(Atoi(station).value)
    ensures Atoi(station).None? && lookupErr.Some? ==> r == Failed(LookupFailed(station, lookupErr.value))
    ensures Atoi(station).None? && lookupErr.None? && station in stations ==> r == Resolved(stations[station])
    ensures Atoi(station).None? && lookupErr.None? && station !in stations ==> r == Failed(StationNotFound(station))
  {
    match Atoi(station)
    case Some(id) => Resolved(id)
    case None =>
      if lookupErr.Some? then Failed(LookupFailed(station, lookupErr.value))
      else if station in stations then Resolved(stations[station])
      else Failed(StationNotFound(station))
  }

  datatype Result = Resolved(id: int) | Failed(error: RepoError)

  /** The value checks that follow resolution. */
  function CheckValues(humidity: Option<real>, pressure: Option<real>): (e: Option<RepoError>)
    ensures e.None? <==> (humidity.None? || 0.0 <= humidity.value <= 100.0) && (pressure.None? || pressure.value > 0.0)
    ensures humidity.Some? && !(0.0 <= humidity.value <= 100.0) ==> e == Some(HumidityOutOfRange(humidity.value))
  {
    if humidity.Some? && (humidity.value < 0.0 || humidity.value > 100.0) then Some(HumidityOutOfRange(humidity.value))
    else if pressure.Some? && pressure.value <= 0.0 then Some(PressureNotPositive(pressure.value))
    else None
  }

  /** The outcome of InsertReading as a function of its inputs: the error, or the row written. */
  function InsertOutcome(stations: map<string, int>, station: string, ts: Instant,
                         temperature: Option<real>, humidity: Option<real>, pressure: Option<real>,
                         formatTime: Instant -> string, lookupErr: Option<string>, execErr: Option<string>): (r: (Option<Row>, Option<RepoError>))
    ensures r.0.Some? <==> r.1.None?
  {
    match ResolveStation(stations, station, lookupErr)
    case Failed(e) => (None, Some(e))
    case Resolved(id) =>
      match CheckValues(humidity, pressure)
      case Some(e) => (None, Some(e))
      case None =>
        if execErr.Some? then (None, Some(InsertFailed(execErr.value)))
        else (Some(Row(id, formatTime(ts), temperature, humidity, pressure)), None)
  }

  class Repository {
    /** The stations table, name to id. */
    const stations: map<string, int>
    /** The readings table, in insertion order. */
    var rows: seq<Row>

    constructor(stations: map<string, int>)
      ensures this.stations == stations && rows == []
    {
      this.stations := stations;
      rows := [];
    }

    /** InsertReading. `lookupErr` is a failure of the name query other than "no rows", and
        `execErr` a failure of the insert. */
    method InsertReading(station: string, ts: Instant, temperature: Option<real>, humidity: Option<real>,
                         pressure: Option<real>, formatTime: Instant -> string,
                         lookupErr: Option<string>, execErr: Option<string>) returns (err: Option<RepoError>)
      modifies this
      ensures var outcome := InsertOutcome(stations, station, ts, temperature, humidity, pressure, formatTime, lookupErr, execErr);
        && err == outcome.1
        && rows == old(rows) + (if outcome.0.Some? then [outcome.0.value] else [])
    {
      var tsStr := formatTime(ts);
      var dbStationId: int;
      var parsed := Atoi(station);
      if parsed.Some? {
        dbStationId := parsed.value;
      } else {
        if lookupErr.Some? {
          return Some(LookupFailed(station, lookupErr.value));
        }
        if station !in stations {
          return Some(StationNotFound(station));
        }
        dbStationId := stations[station];
      }
      if humidity.Some? {
        if humidity.value < 0.0 || humidity.value > 100.0 {
          return Some(HumidityOutOfRange(humidity.value));
        }
      }
      if pressure.Some? {
        if pressure.value <= 0.0 {
          return Some(PressureNotPositive(pressure.value));
        }
      }
      if execErr.Some? {
        return Some(InsertFailed(execErr.value));
      }
      rows := rows + [Row(dbStationId, tsStr, temperature, humidity, pressure)];
      return None;
    }
  }

  /** An unknown station name is reported before any value is checked, whatever the values. */
  lemma UnknownNameFirst(stations: map<string, int>, station: string, ts: Instant,
                         temperature: Option<real>, humidity: Option<real>, pressure: Option<real>,
                         formatTime: Instant -> string, execErr: Option<string>)
    requires Atoi(station).None? && station !in stations
    ensures InsertOutcome(stations, station, ts, temperature, humidity, pressure, formatTime, None, execErr)
      == (None, Some(StationNotFound(station)))
  {
  }

  /** A successful insert stores the resolved id, the formatted time and the three readings as
      given, NULL for the absent ones. */
  lemma StoredRow(stations: map<string, int>, station: string, ts: Instant,
                  temperature: Option<real>, humidity: Option<real>, pressure: Option<real>,
                  formatTime: Instant -> string, lookupErr: Option<string>, execErr: Option<string>)
    requires InsertOutcome(stations, station, ts, temperature, humidity, pressure, formatTime, lookupErr, execErr).1.None?
    ensures var row := InsertOutcome(stations, station, ts, temperature, humidity, pressure, formatTime, lookupErr, execErr).0.value;
      && ResolveStation(stations, station, lookupErr) == Resolved(row.stationId)
      && row.timestamp == formatTime(ts)
      && row.temperature == temperature && row.humidity == humidity && row.pressure == pressure
      && CheckValues(humidity, pressure).None? && execErr.None?
  {
  }

  /** A stored row as scanned: the timestamp still text. */
  datatype ScannedRow = ScannedRow(stationId: string, timestamp: string, value: real, humidity: real, pressure: real)

  /** types.Reading */
  datatype Reading = Reading(stationId: string, time: Instant, value: real, humidity: real, pressure: real)

  /** What rows.Next/rows.Scan yield: a row, or a scan error. */
  datatype Scan = Scanned(row: ScannedRow) | ScanError(error: string)

  datatype ScanFailure = ScanFailed(error: string) | BadTimestamp(timestamp: string) | RowsFailed(error: string)

  /** A stored timestamp: RFC 3339 with nanoseconds, falling back to plain RFC 3339. */
  function ParseTimestamp(ts: string, parseNano: string -> Option<Instant>, parseRfc3339: string -> Option<Instant>): (t: Option<Instant>)
    ensures t.None? <==> parseNano(ts).None? && parseRfc3339(ts).None?
    ensures parseNano(ts).Some? ==> t == parseNano(ts)
    ensures parseNano(ts).None? ==> t == parseRfc3339(ts)
  {
    if parseNano(ts).Some? then parseNano(ts) else parseRfc3339(ts)
  }

  /** scanReadings as a function of the rows: the readings in row order together with rows.Err(),
      or no readings and the first row that fails to scan or to parse. */
  function ScanAll(rows: seq<Scan>, parseNano: string -> Option<Instant>, parseRfc3339: string -> Option<Instant>,
                   rowsErr: Option<string>): (r: (seq<Reading>, Option<ScanFailure>))
    ensures r.1.Some? && !r.1.value.RowsFailed? ==> r.0 == []
    ensures r.1.None? || r.1.value.RowsFailed? ==> |r.0| == |rows|
  {
    if rows == [] then
      if rowsErr.Some? then ([], Some(RowsFailed(rowsErr.value))) else ([], None)
    else match rows[0]
      case ScanError(e) => ([], Some(ScanFailed(e)))
      case Scanned(row) =>
        match ParseTimestamp(row.timestamp, parseNano, parseRfc3339)
        case None => ([], Some(BadTimestamp(row.timestamp)))
        case Some(t) =>
          var rest := ScanAll(rows[1..], parseNano, parseRfc3339, rowsErr);
          if rest.1.Some? && !rest.1.value.RowsFailed? then rest
          else ([Reading(row.stationId, t, row.value, row.humidity, row.pressure)] + rest.0, rest.1)
  }

  /** Every row scanned and its timestamp parses in one of the two formats. */
  predicate RowsGood(rows: seq<Scan>, parseNano: string -> Option<Instant>, parseRfc3339: string -> Option<Instant>)
  {
    forall i :: 0 <= i < |rows| ==> rows[i].Scanned? && ParseTimestamp(rows[i].row.timestamp, parseNano, parseRfc3339).Some?
  }

  /** When every row is good the scan keeps each row's fields and time in order and reports exactly
      rows.Err(); otherwise it reports a row failure and no readings. */
  lemma {:induction false} ScanAllFacts(rows: seq<Scan>, parseNano: string -> Option<Instant>,
                                        parseRfc3339: string -> Option<Instant>, rowsErr: Option<string>)
    ensures var r := ScanAll(rows, parseNano, parseRfc3339, rowsErr);
      RowsGood(rows, parseNano, parseRfc3339) <==> r.1.None? || r.1.value.RowsFailed?
    ensures var r := ScanAll(rows, parseNano, parseRfc3339, rowsErr);
      RowsGood(rows, parseNano, parseRfc3339) ==>
        r.1 == (if rowsErr.Some? then Some(RowsFailed(rowsErr.value)) else None)
    ensures var r := ScanAll(rows, parseNano, parseRfc3339, rowsErr);
      RowsGood(rows, parseNano, parseRfc3339) ==> forall i :: 0 <= i < |rows| ==>
        && r.0[i].stationId == rows[i].row.stationId
        && Some(r.0[i].time) == ParseTimestamp(rows[i].row.timestamp, parseNano, parseRfc3339)
        && r.0[i].value == rows[i].row.value
        && r.0[i].humidity == rows[i].row.humidity && r.0[i].pressure == rows[i].row.pressure
  {
    if rows != [] {
      ScanAllFacts(rows[1..], parseNano, parseRfc3339, rowsErr);
      var r := ScanAll(rows, parseNano, parseRfc3339, rowsErr);
      var rest := ScanAll(rows[1..], parseNano, parseRfc3339, rowsErr);
      if RowsGood(rows, parseNano, parseRfc3339) {
        assert RowsGood(rows[1..], parseNano, parseRfc3339) by {
          forall i | 0 <= i < |rows| - 1 ensures rows[1..][i] == rows[i + 1] { }
        }
        assert rows[0].Scanned?;
        forall i | 1 <= i < |rows| ensures r.0[i] == rest.0[i - 1] && rows[i] == rows[1..][i - 1] {
        }
      }
      if r.1.None? || r.1.value.RowsFailed? {
        assert RowsGood(rows[1..], parseNano, parseRfc3339);
        forall i | 0 <= i < |rows|
          ensures rows[i].Scanned? && ParseTimestamp(rows[i].row.timestamp, parseNano, parseRfc3339).Some?
        {
          if i > 0 {
            assert rows[i] == rows[1..][i - 1];
          }
        }
      }
    }
  }

  /** The scan of the whole rows once `done` readings are gathered and `tail` is the scan of the rest. */
  function Join(done: seq<Reading>, tail: (seq<Reading>, Option<ScanFailure>)): (seq<Reading>, Option<ScanFailure>)
  {
    if tail.1.Some? && !tail.1.value.RowsFailed? then tail else (done + tail.0, tail.1)
  }

  /** One good row moves from the unscanned rest to the gathered readings. */
  lemma ScanStep(rows: seq<Scan>, i: nat, parseNano: string -> Option<Instant>, parseRfc3339: string -> Option<Instant>,
                 rowsErr: Option<string>, done: seq<Reading>, t: Instant)
    requires i < |rows| && rows[i].Scanned?
    requires ParseTimestamp(rows[i].row.timestamp, parseNano, parseRfc3339) == Some(t)
    ensures var row := rows[i].row;
      Join(done, ScanAll(rows[i..], parseNano, parseRfc3339, rowsErr))
        == Join(done + [Reading(row.stationId, t, row.value, row.humidity, row.pressure)],
                ScanAll(rows[i + 1..], parseNano, parseRfc3339, rowsErr))
  {
    var row := rows[i].row;
    var reading := Reading(row.stationId, t, row.value, row.humidity, row.pressure);
    assert rows[i..][0] == rows[i] && rows[i..][1..] == rows[i + 1..];
    var tail := ScanAll(rows[i + 1..], parseNano, parseRfc3339, rowsErr);
    if tail.1.None? || tail.1.value.RowsFailed? {
      assert ScanAll(rows[i..], parseNano, parseRfc3339, rowsErr) == ([reading] + tail.0, tail.1);
      assert done + ([reading] + tail.0) == (done + [reading]) + tail.0;
    }
  }

  /** scanReadings: the row loop. */
  method ScanReadings(rows: seq<Scan>, parseNano: string -> Option<Instant>, parseRfc3339: string -> Option<Instant>,
                      rowsErr: Option<string>) returns (out: seq<Reading>, err: Option<ScanFailure>)
    ensures (out, err) == ScanAll(rows, parseNano, parseRfc3339, rowsErr)
  {
    out := [];
    var i := 0;
    assert rows[0..] == rows;
    assert [] + ScanAll(rows, parseNano, parseRfc3339, rowsErr).0 == ScanAll(rows, parseNano, parseRfc3339, rowsErr).0;
    while i < |rows|
      invariant 0 <= i <= |rows|
      invariant ScanAll(rows, parseNano, parseRfc3339, rowsErr) == Join(out, ScanAll(rows[i..], parseNano, parseRfc3339, rowsErr))
      decreases |rows| - i
    {
      assert rows[i..][0] == rows[i];
      match rows[i]
      case ScanError(e) => return [], Some(ScanFailed(e));
      case Scanned(row) =>
        var t := ParseTimestamp(row.timestamp, parseNano, parseRfc3339);
        if t.None? {
          return [], Some(BadTimestamp(row.timestamp));
        }
        ScanStep(rows, i, parseNano, parseRfc3339, rowsErr, out, t.value);
        out := out + [Reading(row.stationId, t.value, row.value, row.humidity, row.pressure)];
      i := i + 1;
    }
    assert rows[i..] == [];
    assert out + [] == out;
    if rowsErr.Some? {
      return out, Some(RowsFailed(rowsErr.value));
    }
    return out, None;
  }
}
