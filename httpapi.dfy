/** The public readings API, HandleReadings and its helpers in server/pkg/httpapi/handlers.go.
    The readings it returns are generated, one per minute going back from `now` (the request time
    truncated to the second). JSON encoding is not modelled: a response is its status and the
    values written. */
module HttpApi {
  import opened Wrappers
  import opened Telemetry
  import opened ReadingsQuery

  const Minute := 60_000_000_000

  const StatusBadRequest := 400
  const StatusInternalServerError := 500
  const MissingStationId := "missing station id"

  /** http.StatusText for the statuses these handlers write. */
  function StatusText(status: int): string {
    if status == 400 then "Bad Request"
    else if status == 500 then "Internal Server Error"
    else if status == 200 then "OK"
    else ""
  }

  /** The body of writeError. */
  datatype ErrorBody = ErrorBody(error: string, message: string)

  function WriteError(status: int, msg: string): (b: ErrorBody)
    ensures b.error == StatusText(status) && b.message == msg
  {
    ErrorBody(StatusText(status), msg)
  }

  /** A generated reading; Value is 10.0 + 0.1 * i, taken here as an exact real. */
  datatype Reading = Reading(stationId: string, time: Instant, value: real)

  /** The i-th candidate reading, stamped i minutes before now. */
  function Candidate(id: string, now: Instant, i: nat): Reading {
    Reading(id, now - i * Minute, 10.0 + (i as real) * 0.1)
  }

  /** A time passes the bounds that are set: not before `from`, not after `to`. */
  predicate WithinBounds(t: Instant, w: Window) {
    !(!IsZero(w.from) && t < w.from) && !(!IsZero(w.to) && t > w.to)
  }

  /** The candidates i, i+1, ..., limit-1 that pass the bounds, in that order. */
  function WindowFrom(id: string, w: Window, now: Instant, i: nat): seq<Reading>
    decreases w.limit - i
  {
    if i >= w.limit then []
    else
      var here := if WithinBounds(Candidate(id, now, i).time, w) then [Candidate(id, now, i)] else [];
      here + WindowFrom(id, w, now, i + 1)
  }

  /** The loop of HandleReadings over limit candidates, skipping those outside the bounds. */
  method GenerateReadings(id: string, w: Window, now: Instant) returns (items: seq<Reading>)
    ensures items == WindowFrom(id, w, now, 0)
  {
    items := [];
    var i := 0;
    while i < w.limit
      invariant 0 <= i
      invariant items + WindowFrom(id, w, now, i) == WindowFrom(id, w, now, 0)
    {
      var t := now - i * Minute;
      ghost var rest := WindowFrom(id, w, now, i + 1);
      if !IsZero(w.from) && t < w.from {
        assert WindowFrom(id, w, now, i) == rest;
        i := i + 1;
        continue;
      }
      if !IsZero(w.to) && t > w.to {
        assert WindowFrom(id, w, now, i) == rest;
        i := i + 1;
        continue;
      }
      assert WindowFrom(id, w, now, i) == [Candidate(id, now, i)] + rest;
      assert items + [Candidate(id, now, i)] + rest == items + ([Candidate(id, now, i)] + rest);
      items := items + [Reading(id, t, 10.0 + (i as real) * 0.1)];
      i := i + 1;
    }
    assert WindowFrom(id, w, now, i) == [];
    assert items + [] == items;
  }

  /** What the window holds: at most limit - i readings, all for the station, all within the
      bounds, each a candidate from i on; and every candidate from i on that passes the bounds
      is among them. */
  lemma {:induction false} WindowFacts(id: string, w: Window, now: Instant, i: nat)
    ensures |WindowFrom(id, w, now, i)| <= if w.limit - i < 0 then 0 else w.limit - i
    ensures forall r :: r in WindowFrom(id, w, now, i) ==>
      r.stationId == id && WithinBounds(r.time, w) && exists k: nat :: i <= k < w.limit && r == Candidate(id, now, k)
    ensures forall k: nat :: i <= k < w.limit && WithinBounds(Candidate(id, now, k).time, w) ==>
      Candidate(id, now, k) in WindowFrom(id, w, now, i)
    decreases w.limit - i
  {
    if i < w.limit {
      WindowFacts(id, w, now, i + 1);
    }
  }

  predicate StrictlyDecreasingTimes(items: seq<Reading>) {
    forall a, b :: 0 <= a < b < |items| ==> items[a].time > items[b].time
  }

  /** Returned times strictly decrease: every reading is newer than all that follow it. */
  lemma {:induction false} WindowDecreasing(id: string, w: Window, now: Instant, i: nat)
    ensures StrictlyDecreasingTimes(WindowFrom(id, w, now, i))
    ensures forall r :: r in WindowFrom(id, w, now, i) ==> r.time <= now - i * Minute
    decreases w.limit - i
  {
    if i < w.limit {
      var c := Candidate(id, now, i);
      var here := if WithinBounds(c.time, w) then [c] else [];
      var rest := WindowFrom(id, w, now, i + 1);
      var all := here + rest;
      assert WindowFrom(id, w, now, i) == all;
      WindowDecreasing(id, w, now, i + 1);
      forall a, b | 0 <= a < b < |all| ensures all[a].time > all[b].time {
        assert all[b] == rest[b - |here|];
        if a < |here| {
          assert rest[b - |here|] in rest;
        } else {
          assert all[a] == rest[a - |here|];
        }
      }
      forall r | r in all ensures r.time <= now - i * Minute {
        if r !in rest {
          assert r == c;
        }
      }
    }
  }

  /** The responses of HandleReadings. */
  datatype Response =
    | ErrorResponse(status: int, body: ErrorBody)
    | ReadingsResponse(stationId: string, from: Option<Instant>, to: Option<Instant>, limit: int, items: seq<Reading>)

  /** HandleReadings: a missing station id is rejected before the query is looked at; a bad
      query is rejected with its message; otherwise the generated readings are returned with
      the station id, the bounds (null when unset) and the effective limit. */
  method HandleReadings(id: string, q: Values, parseTime: string -> Option<Instant>, now: Instant)
    returns (resp: Response)
    ensures id == "" ==> resp == ErrorResponse(StatusBadRequest, ErrorBody("Bad Request", MissingStationId))
    ensures id != "" && ParseReadingsQuery(q, parseTime).1.Some? ==>
      resp == ErrorResponse(StatusBadRequest, ErrorBody("Bad Request", ParseReadingsQuery(q, parseTime).1.value))
    ensures id != "" && ParseReadingsQuery(q, parseTime).1.None? ==>
      var w := ParseReadingsQuery(q, parseTime).0;
      resp == ReadingsResponse(id, ZeroAsNull(w.from), ZeroAsNull(w.to), w.limit, WindowFrom(id, w, now, 0))
  {
    if id == "" {
      return ErrorResponse(StatusBadRequest, WriteError(StatusBadRequest, MissingStationId));
    }
    var (w, err) := ParseReadingsQuery(q, parseTime);
    if err.Some? {
      return ErrorResponse(StatusBadRequest, WriteError(StatusBadRequest, err.value));
    }
    var items := GenerateReadings(id, w, now);
    resp := ReadingsResponse(id, ZeroAsNull(w.from), ZeroAsNull(w.to), w.limit, items);
  }

  /** A successful response never holds more than its limit, which is between 1 and 1000, and
      its readings are within the requested bounds, newest first. */
  lemma ResponseBounded(id: string, q: Values, parseTime: string -> Option<Instant>, now: Instant)
    requires id != "" && ParseReadingsQuery(q, parseTime).1.None?
    ensures var w := ParseReadingsQuery(q, parseTime).0;
      var items := WindowFrom(id, w, now, 0);
      && 1 <= w.limit <= MaxLimit
      && |items| <= w.limit
      && StrictlyDecreasingTimes(items)
      && forall r :: r in items ==> WithinBounds(r.time, w)
  {
    var w := ParseReadingsQuery(q, parseTime).0;
    WindowFacts(id, w, now, 0);
    WindowDecreasing(id, w, now, 0);
  }
}
