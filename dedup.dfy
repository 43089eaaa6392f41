/** The gateway's BLE sensor handler (gateway/internal/ble/handler.go): decode a match, drop
    reading ids already seen from the same radio address, and hand new readings to the MQTT
    publisher. The mutex is not modelled: each HandleMatch call is one atomic step. */
module Dedup {
  import opened Wrappers
  import opened LittleEndian
  import opened Telemetry
  import Payload
  import Scanner

  /** bleDedupMaxIDsPerDevice */
  const MaxIdsPerDevice: nat := 500

  const GatewayStationId: string := "outdoor"

  /** What one HandleMatch call did. */
  datatype Outcome =
    | Ignored                                    // not a sensor payload
    | Duplicate                                  // reading id already seen for this address
    | Published(telemetry: Telemetry)
    | PublishFailed(telemetry: Telemetry, error: string)

  /** The ids recorded for an address; an absent address has none. */
  function Ids(seen: map<string, set<u32>>, addr: string): set<u32> {
    if addr in seen then seen[addr] else {}
  }

  predicate IsDuplicate(seen: map<string, set<u32>>, addr: string, id: u32) {
    id in Ids(seen, addr)
  }

  /** Adding an id to one address's set; a set that grows past the bound restarts as {id}. */
  function Insert(s: set<u32>, id: u32): (r: set<u32>)
    ensures id in r
    ensures |s| <= MaxIdsPerDevice ==> |r| <= MaxIdsPerDevice
    ensures r == s + {id} || r == {id}
  {
    if |s + {id}| > MaxIdsPerDevice then {id} else s + {id}
  }

  /** The cache after recording a new id for one address. */
  function Record(seen: map<string, set<u32>>, addr: string, id: u32): map<string, set<u32>> {
    seen[addr := Insert(Ids(seen, addr), id)]
  }

  /** Every per-address set holds at most 500 ids. */
  predicate Bounded(seen: map<string, set<u32>>) {
    forall a :: a in seen ==> |seen[a]| <= MaxIdsPerDevice
  }

  /** The telemetry built for a decoded reading: station "outdoor", the current time, the three
      readings (float32 widened by `widen`), no battery, and the reading id as sequence. */
  function TelemetryOf(r: Payload.SensorReading, widen: u32 -> real, now: Instant): Telemetry {
    Telemetry(GatewayStationId, now, Some(widen(r.temperatureBits)), Some(widen(r.humidityBits)),
      Some(widen(r.pressureBits)), None, Some(r.readingId as int))
  }

  class SensorHandler {
    var seen: map<string, set<u32>>

    ghost predicate Valid()
      reads this
    {
      Bounded(seen)
    }

    constructor()
      ensures Valid() && seen == map[]
    {
      seen := map[];
    }

    /** HandleMatch. `widen` stands for the float32-to-float64 conversion, `now` for time.Now()
        and `publishErr` for the publisher's result. */
    method HandleMatch(m: Scanner.Match, widen: u32 -> real, now: Instant, publishErr: Option<string>)
      returns (outcome: Outcome)
      requires Valid()
      modifies this
      ensures Valid()
      ensures Payload.ParseSensorPayload(m.data).Parsed? <==> outcome != Ignored
      ensures outcome == Ignored || outcome == Duplicate ==> seen == old(seen)
      ensures outcome == Duplicate <==>
        Payload.ParseSensorPayload(m.data).Parsed?
        && IsDuplicate(old(seen), m.address, Payload.ParseSensorPayload(m.data).reading.readingId)
      ensures outcome.Published? || outcome.PublishFailed? ==>
        var r := Payload.ParseSensorPayload(m.data).reading;
        && seen == Record(old(seen), m.address, r.readingId)
        && outcome.telemetry == TelemetryOf(r, widen, now)
        && (outcome.PublishFailed? <==> publishErr.Some?)
    {
      var parsed := Payload.ParseSensorPayload(m.data);
      if !parsed.Parsed? {
        return Ignored;
      }
      var sr := parsed.reading;
      if m.address !in seen {
        seen := seen[m.address := {}];
      }
      if sr.readingId in seen[m.address] {
        return Duplicate;
      }
      seen := seen[m.address := seen[m.address] + {sr.readingId}];
      if |seen[m.address]| > MaxIdsPerDevice {
        seen := seen[m.address := {sr.readingId}];
      }
      assert seen == Record(old(seen), m.address, sr.readingId);
      RecordBounded(old(seen), m.address, sr.readingId);
      var telemetry := TelemetryOf(sr, widen, now);
      if publishErr.Some? {
        return PublishFailed(telemetry, publishErr.value);
      }
      return Published(telemetry);
    }
  }

  /** Recording keeps every set within the bound. */
  lemma RecordBounded(seen: map<string, set<u32>>, addr: string, id: u32)
    requires Bounded(seen)
    ensures Bounded(Record(seen, addr, id))
  {
  }

  /** Recording touches only the given address, and afterwards the id counts as seen there, so a
      repeat is dropped whether or not the publish succeeded. */
  lemma RecordLocal(seen: map<string, set<u32>>, addr: string, id: u32, other: string)
    requires other != addr
    ensures Ids(Record(seen, addr, id), other) == Ids(seen, other)
    ensures IsDuplicate(Record(seen, addr, id), addr, id)
  {
  }

  /** A new id joins a set that is below the bound; a full set is replaced by exactly {id}. */
  lemma InsertCases(s: set<u32>, id: u32)
    requires id !in s
    ensures |s| < MaxIdsPerDevice ==> Insert(s, id) == s + {id}
    ensures |s| == MaxIdsPerDevice ==> Insert(s, id) == {id}
  {
    assert |s + {id}| == |s| + 1;
  }

  /** A run of HandleMatch calls with decodable payloads from one address: the ids seen and how
      many were new (published or attempted). */
  function Replay(s: set<u32>, ids: seq<u32>): (set<u32>, nat)
    decreases |ids|
  {
    if ids == [] then (s, 0)
    else if ids[0] in s then Replay(s, ids[1..])
    else
      var (t, n) := Replay(Insert(s, ids[0]), ids[1..]);
      (t, n + 1)
  }

  /** The distinct ids of a run. */
  function Elems(ids: seq<u32>): (e: set<u32>)
    ensures forall x :: x in e <==> x in ids
    decreases |ids|
  {
    if ids == [] then {} else {ids[0]} + Elems(ids[1..])
  }

  /** While the distinct ids fit in the bound, nothing is forgotten: every distinct id is new
      exactly once and every repeat is dropped. */
  lemma {:induction false} ReplayWithinBound(s: set<u32>, ids: seq<u32>)
    requires |s + Elems(ids)| <= MaxIdsPerDevice
    ensures Replay(s, ids) == (s + Elems(ids), |Elems(ids) - s|)
    decreases |ids|
  {
    if ids != [] {
      var x, rest := ids[0], ids[1..];
      assert Elems(ids) == {x} + Elems(rest);
      if x in s {
        assert Replay(s, ids) == Replay(s, rest);
        assert s + Elems(rest) == s + Elems(ids);
        assert Elems(rest) - s == Elems(ids) - s;
        ReplayWithinBound(s, rest);
      } else {
        NewIdStep(s, x, Elems(rest));
        ReplayWithinBound(s + {x}, rest);
      }
    }
  }

  /** The bookkeeping of one new id x in front of the remaining distinct ids `rest`. */
  lemma NewIdStep(s: set<u32>, x: u32, rest: set<u32>)
    requires x !in s
    requires |s + ({x} + rest)| <= MaxIdsPerDevice
    ensures Insert(s, x) == s + {x}
    ensures (s + {x}) + rest == s + ({x} + rest)
    ensures |({x} + rest) - s| == 1 + |rest - (s + {x})|
  {
    SubsetCard(s + {x}, s + ({x} + rest));
    assert ({x} + rest) - s == {x} + (rest - (s + {x}));
    assert x !in rest - (s + {x});
  }

  lemma SubsetCard(a: set<u32>, b: set<u32>)
    requires a <= b
    ensures |a| <= |b|
  {
    assert b == a + (b - a);
  }

  /** Starting from an empty cache for an address, K distinct ids (K at most 500) give exactly K
      publish attempts however often they repeat. */
  lemma DistinctIdsPublishedOnce(ids: seq<u32>)
    requires |Elems(ids)| <= MaxIdsPerDevice
    ensures Replay({}, ids).1 == |Elems(ids)|
  {
    var none: set<u32> := {};
    assert none + Elems(ids) == Elems(ids) && Elems(ids) - none == Elems(ids);
    ReplayWithinBound(none, ids);
  }
}
