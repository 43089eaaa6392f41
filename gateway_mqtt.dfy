/** The gateway's MQTT publisher (gateway/internal/mqtt/client.go) as a state machine over the
    connected flag and the closed-ness of the stop channel. The broker is abstracted: every call
    the client makes on it is appended to `brokerCalls`, and what the broker answers is passed
    in. Backoff timing, the jitter, JSON encoding and the monitor goroutine are not modelled. */
module GatewayMqtt {
  import opened Wrappers
  import opened Telemetry

  /** StationHealth */
  datatype StationHealth = StationHealth(stationId: string, lastSeen: Instant, healthy: bool)

  datatype Message = TelemetryMessage(telemetry: Telemetry) | HealthMessage(health: StationHealth)

  /** A call the client makes on the underlying broker client. */
  datatype BrokerCall =
    | ConnectCall
    | PublishCall(topic: string, qos: nat, retained: bool, message: Message)
    | DisconnectCall

  /** What one select statement in the connect loop observed. */
  datatype Wake = Proceed | ContextDone(error: string) | StopSignal

  /** One round of the connect loop: the check before the attempt, the attempt's outcome and the
      wait after a failed attempt. */
  datatype Round = Round(before: Wake, attemptOk: bool, after: Wake)

  /** How a publish token ended. */
  datatype Delivery = Delivered | TimedOut | BrokerFailed(error: string)

  const PublishQos: nat := 1
  const NotConnected: string := "mqtt client not connected"
  const ClientStopped: string := "client stopped"

  function TelemetryTopic(stationId: string): string {
    "stations/" + stationId + "/telemetry"
  }

  function HealthTopic(stationId: string): string {
    "stations/" + stationId + "/health"
  }

  /** Different stations publish on different topics, and telemetry never shares a topic with
      health. */
  lemma TopicsDistinct(a: string, b: string)
    ensures TelemetryTopic(a) == TelemetryTopic(b) ==> a == b
    ensures HealthTopic(a) == HealthTopic(b) ==> a == b
    ensures TelemetryTopic(a) != HealthTopic(b)
  {
    if TelemetryTopic(a) == TelemetryTopic(b) {
      StripAffixes("stations/", a, b, "/telemetry");
    }
    if HealthTopic(a) == HealthTopic(b) {
      StripAffixes("stations/", a, b, "/health");
    }
    var t, h := TelemetryTopic(a), HealthTopic(b);
    assert t[|t| - 1] == 'y' && h[|h| - 1] == 'h';
  }

  lemma StripAffixes(p: string, a: string, b: string, s: string)
    requires p + a + s == p + b + s
    ensures a == b
  {
    var x, y := p + a + s, p + b + s;
    assert |a| == |b|;
    forall i | 0 <= i < |a| ensures a[i] == b[i] {
      assert x[|p| + i] == a[i] && y[|p| + i] == b[i];
    }
  }

  /** The select that checks for cancellation or stop: a closed stop channel is always ready. */
  function Interruption(w: Wake, stopped: bool): Option<string> {
    if w.ContextDone? then Some(w.error)
    else if w.StopSignal? || stopped then Some(ClientStopped)
    else None
  }

  predicate RoundEnds(r: Round, stopped: bool) {
    Interruption(r.before, stopped).Some? || r.attemptOk || Interruption(r.after, stopped).Some?
  }

  /** The observed run of the connect loop ends within the given rounds. */
  predicate RunEnds(rounds: seq<Round>, stopped: bool) {
    exists i :: 0 <= i < |rounds| && RoundEnds(rounds[i], stopped)
  }

  /** The connect loop as a function of what it observes: the number of broker connect attempts
      and the result (None for success). A stopped client fails without contacting the broker;
      success always comes from an attempt. */
  function ConnectRun(rounds: seq<Round>, stopped: bool): (res: (nat, Option<string>))
    requires RunEnds(rounds, stopped)
    ensures res.0 <= |rounds|
    ensures stopped ==> res.0 == 0 && res.1.Some?
    ensures stopped && !rounds[0].before.ContextDone? ==> res == (0, Some(ClientStopped))
    ensures res.1.None? ==> res.0 >= 1
    decreases |rounds|
  {
    var r := rounds[0];
    var pre := Interruption(r.before, stopped);
    if pre.Some? then (0, pre)
    else if r.attemptOk then (1, None)
    else
      var post := Interruption(r.after, stopped);
      if post.Some? then (1, post)
      else
        assert RunEnds(rounds[1..], stopped) by {
          var i :| 0 <= i < |rounds| && RoundEnds(rounds[i], stopped);
          assert i > 0 && RoundEnds(rounds[1..][i - 1], stopped);
        }
        var rest := ConnectRun(rounds[1..], stopped);
        (rest.0 + 1, rest.1)
  }

  /** A round that neither ends the loop nor connects leaves the rest of the run to the
      following rounds, with one more broker attempt. */
  lemma ConnectRunStep(rounds: seq<Round>, i: nat, stopped: bool)
    requires i < |rounds| && RunEnds(rounds[i..], stopped) && !RoundEnds(rounds[i], stopped)
    ensures RunEnds(rounds[i + 1..], stopped)
    ensures ConnectRun(rounds[i..], stopped).0 == ConnectRun(rounds[i + 1..], stopped).0 + 1
    ensures ConnectRun(rounds[i..], stopped).1 == ConnectRun(rounds[i + 1..], stopped).1
  {
    var k :| 0 <= k < |rounds[i..]| && RoundEnds(rounds[i..][k], stopped);
    assert k > 0 && RoundEnds(rounds[i + 1..][k - 1], stopped);
    assert rounds[i..][1..] == rounds[i + 1..];
  }

  /** The telemetry as published: station id overwritten, a zero timestamp replaced by now. */
  function StampTelemetry(t: Telemetry, stationId: string, now: Instant): (s: Telemetry)
    ensures s.stationId == stationId
    ensures s.timestamp == (if IsZero(t.timestamp) then now else t.timestamp)
    ensures s.(stationId := t.stationId, timestamp := t.timestamp) == t
  {
    t.(stationId := stationId, timestamp := if IsZero(t.timestamp) then now else t.timestamp)
  }

  /** The health record as published: a zero LastSeen replaced by now. */
  function StampHealth(h: StationHealth, now: Instant): (s: StationHealth)
    ensures s.lastSeen == (if IsZero(h.lastSeen) then now else h.lastSeen)
    ensures s.(lastSeen := h.lastSeen) == h
  {
    h.(lastSeen := if IsZero(h.lastSeen) then now else h.lastSeen)
  }

  /** The error returned once the publish call has been made. */
  function DeliveryError(d: Delivery, topic: string, what: string): (e: Option<string>)
    ensures e.None? <==> d == Delivered
  {
    match d
    case Delivered => None
    case TimedOut => Some("publish timeout for topic " + topic)
    case BrokerFailed(err) => Some("publish " + what + ": " + err)
  }

  class Client {
    var connected: bool
    /** Whether stopCh has been closed. */
    var stopped: bool
    var brokerCalls: seq<BrokerCall>

    /** NewClient */
    constructor()
      ensures !connected && !stopped && brokerCalls == []
    {
      connected := false;
      stopped := false;
      brokerCalls := [];
    }

    /** IsConnected; `live` is the underlying client's own IsConnected(). */
    method IsConnected(live: bool) returns (r: bool)
      ensures r <==> connected && live
    {
      r := connected && live;
    }

    /** Connect. `rounds` is what the loop observes, round by round, up to the round in which it
        returns. */
    method Connect(rounds: seq<Round>) returns (err: Option<string>)
      requires connected || RunEnds(rounds, stopped)
      modifies this
      ensures stopped == old(stopped)
      ensures old(connected) ==> err == None && connected && brokerCalls == old(brokerCalls)
      ensures !old(connected) ==>
        && err == ConnectRun(rounds, stopped).1
        && brokerCalls == old(brokerCalls) + seq(ConnectRun(rounds, stopped).0, _ => ConnectCall)
        && connected == err.None?
    {
      if connected {
        return None;
      }
      var i := 0;
      while true
        invariant 0 <= i <= |rounds| && RunEnds(rounds[i..], stopped)
        invariant ConnectRun(rounds, stopped).0 == i + ConnectRun(rounds[i..], stopped).0
        invariant ConnectRun(rounds, stopped).1 == ConnectRun(rounds[i..], stopped).1
        invariant brokerCalls == old(brokerCalls) + seq(i, _ => ConnectCall)
        invariant !connected && stopped == old(stopped)
        decreases |rounds| - i
      {
        var r := rounds[i];
        var pre := Interruption(r.before, stopped);
        if pre.Some? {
          return pre;
        }
        brokerCalls := brokerCalls + [ConnectCall];
        if r.attemptOk {
          connected := true;
          return None;
        }
        var post := Interruption(r.after, stopped);
        if post.Some? {
          return post;
        }
        ConnectRunStep(rounds, i, stopped);
        assert seq(i, _ => ConnectCall) + [ConnectCall] == seq(i + 1, _ => ConnectCall);
        i := i + 1;
      }
    }

    /** PublishTelemetry. `live` is the underlying client's IsConnected(), `marshalErr` the JSON
        encoder's result and `delivery` how the publish token ended. */
    method PublishTelemetry(stationId: string, t: Telemetry, now: Instant, live: bool,
                            marshalErr: Option<string>, delivery: Delivery)
      returns (err: Option<string>)
      modifies this
      ensures connected == old(connected) && stopped == old(stopped)
      ensures !(connected && live) ==> err == Some(NotConnected) && brokerCalls == old(brokerCalls)
      ensures connected && live && marshalErr.Some? ==>
        err == Some("marshal telemetry: " + marshalErr.value) && brokerCalls == old(brokerCalls)
      ensures connected && live && marshalErr.None? ==>
        && brokerCalls == old(brokerCalls) + [PublishCall(TelemetryTopic(stationId), PublishQos, false,
             TelemetryMessage(StampTelemetry(t, stationId, now)))]
        && err == DeliveryError(delivery, TelemetryTopic(stationId), "telemetry")
    {
      var topic := TelemetryTopic(stationId);
      if !(connected && live) {
        return Some(NotConnected);
      }
      var stamped := StampTelemetry(t, stationId, now);
      if marshalErr.Some? {
        return Some("marshal telemetry: " + marshalErr.value);
      }
      brokerCalls := brokerCalls + [PublishCall(topic, PublishQos, false, TelemetryMessage(stamped))];
      err := DeliveryError(delivery, topic, "telemetry");
    }

    /** PublishStationHealth: like PublishTelemetry, but to the health topic and retained. */
    method PublishStationHealth(h: StationHealth, now: Instant, live: bool,
                                marshalErr: Option<string>, delivery: Delivery)
      returns (err: Option<string>)
      modifies this
      ensures connected == old(connected) && stopped == old(stopped)
      ensures !(connected && live) ==> err == Some(NotConnected) && brokerCalls == old(brokerCalls)
      ensures connected && live && marshalErr.Some? ==>
        err == Some("marshal health: " + marshalErr.value) && brokerCalls == old(brokerCalls)
      ensures connected && live && marshalErr.None? ==>
        && brokerCalls == old(brokerCalls) + [PublishCall(HealthTopic(h.stationId), PublishQos, true,
             HealthMessage(StampHealth(h, now)))]
        && err == DeliveryError(delivery, HealthTopic(h.stationId), "health")
    {
      var topic := HealthTopic(h.stationId);
      if !(connected && live) {
        return Some(NotConnected);
      }
      var stamped := StampHealth(h, now);
      if marshalErr.Some? {
        return Some("marshal health: " + marshalErr.value);
      }
      brokerCalls := brokerCalls + [PublishCall(topic, PublishQos, true, HealthMessage(stamped))];
      err := DeliveryError(delivery, topic, "health");
    }

    /** Disconnect. The stop channel is closed unconditionally, so a second call would panic:
        callers must not have stopped the client already. */
    method Disconnect()
      requires !stopped
      modifies this
      ensures stopped && !connected
      ensures brokerCalls == old(brokerCalls) + (if old(connected) then [DisconnectCall] else [])
    {
      stopped := true;
      if connected {
        brokerCalls := brokerCalls + [DisconnectCall];
        connected := false;
      }
    }
  }
}
