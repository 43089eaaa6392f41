/** The server's MQTT subscriber (server/internal/mqtt/mqtt.go) as a state machine over the
    connected flag, the closed-ness of the stop channel and the message handler. The broker is
    abstracted as in the gateway model: each call the subscriber makes on it is appended to
    `brokerCalls`, and its answers are passed in. The mutex, the stopOnce guard (a flag here) and
    the paho client's own reconnect logic are not modelled. */
module ServerMqtt {
  import opened Wrappers
  import opened Telemetry
  import opened TelemetryValidation
  import LittleEndian

  datatype BrokerCall =
    | ConnectCall
    | SubscribeCall(topic: string, qos: nat)
    | UnsubscribeCall(topic: string)
    | DisconnectCall(quiesceMs: nat)

  /** What the select after an unfinished poll of the connect token observed. */
  datatype Wake = Quiet | ContextDone(error: string) | StopSignal

  /** One 200 ms poll of the connect token: it completed (with the connect error, if any), or it
      had not and the select saw `wake`. */
  datatype Poll = Completed(error: Option<string>) | Pending(wake: Wake)

  /** How the subscribe token ended. */
  datatype SubscribeOutcome = Subscribed | SubscribeTimedOut | SubscribeFailed(error: string)

  const SubscriberStopped := "subscriber stopped"
  const NotConnected := "mqtt client not connected"
  const SubscribeQos: nat := 1

  predicate PollEnds(p: Poll) {
    p.Completed? || p.wake != Quiet
  }

  predicate WaitEnds(polls: seq<Poll>) {
    exists i :: 0 <= i < |polls| && PollEnds(polls[i])
  }

  /** The index of the poll that ends the wait. */
  function EndOfWait(polls: seq<Poll>): (k: nat)
    requires WaitEnds(polls)
    ensures k < |polls| && PollEnds(polls[k])
    ensures forall j :: 0 <= j < k ==> !PollEnds(polls[j])
    decreases |polls|
  {
    if PollEnds(polls[0]) then 0
    else
      assert WaitEnds(polls[1..]) by {
        var i :| 0 <= i < |polls| && PollEnds(polls[i]);
        assert i > 0 && PollEnds(polls[1..][i - 1]);
      }
      var k := EndOfWait(polls[1..]);
      assert PollEnds(polls[1..][k]);
      k + 1
  }

  /** The error of the subscribe step; None when it succeeded. */
  function SubscribeError(connectedNow: bool, topic: string, outcome: SubscribeOutcome): (e: Option<string>)
    ensures e.None? <==> connectedNow && outcome == Subscribed
    ensures !connectedNow ==> e == Some(NotConnected)
  {
    if !connectedNow then Some(NotConnected)
    else match outcome
      case Subscribed => None
      case SubscribeTimedOut => Some("subscribe timeout for topic " + topic)
      case SubscribeFailed(err) => Some("subscribe to " + topic + ": " + err)
  }

  class Subscriber {
    var connected: bool
    /** Whether stopCh has been closed. */
    var stopped: bool
    var hasHandler: bool
    const topic: string
    var brokerCalls: seq<BrokerCall>
    /** Every telemetry value passed to MessageHandler, in order. */
    var handled: seq<Telemetry>

    /** NewSubscriber; the topic is the configured subscription topic. */
    constructor(topic: string)
      ensures this.topic == topic
      ensures !connected && !stopped && !hasHandler && brokerCalls == [] && handled == []
    {
      this.topic := topic;
      connected := false;
      stopped := false;
      hasHandler := false;
      brokerCalls := [];
      handled := [];
    }

    /** SetMessageHandler, with a nil handler as `present == false`. */
    method SetMessageHandler(present: bool)
      modifies this
      ensures hasHandler == present
      ensures connected == old(connected) && stopped == old(stopped)
      ensures brokerCalls == old(brokerCalls) && handled == old(handled)
    {
      hasHandler := present;
    }

    /** The OnConnect and ConnectionLost callbacks: setConnected(true) and setConnected(false). */
    method SetConnected(v: bool)
      modifies this
      ensures connected == v
      ensures stopped == old(stopped) && hasHandler == old(hasHandler)
      ensures brokerCalls == old(brokerCalls) && handled == old(handled)
    {
      connected := v;
    }

    /** IsConnected; `live` is the paho client's own IsConnected(). */
    function IsConnected(live: bool): (r: bool)
      reads this
      ensures r <==> connected && live
    {
      connected && live
    }

    /** Connect. `live` is the paho client's IsConnected() at the fast-path check, `polls` what the
        wait loop observes, `onConnectRan` whether the OnConnect callback has set the flag by the
        time the subscribe step checks it, `liveAtSubscribe` the paho client's IsConnected() then,
        and `outcome` how the subscribe token ends. */
    method Connect(live: bool, polls: seq<Poll>, onConnectRan: bool, liveAtSubscribe: bool,
                   outcome: SubscribeOutcome) returns (err: Option<string>)
      requires stopped || IsConnected(live) || WaitEnds(polls)
      modifies this
      ensures stopped == old(stopped) && hasHandler == old(hasHandler) && handled == old(handled)
      ensures old(stopped) ==> err == Some(SubscriberStopped) && brokerCalls == old(brokerCalls)
      ensures old(stopped) ==> connected == old(connected)
      ensures !old(stopped) && old(IsConnected(live)) ==> err == None && unchanged(this)
      ensures !old(stopped) && !old(IsConnected(live)) ==>
        var p := polls[EndOfWait(polls)];
        && |brokerCalls| > |old(brokerCalls)| && brokerCalls[|old(brokerCalls)|] == ConnectCall
        && connected == (if p.Completed? && p.error.None? then old(connected) || onConnectRan else old(connected))
        && (p.Pending? ==>
              && brokerCalls == old(brokerCalls) + [ConnectCall, DisconnectCall(0)]
              && err == Some(if p.wake.ContextDone? then p.wake.error else SubscriberStopped))
        && (p.Completed? && p.error.Some? ==>
              brokerCalls == old(brokerCalls) + [ConnectCall] && err == Some("mqtt connect: " + p.error.value))
        && (p.Completed? && p.error.None? ==>
              var subErr := SubscribeError((old(connected) || onConnectRan) && liveAtSubscribe, topic, outcome);
              && err == (if subErr.Some? then Some("subscribe: " + subErr.value) else None)
              && brokerCalls == old(brokerCalls) + [ConnectCall]
                   + (if (old(connected) || onConnectRan) && liveAtSubscribe then [SubscribeCall(topic, SubscribeQos)] else [])
                   + (if subErr.Some? then [DisconnectCall(0)] else []))
    {
      if stopped {
        return Some(SubscriberStopped);
      }
      if IsConnected(live) {
        return None;
      }
      brokerCalls := brokerCalls + [ConnectCall];
      var i := 0;
      while true
        invariant 0 <= i <= EndOfWait(polls)
        invariant brokerCalls == old(brokerCalls) + [ConnectCall]
        invariant connected == old(connected) && stopped == old(stopped)
        invariant hasHandler == old(hasHandler) && handled == old(handled)
        decreases EndOfWait(polls) - i
      {
        var p := polls[i];
        if p.Completed? {
          if p.error.Some? {
            return Some("mqtt connect: " + p.error.value);
          }
          break;
        }
        if p.wake.ContextDone? {
          brokerCalls := brokerCalls + [DisconnectCall(0)];
          return Some(p.wake.error);
        }
        if p.wake.StopSignal? {
          brokerCalls := brokerCalls + [DisconnectCall(0)];
          return Some(SubscriberStopped);
        }
        i := i + 1;
      }
      if onConnectRan {
        connected := true;
      }
      var subErr := Subscribe(liveAtSubscribe, outcome);
      if subErr.Some? {
        brokerCalls := brokerCalls + [DisconnectCall(0)];
        return Some("subscribe: " + subErr.value);
      }
      return None;
    }

    /** subscribe: requires a live connection, then subscribes to the topic at QoS 1. */
    method Subscribe(live: bool, outcome: SubscribeOutcome) returns (err: Option<string>)
      modifies this
      ensures err == SubscribeError(old(IsConnected(live)), topic, outcome)
      ensures connected == old(connected) && stopped == old(stopped)
      ensures hasHandler == old(hasHandler) && handled == old(handled)
      ensures brokerCalls == old(brokerCalls) + (if old(IsConnected(live)) then [SubscribeCall(topic, SubscribeQos)] else [])
    {
      if !IsConnected(live) {
        return Some(NotConnected);
      }
      brokerCalls := brokerCalls + [SubscribeCall(topic, SubscribeQos)];
      err := SubscribeError(true, topic, outcome);
    }

    /** handleMessage: undecodable or invalid telemetry is dropped; valid telemetry goes to the
        handler when one is set. */
    method HandleMessage(payload: seq<LittleEndian.byte>, parse: seq<LittleEndian.byte> -> Option<Telemetry>)
      modifies this
      ensures connected == old(connected) && stopped == old(stopped) && hasHandler == old(hasHandler)
      ensures brokerCalls == old(brokerCalls)
      ensures handled == old(handled)
        + (if hasHandler && parse(payload).Some? && Valid(parse(payload).value) then [parse(payload).value] else [])
    {
      var decoded := parse(payload);
      if decoded.None? {
        return;
      }
      var t := decoded.value;
      ValidateAcceptsValid(t);
      if ValidateTelemetry(t).Some? {
        return;
      }
      if hasHandler {
        handled := handled + [t];
      }
    }

    /** Disconnect: close the stop channel once, unsubscribe while connected, disconnect with a
        250 ms quiesce, and clear the flag. Safe to call any number of times. */
    method Disconnect(live: bool)
      modifies this
      ensures stopped && !connected
      ensures hasHandler == old(hasHandler) && handled == old(handled)
      ensures brokerCalls == old(brokerCalls)
        + (if old(IsConnected(live)) then [UnsubscribeCall(topic)] else []) + [DisconnectCall(250)]
    {
      stopped := true;
      if IsConnected(live) {
        brokerCalls := brokerCalls + [UnsubscribeCall(topic)];
      }
      brokerCalls := brokerCalls + [DisconnectCall(250)];
      connected := false;
    }
  }

  /** After Disconnect, Connect fails at once without contacting the broker, and a second
      Disconnect leaves the subscriber stopped and disconnected again. */
  method DisconnectThenConnect(s: Subscriber, live: bool, polls: seq<Poll>)
    modifies s
  {
    s.Disconnect(live);
    var calls := s.brokerCalls;
    var err := s.Connect(live, polls, false, false, Subscribed);
    assert err == Some(SubscriberStopped) && s.brokerCalls == calls;
    s.Disconnect(live);
    assert s.stopped && !s.connected;
  }
}
