/** The MQTT session bridge of iotc_wiced_mqtt.c. Three globals carry the
    session: `is_connected`, the single slot `expected_event` that the transport
    callback overwrites, and a semaphore the callback signals and the blocking
    operations take. The WICED MQTT library is an oracle: what each of its
    calls returns, and which events its callback thread delivers while an
    operation waits, are inputs. The semaphore is a count; a wait succeeds when
    the count is positive after the events delivered within the deadline. */
module Mqtt {
  import opened Common
  import opened Sync

  const DEFAULT_MQTT_TIMEOUT_MS: uint32 := 10000
  const IOTC_SDK_RESOLVE_TIMEOUT_MS: nat := 10000
  const IOTC_SDK_KEEPALIVE_INTERVAL_SECS: nat := 30
  const MQTT_BROKER_PORT: nat := 8883
  const MQTT_PROTOCOL_VER4: nat := 4
  const MQTT_PEER_CN: string := "*.azure-devices.net"
  const QOS_DELIVER_AT_LEAST_ONCE: nat := 1
  const CONN_ERR_CODE_NONE: nat := 0

  /** wiced_mqtt_event_type_t; the zero-initialised `expected_event` holds the first member. */
  datatype EventType = ConnectReqStatus | Disconnected | Published | Subscribed | Unsubscribed | PublishMsgReceived | UnknownEvent

  /** An event the transport delivers to mqtt_connection_event_cb, with its payload. */
  datatype MqttEvent =
    | ConnectAck(errCode: nat)
    | DisconnectedEvent
    | PublishedEvent(msgid: nat)
    | SubscribedEvent
    | UnsubscribedEvent
    | MessageReceived(data: seq<char>, topic: seq<char>)
    | OtherEvent

  function TypeOf(e: MqttEvent): EventType {
    match e
    case ConnectAck(_) => ConnectReqStatus
    case DisconnectedEvent => Disconnected
    case PublishedEvent(_) => Published
    case SubscribedEvent => Subscribed
    case UnsubscribedEvent => Unsubscribed
    case MessageReceived(_, _) => PublishMsgReceived
    case OtherEvent => UnknownEvent
  }

  /** IOT_CONNECT_STATUS as the bridge reports it. */
  datatype Status = Undefined | MqttConnected | MqttDisconnected | MqttFailed | MqttPublished

  /** A call the bridge makes through its configuration: status_cb or data_cb. */
  datatype Callback = StatusCallback(status: Status, msgid: Option<nat>) | DataCallback(data: seq<char>, topic: seq<char>)

  /** The three globals the callback and the waits share. */
  datatype BridgeState = BridgeState(isConnected: bool, expectedEvent: EventType, semaphore: nat)

  /** The events whose handling dereferences `config`. */
  predicate NeedsConfig(e: MqttEvent) {
    e.ConnectAck? || e.DisconnectedEvent? || e.PublishedEvent? || e.MessageReceived?
  }

  /** The globals after mqtt_connection_event_cb handles `e`. A connect acknowledgement sets
      `is_connected` to whether the error code is NOT "none"; the code does that, and it is
      kept here as written. */
  function StepState(s: BridgeState, e: MqttEvent): BridgeState {
    match e
    case ConnectAck(code) => BridgeState(code != CONN_ERR_CODE_NONE, ConnectReqStatus, s.semaphore + 1)
    case DisconnectedEvent => s.(isConnected := false)
    case PublishedEvent(_) => s.(expectedEvent := Published)
    case SubscribedEvent => s.(expectedEvent := Subscribed, semaphore := s.semaphore + 1)
    case _ => s
  }

  /** The callbacks mqtt_connection_event_cb makes for `e`. */
  function Callbacks(e: MqttEvent): seq<Callback> {
    match e
    case ConnectAck(code) => [StatusCallback(if code != CONN_ERR_CODE_NONE then MqttFailed else MqttConnected, None)]
    case DisconnectedEvent => [StatusCallback(MqttDisconnected, None)]
    case PublishedEvent(id) => [StatusCallback(MqttPublished, Some(id))]
    case MessageReceived(d, t) => [DataCallback(d, t)]
    case _ => []
  }

  /** The globals after a run of events, in order of arrival. */
  function Deliver(s: BridgeState, es: seq<MqttEvent>): BridgeState
    decreases |es|
  {
    if es == [] then s else Deliver(StepState(s, es[0]), es[1..])
  }

  function DeliverCallbacks(es: seq<MqttEvent>): seq<Callback>
    decreases |es|
  {
    if es == [] then [] else Callbacks(es[0]) + DeliverCallbacks(es[1..])
  }

  /** The events that signal the semaphore: connect acknowledgements and subscribe acknowledgements. */
  predicate Signals(e: MqttEvent) {
    e.ConnectAck? || e.SubscribedEvent?
  }

  function CountSignals(es: seq<MqttEvent>): nat
    decreases |es|
  {
    if es == [] then 0 else (if Signals(es[0]) then 1 else 0) + CountSignals(es[1..])
  }

  /** The events that overwrite `expected_event`; a publish acknowledgement does, without signalling. */
  predicate Records(e: MqttEvent) {
    e.ConnectAck? || e.PublishedEvent? || e.SubscribedEvent?
  }

  /** The semaphore ends up signalled once per connect or subscribe acknowledgement; nothing
      else (a publish acknowledgement included) signals it. */
  lemma {:induction false} SemaphoreCountsSignals(s: BridgeState, es: seq<MqttEvent>)
    ensures Deliver(s, es).semaphore == s.semaphore + CountSignals(es)
    decreases |es|
  {
    if es != [] {
      SemaphoreCountsSignals(StepState(s, es[0]), es[1..]);
    }
  }

  /** Delivering two runs of events one after the other is delivering their concatenation. */
  lemma {:induction false} DeliverConcat(s: BridgeState, a: seq<MqttEvent>, b: seq<MqttEvent>)
    ensures Deliver(s, a + b) == Deliver(Deliver(s, a), b)
    decreases |a|
  {
    if a == [] {
      assert a + b == b;
    } else {
      assert (a + b)[0] == a[0] && (a + b)[1..] == a[1..] + b;
      DeliverConcat(StepState(s, a[0]), a[1..], b);
    }
  }

  /** Events that record nothing leave `expected_event` as it was. */
  lemma {:induction false} UnrecordedKeepsExpected(s: BridgeState, es: seq<MqttEvent>)
    requires forall k :: 0 <= k < |es| ==> !Records(es[k])
    ensures Deliver(s, es).expectedEvent == s.expectedEvent
    decreases |es|
  {
    if es != [] {
      assert !Records(es[0]);
      var tail := es[1..];
      forall j | 0 <= j < |tail| ensures !Records(tail[j]) {
        assert tail[j] == es[j + 1];
      }
      UnrecordedKeepsExpected(StepState(s, es[0]), tail);
    }
  }

  /** `expected_event` is the kind of the last event that records one: a publish
      acknowledgement arriving after a connect or subscribe acknowledgement hides it. */
  lemma LastRecordedWins(s: BridgeState, es: seq<MqttEvent>, k: nat)
    requires k < |es| && Records(es[k])
    requires forall j :: k < j < |es| ==> !Records(es[j])
    ensures Deliver(s, es).expectedEvent == TypeOf(es[k])
  {
    var before, after := es[..k], es[k + 1..];
    assert es == before + [es[k]] + after;
    DeliverConcat(s, before + [es[k]], after);
    DeliverConcat(s, before, [es[k]]);
    forall j | 0 <= j < |after| ensures !Records(after[j]) {
      assert after[j] == es[k + 1 + j];
    }
    UnrecordedKeepsExpected(Deliver(s, before + [es[k]]), after);
  }

  /** mqtt_wait_for succeeds iff a signal is there to take and `expected_event` is the awaited kind. */
  predicate WaitSucceeds(s: BridgeState, awaited: EventType) {
    s.semaphore > 0 && s.expectedEvent == awaited
  }

  /** The globals after the wait: an available signal is taken, matching or not. */
  function AfterWait(s: BridgeState): BridgeState {
    if s.semaphore > 0 then s.(semaphore := s.semaphore - 1) else s
  }

  /** A wait with no signal pending and no acknowledgement arriving times out, whatever is
      recorded; and once the signals are there, the wait still fails unless the last
      recording event was of the awaited kind. */
  lemma WaitNeedsAck(s: BridgeState, es: seq<MqttEvent>, awaited: EventType)
    ensures s.semaphore == 0 && CountSignals(es) == 0 ==> !WaitSucceeds(Deliver(s, es), awaited)
    ensures |es| > 0 && Records(es[|es| - 1]) ==>
              (WaitSucceeds(Deliver(s, es), awaited) <==> TypeOf(es[|es| - 1]) == awaited && s.semaphore + CountSignals(es) > 0)
  {
    SemaphoreCountsSignals(s, es);
    if |es| > 0 && Records(es[|es| - 1]) {
      LastRecordedWins(s, es, |es| - 1);
    }
  }

  /** The connection parameters mqtt_conn_open passes to wiced_mqtt_connect. */
  datatype ConnectInfo = ConnectInfo(
    port: nat, version: nat, cleanSession: nat, clientId: string,
    keepAlive: nat, password: string, username: string, peerCn: string)

  function ConnectInfoFor(clientId: string, username: string, password: string, keepAliveSecs: nat): ConnectInfo {
    ConnectInfo(MQTT_BROKER_PORT, MQTT_PROTOCOL_VER4, 1, clientId, keepAliveSecs, password, username, MQTT_PEER_CN)
  }

  /** A call the bridge makes into the WICED libraries, or a wait on the semaphore. */
  datatype TransportCall =
    | HostnameLookup(host: string, timeoutMs: nat)
    | MqttInitCall
    | ConnectCall(info: ConnectInfo)
    | WaitCall(awaited: EventType, deadlineMs: uint32)
    | SubscribeCall(topic: string, qos: nat)
    | UnsubscribeCall(topic: string)
    | PublishCall(topic: string, data: seq<char>, qos: nat)
    | DisconnectCall
    | DeinitCall

  /** `config->mqtt_timeout_ms * 2` in uint32_t arithmetic. */
  function Doubled(t: uint32): uint32 {
    (t * 2) % UINT32_LIMIT
  }

  /** Lines 249-251: zero means the default. */
  function EffectiveTimeout(t: uint32): (r: uint32)
    ensures r != 0
    ensures t == 0 ==> r == DEFAULT_MQTT_TIMEOUT_MS
    ensures t != 0 ==> r == t
  {
    if t == 0 then DEFAULT_MQTT_TIMEOUT_MS else t
  }

  /** What the libraries answer during iotc_wiced_mqtt_init: the malloc of the MQTT object,
      the DNS lookup (result and IPv4 address), wiced_mqtt_init, wiced_mqtt_connect, the
      events delivered during the connect wait, the subscribe packet id, and the events
      delivered during the subscribe wait. */
  datatype InitAnswers = InitAnswers(
    allocOk: bool, lookup: WicedResult, ipv4: uint32, mqttInit: WicedResult,
    connect: WicedResult, connectArrivals: seq<MqttEvent>,
    subscribePktId: nat, subscribeArrivals: seq<MqttEvent>)

  /** The outcome of the steps of iotc_wiced_mqtt_init after the configuration checks. */
  datatype InitRun = InitRun(ret: WicedResult, calls: seq<TransportCall>, state: BridgeState, callbacks: seq<Callback>)

  /** iotc_wiced_mqtt_init from the malloc on, with timeout `t` already defaulted: each step
      that fails ends the run with its own result. */
  function InitSpec(b: Broker, t: uint32, s: BridgeState, a: InitAnswers): InitRun {
    var lookup := [HostnameLookup(b.host, IOTC_SDK_RESOLVE_TIMEOUT_MS)];
    if !a.allocOk then InitRun(OutOfHeapSpace, [], s, [])
    else if a.lookup == Error || a.ipv4 == 0 then InitRun(a.lookup, lookup, s, [])
    else if a.mqttInit != Success then InitRun(a.mqttInit, lookup + [MqttInitCall], s, [])
    else
      var r := SessionSpec(b, t, s.(semaphore := 0), a);
      InitRun(r.ret, lookup + [MqttInitCall] + r.calls, r.state, r.callbacks)
  }

  /** The session part of iotc_wiced_mqtt_init (lines 281-305), from the freshly
      initialised semaphore: connect and wait, then subscribe and wait. */
  function SessionSpec(b: Broker, t: uint32, s: BridgeState, a: InitAnswers): InitRun {
    var connect := [ConnectCall(ConnectInfoFor(b.clientId, b.userName, b.pass, IOTC_SDK_KEEPALIVE_INTERVAL_SECS))];
    var s2 := Deliver(s, a.connectArrivals);
    var s3 := AfterWait(s2);
    var s4 := Deliver(s3, a.subscribeArrivals);
    var c2 := connect + [WaitCall(ConnectReqStatus, Doubled(t))];
    var c3 := c2 + [SubscribeCall(b.subTopic, QOS_DELIVER_AT_LEAST_ONCE)];
    if a.connect != Success then InitRun(Error, connect, s, [])
    else if !WaitSucceeds(s2, ConnectReqStatus) then InitRun(Error, c2, s3, DeliverCallbacks(a.connectArrivals))
    else if a.subscribePktId == 0 then InitRun(Error, c3, s3, DeliverCallbacks(a.connectArrivals))
    else InitRun(if WaitSucceeds(s4, Subscribed) then Success else Error,
                 c3 + [WaitCall(Subscribed, t)], AfterWait(s4),
                 DeliverCallbacks(a.connectArrivals) + DeliverCallbacks(a.subscribeArrivals))
  }

  /** The full sequence of a session that comes up: resolve, init, connect with the fixed
      parameters, wait 2x the timeout for the connect acknowledgement, subscribe to the
      devicebound topic at QoS 1, wait 1x the timeout for the subscribe acknowledgement. */
  function FullInitCalls(b: Broker, t: uint32): seq<TransportCall> {
    [HostnameLookup(b.host, IOTC_SDK_RESOLVE_TIMEOUT_MS), MqttInitCall,
     ConnectCall(ConnectInfoFor(b.clientId, b.userName, b.pass, IOTC_SDK_KEEPALIVE_INTERVAL_SECS)),
     WaitCall(ConnectReqStatus, Doubled(t)),
     SubscribeCall(b.subTopic, QOS_DELIVER_AT_LEAST_ONCE),
     WaitCall(Subscribed, t)]
  }

  /** Init reports success only after the full sequence with both acknowledgements taken,
      or (as written, line 263-265) when the lookup succeeded with address 0, in which case
      it stops before connecting. */
  lemma InitSuccessShape(b: Broker, t: uint32, s: BridgeState, a: InitAnswers)
    ensures var r := InitSpec(b, t, s, a);
      r.ret == Success ==>
        || (a.lookup == Success && a.ipv4 == 0 && r.calls == [HostnameLookup(b.host, IOTC_SDK_RESOLVE_TIMEOUT_MS)])
        || (&& r.calls == FullInitCalls(b, t)
            && WaitSucceeds(Deliver(s.(semaphore := 0), a.connectArrivals), ConnectReqStatus)
            && WaitSucceeds(Deliver(AfterWait(Deliver(s.(semaphore := 0), a.connectArrivals)), a.subscribeArrivals), Subscribed))
  {
  }

  /** Init stops at the first failing step and returns that step's result; no connect is
      attempted unless allocation, the lookup and wiced_mqtt_init all succeeded. */
  lemma InitStopsAtFirstFailure(b: Broker, t: uint32, s: BridgeState, a: InitAnswers)
    ensures var r := InitSpec(b, t, s, a);
      && (!a.allocOk ==> r.ret == OutOfHeapSpace && r.calls == [])
      && (a.allocOk && (a.lookup == Error || a.ipv4 == 0) ==> r.ret == a.lookup && |r.calls| == 1)
      && (a.allocOk && a.lookup != Error && a.ipv4 != 0 && a.mqttInit != Success ==> r.ret == a.mqttInit && |r.calls| == 2)
      && (a.allocOk && a.lookup != Error && a.ipv4 != 0 && a.mqttInit == Success && a.connect != Success ==>
            r.ret == Error && |r.calls| == 3)
      && (|r.calls| > 2 ==> r.calls[..3] == FullInitCalls(b, t)[..3])
      && (forall k :: 0 <= k < |r.calls| ==> r.calls[k] == FullInitCalls(b, t)[k])
  {
  }

  /** The connection acknowledgement with no error code lets the connect wait succeed and
      leaves `is_connected` false; an error code also lets the wait succeed (only the event
      kind is checked) and sets `is_connected` true. */
  lemma ConnectAckAsWritten(s: BridgeState, es: seq<MqttEvent>, code: nat)
    ensures var s' := Deliver(s, es + [ConnectAck(code)]);
      WaitSucceeds(s', ConnectReqStatus) && s'.isConnected == (code != CONN_ERR_CODE_NONE)
  {
    DeliverConcat(s, es, [ConnectAck(code)]);
  }

  /** What iotc_wiced_mqtt_deinit does after deinitialising the semaphore: the calls it
      makes, whether it drops the configuration, and whether it dereferences NULL. */
  datatype Teardown = Teardown(calls: seq<TransportCall>, clearsConfig: bool, faulted: bool)

  /** iotc_wiced_mqtt_deinit as written, given the devicebound topic it reads through
      `config->sr` (None when `config` or its sync response is NULL). With no topic to read
      it dereferences NULL. Otherwise it unsubscribes, deinitialises the library only after
      a successful unsubscribe, and drops the configuration only when both succeed. */
  function DeinitAsWritten(subTopic: Option<string>, unsubscribePktId: nat, deinit: WicedResult): (r: Teardown)
    ensures r.faulted <==> subTopic.None?
    ensures r.clearsConfig <==> subTopic.Some? && unsubscribePktId != 0 && deinit == Success
    ensures subTopic.None? ==> r.calls == []
    ensures subTopic.Some? ==> |r.calls| >= 1 && r.calls[0] == UnsubscribeCall(subTopic.value)
    ensures (DeinitCall in r.calls) <==> subTopic.Some? && unsubscribePktId != 0
  {
    if subTopic.None? then Teardown([], false, true)
    else if unsubscribePktId == 0 then Teardown([UnsubscribeCall(subTopic.value)], false, false)
    else Teardown([UnsubscribeCall(subTopic.value), DeinitCall], deinit == Success, false)
  }

  /** The teardown the code evidently intends: with no configuration left there is nothing
      to unsubscribe from, so nothing is called and nothing is dereferenced. */
  function DeinitGuarded(subTopic: Option<string>, unsubscribePktId: nat, deinit: WicedResult): (r: Teardown)
    ensures !r.faulted
  {
    if subTopic.None? then Teardown([], false, false) else DeinitAsWritten(subTopic, unsubscribePktId, deinit)
  }

  /** As written, a teardown that succeeds leaves no configuration, and the next teardown
      (ON_CLOSE followed by the demo's final IotConnectSdk_Disconnect, or a second ON_CLOSE)
      then dereferences NULL. */
  lemma SecondTeardownFaults(sub: string, p: nat, d: WicedResult, p2: nat, d2: WicedResult)
    requires p != 0 && d == Success
    ensures DeinitAsWritten(Some(sub), p, d).clearsConfig
    ensures DeinitAsWritten(None, p2, d2).faulted
  {
  }

  /** The guarded teardown does what the code does whenever a session is there, and is
      idempotent: after a teardown that dropped the configuration, another one does nothing. */
  lemma GuardedTeardownIdempotent(sub: Option<string>, p: nat, d: WicedResult, p2: nat, d2: WicedResult)
    ensures sub.Some? ==> DeinitGuarded(sub, p, d) == DeinitAsWritten(sub, p, d)
    ensures DeinitGuarded(sub, p, d).clearsConfig ==> DeinitGuarded(None, p2, d2) == Teardown([], false, false)
  {
  }

  /** IotconnectMqttConfig: kept by the caller and shared with the bridge by pointer. */
  class MqttConfig {
    var sr: Option<SyncResponse>
    var timeoutMs: uint32
    var hasDataCb: bool
    var hasStatusCb: bool

    /** A zeroed configuration (memset to 0). */
    constructor ()
      ensures sr == None && timeoutMs == 0 && !hasDataCb && !hasStatusCb
    {
      sr := None;
      timeoutMs := 0;
      hasDataCb := false;
      hasStatusCb := false;
    }
  }

  class MqttBridge {
    var config: MqttConfig?
    var isConnected: bool
    var expectedEvent: EventType
    var semaphore: nat
    /** mqtt_object is non-NULL. */
    var hasObject: bool
    var brokerAddress: uint32
    /** Every call into the WICED libraries, in order. */
    var trace: seq<TransportCall>
    /** A NULL `config` or `config->sr` was dereferenced; the C behaviour from there on is undefined. */
    var faulted: bool

    function State(): BridgeState
      reads this
    {
      BridgeState(isConnected, expectedEvent, semaphore)
    }

    /** The broker of the sync response `config` points at, when both pointers are set. */
    function SessionBroker(): Option<Broker>
      reads this, config
    {
      if config == null || config.sr.None? then None else Some(config.sr.value.broker)
    }

    /** `config->sr->broker.sub_topic`, when both pointers are set. */
    function SubTopic(): Option<string>
      reads this, config
    {
      if config == null || config.sr.None? then None else Some(config.sr.value.broker.subTopic)
    }

    /** The static initial values. */
    constructor ()
      ensures config == null && State() == BridgeState(false, ConnectReqStatus, 0)
      ensures !hasObject && brokerAddress == 0 && trace == [] && !faulted
    {
      config := null;
      isConnected := false;
      expectedEvent := ConnectReqStatus;
      semaphore := 0;
      hasObject := false;
      brokerAddress := 0;
      trace := [];
      faulted := false;
    }

    /** mqtt_connection_event_cb. */
    method OnEvent(e: MqttEvent) returns (cbs: seq<Callback>)
      requires NeedsConfig(e) ==> config != null
      modifies this
      ensures State() == StepState(old(State()), e) && cbs == Callbacks(e)
      ensures config == old(config) && trace == old(trace)
      ensures hasObject == old(hasObject) && brokerAddress == old(brokerAddress) && faulted == old(faulted)
    {
      cbs := [];
      match e
      case ConnectAck(code) =>
        expectedEvent := ConnectReqStatus;
        semaphore := semaphore + 1;
        if code != CONN_ERR_CODE_NONE {
          isConnected := true;
          cbs := [StatusCallback(MqttFailed, None)];
        } else {
          isConnected := false;
          cbs := [StatusCallback(MqttConnected, None)];
        }
      case DisconnectedEvent =>
        isConnected := false;
        cbs := [StatusCallback(MqttDisconnected, None)];
      case PublishedEvent(id) =>
        expectedEvent := Published;
        cbs := [StatusCallback(MqttPublished, Some(id))];
      case SubscribedEvent =>
        expectedEvent := Subscribed;
        semaphore := semaphore + 1;
      case MessageReceived(d, t) =>
        cbs := [DataCallback(d, t)];
      case UnsubscribedEvent =>
      case OtherEvent =>
    }

    /** mqtt_wait_for, with `arrivals` the events the callback thread delivers before the deadline. */
    method WaitFor(awaited: EventType, timeoutMs: uint32, arrivals: seq<MqttEvent>) returns (ret: WicedResult, cbs: seq<Callback>)
      requires config != null
      modifies this
      ensures ret == (if WaitSucceeds(Deliver(old(State()), arrivals), awaited) then Success else Error)
      ensures State() == AfterWait(Deliver(old(State()), arrivals)) && cbs == DeliverCallbacks(arrivals)
      ensures trace == old(trace) + [WaitCall(awaited, timeoutMs)] && config == old(config)
      ensures hasObject == old(hasObject) && brokerAddress == old(brokerAddress) && faulted == old(faulted)
    {
      trace := trace + [WaitCall(awaited, timeoutMs)];
      ghost var t := trace;
      cbs := [];
      var i := 0;
      while i < |arrivals|
        invariant 0 <= i <= |arrivals| && config == old(config) && trace == t
        invariant hasObject == old(hasObject) && brokerAddress == old(brokerAddress) && faulted == old(faulted)
        invariant Deliver(State(), arrivals[i..]) == Deliver(old(State()), arrivals)
        invariant cbs + DeliverCallbacks(arrivals[i..]) == DeliverCallbacks(arrivals)
      {
        assert arrivals[i..][1..] == arrivals[i + 1..];
        var more := OnEvent(arrivals[i]);
        ConcatAssoc(cbs, more, DeliverCallbacks(arrivals[i + 1..]));
        cbs := cbs + more;
        i := i + 1;
      }
      assert arrivals[i..] == [];
      assert cbs == cbs + [];
      if semaphore == 0 {
        return Error, cbs;
      }
      semaphore := semaphore - 1;
      if awaited != expectedEvent {
        return Error, cbs;
      }
      return Success, cbs;
    }

    /** mqtt_conn_open: connect with the fixed parameters and wait twice the timeout for the acknowledgement. */
    method ConnOpen(clientId: string, username: string, password: string, keepAliveSecs: nat,
                    connect: WicedResult, arrivals: seq<MqttEvent>) returns (ret: WicedResult, cbs: seq<Callback>)
      requires config != null
      modifies this
      ensures config == old(config) && hasObject == old(hasObject) && brokerAddress == old(brokerAddress) && faulted == old(faulted)
      ensures var info := ConnectInfoFor(clientId, username, password, keepAliveSecs);
        && (connect != Success ==> ret == Error && cbs == [] && State() == old(State())
                                    && trace == old(trace) + [ConnectCall(info)])
        && (connect == Success ==>
              && ret == (if WaitSucceeds(Deliver(old(State()), arrivals), ConnectReqStatus) then Success else Error)
              && State() == AfterWait(Deliver(old(State()), arrivals)) && cbs == DeliverCallbacks(arrivals)
              && trace == old(trace) + [ConnectCall(info), WaitCall(ConnectReqStatus, Doubled(config.timeoutMs))])
    {
      var info := ConnectInfoFor(clientId, username, password, keepAliveSecs);
      trace := trace + [ConnectCall(info)];
      if connect != Success {
        return Error, [];
      }
      ret, cbs := WaitFor(ConnectReqStatus, Doubled(config.timeoutMs), arrivals);
    }

    /** mqtt_sdk_subscribe: a packet id of 0 fails at once; otherwise wait one timeout for the acknowledgement. */
    method Subscribe(topic: string, qos: nat, pktId: nat, arrivals: seq<MqttEvent>) returns (ret: WicedResult, cbs: seq<Callback>)
      requires config != null
      modifies this
      ensures config == old(config) && hasObject == old(hasObject) && brokerAddress == old(brokerAddress) && faulted == old(faulted)
      ensures pktId == 0 ==> ret == Error && cbs == [] && State() == old(State())
                             && trace == old(trace) + [SubscribeCall(topic, qos)]
      ensures pktId != 0 ==>
                && ret == (if WaitSucceeds(Deliver(old(State()), arrivals), Subscribed) then Success else Error)
                && State() == AfterWait(Deliver(old(State()), arrivals)) && cbs == DeliverCallbacks(arrivals)
                && trace == old(trace) + [SubscribeCall(topic, qos), WaitCall(Subscribed, config.timeoutMs)]
    {
      trace := trace + [SubscribeCall(topic, qos)];
      if pktId == 0 {
        return Error, [];
      }
      ret, cbs := WaitFor(Subscribed, config.timeoutMs, arrivals);
    }

    /** mqtt_sdk_unsubscribe: fails when the packet id is 0; does not wait. */
    method Unsubscribe(topic: string, pktId: nat) returns (ret: WicedResult)
      modifies this
      ensures ret == (if pktId == 0 then Error else Success)
      ensures trace == old(trace) + [UnsubscribeCall(topic)]
      ensures State() == old(State()) && config == old(config)
      ensures hasObject == old(hasObject) && brokerAddress == old(brokerAddress) && faulted == old(faulted)
    {
      trace := trace + [UnsubscribeCall(topic)];
      ret := if pktId == 0 then Error else Success;
    }

    /** Lines 281-305: open the connection and subscribe to the devicebound topic. */
    method OpenSession(a: InitAnswers) returns (ret: WicedResult, cbs: seq<Callback>)
      requires config != null && config.sr.Some?
      modifies this
      ensures config == old(config) && hasObject == old(hasObject) && brokerAddress == old(brokerAddress) && faulted == old(faulted)
      ensures var r := SessionSpec(config.sr.value.broker, config.timeoutMs, old(State()), a);
        ret == r.ret && trace == old(trace) + r.calls && State() == r.state && cbs == r.callbacks
    {
      var b := config.sr.value.broker;
      var more;
      ret, cbs := ConnOpen(b.clientId, b.userName, b.pass, IOTC_SDK_KEEPALIVE_INTERVAL_SECS, a.connect, a.connectArrivals);
      if ret != Success {
        return ret, cbs;
      }
      ret, more := Subscribe(b.subTopic, QOS_DELIVER_AT_LEAST_ONCE, a.subscribePktId, a.subscribeArrivals);
      cbs := cbs + more;
    }

    /** The steps of iotc_wiced_mqtt_init after the configuration checks (lines 253-305). */
    method RunInit(a: InitAnswers) returns (ret: WicedResult, cbs: seq<Callback>)
      requires config != null && config.sr.Some?
      modifies this
      ensures config == old(config) && faulted == old(faulted)
      ensures hasObject == a.allocOk && brokerAddress == (if a.allocOk then a.ipv4 else old(brokerAddress))
      ensures var r := InitSpec(config.sr.value.broker, config.timeoutMs, old(State()), a);
        ret == r.ret && trace == old(trace) + r.calls && State() == r.state && cbs == r.callbacks
    {
      var b := config.sr.value.broker;
      ghost var t, s0, t0 := config.timeoutMs, State(), trace;
      var lookup := [HostnameLookup(b.host, IOTC_SDK_RESOLVE_TIMEOUT_MS)];
      hasObject := a.allocOk;
      if !a.allocOk {
        assert InitSpec(b, t, s0, a) == InitRun(OutOfHeapSpace, [], s0, []);
        return OutOfHeapSpace, [];
      }
      trace := trace + lookup;
      brokerAddress := a.ipv4;
      if a.lookup == Error || brokerAddress == 0 {
        assert InitSpec(b, t, s0, a) == InitRun(a.lookup, lookup, s0, []);
        return a.lookup, [];
      }
      trace := trace + [MqttInitCall];
      if a.mqttInit != Success {
        assert InitSpec(b, t, s0, a) == InitRun(a.mqttInit, lookup + [MqttInitCall], s0, []);
        return a.mqttInit, [];
      }
      semaphore := 0;
      ghost var r := SessionSpec(b, t, s0.(semaphore := 0), a);
      assert InitSpec(b, t, s0, a) == InitRun(r.ret, lookup + [MqttInitCall] + r.calls, r.state, r.callbacks);
      ret, cbs := OpenSession(a);
      ConcatAssoc(t0, lookup + [MqttInitCall], r.calls);
    }

    /** iotc_wiced_mqtt_init: a NULL configuration, a missing sync response or a missing
        callback is refused with BADARG before anything is allocated (the pointer is stored
        once it is not NULL); a zero timeout becomes the default; then the steps run. */
    method Init(cfg: MqttConfig?, a: InitAnswers) returns (ret: WicedResult, cbs: seq<Callback>)
      modifies this, cfg
      ensures cfg == null ==> ret == BadArg && cbs == [] && config == old(config)
      ensures cfg != null ==> config == cfg && cfg.sr == old(cfg.sr)
                              && cfg.hasDataCb == old(cfg.hasDataCb) && cfg.hasStatusCb == old(cfg.hasStatusCb)
      ensures cfg != null && (old(cfg.sr).None? || !old(cfg.hasDataCb) || !old(cfg.hasStatusCb)) ==>
                ret == BadArg && cbs == [] && cfg.timeoutMs == old(cfg.timeoutMs)
      ensures faulted == old(faulted)
      ensures cfg == null || old(cfg.sr).None? || !old(cfg.hasDataCb) || !old(cfg.hasStatusCb) ==>
                trace == old(trace) && State() == old(State()) && hasObject == old(hasObject) && brokerAddress == old(brokerAddress)
      ensures cfg != null && old(cfg.sr).Some? && old(cfg.hasDataCb) && old(cfg.hasStatusCb) ==>
                && cfg.timeoutMs == EffectiveTimeout(old(cfg.timeoutMs))
                && hasObject == a.allocOk && brokerAddress == (if a.allocOk then a.ipv4 else old(brokerAddress))
                && var r := InitSpec(old(cfg.sr).value.broker, cfg.timeoutMs, old(State()), a);
                   ret == r.ret && trace == old(trace) + r.calls && State() == r.state && cbs == r.callbacks
    {
      if cfg == null {
        return BadArg, [];
      }
      config := cfg;
      if cfg.sr.None? {
        return BadArg, [];
      }
      if !cfg.hasDataCb || !cfg.hasStatusCb {
        return BadArg, [];
      }
      if cfg.timeoutMs == 0 {
        cfg.timeoutMs := DEFAULT_MQTT_TIMEOUT_MS;
      }
      ret, cbs := RunInit(a);
    }

    /** iotc_wiced_mqtt_disconnect: the transport is asked to disconnect only when `is_connected`. */
    method Disconnect()
      modifies this
      ensures trace == old(trace) + (if old(isConnected) then [DisconnectCall] else [])
      ensures State() == old(State()) && config == old(config)
      ensures hasObject == old(hasObject) && brokerAddress == old(brokerAddress) && faulted == old(faulted)
    {
      if isConnected {
        trace := trace + [DisconnectCall];
      }
    }

    /** iotc_wiced_mqtt_is_connected. */
    method IsConnected() returns (b: bool)
      ensures b == isConnected
    {
      b := isConnected;
    }

    /** iotc_wiced_mqtt_publish: publish at QoS 1 to the sync response's pub topic and return
        the packet id (0 when the library failed); it does not wait for the acknowledgement.
        With no configuration (after a teardown that dropped it) the topic read dereferences NULL. */
    method Publish(data: seq<char>, pktId: nat) returns (id: nat)
      modifies this
      ensures State() == old(State()) && config == old(config)
      ensures hasObject == old(hasObject) && brokerAddress == old(brokerAddress)
      ensures old(SessionBroker()).Some? ==>
                && id == pktId && faulted == old(faulted)
                && trace == old(trace) + [PublishCall(old(SessionBroker()).value.pubTopic, data, QOS_DELIVER_AT_LEAST_ONCE)]
      ensures old(SessionBroker()).None? ==> faulted && trace == old(trace)
    {
      if config == null || config.sr.None? {
        faulted := true;
        return 0;
      }
      trace := trace + [PublishCall(config.sr.value.broker.pubTopic, data, QOS_DELIVER_AT_LEAST_ONCE)];
      id := pktId;
    }

    /** iotc_wiced_mqtt_deinit: deinit the semaphore, then DeinitAsWritten on the topic read
        through `config`. */
    method Deinit(unsubscribePktId: nat, deinit: WicedResult)
      modifies this
      ensures hasObject == old(hasObject) && brokerAddress == old(brokerAddress)
      ensures State() == old(State()).(semaphore := 0)
      ensures var out := DeinitAsWritten(old(SubTopic()), unsubscribePktId, deinit);
        && trace == old(trace) + out.calls && faulted == (old(faulted) || out.faulted)
        && config == (if out.clearsConfig then null else old(config))
    {
      semaphore := 0;
      if config == null || config.sr.None? {
        faulted := true;
        return;
      }
      var ret := Unsubscribe(config.sr.value.broker.subTopic, unsubscribePktId);
      if ret != Success {
        return;
      }
      trace := trace + [DeinitCall];
      if deinit != Success {
        return;
      }
      config := null;
    }
  }
}
