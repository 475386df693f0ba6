/** The SDK orchestration of iotc_sdk.c: initialisation by discovery and then
    MQTT, the interception of cloud messages (force-sync and close), the
    teardown, the forwarding of bridge callbacks to the application, and the
    reporting of sync errors. The IoTConnect C library (the sync-response
    allocator, IOTCL_ProcessEvent, IOTCL_Init) is outside the model: what the
    SDK hands to it is recorded in `log`. */
module Sdk {
  import opened Common
  import opened Sync
  import opened Discovery
  import opened Mqtt

  /** The event types on_message_intercept distinguishes. */
  datatype EventKind = ForceSync | Close | OtherKind(code: nat)

  /** IOTCL_EVENT_DATA: an opaque handle the SDK passes through unchanged. */
  datatype EventData = EventData(handle: nat)

  /** The message report_sync_error logs. */
  datatype SyncReport =
    | OutOfMemoryReport
    | NotRegisteredReport
    | AutoRegisterReport
    | DeviceNotFoundReport
    | DeviceInactiveReport
    | DeviceMovedReport
    | CpidNotFoundReport
    | UnknownDeviceStatusReport
    | AllocationErrorReport
    | ParsingErrorReport
    | NoErrorWarning

  /** report_sync_error: a NULL response is reported as running out of memory, each
      rejection has its own message, and anything else (OK) draws a warning. */
  function ReportSyncError(r: Option<SyncResponse>): (rep: SyncReport)
    ensures (rep == OutOfMemoryReport) == r.None?
    ensures (rep == NoErrorWarning) == (r.Some? && r.value.ds == Ok)
  {
    match r
    case None => OutOfMemoryReport
    case Some(sr) =>
      match sr.ds
      case DeviceNotRegistered => NotRegisteredReport
      case AutoRegister => AutoRegisterReport
      case DeviceNotFound => DeviceNotFoundReport
      case DeviceInactive => DeviceInactiveReport
      case DeviceMoved => DeviceMovedReport
      case CpidNotFound => CpidNotFoundReport
      case UnknownDeviceStatus => UnknownDeviceStatusReport
      case AllocationError => AllocationErrorReport
      case ParsingError => ParsingErrorReport
      case Ok => NoErrorWarning
  }

  /** Which rejection a report names, read back from the report alone. */
  function ReportedStatus(rep: SyncReport): (ds: Option<SyncStatus>)
    ensures ds.Some? ==> ds.value != Ok
  {
    match rep
    case NotRegisteredReport => Some(DeviceNotRegistered)
    case AutoRegisterReport => Some(AutoRegister)
    case DeviceNotFoundReport => Some(DeviceNotFound)
    case DeviceInactiveReport => Some(DeviceInactive)
    case DeviceMovedReport => Some(DeviceMoved)
    case CpidNotFoundReport => Some(CpidNotFound)
    case UnknownDeviceStatusReport => Some(UnknownDeviceStatus)
    case AllocationErrorReport => Some(AllocationError)
    case ParsingErrorReport => Some(ParsingError)
    case _ => None
  }

  /** Every rejection is reported with a message of its own: the report gives the status back. */
  lemma ReportNamesRejection(r: Option<SyncResponse>)
    ensures r.Some? && r.value.ds != Ok ==> ReportedStatus(ReportSyncError(r)) == Some(r.value.ds)
    ensures r.None? || r.value.ds == Ok ==> ReportedStatus(ReportSyncError(r)) == None
  {
  }

  /** The only discovery outcome the SDK goes on with. */
  predicate Accepted(sr: Option<SyncResponse>) {
    sr.Some? && sr.value.ds == Ok
  }

  /** IOTCONNECT_CLIENT_CONFIG as the SDK reads it: the identity, and which application
      callbacks are set. */
  datatype ClientConfig = ClientConfig(
    env: string, cpid: string, duid: string,
    hasStatusCb: bool, hasMsgCb: bool, hasOtaCb: bool, hasCmdCb: bool)

  /** The configuration memset to 0 (empty strings stand for NULL pointers). */
  const ZERO_CONFIG := ClientConfig("", "", "", false, false, false, false)

  /** What IotConnectSdk_Init hands to IOTCL_Init; the message callback is always the interceptor. */
  datatype LibConfig = LibConfig(env: string, cpid: string, duid: string, dtg: string, hasOtaCb: bool, hasCmdCb: bool)

  /** An effect of the SDK on the IoTConnect library and the application. */
  datatype SdkEffect =
    | Reported(report: SyncReport)
    | Freed(response: Option<SyncResponse>)
    | StatusForwarded(status: Status)
    | MessageForwarded(data: EventData, kind: EventKind)
    | EventProcessed(text: seq<char>)
    | PublishFailureLogged

  /** What the SDK does with the callbacks the bridge makes: on_iotconnect_status forwards a
      status only when the application set status_cb (the message id is dropped), and
      iotc_on_mqtt_data hands a NUL-terminated copy of the payload to the event processor,
      ignoring the topic. */
  function CallbackEffects(hasStatusCb: bool, cbs: seq<Callback>): seq<SdkEffect>
    decreases |cbs|
  {
    if cbs == [] then []
    else
      (match cbs[0]
       case StatusCallback(s, _) => if hasStatusCb then [StatusForwarded(s)] else []
       case DataCallback(d, _) => [EventProcessed(d + [NUL])])
      + CallbackEffects(hasStatusCb, cbs[1..])
  }

  /** Effects of callbacks made in two runs are those of each run in order. */
  lemma {:induction false} CallbackEffectsAppend(h: bool, a: seq<Callback>, b: seq<Callback>)
    ensures CallbackEffects(h, a + b) == CallbackEffects(h, a) + CallbackEffects(h, b)
    decreases |a|
  {
    if a == [] {
      assert a + b == b;
    } else {
      assert (a + b)[0] == a[0] && (a + b)[1..] == a[1..] + b;
      CallbackEffectsAppend(h, a[1..], b);
      ConcatAssoc(CallbackEffects(h, [a[0]]), CallbackEffects(h, a[1..]), CallbackEffects(h, b));
    }
  }

  /** The event-processor effects of the data callbacks among `cbs`, in order: a
      NUL-terminated copy of each payload. */
  function Processed(cbs: seq<Callback>): seq<SdkEffect>
    decreases |cbs|
  {
    if cbs == [] then []
    else (if cbs[0].DataCallback? then [EventProcessed(cbs[0].data + [NUL])] else []) + Processed(cbs[1..])
  }

  /** Without status_cb no status reaches the application, whereas every payload is
      processed, one per data callback, in order; with status_cb every callback has its effect. */
  lemma {:induction false} PayloadsAlwaysProcessed(h: bool, cbs: seq<Callback>)
    ensures !h ==> CallbackEffects(h, cbs) == Processed(cbs)
    ensures |Processed(cbs)| <= |CallbackEffects(h, cbs)| <= |cbs|
    ensures h ==> |CallbackEffects(h, cbs)| == |cbs|
    decreases |cbs|
  {
    if cbs != [] {
      PayloadsAlwaysProcessed(h, cbs[1..]);
    }
  }

  /** The processor sees exactly the payload: as a C string the copy ends at the terminator
      the SDK wrote when the payload holds no NUL of its own. */
  lemma ProcessedTextIsPayload(d: seq<char>)
    requires NUL !in d
    ensures CString(d + [NUL]) == d
  {
    CStringOfTerminated(d, []);
    assert d + [NUL] + [] == d + [NUL];
  }

  class Sdk {
    var config: ClientConfig
    /** The global `sync_response`; IotConnectSdk_Init's local of the same name hides it. */
    var syncResponse: Option<SyncResponse>
    var libConfig: Option<LibConfig>
    const mqttConfig: MqttConfig
    const bridge: MqttBridge
    const discovery: DiscoveryClient
    var log: seq<SdkEffect>

    /** The bridge only ever points at `mqtt_config`; a sync response is stored there only
        together with both handlers; the library configuration exists only once MQTT came up
        with such a response. */
    ghost predicate Valid()
      reads this, discovery, bridge, mqttConfig
    {
      && discovery.Valid()
      && (bridge.config == null || bridge.config == mqttConfig)
      && (mqttConfig.sr.Some? ==> mqttConfig.hasDataCb && mqttConfig.hasStatusCb)
      && (libConfig.Some? ==> mqttConfig.sr.Some?)
    }

    /** The static state before the application runs; `discoveryHost` is
        IOTCONNECT_DISCOVERY_HOSTNAME. */
    constructor (discoveryHost: string)
      ensures Valid() && fresh(bridge) && fresh(discovery) && fresh(mqttConfig) && fresh(discovery.dataBuff)
      ensures config == ZERO_CONFIG && syncResponse == None && libConfig == None && log == []
      ensures bridge.config == null && bridge.trace == [] && !bridge.faulted && discovery.calls == []
      ensures discovery.discoveryHost == discoveryHost
    {
      config := ZERO_CONFIG;
      syncResponse := None;
      libConfig := None;
      mqttConfig := new MqttConfig();
      bridge := new MqttBridge();
      discovery := new DiscoveryClient(discoveryHost);
      log := [];
    }

    /** IotConnectSdk_InitAndGetConfig: the configuration is zeroed for the application to fill in. */
    method InitAndGetConfig()
      modifies this
      ensures config == ZERO_CONFIG
      ensures syncResponse == old(syncResponse) && libConfig == old(libConfig) && log == old(log)
    {
      config := ZERO_CONFIG;
    }

    /** on_iotconnect_status. */
    method OnIotconnectStatus(status: Status)
      modifies this
      ensures log == old(log) + (if config.hasStatusCb then [StatusForwarded(status)] else [])
      ensures config == old(config) && syncResponse == old(syncResponse) && libConfig == old(libConfig)
    {
      if config.hasStatusCb {
        log := log + [StatusForwarded(status)];
      }
    }

    /** iotc_on_mqtt_data: copy exactly `|data|` bytes into a fresh buffer one longer,
        terminate it, and hand it to the event processor. */
    method OnMqttData(data: seq<char>, topic: seq<char>)
      modifies this
      ensures log == old(log) + [EventProcessed(data + [NUL])]
      ensures config == old(config) && syncResponse == old(syncResponse) && libConfig == old(libConfig)
    {
      var str := new char[|data| + 1];
      var i := 0;
      while i < |data|
        invariant 0 <= i <= |data|
        invariant forall k :: 0 <= k < i ==> str[k] == data[k]
        modifies str
      {
        str[i] := data[i];
        i := i + 1;
      }
      str[|data|] := NUL;
      assert str[..] == data + [NUL];
      log := log + [EventProcessed(str[..])];
    }

    /** The bridge's callbacks, handed to the SDK's handlers in the order they were made. */
    method Dispatch(cbs: seq<Callback>)
      modifies this
      ensures log == old(log) + CallbackEffects(config.hasStatusCb, cbs)
      ensures config == old(config) && syncResponse == old(syncResponse) && libConfig == old(libConfig)
    {
      var i := 0;
      while i < |cbs|
        invariant 0 <= i <= |cbs|
        invariant config == old(config) && syncResponse == old(syncResponse) && libConfig == old(libConfig)
        invariant log + CallbackEffects(config.hasStatusCb, cbs[i..]) == old(log) + CallbackEffects(config.hasStatusCb, cbs)
      {
        ghost var before := log;
        assert cbs[i..][0] == cbs[i] && cbs[i..][1..] == cbs[i + 1..];
        match cbs[i] {
          case StatusCallback(s, _) => OnIotconnectStatus(s);
          case DataCallback(d, t) => OnMqttData(d, t);
        }
        ConcatAssoc(before, CallbackEffects(config.hasStatusCb, [cbs[i]]), CallbackEffects(config.hasStatusCb, cbs[i + 1..]));
        i := i + 1;
      }
      assert cbs[i..] == [];
    }

    /** Point `mqtt_config` at a sync response with the SDK's two handlers, everything else zero. */
    method PrepareMqttConfig(sr: SyncResponse)
      modifies mqttConfig
      ensures mqttConfig.sr == Some(sr) && mqttConfig.timeoutMs == 0
      ensures mqttConfig.hasDataCb && mqttConfig.hasStatusCb
    {
      mqttConfig.sr := None;
      mqttConfig.timeoutMs := 0;
      mqttConfig.hasDataCb := false;
      mqttConfig.hasStatusCb := false;
      mqttConfig.sr := Some(sr);
      mqttConfig.hasDataCb := true;
      mqttConfig.hasStatusCb := true;
    }

    /** IotConnectSdk_Init: discover; a NULL or rejected response is reported, freed and
        answered with WICED_ERROR before MQTT is touched; otherwise MQTT is brought up with
        that response and, when it came up, the library configuration takes the response's
        `dtg`. The response lives only in a local, so the global stays as it was. */
    method Init(numTries: int, postData: string, ts: seq<Attempt>, answers: InitAnswers) returns (ret: WicedResult)
      requires Valid()
      requires numTries <= |ts| && |GetPath(config.cpid, config.env)| < RECEIVE_BUFFER_MAX_SIZE
      modifies this, discovery, discovery.dataBuff, mqttConfig, bridge
      ensures Valid() && config == old(config) && syncResponse == old(syncResponse)
      ensures bridge.faulted == old(bridge.faulted)
      ensures discovery.calls == old(discovery.calls) + DiscoverTrace(discovery.discoveryHost, GetPath(config.cpid, config.env), postData, numTries, ts)
      ensures var sr := DiscoverSpec(numTries, ts);
        && (!Accepted(sr) ==>
              && ret == Error && log == old(log) + [Reported(ReportSyncError(sr)), Freed(sr)]
              && bridge.trace == old(bridge.trace) && bridge.config == old(bridge.config)
              && bridge.State() == old(bridge.State()) && libConfig == old(libConfig))
        && (Accepted(sr) ==>
              var run := InitSpec(sr.value.broker, DEFAULT_MQTT_TIMEOUT_MS, old(bridge.State()), answers);
              && bridge.config == mqttConfig && mqttConfig.sr == sr && mqttConfig.timeoutMs == DEFAULT_MQTT_TIMEOUT_MS
              && ret == run.ret && bridge.trace == old(bridge.trace) + run.calls && bridge.State() == run.state
              && log == old(log) + CallbackEffects(config.hasStatusCb, run.callbacks)
              && libConfig == (if ret == Success
                               then Some(LibConfig(config.env, config.cpid, config.duid, sr.value.dtg, config.hasOtaCb, config.hasCmdCb))
                               else old(libConfig)))
    {
      var sr := discovery.Discover(config.env, config.cpid, numTries, postData, ts);
      if !(sr.Some? && sr.value.ds == Ok) {
        log := log + [Reported(ReportSyncError(sr)), Freed(sr)];
        return Error;
      }
      PrepareMqttConfig(sr.value);
      var cbs;
      ret, cbs := bridge.Init(mqttConfig, answers);
      Dispatch(cbs);
      if ret != Success {
        return ret;
      }
      libConfig := Some(LibConfig(config.env, config.cpid, config.duid, sr.value.dtg, config.hasOtaCb, config.hasCmdCb));
      return Success;
    }

    /** IotConnectSdk_Disconnect: free the global response and clear it, then disconnect
        the MQTT session, then deinitialise it (which dereferences NULL once a previous
        teardown dropped the configuration). */
    method Disconnect(unsubscribePktId: nat, deinit: WicedResult)
      requires Valid()
      modifies this, bridge
      ensures Valid() && config == old(config) && libConfig == old(libConfig)
      ensures log == old(log) + [Freed(old(syncResponse))] && syncResponse == None
      ensures var out := DeinitAsWritten(old(bridge.SubTopic()), unsubscribePktId, deinit);
        && bridge.trace == old(bridge.trace) + (if old(bridge.isConnected) then [DisconnectCall] else []) + out.calls
        && bridge.config == (if out.clearsConfig then null else old(bridge.config))
        && bridge.faulted == (old(bridge.faulted) || out.faulted)
      ensures bridge.State() == old(bridge.State()).(semaphore := 0)
    {
      log := log + [Freed(syncResponse)];
      syncResponse := None;
      bridge.Disconnect();
      bridge.Deinit(unsubscribePktId, deinit);
    }

    /** IotConnectSdk_IsConnected. */
    method IsConnected() returns (b: bool)
      ensures b == bridge.isConnected
    {
      b := bridge.IsConnected();
    }

    /** IotConnectSdk_SendPacket: publish the `strlen(data)` bytes of the C string and log a failure when the publish
        returns non-zero, which is the packet id of a publish that went out. After a teardown
        that dropped the configuration the publish dereferences NULL. */
    method SendPacket(data: string, pktId: nat)
      modifies this, bridge
      ensures bridge.config == old(bridge.config) && bridge.State() == old(bridge.State())
      ensures config == old(config) && syncResponse == old(syncResponse) && libConfig == old(libConfig)
      ensures old(bridge.SessionBroker()).Some? ==>
                && log == old(log) + (if pktId != 0 then [PublishFailureLogged] else [])
                && bridge.faulted == old(bridge.faulted)
                && bridge.trace == old(bridge.trace) + [PublishCall(old(bridge.SessionBroker()).value.pubTopic, CString(data), QOS_DELIVER_AT_LEAST_ONCE)]
      ensures old(bridge.SessionBroker()).None? ==> bridge.faulted && bridge.trace == old(bridge.trace)
    {
      var id := bridge.Publish(CString(data), pktId);
      if id != 0 {
        log := log + [PublishFailureLogged];
      }
    }

    /** Forward a message to the application when it set msg_cb. */
    method Forward(data: EventData, kind: EventKind)
      modifies this
      ensures log == old(log) + (if config.hasMsgCb then [MessageForwarded(data, kind)] else [])
      ensures config == old(config) && syncResponse == old(syncResponse) && libConfig == old(libConfig)
    {
      if config.hasMsgCb {
        log := log + [MessageForwarded(data, kind)];
      }
    }

    /** Lines 87-93: discover into the global; a NULL or rejected response is reported,
        freed and cleared. */
    method Rediscover(numTries: int, postData: string, ts: seq<Attempt>) returns (accepted: bool)
      requires Valid()
      requires numTries <= |ts| && |GetPath(config.cpid, config.env)| < RECEIVE_BUFFER_MAX_SIZE
      modifies this, discovery, discovery.dataBuff
      ensures Valid() && config == old(config) && libConfig == old(libConfig)
      ensures discovery.calls == old(discovery.calls) + DiscoverTrace(discovery.discoveryHost, GetPath(config.cpid, config.env), postData, numTries, ts)
      ensures var sr := DiscoverSpec(numTries, ts);
        && accepted == Accepted(sr)
        && (accepted ==> syncResponse == sr && log == old(log))
        && (!accepted ==> syncResponse == None && log == old(log) + [Reported(ReportSyncError(sr)), Freed(sr)])
    {
      syncResponse := discovery.Discover(config.env, config.cpid, numTries, postData, ts);
      if !(syncResponse.Some? && syncResponse.value.ds == Ok) {
        log := log + [Reported(ReportSyncError(syncResponse)), Freed(syncResponse)];
        syncResponse := None;
        return false;
      }
      return true;
    }

    /** Line 94 and lines 104-106: bring MQTT up again with `mqtt_config` as it stands,
        ignoring the result, and forward the message. */
    method Reconnect(data: EventData, answers: InitAnswers)
      requires Valid()
      modifies this, mqttConfig, bridge
      ensures Valid() && config == old(config) && syncResponse == old(syncResponse) && libConfig == old(libConfig)
      ensures bridge.config == mqttConfig && mqttConfig.sr == old(mqttConfig.sr) && bridge.faulted == old(bridge.faulted)
      ensures old(mqttConfig.sr).Some? ==>
                var run := InitSpec(old(mqttConfig.sr).value.broker, EffectiveTimeout(old(mqttConfig.timeoutMs)), old(bridge.State()), answers);
                && bridge.trace == old(bridge.trace) + run.calls && bridge.State() == run.state
                && mqttConfig.timeoutMs == EffectiveTimeout(old(mqttConfig.timeoutMs))
                && log == old(log) + CallbackEffects(config.hasStatusCb, run.callbacks)
                                   + (if config.hasMsgCb then [MessageForwarded(data, ForceSync)] else [])
      ensures old(mqttConfig.sr).None? ==>
                && bridge.trace == old(bridge.trace) && bridge.State() == old(bridge.State())
                && log == old(log) + (if config.hasMsgCb then [MessageForwarded(data, ForceSync)] else [])
    {
      var _, cbs := bridge.Init(mqttConfig, answers);
      Dispatch(cbs);
      Forward(data, ForceSync);
    }

    /** The first half of ON_FORCE_SYNC: tear the session down, then discover again into the global. */
    method TeardownAndRediscover(unsubscribePktId: nat, deinit: WicedResult,
                                 numTries: int, postData: string, ts: seq<Attempt>) returns (accepted: bool)
      requires Valid()
      requires numTries <= |ts| && |GetPath(config.cpid, config.env)| < RECEIVE_BUFFER_MAX_SIZE
      modifies this, discovery, discovery.dataBuff, bridge
      ensures Valid() && config == old(config) && libConfig == old(libConfig)
      ensures discovery.calls == old(discovery.calls) + DiscoverTrace(discovery.discoveryHost, GetPath(config.cpid, config.env), postData, numTries, ts)
      ensures var out := DeinitAsWritten(old(bridge.SubTopic()), unsubscribePktId, deinit);
        && bridge.trace == old(bridge.trace) + (if old(bridge.isConnected) then [DisconnectCall] else []) + out.calls
        && bridge.config == (if out.clearsConfig then null else old(bridge.config))
        && bridge.faulted == (old(bridge.faulted) || out.faulted)
      ensures bridge.State() == old(bridge.State()).(semaphore := 0)
      ensures var sr := DiscoverSpec(numTries, ts);
        && accepted == Accepted(sr)
        && (accepted ==> syncResponse == sr && log == old(log) + [Freed(old(syncResponse))])
        && (!accepted ==> syncResponse == None && log == old(log) + [Freed(old(syncResponse)), Reported(ReportSyncError(sr)), Freed(sr)])
    {
      Disconnect(unsubscribePktId, deinit);
      accepted := Rediscover(numTries, postData, ts);
    }

    /** on_message_intercept for ON_FORCE_SYNC, which the library calls only once Init brought
        MQTT up: tear the session down and discover again into the global; a NULL or rejected
        response is reported, freed and cleared, and the message is not forwarded; otherwise
        MQTT is brought up again with `mqtt_config` as it stands (its sync response is still
        the one Init discovered) and the message is forwarded. */
    method OnForceSync(data: EventData, unsubscribePktId: nat, deinit: WicedResult,
                       numTries: int, postData: string, ts: seq<Attempt>, answers: InitAnswers)
      requires Valid() && libConfig.Some?
      requires numTries <= |ts| && |GetPath(config.cpid, config.env)| < RECEIVE_BUFFER_MAX_SIZE
      modifies this, discovery, discovery.dataBuff, mqttConfig, bridge
      ensures Valid() && config == old(config) && libConfig == old(libConfig)
      ensures discovery.calls == old(discovery.calls) + DiscoverTrace(discovery.discoveryHost, GetPath(config.cpid, config.env), postData, numTries, ts)
      ensures bridge.faulted == (old(bridge.faulted) || DeinitAsWritten(old(bridge.SubTopic()), unsubscribePktId, deinit).faulted)
      ensures var sr := DiscoverSpec(numTries, ts);
        var out := DeinitAsWritten(old(bridge.SubTopic()), unsubscribePktId, deinit);
        var teardown := (if old(bridge.isConnected) then [DisconnectCall] else []) + out.calls;
        !Accepted(sr) ==>
          && syncResponse == None && bridge.trace == old(bridge.trace) + teardown
          && bridge.config == (if out.clearsConfig then null else old(bridge.config))
          && bridge.State() == old(bridge.State()).(semaphore := 0)
          && log == old(log) + [Freed(old(syncResponse)), Reported(ReportSyncError(sr)), Freed(sr)]
      ensures Accepted(DiscoverSpec(numTries, ts)) ==> syncResponse == DiscoverSpec(numTries, ts) && bridge.config == mqttConfig
      ensures var out := DeinitAsWritten(old(bridge.SubTopic()), unsubscribePktId, deinit);
        var teardown := (if old(bridge.isConnected) then [DisconnectCall] else []) + out.calls;
        var run := InitSpec(old(mqttConfig.sr).value.broker, EffectiveTimeout(old(mqttConfig.timeoutMs)),
                            old(bridge.State()).(semaphore := 0), answers);
        Accepted(DiscoverSpec(numTries, ts)) ==>
          bridge.trace == old(bridge.trace) + teardown + run.calls && bridge.State() == run.state
      ensures var run := InitSpec(old(mqttConfig.sr).value.broker, EffectiveTimeout(old(mqttConfig.timeoutMs)),
                                  old(bridge.State()).(semaphore := 0), answers);
        Accepted(DiscoverSpec(numTries, ts)) ==>
          log == old(log) + [Freed(old(syncResponse))] + CallbackEffects(config.hasStatusCb, run.callbacks)
                          + (if config.hasMsgCb then [MessageForwarded(data, ForceSync)] else [])
    {
      ghost var broker, timeout := mqttConfig.sr.value.broker, mqttConfig.timeoutMs;
      var accepted := TeardownAndRediscover(unsubscribePktId, deinit, numTries, postData, ts);
      if !accepted {
        return;
      }
      ghost var torn, s1 := bridge.trace, bridge.State();
      ghost var teardown := (if old(bridge.isConnected) then [DisconnectCall] else [])
                            + DeinitAsWritten(old(bridge.SubTopic()), unsubscribePktId, deinit).calls;
      assert torn == old(bridge.trace) + teardown;
      Reconnect(data, answers);
      ghost var run := InitSpec(broker, EffectiveTimeout(timeout), s1, answers);
      assert bridge.trace == torn + run.calls && bridge.State() == run.state;
      ConcatAssoc(old(log), [Freed(old(syncResponse))], CallbackEffects(config.hasStatusCb, run.callbacks));
    }

    /** on_message_intercept for ON_CLOSE: tear the session down (no reconnect) and forward. */
    method OnClose(data: EventData, unsubscribePktId: nat, deinit: WicedResult)
      requires Valid()
      modifies this, bridge
      ensures Valid() && syncResponse == None && config == old(config) && libConfig == old(libConfig)
      ensures log == old(log) + [Freed(old(syncResponse))] + (if config.hasMsgCb then [MessageForwarded(data, Close)] else [])
      ensures var out := DeinitAsWritten(old(bridge.SubTopic()), unsubscribePktId, deinit);
        && bridge.trace == old(bridge.trace) + (if old(bridge.isConnected) then [DisconnectCall] else []) + out.calls
        && bridge.config == (if out.clearsConfig then null else old(bridge.config))
        && bridge.faulted == (old(bridge.faulted) || out.faulted)
    {
      Disconnect(unsubscribePktId, deinit);
      Forward(data, Close);
    }

    /** on_message_intercept for any other type: no session change, forwarded when msg_cb is set. */
    method OnOtherMessage(data: EventData, code: nat)
      modifies this
      ensures log == old(log) + (if config.hasMsgCb then [MessageForwarded(data, OtherKind(code))] else [])
      ensures config == old(config) && syncResponse == old(syncResponse) && libConfig == old(libConfig)
    {
      Forward(data, OtherKind(code));
    }
  }
}
