# IoTConnect SDK for WICED — a verified model

This project models the core of the Avnet IoTConnect SDK for the Cypress WICED
platform. With the WICED HTTP, MQTT, DNS, TLS, RTOS and resource libraries
treated as oracles, it covers:

- **Discovery** (`Discovery`). `iotc_wiced_discover` asks the discovery host
  for the agent descriptor, POSTs to the agent's sync endpoint, and retries a
  sync response that failed to parse unless it was the last try. The 1024-byte
  static receive buffer, the request headers and the receive callback's copy
  rule are modelled as well. `DiscoveryClient` is a class whose `dataBuff`
  is an `array<char>`. Each HTTP exchange is an input `Exchange`: whether the
  connection came up, and the events the HTTP client delivered. The two parse
  results of the IoTConnect C library are inputs `Attempt`.
- **MQTT session bridge** (`Mqtt`). Three globals carry the session, and the
  callback `mqtt_connection_event_cb` updates them: `is_connected`, the
  single-slot `expected_event`, and a semaphore, modelled as a count.
  `mqtt_wait_for` succeeds iff it takes a signal and the recorded event is the
  awaited kind. `iotc_wiced_mqtt_init` checks its configuration, defaults the
  timeout, and then runs resolve → init → connect (wait 2× the timeout) →
  subscribe (wait 1×). It also models disconnect, publish and deinit. The
  bridge is the class `MqttBridge`. It records every library call in `trace`.
  What each library call answers, and which events arrive during each wait,
  are inputs.
- **SDK orchestration** (`Sdk`). The class `Sdk` composes the two modules
  above. It covers initialisation, the interception of force-sync and close
  messages, teardown, publishing, and the forwarding of bridge callbacks to the
  application. It also does the NUL-terminated copy of inbound payloads and
  reports sync errors. What the SDK hands to the IoTConnect C library and to
  the application is recorded in `log`.
- **Identity and topic builders** (`MqttClient`). `mqtt_get_host` and the four
  `mqtt_create_*_str` builders are pure functions on C strings. Each result
  records the text written and the size of the buffer allocated for it.
- **Demo application** (`Demo`). `get_credentials_from_resources` acquires and
  releases buffers through the resource store. The store is recorded as a
  sequence of acquire and release operations, and replaying that sequence as a
  stack shows nothing is leaked. The acknowledgements of `on_command` and
  `on_ota` are modelled too.

`Common` holds the `Option` type, the WICED result codes, the C integer limits
and C-string reading. `Sync` holds the sync-response and discovery-response
records of the IoTConnect C library.

## Model

| member | source | states |
|---|---|---|
| Common.CString | 43xxx_Wi-Fi/libraries/protocols/iotc-sdk/src/iotc_sdk.c:125-128 | a C string read from a buffer is a prefix of it that holds no NUL, and is followed by a NUL unless it is the whole buffer |
| Common.CStringOfTerminated | 43xxx_Wi-Fi/libraries/protocols/iotc-sdk/src/iotc_sdk.c:126-127 | text with no NUL, then a terminator, then anything, reads back as that text |
| Discovery.SetHeaderField | 43xxx_Wi-Fi/libraries/protocols/iotc-sdk/src/iotc_wiced_discovery.c:241-247 | the header points at exactly the name and value given, and the recorded field and value lengths are theirs |
| Discovery.NatToDecimal | 43xxx_Wi-Fi/libraries/protocols/iotc-sdk/src/iotc_wiced_discovery.c:155 | `%u` prints at least one character, and every character is a decimal digit |
| Discovery.DecimalRoundTrip | 43xxx_Wi-Fi/libraries/protocols/iotc-sdk/src/iotc_wiced_discovery.c:155 | the digits printed read back as the number printed |
| Discovery.DecimalWidth | 43xxx_Wi-Fi/libraries/protocols/iotc-sdk/src/iotc_wiced_discovery.c:154-155 | a number below 10^k prints in at most k digits |
| Discovery.RequestHeaders | 43xxx_Wi-Fi/libraries/protocols/iotc-sdk/src/iotc_wiced_discovery.c:145-173 | a GET sends exactly Host and `Connection: close`, with no body. A POST adds `Content-Type: application/json` and a Content-Length that reads back as strlen(post_data) mod 2^16 and fits the 6-byte buffer, and its body is the post data. Every header carries its strings' lengths |
| Discovery.Overwrite | 43xxx_Wi-Fi/libraries/protocols/iotc-sdk/src/iotc_wiced_discovery.c:221 | the copied bytes land at the front of the buffer. The rest of the buffer keeps its old bytes, and the length is unchanged |
| Discovery.Cleared | 43xxx_Wi-Fi/libraries/protocols/iotc-sdk/src/iotc_wiced_discovery.c:177 | clearing puts NUL in the first byte, so the buffer reads as empty, and leaves every other byte alone |
| Discovery.ApplyHttpEvent | 43xxx_Wi-Fi/libraries/protocols/iotc-sdk/src/iotc_wiced_discovery.c:190-231 | a payload for our request of at most 1024 bytes is copied exactly, with no terminator and the rest left stale. A longer payload, a payload for another request, a disconnect and any other event leave the buffer as it was |
| Discovery.ApplyHttpEvents | 43xxx_Wi-Fi/libraries/protocols/iotc-sdk/src/iotc_wiced_discovery.c:17-21 | the buffer keeps its 1024 bytes whatever the events |
| Discovery.FirstByteOfEvents | 43xxx_Wi-Fi/libraries/protocols/iotc-sdk/src/iotc_wiced_discovery.c:217-221 | after the events, the buffer's first byte is that of the last accepted non-empty payload, or the old first byte if there is none. It never depends on stale bytes |
| Discovery.NoPayloadLeavesEmpty | 43xxx_Wi-Fi/libraries/protocols/iotc-sdk/src/iotc_wiced_discovery.c:177-182 | when no accepted non-empty payload arrives, the cleared buffer stays empty |
| Discovery.UnfoldDiscover | 43xxx_Wi-Fi/libraries/protocols/iotc-sdk/src/iotc_wiced_discovery.c:67-101 | one iteration: the result and the calls are those of the first try, followed by those of the remaining tries unless the first try decided |
| Discovery.EmptyTryIsWasted | 43xxx_Wi-Fi/libraries/protocols/iotc-sdk/src/iotc_wiced_discovery.c:71-90 | an empty GET, an empty POST or a NULL parse uses up one try and changes the result of the rest in no way. After an empty GET, no POST is made |
| Discovery.AttemptsAreBounded | 43xxx_Wi-Fi/libraries/protocols/iotc-sdk/src/iotc_wiced_discovery.c:67 | the calls made hold one GET per try run, and that count is at most num_tries. When num_tries <= 0, no HTTP call is made and the result is NULL |
| Discovery.ReturnsFirstDecisive | 43xxx_Wi-Fi/libraries/protocols/iotc-sdk/src/iotc_wiced_discovery.c:67-102 | the loop returns the first decisive try's response unchanged, after exactly that many tries |
| Discovery.NullWhenNoneDecisive | 43xxx_Wi-Fi/libraries/protocols/iotc-sdk/src/iotc_wiced_discovery.c:67-102 | with no decisive try, every try is used up and the result is NULL |
| Discovery.ResultIsLastTry | 43xxx_Wi-Fi/libraries/protocols/iotc-sdk/src/iotc_wiced_discovery.c:87-102 | any non-NULL result is the answer of the last try made. A parsing error comes back only from try number num_tries |
| Discovery.RetriesParsingErrorThenOk | 43xxx_Wi-Fi/libraries/protocols/iotc-sdk/src/iotc_wiced_discovery.c:91-96 | with three tries, two parsing errors and then OK give the OK response after three tries |
| Discovery.GivesUpOnLastParsingError | 43xxx_Wi-Fi/libraries/protocols/iotc-sdk/src/iotc_wiced_discovery.c:91-97 | with three tries and three parsing errors, the third error is returned and no fourth try is made |
| Discovery.RejectionIsTerminal | 43xxx_Wi-Fi/libraries/protocols/iotc-sdk/src/iotc_wiced_discovery.c:87-98 | any status other than a parsing error (OK or a rejection) on the first try ends the loop at once and is returned unchanged |
| Discovery.TraceRequests | 43xxx_Wi-Fi/libraries/protocols/iotc-sdk/src/iotc_wiced_discovery.c:69-83 | every GET goes to the discovery host with path `/api/sdk/cpid/<cpid>/lang/M_C/ver/2.0/env/<env>`. Every POST carries the post data to some agent's host with its path plus `sync?`. Each connected call sent exactly the request its arguments call for |
| Discovery.DiscoveryClient.constructor | 43xxx_Wi-Fi/libraries/protocols/iotc-sdk/src/iotc_wiced_discovery.c:17-21 | a fresh 1024-byte receive buffer, and no calls made yet |
| Discovery.DiscoveryClient.Write | 43xxx_Wi-Fi/libraries/protocols/iotc-sdk/src/iotc_wiced_discovery.c:221 | the copy loop leaves the buffer equal to Overwrite of its old contents |
| Discovery.DiscoveryClient.OnHttpEvent | 43xxx_Wi-Fi/libraries/protocols/iotc-sdk/src/iotc_wiced_discovery.c:190-231 | the receive callback leaves the buffer equal to ApplyHttpEvent of its old contents |
| Discovery.DiscoveryClient.SynchronousRestCall | 43xxx_Wi-Fi/libraries/protocols/iotc-sdk/src/iotc_wiced_discovery.c:105-188 | on a failed connect, the buffer is only cleared and nothing is sent. Otherwise the request is sent, then the buffer is cleared and the events are applied in order. Afterwards the buffer is non-empty iff the exchange received data, and the call is recorded |
| Discovery.DiscoveryClient.RunTry | 43xxx_Wi-Fi/libraries/protocols/iotc-sdk/src/iotc_wiced_discovery.c:69-99 | one try returns the try's response under the retry rule, and makes the GET, then the POST only when the GET left data |
| Discovery.DiscoveryClient.Discover | 43xxx_Wi-Fi/libraries/protocols/iotc-sdk/src/iotc_wiced_discovery.c:65-103 | the loop returns DiscoverSpec and makes exactly the calls of DiscoverTrace, whose properties are the lemmas above |
| Mqtt.SemaphoreCountsSignals | 43xxx_Wi-Fi/libraries/protocols/iotc-sdk/src/iotc_wiced_mqtt.c:96-131 | the semaphore is signalled once per connect or subscribe acknowledgement and by no other event, a publish acknowledgement included |
| Mqtt.UnrecordedKeepsExpected | 43xxx_Wi-Fi/libraries/protocols/iotc-sdk/src/iotc_wiced_mqtt.c:109-131 | disconnect, message, unsubscribe and unknown events leave `expected_event` alone |
| Mqtt.LastRecordedWins | 43xxx_Wi-Fi/libraries/protocols/iotc-sdk/src/iotc_wiced_mqtt.c:98-119 | `expected_event` is the kind of the last connect, publish or subscribe acknowledgement delivered |
| Mqtt.WaitNeedsAck | 43xxx_Wi-Fi/libraries/protocols/iotc-sdk/src/iotc_wiced_mqtt.c:138-147 | with no pending signal and no acknowledgement arriving, a wait fails. When the last event records one, the wait succeeds iff that event is the awaited kind and a signal exists |
| Mqtt.EffectiveTimeout | 43xxx_Wi-Fi/libraries/protocols/iotc-sdk/src/iotc_wiced_mqtt.c:249-251 | a zero timeout becomes DEFAULT_MQTT_TIMEOUT_MS (10000) and a non-zero timeout is kept, so the timeout in use is never zero |
| Mqtt.InitSuccessShape | 43xxx_Wi-Fi/libraries/protocols/iotc-sdk/src/iotc_wiced_mqtt.c:253-305 | Init succeeds in only two cases. One is the full sequence (resolve, init, connect, wait 2× the timeout, subscribe at QoS 1 to the sub topic, wait 1×) with both waits granted. The other is the address-0 case, which stops after the lookup |
| Mqtt.InitStopsAtFirstFailure | 43xxx_Wi-Fi/libraries/protocols/iotc-sdk/src/iotc_wiced_mqtt.c:253-302 | the first failing step ends Init, which returns that step's result. The calls made are always a prefix of the full sequence |
| Mqtt.ConnectAckAsWritten | 43xxx_Wi-Fi/libraries/protocols/iotc-sdk/src/iotc_wiced_mqtt.c:97-108 | a connect acknowledgement always satisfies the connect wait, and sets `is_connected` iff its error code is not NONE |
| Mqtt.DeinitAsWritten | 43xxx_Wi-Fi/libraries/protocols/iotc-sdk/src/iotc_wiced_mqtt.c:336-353 | with no sync response to read the sub topic from, the teardown dereferences NULL and makes no call. Otherwise it unsubscribes first, calls the library deinit iff the unsubscribe packet id is non-zero, and drops the config iff that deinit also succeeds |
| Mqtt.DeinitGuarded | 43xxx_Wi-Fi/libraries/protocols/iotc-sdk/src/iotc_wiced_mqtt.c:336-353 | the NULL-guarded teardown never faults |
| Mqtt.SecondTeardownFaults | 43xxx_Wi-Fi/libraries/protocols/iotc-sdk/src/iotc_wiced_mqtt.c:341-352 | a teardown that succeeds drops the config, and the teardown that follows it then dereferences NULL |
| Mqtt.GuardedTeardownIdempotent | 43xxx_Wi-Fi/libraries/protocols/iotc-sdk/src/iotc_wiced_mqtt.c:336-353 | the guarded teardown does what the code does whenever a session is there. After one that dropped the config, another makes no call and does not fault |
| Mqtt.MqttConfig.constructor | 43xxx_Wi-Fi/libraries/protocols/iotc-sdk/src/iotc_sdk.c:158 | the zeroed MQTT configuration: no sync response, timeout 0, no callbacks |
| Mqtt.MqttBridge.constructor | 43xxx_Wi-Fi/libraries/protocols/iotc-sdk/src/iotc_wiced_mqtt.c:81-87 | the static globals start out with no config, not connected, first event kind, semaphore 0, no object, address 0, no calls and no fault |
| Mqtt.MqttBridge.OnEvent | 43xxx_Wi-Fi/libraries/protocols/iotc-sdk/src/iotc_wiced_mqtt.c:93-136 | the callback changes the globals as StepState says and makes the callbacks Callbacks says, and touches nothing else |
| Mqtt.MqttBridge.WaitFor | 43xxx_Wi-Fi/libraries/protocols/iotc-sdk/src/iotc_wiced_mqtt.c:138-147 | after the arrivals are delivered in order, the wait succeeds iff a signal is available and the recorded event matches. An available signal is taken either way |
| Mqtt.MqttBridge.ConnOpen | 43xxx_Wi-Fi/libraries/protocols/iotc-sdk/src/iotc_wiced_mqtt.c:152-185 | connects with port 8883, MQTT v4, a clean session and peer CN `*.azure-devices.net`. A refused connect fails without waiting. Otherwise it waits 2× the timeout (uint32 arithmetic) for the connect acknowledgement |
| Mqtt.MqttBridge.Subscribe | 43xxx_Wi-Fi/libraries/protocols/iotc-sdk/src/iotc_wiced_mqtt.c:190-200 | packet id 0 fails without waiting. Otherwise it waits 1× the timeout for the subscribe acknowledgement |
| Mqtt.MqttBridge.Unsubscribe | 43xxx_Wi-Fi/libraries/protocols/iotc-sdk/src/iotc_wiced_mqtt.c:205-214 | fails iff the packet id is 0, and never waits |
| Mqtt.MqttBridge.OpenSession | 43xxx_Wi-Fi/libraries/protocols/iotc-sdk/src/iotc_wiced_mqtt.c:281-305 | connect then subscribe, with the result, calls, globals and callbacks of SessionSpec |
| Mqtt.MqttBridge.RunInit | 43xxx_Wi-Fi/libraries/protocols/iotc-sdk/src/iotc_wiced_mqtt.c:253-305 | the steps after the checks match InitSpec, about which InitSuccessShape and InitStopsAtFirstFailure are proved. The MQTT object exists iff its malloc succeeded, and the resolved address is stored once it did |
| Mqtt.MqttBridge.Init | 43xxx_Wi-Fi/libraries/protocols/iotc-sdk/src/iotc_wiced_mqtt.c:230-306 | a NULL config, a missing sync response or a missing callback gives BADARG before any allocation or library call, and leaves the globals, object and address alone; a non-NULL config is stored either way. A zero timeout becomes 10000; otherwise the timeout is kept. The remaining steps run as InitSpec with the effective timeout, and set the object and address as RunInit does |
| Mqtt.MqttBridge.Disconnect | 43xxx_Wi-Fi/libraries/protocols/iotc-sdk/src/iotc_wiced_mqtt.c:311-318 | the transport is asked to disconnect iff `is_connected`, and nothing else changes |
| Mqtt.MqttBridge.IsConnected | 43xxx_Wi-Fi/libraries/protocols/iotc-sdk/src/iotc_wiced_mqtt.c:320-322 | returns `is_connected` |
| Mqtt.MqttBridge.Publish | 43xxx_Wi-Fi/libraries/protocols/iotc-sdk/src/iotc_wiced_mqtt.c:324-334 | with a sync response in the config, publishes the data at QoS 1 to its pub topic and returns the library's packet id (0 on failure). It does not wait and leaves the globals alone. With the config dropped, the topic read dereferences NULL and nothing is published |
| Mqtt.MqttBridge.Deinit | 43xxx_Wi-Fi/libraries/protocols/iotc-sdk/src/iotc_wiced_mqtt.c:336-353 | resets the semaphore, then makes the calls, drops the config and faults exactly as DeinitAsWritten says for the sub topic read through the config |
| Sdk.ReportSyncError | 43xxx_Wi-Fi/libraries/protocols/iotc-sdk/src/iotc_sdk.c:17-55 | a NULL response, and only a NULL one, is reported as out of memory. The no-error warning is drawn exactly by an OK response |
| Sdk.ReportedStatus | 43xxx_Wi-Fi/libraries/protocols/iotc-sdk/src/iotc_sdk.c:22-50 | a report names a rejection, never OK |
| Sdk.ReportNamesRejection | 43xxx_Wi-Fi/libraries/protocols/iotc-sdk/src/iotc_sdk.c:17-55 | each rejection has its own message, from which the status can be read back. NULL and OK name no status |
| Sdk.PayloadsAlwaysProcessed | 43xxx_Wi-Fi/libraries/protocols/iotc-sdk/src/iotc_sdk.c:57-61 | without status_cb, the effects are exactly Processed: one NUL-terminated payload per data callback, in order. With status_cb, every bridge callback has exactly one effect |
| Sdk.ProcessedTextIsPayload | 43xxx_Wi-Fi/libraries/protocols/iotc-sdk/src/iotc_sdk.c:125-129 | the event processor reads exactly the payload when it holds no NUL of its own |
| Sdk.Sdk.constructor | 43xxx_Wi-Fi/libraries/protocols/iotc-sdk/src/iotc_sdk.c:11-15 | the static state: zeroed client config, NULL global sync response, no library config, a fresh bridge with no config and no fault, no calls made |
| Sdk.Sdk.InitAndGetConfig | 43xxx_Wi-Fi/libraries/protocols/iotc-sdk/src/iotc_sdk.c:113-116 | the client configuration is zeroed, and nothing else changes |
| Sdk.Sdk.OnIotconnectStatus | 43xxx_Wi-Fi/libraries/protocols/iotc-sdk/src/iotc_sdk.c:57-61 | a status reaches the application iff status_cb is set |
| Sdk.Sdk.OnMqttData | 43xxx_Wi-Fi/libraries/protocols/iotc-sdk/src/iotc_sdk.c:122-133 | the event processor gets exactly the `len` payload bytes followed by a NUL. The topic is ignored |
| Sdk.Sdk.Dispatch | 43xxx_Wi-Fi/libraries/protocols/iotc-sdk/src/iotc_sdk.c:160-161 | the bridge's callbacks reach the SDK's two handlers in order, with the effects CallbackEffects lists |
| Sdk.Sdk.PrepareMqttConfig | 43xxx_Wi-Fi/libraries/protocols/iotc-sdk/src/iotc_sdk.c:158-161 | the MQTT config holds the sync response and both handlers, with timeout 0 |
| Sdk.Sdk.Init | 43xxx_Wi-Fi/libraries/protocols/iotc-sdk/src/iotc_sdk.c:137-183 | a NULL or non-OK discovery result is reported and freed, and gives WICED_ERROR without touching MQTT: the bridge's calls, config and globals stay as they were. Otherwise MQTT init runs with that response and the default timeout. On success the library config gets env, cpid, duid, the response's dtg and the two callbacks. The global sync_response stays as it was |
| Sdk.Sdk.Disconnect | 43xxx_Wi-Fi/libraries/protocols/iotc-sdk/src/iotc_sdk.c:63-69 | frees and clears the global response, then MQTT disconnects (if connected), then MQTT deinits as DeinitAsWritten says. A second teardown after one that dropped the config faults |
| Sdk.Sdk.IsConnected | 43xxx_Wi-Fi/libraries/protocols/iotc-sdk/src/iotc_sdk.c:118-120 | returns the bridge's `is_connected` |
| Sdk.Sdk.SendPacket | 43xxx_Wi-Fi/libraries/protocols/iotc-sdk/src/iotc_sdk.c:71-75 | with a session, publishes the `strlen(data)` bytes of the string (its C-string prefix) to the pub topic, and a failure is logged iff publish returned non-zero. After a teardown that dropped the config, it faults and publishes nothing |
| Sdk.Sdk.Forward | 43xxx_Wi-Fi/libraries/protocols/iotc-sdk/src/iotc_sdk.c:104-106 | the message reaches the application iff msg_cb is set |
| Sdk.Sdk.Rediscover | 43xxx_Wi-Fi/libraries/protocols/iotc-sdk/src/iotc_sdk.c:87-93 | the global takes the discovery result if it is OK. Otherwise the result is reported, freed and the global set to NULL |
| Sdk.Sdk.Reconnect | 43xxx_Wi-Fi/libraries/protocols/iotc-sdk/src/iotc_sdk.c:94-106 | MQTT init runs again on `mqtt_config` as it stands: with its sync response the calls, globals and callbacks are those of InitSpec with the effective timeout; without one nothing changes on the bridge. The result is ignored, and the message is then forwarded |
| Sdk.Sdk.TeardownAndRediscover | 43xxx_Wi-Fi/libraries/protocols/iotc-sdk/src/iotc_sdk.c:86-93 | the teardown of Disconnect, then the rediscovery of Rediscover, with the log of both in order |
| Sdk.Sdk.OnForceSync | 43xxx_Wi-Fi/libraries/protocols/iotc-sdk/src/iotc_sdk.c:85-106 | teardown as DeinitAsWritten says, then rediscovery. A failed rediscovery is reported, freed and cleared, and the message is not forwarded. Otherwise MQTT init re-runs with the unchanged `mqtt_config` (its sync response is Init's), giving the calls and globals of InitSpec, then the message is forwarded |
| Sdk.Sdk.OnClose | 43xxx_Wi-Fi/libraries/protocols/iotc-sdk/src/iotc_sdk.c:96-106 | teardown as Disconnect (faulting when an earlier teardown dropped the config), no reconnect, then forwarding |
| Sdk.Sdk.OnOtherMessage | 43xxx_Wi-Fi/libraries/protocols/iotc-sdk/src/iotc_sdk.c:100-106 | no session change, only forwarding iff msg_cb is set |
| MqttClient.HostTable | 43xxx_Wi-Fi/apps/demo/iotconnect_demo/iotconnect_mqtt_client.c:16-30 | in both directions: "Avnet" or "avnetpoc" gives the poc host and "qa" the qa host. Nothing else gives a host, NULL and "" included |
| MqttClient.HostsMatchPeerCn | 43xxx_Wi-Fi/apps/demo/iotconnect_demo/iotconnect_mqtt_client.c:21-26 | every host of the table is covered by the wildcard peer CN the bridge checks |
| MqttClient.ClientIdStr | 43xxx_Wi-Fi/apps/demo/iotconnect_demo/iotconnect_mqtt_client.c:32-49 | there is a client id iff cpid and duid are non-NULL and malloc succeeded |
| MqttClient.ClientIdRoundTrip | 43xxx_Wi-Fi/apps/demo/iotconnect_demo/iotconnect_mqtt_client.c:38-46 | `cpid-duid` fits its buffer exactly, and cpid and duid read back from it |
| MqttClient.TopicStr | 43xxx_Wi-Fi/apps/demo/iotconnect_demo/iotconnect_mqtt_client.c:51-89 | there is a topic iff the client id is non-NULL and non-empty and malloc succeeded |
| MqttClient.TopicRoundTrip | 43xxx_Wi-Fi/apps/demo/iotconnect_demo/iotconnect_mqtt_client.c:58-66 | `devices/<id><suffix>` fits its buffer exactly, and gives the client id back |
| MqttClient.PubAndSubTopicsDiffer | 43xxx_Wi-Fi/apps/demo/iotconnect_demo/iotconnect_mqtt_client.c:10-11 | no pub topic equals any sub topic |
| MqttClient.UsernameStrAsWritten | 43xxx_Wi-Fi/apps/demo/iotconnect_demo/iotconnect_mqtt_client.c:91-110 | there is a username iff client id and host are non-NULL and non-empty and malloc succeeded |
| MqttClient.UsernameOverflows | 43xxx_Wi-Fi/apps/demo/iotconnect_demo/iotconnect_mqtt_client.c:97-107 | the username as written, with its terminator, overruns its buffer by two bytes for every input |
| MqttClient.UsernameOverflowExample | 43xxx_Wi-Fi/apps/demo/iotconnect_demo/iotconnect_mqtt_client.c:97-107 | host "h" and client id "c" write 29 bytes into a 27-byte buffer |
| MqttClient.UsernameStr | 43xxx_Wi-Fi/apps/demo/iotconnect_demo/iotconnect_mqtt_client.c:93-96 | the corrected builder gives a username under the same conditions as the builder as written |
| MqttClient.UsernameRoundTrip | 43xxx_Wi-Fi/apps/demo/iotconnect_demo/iotconnect_mqtt_client.c:96-97 | `host/clientid/?api-version=2018-06-30` fits its corrected buffer exactly, and host, client id and API version read back |
| Demo.CredentialsNest | 43xxx_Wi-Fi/apps/demo/iotconnect_demo/iotconnect_demo.c:244-294 | the acquire and release sequence replays as a stack. On any failure, every buffer acquired is released, most recent first, and none stays held. On success the three are held |
| Demo.ResourceStore.Get | 43xxx_Wi-Fi/apps/demo/iotconnect_demo/iotconnect_demo.c:244-248 | a read reports its result and size, and acquires the buffer iff it succeeded |
| Demo.ResourceStore.Free | 43xxx_Wi-Fi/apps/demo/iotconnect_demo/iotconnect_demo.c:252 | a free releases the buffer |
| Demo.Security.constructor | 43xxx_Wi-Fi/libraries/protocols/iotc-sdk/src/iotc_sdk.c:113-116 | the zeroed credential structure: no pointers, all lengths 0 |
| Demo.ReadCredentials | 43xxx_Wi-Fi/apps/demo/iotconnect_demo/iotconnect_demo.c:243-294 | success iff all three credentials were read and are at least 64 bytes, and the store sees exactly CredentialOps. Each pointer is set iff its read succeeded and the reads before it passed their size checks (otherwise it keeps its old value), even when its own buffer is then rejected. Each length is the size read iff that buffer and the ones before it passed the size check, and is unchanged otherwise |
| Demo.GetCredentialsFromResources | 43xxx_Wi-Fi/apps/demo/iotconnect_demo/iotconnect_demo.c:232-295 | a set CA pointer gives success with nothing read, and leaves every pointer and length as it was. Otherwise the credentials are read as ReadCredentials says |
| Demo.OnOta | 43xxx_Wi-Fi/apps/demo/iotconnect_demo/iotconnect_demo.c:112-140 | the ack is never a success. Its message is "OTA not supported" with a URL, else "Back end version 1.0 not supported by the app" with a legacy command, else NULL. It is sent iff it was created |
| Demo.OnCommand | 43xxx_Wi-Fi/apps/demo/iotconnect_demo/iotconnect_demo.c:79-94 | the ack is always a failure with "Not implemented", and is sent iff it was created |

## Behaviour kept as written

Each of these is modelled the way the code does it:

- **Connect acknowledgement** (`iotc_wiced_mqtt.c:100-107`). A connect
  acknowledgement with an error code sets `is_connected` to true. One without
  an error code sets it to false. The connect wait checks only the event
  kind, so it succeeds even on an error code (`Mqtt.ConnectAckAsWritten`).
- **SendPacket** (`iotc_sdk.c:72`). A failure is logged when publish returns
  non-zero. Publish returns the packet id, so this is a publish that went out.
- **Shadowed global** (`iotc_sdk.c:141`). `IotConnectSdk_Init` keeps the sync
  response in a local that hides the global `sync_response`. The global is
  not set by Init.
- **DNS lookup** (`iotc_wiced_mqtt.c:263-265`). A successful lookup that gives
  address 0 ends init and returns the lookup's result, which is success, with
  no connection made.
- **Force-sync** (`iotc_sdk.c:94`). The re-init uses `mqtt_config` as Init
  left it: the sync response from Init, and the timeout that Init defaulted.
  The response just discovered is not used.
- **Duplicate host test** (`iotconnect_mqtt_client.c:25`). The second `"qa"`
  test can never be reached.
- **Credential pointers** (`iotconnect_demo.c:244-245`, `:259-260`, `:274-275`). A read stores its
  pointer even when the buffer is then released. After a failed call, the set
  CA pointer makes the next call return success at once.
- **Subscribe wait** (`iotc_wiced_mqtt.c:196`). Subscribe waits 1× the
  timeout, although the comment on `mqtt_timeout_ms` in `iotc_wiced_mqtt.h:23`
  says 2×.
- **Receive buffer** (`iotc_wiced_discovery.c:221`). A payload is copied
  without a terminator. Bytes of an earlier, longer payload stay behind it.
- **Teardown without a config** (`iotc_wiced_mqtt.c:329`, `:341`). Publish and
  deinit read the topic through `config->sr` with no NULL check. The bridge's
  methods do the same: a read through a missing config sets the bridge's
  `faulted` flag, and from then on the C behaviour is undefined. The NULL-guarded
  teardown `Mqtt.DeinitGuarded` is the intended behaviour (see Findings).
- **Content-Length** (`iotc_wiced_discovery.c:155`). The length is printed
  after a cast to `uint16_t`, so it is strlen(post_data) mod 65536.

## Left out

- **Library calls.** The WICED HTTP client, TLS, DNS, MQTT and RTOS calls are
  not modelled. What each call answers, and the events its callbacks deliver,
  are inputs.
- **Concurrency and real time.** The callbacks run in the order given, and the
  semaphore is a count. Whether a wait times out is decided by the events
  delivered before it ends.
- **IoTConnect C library.** Its JSON parsing, IOTCL_ProcessEvent, IOTCL_Init
  and ack creation are outside the model. Their results are inputs, and what is
  handed to them is recorded.
- **Printing.** Logging and printing (`WPRINT_*`, `print_data`,
  `print_content`) are left out, apart from the one SendPacket failure log.
- **Demo control.** `application_start`, the clock shim, `publish_telemetry`
  and network bring-up are control and I/O plumbing.
- **SendDataPacket and GetLibConfig.** `IotConnectSdk_SendDataPacket` is the
  same decision as SendPacket on a byte buffer.
  `IotConnectSdk_GetLibConfig` only calls into the IoTConnect C library.
- **Discovery client setup.** `iotc_wiced_discovery_init` and `_deinit` only
  set up the HTTP client and the CA certificate.
- **Discovery host and post data.** `IOTCONNECT_DISCOVERY_HOSTNAME` and the
  post-data template belong to the IoTConnect C library, so both are
  parameters.
- **Number of tries.** `iotc_wiced_discovery.h:19` declares discovery with a
  fourth parameter, `num_tries`, but `iotc_sdk.c` calls it with three. The
  model follows the four-argument version, so `num_tries` is a parameter of the
  SDK operations.
- **Agent response dereference.** The agent response pointer is dereferenced
  without a NULL check (`iotc_wiced_discovery.c:75`). The model always has an
  agent descriptor.
- **Payload copy allocation.** `Sdk.Sdk.OnMqttData` does not model a failed
  malloc of the payload copy, which the code does not check.
- **Publish failure log.** `Mqtt.MqttBridge.Publish` does not model the
  "Publish failed" log of `mqtt_sdk_publish`.
- **Cross-object order in teardown.** `Sdk.Sdk.Disconnect` keeps the SDK's
  log and the bridge's call record apart. Freeing the response before the
  MQTT teardown is stated only up to that split.
- **MQTT object lifetime.** `iotc_wiced_mqtt_init` mallocs a new
  `mqtt_object` on every call (`iotc_wiced_mqtt.c:254`), and
  `iotc_wiced_mqtt_deinit` never frees it (`iotc_wiced_mqtt.c:336-353`). Every
  force-sync reconnect, and every init that fails after the malloc, therefore
  leaks one object. `hasObject` records only whether the latest malloc
  succeeded; the model has no heap accounting that would show the leak.
- **Headers.** `iotc_sdk.h` and `http.h` are not part of this model. The core
  files use only the names of the `HTTP_HEADER_*` macros and of the status
  values. The model takes each macro's text to be the header name followed by
  `": "` (`"Host: "`, `"Content-Type: "`, `"Content-Length: "`), the same form
  as the `"Connection: "` literal written beside them.
- Discovery.DiscoveryClient.Discover, Discovery.DiscoveryClient.RunTry,
  Sdk.Sdk.Init, Sdk.Sdk.Rediscover, Sdk.Sdk.TeardownAndRediscover and
  Sdk.Sdk.OnForceSync require the discovery path
  `/api/sdk/cpid/<cpid>/lang/M_C/ver/2.0/env/<env>` to fit the 1024-byte
  buffer it is printed into (`iotc_wiced_discovery.c:69`). The `sprintf` there
  is unbounded, and a longer cpid or env overruns the buffer; the model does
  not describe that overrun.
- **Unterminated full buffer.** A payload of exactly 1024 bytes is accepted
  and fills the whole buffer with no terminator
  (`iotc_wiced_discovery.c:217-221`). The `strlen` and `strstr` that follow
  (`iotc_wiced_discovery.c:71-72`) then read past its end. The model reads the
  buffer as a C string that may end at the buffer's end instead.

## Findings

| source | as written | input that shows it | evidently intended | confidence | as-written member | corrected member |
|---|---|---|---|---|---|---|
| 43xxx_Wi-Fi/apps/demo/iotconnect_demo/iotconnect_mqtt_client.c:97-107 | the buffer is sized for API_VERSION_STRING (22) plus 2 separators and a terminator. The text written is `host/clientid/?` plus MQTT_SUB_SUFFIX (23), with three separator characters | host "h", client id "c": 29 bytes written into 27 | `host/clientid/?api-version=2018-06-30`, as the comment at line 96 says, in a buffer of its length plus 1 | not executed | MqttClient.UsernameOverflows | MqttClient.UsernameRoundTrip |
| 43xxx_Wi-Fi/libraries/protocols/iotc-sdk/src/iotc_wiced_mqtt.c:336-352 | deinit reads `config->sr->broker.sub_topic` with no NULL check, and sets `config` to NULL once unsubscribe and deinit succeed. ON_CLOSE tears down through IotConnectSdk_Disconnect (43xxx_Wi-Fi/libraries/protocols/iotc-sdk/src/iotc_sdk.c:96-98), and the demo then calls IotConnectSdk_Disconnect again (43xxx_Wi-Fi/apps/demo/iotconnect_demo/iotconnect_demo.c:221), as do a second ON_CLOSE and a force sync after a failed rediscovery. Publishing after such a teardown reads `config->sr` the same way (43xxx_Wi-Fi/libraries/protocols/iotc-sdk/src/iotc_wiced_mqtt.c:329) | a successful teardown (non-zero unsubscribe packet id, deinit success) followed by any second teardown or publish | a teardown that does nothing when there is no config left, so that teardown is idempotent | not executed | Mqtt.SecondTeardownFaults | Mqtt.GuardedTeardownIdempotent |
