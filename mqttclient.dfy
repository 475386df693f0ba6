/** The identity and topic builders of iotconnect_mqtt_client.c. Each builder
    takes C strings (`None` for a NULL pointer; a string holds the characters
    before its terminator), allocates a buffer of a computed size (`allocOk` is
    whether malloc succeeded) and fills it by strcat. A result records the
    text written and the size of the buffer, so that whether the text and its
    terminator fit can be stated. */
module MqttClient {
  import opened Common
  import Mqtt

  const MQTT_TOPIC_PREFIX: string := "devices/"
  const MQTT_PUB_SUFFIX: string := "/messages/events/"
  const MQTT_SUB_SUFFIX: string := "/messages/devicebound/#"
  const API_VERSION_STRING: string := "api-version=2018-06-30"
  const POC_HOST: string := "poc-iotconnect-iothub-eu.azure-devices.net"
  const QA_HOST: string := "qa-iconnect-core-iothub-cu.azure-devices.net"

  /** A string built into a malloc'd buffer of `capacity` bytes. */
  datatype Built = Built(text: string, capacity: nat)

  /** The text and its terminator fit the buffer. */
  predicate Fits(b: Built) {
    |b.text| + 1 <= b.capacity
  }

  /** mqtt_get_host: the broker for a known environment; NULL or empty gives NULL,
      and so does any other name. The second "qa" test can never be reached. */
  function MqttGetHost(env: Option<string>): (r: Option<string>)
  {
    if env.None? || env.value == [] then None
    else if env.value == "Avnet" || env.value == "avnetpoc" then Some(POC_HOST)
    else if env.value == "qa" then Some(QA_HOST)
    else if env.value == "qa" then Some(QA_HOST)
    else None
  }

  /** The host table in both directions: exactly the three known names give a host, and
      each gives its own. */
  lemma HostTable(env: Option<string>)
    ensures MqttGetHost(env).Some? <==> env == Some("Avnet") || env == Some("avnetpoc") || env == Some("qa")
    ensures MqttGetHost(env) == Some(POC_HOST) <==> env == Some("Avnet") || env == Some("avnetpoc")
    ensures MqttGetHost(env) == Some(QA_HOST) <==> env == Some("qa")
  {
    assert POC_HOST != QA_HOST by { assert POC_HOST[0] != QA_HOST[0]; }
  }

  /** A host the bridge can connect to: the TLS peer name it checks is the wildcard
      "*.azure-devices.net", which covers a host with at least one label in front of
      ".azure-devices.net". */
  predicate MatchesPeerCn(host: string) {
    var domain := Mqtt.MQTT_PEER_CN[1..];
    |host| > |domain| && host[|host| - |domain|..] == domain
  }

  /** Both hosts of the table are covered by the peer name the bridge checks. */
  lemma HostsMatchPeerCn(env: Option<string>)
    ensures MqttGetHost(env).Some? ==> MatchesPeerCn(MqttGetHost(env).value)
  {
    var domain := Mqtt.MQTT_PEER_CN[1..];
    assert domain == ".azure-devices.net";
    assert POC_HOST[|POC_HOST| - |domain|..] == domain;
    assert QA_HOST[|QA_HOST| - |domain|..] == domain;
  }

  /** mqtt_create_client_id_str: `cpid-duid` in a buffer of the two lengths plus dash and terminator. */
  function ClientIdStr(cpid: Option<string>, duid: Option<string>, allocOk: bool): (r: Option<Built>)
    ensures r.Some? <==> cpid.Some? && duid.Some? && allocOk
  {
    if cpid.None? || duid.None? || !allocOk then None
    else Some(Built(cpid.value + "-" + duid.value, |cpid.value| + |duid.value| + 1 + 1))
  }

  /** The client id fits exactly, and cpid and duid can be read back from it given the
      length of the cpid. */
  lemma ClientIdRoundTrip(cpid: string, duid: string)
    ensures var r := ClientIdStr(Some(cpid), Some(duid), true).value;
      && Fits(r) && |r.text| + 1 == r.capacity
      && r.text[..|cpid|] == cpid && r.text[|cpid|] == '-' && r.text[|cpid| + 1..] == duid
  {
    var t := cpid + "-" + duid;
    assert t[..|cpid|] == cpid;
    assert t[|cpid| + 1..] == duid;
  }

  /** "devices/" + id + suffix, in a buffer of the three lengths plus the terminator; NULL or an empty id gives NULL. */
  function TopicStr(clientId: Option<string>, suffix: string, allocOk: bool): (r: Option<Built>)
    ensures r.Some? <==> clientId.Some? && clientId.value != [] && allocOk
  {
    if clientId.None? || clientId.value == [] || !allocOk then None
    else Some(Built(MQTT_TOPIC_PREFIX + clientId.value + suffix, |MQTT_TOPIC_PREFIX| + |clientId.value| + |suffix| + 1))
  }

  /** mqtt_create_pub_topic_str. */
  function PubTopicStr(clientId: Option<string>, allocOk: bool): Option<Built> {
    TopicStr(clientId, MQTT_PUB_SUFFIX, allocOk)
  }

  /** mqtt_create_sub_topic_str. */
  function SubTopicStr(clientId: Option<string>, allocOk: bool): Option<Built> {
    TopicStr(clientId, MQTT_SUB_SUFFIX, allocOk)
  }

  /** The device id between the topic prefix and a suffix, when the topic has both. */
  function TopicClientId(topic: string, suffix: string): (id: Option<string>)
  {
    if |topic| >= |MQTT_TOPIC_PREFIX| + |suffix|
       && topic[..|MQTT_TOPIC_PREFIX|] == MQTT_TOPIC_PREFIX
       && topic[|topic| - |suffix|..] == suffix
    then Some(topic[|MQTT_TOPIC_PREFIX|..|topic| - |suffix|])
    else None
  }

  /** Each topic fits its buffer exactly and gives back the client id it was built from. */
  lemma TopicRoundTrip(clientId: string, suffix: string)
    requires clientId != []
    ensures var r := TopicStr(Some(clientId), suffix, true).value;
      && Fits(r) && |r.text| + 1 == r.capacity
      && TopicClientId(r.text, suffix) == Some(clientId)
  {
    var t := MQTT_TOPIC_PREFIX + clientId + suffix;
    assert t[..|MQTT_TOPIC_PREFIX|] == MQTT_TOPIC_PREFIX;
    assert t[|t| - |suffix|..] == suffix;
    assert t[|MQTT_TOPIC_PREFIX|..|t| - |suffix|] == clientId;
  }

  /** A device never publishes on a topic it subscribes to: the last characters of the two
      suffixes differ, so no pub topic equals any sub topic. */
  lemma PubAndSubTopicsDiffer(a: string, b: string)
    requires a != [] && b != []
    ensures PubTopicStr(Some(a), true).value.text != SubTopicStr(Some(b), true).value.text
  {
    var p := MQTT_TOPIC_PREFIX + a + MQTT_PUB_SUFFIX;
    var s := MQTT_TOPIC_PREFIX + b + MQTT_SUB_SUFFIX;
    assert p[|p| - 1] == '/';
    assert s[|s| - 1] == '#';
  }

  /** mqtt_create_username_str as written: the buffer is sized for API_VERSION_STRING and two
      separators, but the text written has three separator characters and MQTT_SUB_SUFFIX. */
  function UsernameStrAsWritten(clientId: Option<string>, host: Option<string>, allocOk: bool): (r: Option<Built>)
    ensures r.Some? <==> clientId.Some? && clientId.value != [] && host.Some? && host.value != [] && allocOk
  {
    if clientId.None? || clientId.value == [] || host.None? || host.value == [] || !allocOk then None
    else Some(Built(host.value + "/" + clientId.value + "/?" + MQTT_SUB_SUFFIX,
                    |host.value| + |clientId.value| + |API_VERSION_STRING| + 2 + 1))
  }

  /** The written username and its terminator overrun the buffer by two bytes, for every input. */
  lemma UsernameOverflows(clientId: string, host: string)
    requires clientId != [] && host != []
    ensures var r := UsernameStrAsWritten(Some(clientId), Some(host), true).value;
      !Fits(r) && |r.text| + 1 == r.capacity + 2
  {
  }

  /** The smallest case: host "h" and client id "c" write 29 bytes into 27. */
  lemma UsernameOverflowExample()
    ensures var r := UsernameStrAsWritten(Some("c"), Some("h"), true).value;
      |r.text| + 1 == 29 && r.capacity == 27
  {
  }

  /** The username the comment above mqtt_create_username_str describes, `host/clientid/?api-version=…`, in a
      buffer counting all three separator characters. */
  function UsernameStr(clientId: Option<string>, host: Option<string>, allocOk: bool): (r: Option<Built>)
    ensures r.Some? <==> clientId.Some? && clientId.value != [] && host.Some? && host.value != [] && allocOk
  {
    if clientId.None? || clientId.value == [] || host.None? || host.value == [] || !allocOk then None
    else Some(Built(host.value + "/" + clientId.value + "/?" + API_VERSION_STRING,
                    |host.value| + |clientId.value| + |API_VERSION_STRING| + 3 + 1))
  }

  /** The corrected username fits exactly, and host, client id and API version can be read back. */
  lemma UsernameRoundTrip(clientId: string, host: string)
    requires clientId != [] && host != []
    ensures var r := UsernameStr(Some(clientId), Some(host), true).value;
      && Fits(r) && |r.text| + 1 == r.capacity
      && r.text[..|host|] == host
      && r.text[|host| + 1..|host| + 1 + |clientId|] == clientId
      && r.text[|r.text| - |API_VERSION_STRING|..] == API_VERSION_STRING
  {
    var t := host + "/" + clientId + "/?" + API_VERSION_STRING;
    assert t[..|host|] == host;
    assert t[|host| + 1..|host| + 1 + |clientId|] == clientId;
    assert t[|t| - |API_VERSION_STRING|..] == API_VERSION_STRING;
  }
}
