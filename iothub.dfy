/**
 * The Azure IoT Hub device of iothub.go and the identifiers it derives for
 * the hub's MQTT broker: client ID, username, command and telemetry topics,
 * and the broker descriptor. The topic readers recover the device ID from
 * either topic for every device; the username reader recovers the hub name
 * and device ID for every hub name without '/'. The client ID is the device
 * ID itself, and the broker is read back from its URL by `Broker.ParseURL`.
 */
module IotHub {
  import opened Wrappers
  import opened Broker
  import Decimal
  import Mqtt
  import opened Strings

  /** The DNS domain under which every hub's broker lives. */
  const AzureDevicesEndpoint: string := "azure-devices.net"

  /** The port of the hub's MQTT-over-TLS endpoint. */
  const MQTTTLSPort: int := 8883

  /** The text a hub name is followed by in the broker host. */
  const HostSuffix: string := "." + AzureDevicesEndpoint

  const TopicPrefix: string := "/devices/"
  const CommandSuffix: string := "/messages/devicebound/#"
  const TelemetrySuffix: string := "/messages/events"

  /**
   * A device. The certificate and key paths are only read when a client
   * is built; none of the identifiers depends on them.
   */
  datatype Device = Device(hubName: string, deviceId: string, certPath: string, privKeyPath: string) {

    /** The hub's broker: host `{hub}.azure-devices.net`, port 8883. */
    function Broker(): (b: MQTTBroker)
      ensures b.port == MQTTTLSPort
      ensures |b.host| == |hubName| + |HostSuffix|
      ensures b.host[..|hubName|] == hubName && b.host[|hubName|..] == HostSuffix
    {
      MQTTBroker(hubName + "." + AzureDevicesEndpoint, 8883)
    }

    /** IoT Hub requires the client ID to be the device ID. */
    function ClientID(): string {
      deviceId
    }

    /**
     * `{hub}.azure-devices.net/{id}`, without an api-version query, which
     * the hub refuses with "Server Unavailable" in practice.
     */
    function Username(): (u: string)
      ensures |u| == |Broker().host| + 1 + |deviceId|
      ensures u[..|Broker().host|] == Broker().host && u[|Broker().host|] == '/'
      ensures u[|Broker().host| + 1..] == deviceId
    {
      hubName + "." + AzureDevicesEndpoint + "/" + deviceId
    }

    /** The filter for cloud-to-device messages, ending in the '#' wildcard. */
    function CommandTopic(): (t: string)
      ensures |t| == |TopicPrefix| + |deviceId| + |CommandSuffix|
      ensures t[..|TopicPrefix|] == TopicPrefix
      ensures t[|TopicPrefix| + |deviceId|..] == CommandSuffix && t[|t| - 1] == '#'
      ensures t[|TopicPrefix|..|TopicPrefix| + |deviceId|] == deviceId
    {
      "/devices/" + deviceId + "/messages/devicebound/#"
    }

    /** The topic device-to-cloud telemetry is published on. */
    function TelemetryTopic(): (t: string)
      ensures |t| == |TopicPrefix| + |deviceId| + |TelemetrySuffix|
      ensures t[..|TopicPrefix|] == TopicPrefix
      ensures t[|TopicPrefix| + |deviceId|..] == TelemetrySuffix
      ensures t[|TopicPrefix|..|TopicPrefix| + |deviceId|] == deviceId
    {
      "/devices/" + deviceId + "/messages/events"
    }
  }

  /** The device ID inside a topic `{prefix}{id}{suffix}`, if `t` has that shape. */
  function Between(t: string, prefix: string, suffix: string): (r: Option<string>)
    ensures r.Some? <==> |t| >= |prefix| + |suffix| && t[..|prefix|] == prefix && t[|t| - |suffix|..] == suffix
    ensures r.Some? ==> t == prefix + r.value + suffix
  {
    if |t| >= |prefix| + |suffix| && t[..|prefix|] == prefix && t[|t| - |suffix|..] == suffix then
      assert t == t[..|prefix|] + t[|prefix|..|t| - |suffix|] + t[|t| - |suffix|..];
      Some(t[|prefix|..|t| - |suffix|])
    else None
  }

  function DeviceIdOfCommandTopic(t: string): Option<string> {
    Between(t, TopicPrefix, CommandSuffix)
  }

  function DeviceIdOfTelemetryTopic(t: string): Option<string> {
    Between(t, TopicPrefix, TelemetrySuffix)
  }

  /**
   * Splits a username at its first '/' into hub name and device ID; the
   * part before the '/' must be a hub's broker host.
   */
  function ParseUsername(u: string): Option<(string, string)> {
    var i := FirstIndexOf(u, '/');
    if i < 0 then None
    else
      var host := u[..i];
      if |host| < |HostSuffix| || host[|host| - |HostSuffix|..] != HostSuffix then None
      else Some((host[..|host| - |HostSuffix|], u[i + 1..]))
  }

  /** The client ID is the device ID, and it is what follows the host in the username. */
  lemma ClientIDInUsername(d: Device)
    ensures d.ClientID() == d.deviceId
    ensures d.Username() == d.Broker().host + "/" + d.ClientID()
  {
    var u, h := d.Username(), d.Broker().host;
    assert u == u[..|h|] + [u[|h|]] + u[|h| + 1..];
  }

  /** The broker descriptor is a function of the hub name alone. */
  lemma BrokerOnlyDependsOnHub(d: Device, e: Device)
    ensures d.Broker() == e.Broker() <==> d.hubName == e.hubName
  {
    if d.Broker() == e.Broker() {
      assert d.hubName == d.Broker().host[..|d.hubName|];
    }
  }

  /** No identifier depends on the certificate or key path. */
  lemma IdentifiersIgnoreCredentials(d: Device, certPath: string, privKeyPath: string)
    ensures var e := Device(d.hubName, d.deviceId, certPath, privKeyPath);
      && e.Broker() == d.Broker() && e.ClientID() == d.ClientID() && e.Username() == d.Username()
      && e.CommandTopic() == d.CommandTopic() && e.TelemetryTopic() == d.TelemetryTopic()
  {
  }

  /** The port renders as "8883". */
  lemma PortText()
    ensures Decimal.FormatInt(MQTTTLSPort) == "8883"
  {
    assert Decimal.NatToDecimal(8) == "8";
    assert Decimal.NatToDecimal(88) == "88";
    assert Decimal.NatToDecimal(888) == "888";
  }

  /** A fact about literals alone, kept apart to keep the proof of `DeviceBrokerURL` small. */
  lemma HostAndPortText()
    ensures HostSuffix + ":" + "8883" == ".azure-devices.net:8883"
  {
  }

  /** The broker URL of a device's hub. */
  lemma DeviceBrokerURL(d: Device)
    ensures d.Broker().URL() == "tls://" + d.hubName + ".azure-devices.net:8883"
  {
    var b := d.Broker();
    PortText();
    HostAndPortText();
    assert b.URL() == Scheme + (d.hubName + HostSuffix) + ":" + "8883";
    assert b.URL() == Scheme + d.hubName + (HostSuffix + ":" + "8883");
  }

  /** The command topic gives back exactly the device ID it was built from. */
  lemma CommandTopicExact(t: string, d: Device)
    ensures DeviceIdOfCommandTopic(t) == Some(d.deviceId) <==> d.CommandTopic() == t
  {
    var c := d.CommandTopic();
    assert c == c[..|TopicPrefix|] + c[|TopicPrefix|..|TopicPrefix| + |d.deviceId|] + c[|TopicPrefix| + |d.deviceId|..];
  }

  /** The telemetry topic gives back exactly the device ID it was built from. */
  lemma TelemetryTopicExact(t: string, d: Device)
    ensures DeviceIdOfTelemetryTopic(t) == Some(d.deviceId) <==> d.TelemetryTopic() == t
  {
    var c := d.TelemetryTopic();
    assert c == c[..|TopicPrefix|] + c[|TopicPrefix|..|TopicPrefix| + |d.deviceId|] + c[|TopicPrefix| + |d.deviceId|..];
  }

  /** Devices share a topic exactly when they share a device ID. */
  lemma TopicsInjective(d: Device, e: Device)
    ensures d.CommandTopic() == e.CommandTopic() <==> d.deviceId == e.deviceId
    ensures d.TelemetryTopic() == e.TelemetryTopic() <==> d.deviceId == e.deviceId
  {
    CommandTopicExact(e.CommandTopic(), d);
    TelemetryTopicExact(e.TelemetryTopic(), d);
  }

  /** No device's command filter is any device's telemetry topic. */
  lemma CommandAndTelemetryDiffer(d: Device, e: Device)
    ensures d.CommandTopic() != e.TelemetryTopic()
  {
    var t := e.TelemetryTopic();
    assert t[|t| - 1] == TelemetrySuffix[|TelemetrySuffix| - 1];
  }

  /** For a hub name without '/', the username splits back into hub name and device ID. */
  lemma UsernameRoundTrip(d: Device)
    requires !Contains(d.hubName, '/')
    ensures ParseUsername(d.Username()) == Some((d.hubName, d.deviceId))
  {
    var u, h := d.Username(), d.Broker().host;
    assert h == d.hubName + HostSuffix;
    assert !Contains(h, '/') by {
      ContainsConcat(d.hubName, HostSuffix, '/');
    }
    ClientIDInUsername(d);
    assert u == h + ['/'] + d.deviceId;
    FirstIndexOfAfter(h, d.deviceId, '/');
  }

  /** Every username `ParseUsername` accepts is the username of the device it names. */
  lemma ParseUsernameSound(u: string, hub: string, id: string, certPath: string, privKeyPath: string)
    requires ParseUsername(u) == Some((hub, id))
    ensures !Contains(hub, '/')
    ensures Device(hub, id, certPath, privKeyPath).Username() == u
  {
    var i := FirstIndexOf(u, '/');
    var host := u[..i];
    assert host == hub + HostSuffix;
    assert u == host + [u[i]] + u[i + 1..];
    assert forall j :: 0 <= j < |hub| ==> hub[j] == u[j];
  }

  /** Among hub names without '/', usernames identify hub name and device ID. */
  lemma UsernameInjective(d: Device, e: Device)
    requires !Contains(d.hubName, '/') && !Contains(e.hubName, '/')
    ensures d.Username() == e.Username() <==> d.hubName == e.hubName && d.deviceId == e.deviceId
  {
    UsernameRoundTrip(d);
    UsernameRoundTrip(e);
  }

  /** The fixed parts of the topics are ASCII, one byte per character. */
  lemma FixedPartsAscii()
    ensures Mqtt.Utf8Length(TopicPrefix) == |TopicPrefix|
    ensures Mqtt.Utf8Length(TelemetrySuffix) == |TelemetrySuffix|
    ensures Mqtt.Utf8Length(CommandSuffix) == |CommandSuffix|
  {
    PrefixAscii();
    TelemetrySuffixAscii();
    CommandSuffixAscii();
    Mqtt.AsciiUtf8Length(TopicPrefix);
    Mqtt.AsciiUtf8Length(TelemetrySuffix);
    Mqtt.AsciiUtf8Length(CommandSuffix);
  }

  lemma PrefixAscii()
    ensures Mqtt.Ascii(TopicPrefix)
  {
  }

  lemma TelemetrySuffixAscii()
    ensures Mqtt.Ascii(TelemetrySuffix)
  {
  }

  lemma CommandSuffixAscii()
    ensures Mqtt.Ascii(CommandSuffix)
  {
  }

  /** The UTF-8 bytes left for the device ID in a telemetry topic of at most 65535 bytes. */
  const TelemetryIdBudget: int := Mqtt.MaxTopicBytes - |TopicPrefix| - |TelemetrySuffix|

  /** The UTF-8 bytes left for the device ID in a command topic of at most 65535 bytes. */
  const CommandIdBudget: int := Mqtt.MaxTopicBytes - |TopicPrefix| - |CommandSuffix|

  /**
   * The telemetry topic is a valid MQTT topic name exactly when the device
   * ID holds no wildcard and no null character and fits the length limit.
   */
  lemma TelemetryTopicIsTopicName(d: Device)
    ensures Mqtt.ValidTopicName(d.TelemetryTopic()) <==>
      Mqtt.PlainText(d.deviceId) && Mqtt.Utf8Length(d.deviceId) <= TelemetryIdBudget
  {
    TelemetryTopicLength(d);
    TelemetryTopicPlain(d);
  }

  lemma TelemetryTopicLength(d: Device)
    ensures Mqtt.Utf8Length(d.TelemetryTopic()) == |TopicPrefix| + Mqtt.Utf8Length(d.deviceId) + |TelemetrySuffix|
  {
    FixedPartsAscii();
    Mqtt.Utf8LengthConcat(TopicPrefix, d.deviceId);
    Mqtt.Utf8LengthConcat(TopicPrefix + d.deviceId, TelemetrySuffix);
  }

  lemma TelemetryTopicPlain(d: Device)
    ensures Mqtt.PlainText(d.TelemetryTopic()) <==> Mqtt.PlainText(d.deviceId)
  {
    assert Mqtt.PlainText(TopicPrefix) && Mqtt.PlainText(TelemetrySuffix);
    Mqtt.PlainTextConcat(TopicPrefix, d.deviceId, TelemetrySuffix);
  }

  lemma CommandSuffixIsFilter()
    ensures Mqtt.FilterShape(CommandSuffix) && CommandSuffix[0] == '/'
  {
    assert forall i :: 0 <= i < |CommandSuffix| - 1 ==> CommandSuffix[i] != '#' && CommandSuffix[i] != '+';
  }

  lemma CommandTopicLength(d: Device)
    ensures Mqtt.Utf8Length(d.CommandTopic()) == |TopicPrefix| + Mqtt.Utf8Length(d.deviceId) + |CommandSuffix|
  {
    FixedPartsAscii();
    Mqtt.Utf8LengthConcat(TopicPrefix, d.deviceId);
    Mqtt.Utf8LengthConcat(TopicPrefix + d.deviceId, CommandSuffix);
  }

  lemma CommandTopicHasFilterShape(d: Device)
    requires Mqtt.PlainText(d.deviceId)
    ensures Mqtt.FilterShape(d.CommandTopic())
  {
    var id := d.deviceId;
    assert Mqtt.PlainText(TopicPrefix);
    Mqtt.PlainTextConcat(TopicPrefix, id, "");
    assert TopicPrefix + id + "" == TopicPrefix + id;
    CommandSuffixIsFilter();
    Mqtt.FilterAfterPlainText(TopicPrefix + id, CommandSuffix);
    assert d.CommandTopic() == TopicPrefix + id + CommandSuffix;
  }

  lemma CommandTopicHashMisplaced(d: Device)
    requires Contains(d.deviceId, '#')
    ensures !Mqtt.FilterShape(d.CommandTopic())
  {
    var id, p, c := d.deviceId, |TopicPrefix|, d.CommandTopic();
    var k :| 0 <= k < |id| && id[k] == '#';
    assert c[p + k] == id[k];
    assert !Mqtt.WildcardPlaced(c, p + k);
  }

  /**
   * A device ID free of wildcards and null characters that fits the length
   * limit yields a valid MQTT command topic filter; a device ID holding '#',
   * or one too long, never does.
   */
  lemma CommandTopicIsTopicFilter(d: Device)
    ensures Mqtt.PlainText(d.deviceId) && Mqtt.Utf8Length(d.deviceId) <= CommandIdBudget ==>
      Mqtt.ValidTopicFilter(d.CommandTopic())
    ensures Contains(d.deviceId, '#') ==> !Mqtt.ValidTopicFilter(d.CommandTopic())
    ensures Mqtt.Utf8Length(d.deviceId) > CommandIdBudget ==> !Mqtt.ValidTopicFilter(d.CommandTopic())
  {
    CommandTopicLength(d);
    if Mqtt.PlainText(d.deviceId) {
      CommandTopicHasFilterShape(d);
    }
    if Contains(d.deviceId, '#') {
      CommandTopicHashMisplaced(d);
    }
  }

  /**
   * The expected strings of iothub_test.go, spelled as the formats build
   * them: facts about literals alone, kept apart to keep the proof of
   * `ExampleDevice` small.
   */
  lemma ExampleUsernameString()
    ensures "myhub" + "." + "azure-devices.net" + "/" + "foo" == "myhub.azure-devices.net/foo"
  {
  }

  lemma ExampleCommandTopicString()
    ensures "/devices/" + "foo" + "/messages/devicebound/#" == "/devices/foo/messages/devicebound/#"
  {
  }

  lemma ExampleTelemetryTopicString()
    ensures "/devices/" + "foo" + "/messages/events" == "/devices/foo/messages/events"
  {
  }

  /** The identifiers of the device used in iothub_test.go. */
  lemma ExampleDevice()
    ensures var d := Device("myhub", "foo", "", "key.pem");
      && d.ClientID() == "foo"
      && d.Username() == "myhub.azure-devices.net/foo"
      && d.CommandTopic() == "/devices/foo/messages/devicebound/#"
      && d.TelemetryTopic() == "/devices/foo/messages/events"
  {
    ExampleUsernameString();
    ExampleCommandTopicString();
    ExampleTelemetryTopicString();
  }
}
