# iothub in Dafny

A model of the Go package `iothub`. The package helps a device talk to an Azure IoT Hub over MQTT. It derives the identifiers the hub's broker expects from a device's hub name and device ID:

- the client ID;
- the username `{hub}.azure-devices.net/{id}`;
- the cloud-to-device command topic filter;
- the telemetry topic;
- the broker descriptor (host and port) and its URL `tls://{host}:{port}`.

It also builds MQTT client options. `NewClient` writes defaults into the options, then runs the caller's option functions over them in order, stopping at the first error.

Modules, one per concern:

- `Wrappers`: `Option` and `Result`.
- `Decimal`: Go's `%d` for an `int` (`FormatInt`). Its exact inverse `Parse` accepts only canonical decimal text.
- `Broker` (broker.go): `MQTTBroker` with `URL` and `String`. `ParseURL` reads a URL back. It splits at the LAST ':', so a host holding ':' still comes back whole.
- `Strings`: searching a string for a character.
- `Mqtt`: well-formed topic names and filters after section 4.7 of MQTT Version 3.1.1. This covers wildcard placement, the null character, non-emptiness and the 65535-byte limit, measured as the UTF-8 length of the characters.
- `IotHub` (iothub.go): `Device` and its derived identifiers. Two topic readers give back the device ID, and a username reader gives back the hub name and device ID. Lemmas prove both directions. The topic readers undo their topics for every device ID. The username reader undoes the username for every hub name without '/'. The client ID is the device ID itself, and `Broker.ParseURL` reads the broker back from its URL.
- `Client` (iothub.go, `NewClient`): the imperative construction. `ClientOptions` is a class whose setters update its fields in place. The option loop works on it. The method's contract ties its result to the pure fold `ApplyOptions`. The lemmas about `ApplyOptions` state the ordering and short-circuit behaviour.

Environment as parameters. `NewClient` receives three outcomes as arguments:

- the outcome of reading the root-certificate stream;
- the pool that parsing the stream yields (`None` when no certificate parses);
- the key-pair loader, applied to the device's certificate path and key path.

The certificate pool and the key pair are opaque handles. The TLS configuration's constant fields are modelled: client authentication `RequireAndVerifyClientCert`, minimum version TLS 1.2 (0x0303), the loaded pair as the only certificate, and the pool as the roots.

Integers are unbounded. Go's `int` is 32 or 64 bits wide, depending on the platform. `%d` renders every value the same either way, and the only port this code sets is 8883.

## Model

| member | source | states |
|---|---|---|
| Decimal.FormatInt | broker.go:13 | `%d` text of an int: non-empty, digits only except a leading '-' exactly for negatives, no leading zero |
| Decimal.ParseFormatInt | broker.go:13 | parsing the `%d` text of any int gives that int back |
| Decimal.FormatIntParse | broker.go:13 | every text `Parse` accepts is exactly the `%d` text of the value it returns |
| Decimal.FormatIntInjective | broker.go:13 | distinct ints have distinct `%d` texts |
| Broker.MQTTBroker.URL | broker.go:12-14 | the URL starts with `tls://`, then comes the host, then ':', then the `%d` text of the port |
| Broker.MQTTBroker.String | broker.go:17-19 | the string form equals the URL, and parsing it gives the broker back |
| Broker.URLSplitsAtLastColon | broker.go:13 | the last ':' of the URL comes right after the host, even when the host holds ':'; the text before it (after `tls://`) is the host; for a non-negative port the text after it is all digits and reads back as the port |
| Broker.URLRoundTrip | broker.go:12-14 | `ParseURL(b.URL()) == Some(b)` for every broker |
| Broker.ParseURLExact | broker.go:12-14 | `ParseURL(u) == Some(b)` exactly when `u` is `b`'s URL |
| Broker.URLInjective | broker.go:12-14 | two brokers have the same URL exactly when they are equal |
| IotHub.Device.Broker | iothub.go:122-127 | port 8883; the host is the hub name followed by `.azure-devices.net` |
| IotHub.Device.ClientID | iothub.go:131-133 | the device ID unchanged; its contract is stated by `IotHub.ClientIDInUsername` |
| IotHub.Device.Username | iothub.go:136-144 | the username is the broker host, then '/', then exactly the device ID; nothing such as an api-version query follows |
| IotHub.Device.CommandTopic | iothub.go:148-150 | the topic starts with `/devices/`, ends with `/messages/devicebound/#` (so its last character is the '#' wildcard), and what lies between is the device ID |
| IotHub.Device.TelemetryTopic | iothub.go:154-156 | the topic starts with `/devices/`, ends with `/messages/events`, and what lies between is the device ID |
| IotHub.ClientIDInUsername | iothub.go:131-133 | the client ID is the device ID unchanged, and the username is the broker host, '/', then the client ID |
| IotHub.BrokerOnlyDependsOnHub | iothub.go:122-127 | two devices have the same broker exactly when they have the same hub name |
| IotHub.IdentifiersIgnoreCredentials | iothub.go:46-51 | changing the certificate or key path changes no identifier and not the broker |
| IotHub.PortText | iothub.go:125 | port 8883 renders as "8883" |
| IotHub.DeviceBrokerURL | iothub.go:122-127 | the broker URL of a device is `tls://{hub}.azure-devices.net:8883` |
| IotHub.CommandTopicExact | iothub.go:148-150 | stripping the fixed prefix and suffix off a topic gives a device's ID exactly when the topic is that device's command topic |
| IotHub.TelemetryTopicExact | iothub.go:154-156 | stripping the fixed prefix and suffix off a topic gives a device's ID exactly when the topic is that device's telemetry topic |
| IotHub.TopicsInjective | iothub.go:148-156 | two devices share a command topic, or a telemetry topic, exactly when they share a device ID |
| IotHub.CommandAndTelemetryDiffer | iothub.go:148-156 | no command topic equals any telemetry topic |
| IotHub.UsernameRoundTrip | iothub.go:143 | for a hub name without '/', splitting the username at its first '/' and removing `.azure-devices.net` gives back the hub name and the device ID |
| IotHub.ParseUsernameSound | iothub.go:143 | every username the reader accepts is the username of the device it names, and that hub name has no '/' |
| IotHub.UsernameInjective | iothub.go:143 | among hub names without '/', two devices have the same username exactly when they have the same hub name and device ID |
| IotHub.TelemetryTopicIsTopicName | iothub.go:152-156 | the telemetry topic is a valid MQTT topic name exactly when the device ID holds no '#', '+' or null character and takes at most 65535 - 25 bytes in UTF-8 |
| IotHub.CommandTopicIsTopicFilter | iothub.go:146-150 | for a device ID without '#', '+' or null character that takes at most 65535 - 32 bytes in UTF-8, the command topic is a valid MQTT topic filter whose '#' wildcard is last and follows '/'; a device ID holding '#', or a longer one, never gives a valid filter |
| IotHub.ExampleDevice | iothub_test.go:7-43 | for hub "myhub" and ID "foo": client ID "foo", username "myhub.azure-devices.net/foo", the two topics the tests expect |
| Client.Message | iothub.go:82-115 | the three errors `NewClient` makes itself start with `iothub: `; an option's error is returned unchanged |
| Client.DeviceTlsConfig | iothub.go:97-102 | the TLS configuration: the pool as roots, client certificates required and verified, the loaded pair as the only certificate, TLS 1.2 as the minimum; its contract is stated by `Client.DefaultsWithoutOptions` |
| Client.DefaultOptions | iothub.go:104-111 | the library defaults with the broker URL added as a server and the client ID, username and TLS configuration set; its contract is stated by `Client.DefaultsWithoutOptions` and by the assertion in `Client.NewClient` that the four setters produce it |
| Client.ApplyOptions | iothub.go:113-117 | the options run left to right, the first error ending the run; its contract is stated by `Client.ApplyOptionsAppend`, `Client.ApplyOptionsFailure` and `Client.ApplyInfallibleOptions` |
| Client.ClientOptions.constructor | iothub.go:107 | fresh options hold the library defaults |
| Client.ClientOptions.AddBroker | iothub.go:108 | appends the server to the option's server list and changes no other setting |
| Client.ClientOptions.SetClientID | iothub.go:109 | sets the client ID and changes no other setting |
| Client.ClientOptions.SetUsername | iothub.go:110 | sets the username and changes no other setting |
| Client.ClientOptions.SetTLSConfig | iothub.go:111 | sets the TLS configuration and changes no other setting |
| Client.ClientOptions.Load | iothub.go:114 | an option function replaces the options it is handed with its result |
| Client.NewClient | iothub.go:80-120 | a stream read failure, an empty root pool and a key-pair failure are reported in that order, each before any later step; the key pair is loaded from the device's certificate path and key path; otherwise the result is the options run through `ApplyOptions` from the defaults, or the first option's error |
| Client.ApplyOptionsAppend | iothub.go:113-117 | running `a + b` runs `a`, and runs `b` from where `a` stopped only if `a` succeeded |
| Client.ApplyOptionsFailure | iothub.go:113-117 | the run fails with `e` exactly when some option fails with `e` and every option before it succeeded |
| Client.ApplyInfallibleOptions | iothub.go:113-117 | options that never fail yield the left-to-right composition of their updates applied to the starting options |
| Client.DefaultsWithoutOptions | iothub.go:97-111 | with no options, the broker URL is the only server, the client ID is the device ID, the username is the device's username, and the TLS configuration is mutual TLS 1.2 with the loaded pair and pool; every other setting keeps the library default |

## Left out

- `DeviceIDFromCert` (iothub.go:22-43): file reading, PEM decoding and X.509 parsing are done by the Go standard library. Their results cannot be stated from this code.
- Reading the root-certificate stream, `AppendCertsFromPEM` and `tls.LoadX509KeyPair` (iothub.go:82-95): these are foreign calls. Their outcomes are parameters of `Client.NewClient`.
- `mqtt.NewClient` and everything the MQTT client does afterwards: connect, publish, subscribe, disconnect (iothub.go:119). That is the external Paho library. `Client.NewClient` returns the options the client would be built from.
- Paho's `NewClientOptions` fills in many defaults of its own. They are summarised as `LibraryDefaults`: no servers, empty client ID and username, no TLS configuration, and an empty map `other` standing for every remaining setting. Paho's `AddBroker` also rewrites and parses the server string; `Client.ClientOptions.AddBroker` only appends it. The model assumes the URL parses. What Paho does with one that does not, as for a hub name holding a space, is not modelled: the model appends the string regardless.
- Client.NewClient: an option function in Go receives `*Device` and could change the device seen by later options. The model passes the device by value. An option's in-place update of the options is modelled as returning new options that are written back; partial updates an option makes before it fails are not modelled, since a failing `NewClient` returns no client.
- The JSON struct tags of `Device` (iothub.go:47-50): serialisation is done by the Go standard library.
- Errors are plain values here. Go wraps the key-pair error with `%w` (iothub.go:94), so `errors.Is` and `errors.As` reach it, but formats the read error with `%v` (iothub.go:84), so nothing reaches that one. The model does not tell wrapped from unwrapped causes apart.
- Go strings are bytes; the model's strings are Unicode characters. This matters only for the topic length limit, which the model measures as the UTF-8 length of the characters. A Go device ID that is not valid UTF-8 has no counterpart here.
- A nil option function in the list would make Go panic. The model's options are total functions.
