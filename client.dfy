/**
 * Client construction of iothub.go (`Device.NewClient`): load the trusted
 * roots and the device's key pair, build the TLS configuration, write the
 * defaults (broker URL, client ID, username, TLS configuration) into a fresh
 * set of MQTT client options, then run the caller's option functions over
 * them in order, stopping at the first that fails.
 *
 * The collaborators this code calls (reading the root certificate stream,
 * parsing it into a pool, loading the key pair, the MQTT client library) are
 * outside the model: their outcomes are parameters, and the certificate pool
 * and key pair are opaque handles.
 */
module Client {
  import opened Wrappers
  import opened IotHub

  newtype byte = x: int | 0 <= x < 256

  /** A pool of trusted root certificates, as the crypto library builds it. */
  datatype CertPool = CertPool(handle: nat)

  /** A client certificate with its private key, as the crypto library loads it. */
  datatype Certificate = Certificate(handle: nat)

  /** The client-authentication policies of Go's TLS configuration. */
  datatype ClientAuthType =
    | NoClientCert
    | RequestClientCert
    | RequireAnyClientCert
    | VerifyClientCertIfGiven
    | RequireAndVerifyClientCert

  /** The protocol version number of TLS 1.2. */
  const VersionTLS12: int := 0x0303

  datatype TlsConfig = TlsConfig(
    rootCAs: CertPool,
    clientAuth: ClientAuthType,
    certificates: seq<Certificate>,
    minVersion: int)

  /**
   * The MQTT client options this code sets; `other` holds every remaining
   * setting of the MQTT library by name, which only option functions touch.
   */
  datatype Options = Options(
    servers: seq<string>,
    clientId: string,
    username: string,
    tlsConfig: Option<TlsConfig>,
    other: map<string, string>)

  /** The options as the MQTT library creates them, before anything is set. */
  const LibraryDefaults: Options := Options([], "", "", None, map[])

  /** A caller-supplied option: updates the options or fails with an error text. */
  type OptionFn = (Device, Options) -> Result<Options, string>

  datatype Error =
    | ReadCACertsFailed(cause: string)
    | NoCACertsParsed
    | LoadKeyPairFailed(cause: string)
    | OptionFailed(cause: string)

  /** The package prefix of every error this code makes itself. */
  const ErrorPrefix: string := "iothub: "

  /** The error text the caller sees; an option's own error is passed on unchanged. */
  function Message(e: Error): (m: string)
    ensures e.OptionFailed? ==> m == e.cause
    ensures !e.OptionFailed? ==> |m| > |ErrorPrefix| && m[..|ErrorPrefix|] == ErrorPrefix
  {
    match e
    case ReadCACertsFailed(c) => ErrorPrefix + "failed to read CA certs: " + c
    case NoCACertsParsed => ErrorPrefix + "no certs were parsed from given CA certs"
    case LoadKeyPairFailed(c) => ErrorPrefix + "failed to load x509 key pair: " + c
    case OptionFailed(c) => c
  }

  /** Mutual TLS pinned to the given roots, presenting the device's certificate, TLS 1.2 or later. */
  function DeviceTlsConfig(pool: CertPool, cert: Certificate): TlsConfig {
    TlsConfig(pool, RequireAndVerifyClientCert, [cert], VersionTLS12)
  }

  /** The options after the four default setters of `NewClient`. */
  function DefaultOptions(d: Device, tls: TlsConfig): Options {
    LibraryDefaults.(
      servers := LibraryDefaults.servers + [d.Broker().URL()],
      clientId := d.ClientID(),
      username := d.Username(),
      tlsConfig := Some(tls))
  }

  /** Runs `fs` left to right from `o`; the first error ends the run. */
  function ApplyOptions(d: Device, o: Options, fs: seq<OptionFn>): Result<Options, string>
    decreases |fs|
  {
    if fs == [] then Ok(o)
    else
      match fs[0](d, o)
      case Err(e) => Err(e)
      case Ok(o') => ApplyOptions(d, o', fs[1..])
  }

  /** The options as handed to the MQTT client library. */
  class ClientOptions {
    var servers: seq<string>
    var clientId: string
    var username: string
    var tlsConfig: Option<TlsConfig>
    var other: map<string, string>

    function Value(): Options
      reads this
    {
      Options(servers, clientId, username, tlsConfig, other)
    }

    constructor ()
      ensures Value() == LibraryDefaults
    {
      servers, clientId, username, tlsConfig, other := [], "", "", None, map[];
    }

    method AddBroker(server: string)
      modifies this
      ensures Value() == old(Value()).(servers := old(servers) + [server])
    {
      servers := servers + [server];
    }

    method SetClientID(id: string)
      modifies this
      ensures Value() == old(Value()).(clientId := id)
    {
      clientId := id;
    }

    method SetUsername(u: string)
      modifies this
      ensures Value() == old(Value()).(username := u)
    {
      username := u;
    }

    method SetTLSConfig(t: TlsConfig)
      modifies this
      ensures Value() == old(Value()).(tlsConfig := Some(t))
    {
      tlsConfig := Some(t);
    }

    /** What an option function does to the options it is handed. */
    method Load(o: Options)
      modifies this
      ensures Value() == o
    {
      servers, clientId, username, tlsConfig, other := o.servers, o.clientId, o.username, o.tlsConfig, o.other;
    }
  }

  /**
   * `NewClient`. `caCerts` is the outcome of reading the root certificate
   * stream, `appendCerts` the pool parsed from it (`None` when no certificate
   * parses) and `loadKeyPair` loads a key pair from a certificate path and a
   * key path. The result is the options the MQTT client is built from.
   */
  method NewClient(
    d: Device,
    caCerts: Result<seq<byte>, string>,
    appendCerts: seq<byte> -> Option<CertPool>,
    loadKeyPair: (string, string) -> Result<Certificate, string>,
    options: seq<OptionFn>)
    returns (r: Result<Options, Error>)
    ensures caCerts.Err? ==> r == Err(ReadCACertsFailed(caCerts.error))
    ensures caCerts.Ok? && appendCerts(caCerts.value).None? ==> r == Err(NoCACertsParsed)
    ensures caCerts.Ok? && appendCerts(caCerts.value).Some? ==>
      var kp := loadKeyPair(d.certPath, d.privKeyPath);
      kp.Err? ==> r == Err(LoadKeyPairFailed(kp.error))
    ensures caCerts.Ok? && appendCerts(caCerts.value).Some? ==>
      var kp := loadKeyPair(d.certPath, d.privKeyPath);
      kp.Ok? ==>
        var tls := DeviceTlsConfig(appendCerts(caCerts.value).value, kp.value);
        match ApplyOptions(d, DefaultOptions(d, tls), options)
        case Ok(o) => r == Ok(o)
        case Err(e) => r == Err(OptionFailed(e))
  {
    if caCerts.Err? {
      return Err(ReadCACertsFailed(caCerts.error));
    }
    var pool := appendCerts(caCerts.value);
    if pool.None? {
      return Err(NoCACertsParsed);
    }
    var cert := loadKeyPair(d.certPath, d.privKeyPath);
    if cert.Err? {
      return Err(LoadKeyPairFailed(cert.error));
    }
    var tlsConf := DeviceTlsConfig(pool.value, cert.value);
    var broker := d.Broker();

    var opts := new ClientOptions();
    opts.AddBroker(broker.URL());
    opts.SetClientID(d.ClientID());
    opts.SetUsername(d.Username());
    opts.SetTLSConfig(tlsConf);
    ghost var defaults := opts.Value();
    assert defaults == DefaultOptions(d, tlsConf);

    var i := 0;
    while i < |options|
      invariant 0 <= i <= |options|
      invariant ApplyOptions(d, defaults, options) == ApplyOptions(d, opts.Value(), options[i..])
    {
      var res := options[i](d, opts.Value());
      if res.Err? {
        return Err(OptionFailed(res.error));
      }
      opts.Load(res.value);
      i := i + 1;
    }
    return Ok(opts.Value());
  }

  /**
   * Running `a` then `b` is running `a` and, only if it succeeds, `b` from
   * where it stopped: an error in `a` means no option of `b` is applied.
   */
  lemma {:induction false} ApplyOptionsAppend(d: Device, o: Options, a: seq<OptionFn>, b: seq<OptionFn>)
    ensures ApplyOptions(d, o, a + b) ==
      match ApplyOptions(d, o, a)
      case Err(e) => Err(e)
      case Ok(o') => ApplyOptions(d, o', b)
    decreases |a|
  {
    if a == [] {
      assert a + b == b;
    } else {
      assert (a + b)[1..] == a[1..] + b;
      match a[0](d, o)
      case Err(e) =>
      case Ok(o') => ApplyOptionsAppend(d, o', a[1..], b);
    }
  }

  /** Option `k` is the one that fails, with error `e`, after all before it succeeded. */
  predicate FailsAt(d: Device, o: Options, fs: seq<OptionFn>, k: nat, e: string)
    requires k < |fs|
  {
    var before := ApplyOptions(d, o, fs[..k]);
    before.Ok? && fs[k](d, before.value) == Err(e)
  }

  /** The run fails with `e` exactly when some option fails with `e` after all before it succeeded. */
  lemma {:induction false} ApplyOptionsFailure(d: Device, o: Options, fs: seq<OptionFn>, e: string)
    ensures ApplyOptions(d, o, fs) == Err(e) <==> exists k :: 0 <= k < |fs| && FailsAt(d, o, fs, k, e)
    decreases |fs|
  {
    if fs != [] {
      assert fs[..0] == [];
      match fs[0](d, o)
      case Err(e0) =>
        if e0 == e {
          assert FailsAt(d, o, fs, 0, e);
        }
        assert forall k :: 0 <= k < |fs| && FailsAt(d, o, fs, k, e) ==> e0 == e;
      case Ok(o') =>
        ApplyOptionsFailure(d, o', fs[1..], e);
        forall k | 0 <= k < |fs| - 1 ensures FailsAt(d, o', fs[1..], k, e) <==> FailsAt(d, o, fs, k + 1, e) {
          ApplyOptionsAppend(d, o, [fs[0]], fs[1..][..k]);
          assert [fs[0]] + fs[1..][..k] == fs[..k + 1];
          assert ApplyOptions(d, o, [fs[0]]) == Ok(o') by {
            assert [fs[0]][1..] == [];
          }
        }
        if exists k :: 0 <= k < |fs| && FailsAt(d, o, fs, k, e) {
          var k :| 0 <= k < |fs| && FailsAt(d, o, fs, k, e);
          assert k != 0;
          assert FailsAt(d, o', fs[1..], k - 1, e);
        }
        if exists k :: 0 <= k < |fs| - 1 && FailsAt(d, o', fs[1..], k, e) {
          var k :| 0 <= k < |fs| - 1 && FailsAt(d, o', fs[1..], k, e);
          assert FailsAt(d, o, fs, k + 1, e);
        }
    }
  }

  /** An option that always succeeds, given as the update it makes. */
  function Infallible(g: (Device, Options) -> Options): OptionFn {
    (d: Device, o: Options) => Ok(g(d, o))
  }

  /** The left-to-right composition of updates, applied to `o`. */
  function Compose(d: Device, o: Options, gs: seq<(Device, Options) -> Options>): Options
    decreases |gs|
  {
    if gs == [] then o else Compose(d, gs[0](d, o), gs[1..])
  }

  /** Options that never fail yield the composition of their updates, applied to the starting options. */
  lemma {:induction false} ApplyInfallibleOptions(d: Device, o: Options, gs: seq<(Device, Options) -> Options>)
    ensures ApplyOptions(d, o, seq(|gs|, i requires 0 <= i < |gs| => Infallible(gs[i]))) == Ok(Compose(d, o, gs))
    decreases |gs|
  {
    var fs := seq(|gs|, i requires 0 <= i < |gs| => Infallible(gs[i]));
    if gs != [] {
      assert fs[1..] == seq(|gs[1..]|, i requires 0 <= i < |gs[1..]| => Infallible(gs[1..][i]));
      assert fs[0](d, o) == Ok(gs[0](d, o));
      ApplyInfallibleOptions(d, gs[0](d, o), gs[1..]);
    }
  }

  /**
   * With no options, a client built from readable roots and a valid key pair
   * gets the defaults: the hub's broker URL as its only server, the device ID
   * as client ID, the IoT Hub username, and mutual TLS 1.2 with the device's
   * certificate; every other library setting is untouched.
   */
  lemma DefaultsWithoutOptions(d: Device, pool: CertPool, cert: Certificate)
    ensures var o := ApplyOptions(d, DefaultOptions(d, DeviceTlsConfig(pool, cert)), []);
      && o.Ok?
      && o.value.servers == ["tls://" + d.hubName + ".azure-devices.net:8883"]
      && o.value.clientId == d.deviceId
      && o.value.username == d.Username()
      && o.value.tlsConfig == Some(TlsConfig(pool, RequireAndVerifyClientCert, [cert], 0x0303))
      && o.value.other == LibraryDefaults.other
  {
    DeviceBrokerURL(d);
    ClientIDInUsername(d);
  }
}
