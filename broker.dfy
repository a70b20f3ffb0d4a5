/**
 * The MQTT broker descriptor of broker.go: a host and a port, rendered as
 * the URL `tls://{host}:{port}` that the MQTT client is given.
 */
module Broker {
  import opened Wrappers
  import Decimal
  import opened Strings

  /** The scheme every broker URL carries. */
  const Scheme: string := "tls://"

  datatype MQTTBroker = MQTTBroker(host: string, port: int) {

    /** The scheme, the host, ':' and the port's `%d` text. */
    function URL(): (u: string)
      ensures |u| > |Scheme| + |host| && u[..|Scheme|] == Scheme
      ensures u[|Scheme|..|Scheme| + |host|] == host && u[|Scheme| + |host|] == ':'
      ensures u[|Scheme| + |host| + 1..] == Decimal.FormatInt(port)
    {
      Scheme + host + ":" + Decimal.FormatInt(port)
    }

    /** The string form of a broker is its URL, and it determines the broker. */
    function String(): (s: string)
      ensures s == URL()
      ensures ParseURL(s) == Some(this)
    {
      URLRoundTrip(this);
      URL()
    }
  }

  /**
   * Reads a broker back from its URL: the scheme, then the host up to the
   * LAST ':', then the port in `%d` form. The host may itself contain ':'.
   */
  function ParseURL(u: string): (r: Option<MQTTBroker>)
  {
    if |u| < |Scheme| || u[..|Scheme|] != Scheme then None
    else
      var i := LastIndexOf(u, ':');
      if i < |Scheme| then None
      else
        match Decimal.Parse(u[i + 1..])
        case None => None
        case Some(p) => Some(MQTTBroker(u[|Scheme|..i], p))
  }

  /**
   * The last ':' of a URL separates the host from the port: everything
   * between the scheme and it is the host, everything after it is the
   * port's `%d` text, which for a non-negative port is all digits and
   * reads back as the port.
   */
  lemma URLSplitsAtLastColon(b: MQTTBroker)
    ensures LastIndexOf(b.URL(), ':') == |Scheme| + |b.host|
    ensures b.URL()[|Scheme|..|Scheme| + |b.host|] == b.host
    ensures b.port >= 0 ==>
      var tail := b.URL()[|Scheme| + |b.host| + 1..];
      Decimal.AllDigits(tail) && Decimal.DigitsValue(tail) == b.port
  {
    var u := b.URL();
    var k := |Scheme| + |b.host|;
    var tail := u[k + 1..];
    assert forall j :: k < j < |u| ==> u[j] == tail[j - k - 1];
    if b.port >= 0 {
      Decimal.DigitsValueOfNatToDecimal(b.port);
    }
  }

  /** Parsing a broker's URL gives back that broker. */
  lemma URLRoundTrip(b: MQTTBroker)
    ensures ParseURL(b.URL()) == Some(b)
  {
    URLSplitsAtLastColon(b);
    Decimal.ParseFormatInt(b.port);
  }

  /** `ParseURL` accepts exactly the URLs of brokers. */
  lemma ParseURLExact(u: string, b: MQTTBroker)
    ensures ParseURL(u) == Some(b) <==> b.URL() == u
  {
    if b.URL() == u {
      URLRoundTrip(b);
    }
    if ParseURL(u) == Some(b) {
      var i := LastIndexOf(u, ':');
      Decimal.FormatIntParse(u[i + 1..], b.port);
      assert u == u[..|Scheme|] + u[|Scheme|..i] + [u[i]] + u[i + 1..];
    }
  }

  /** Distinct brokers have distinct URLs. */
  lemma URLInjective(a: MQTTBroker, b: MQTTBroker)
    ensures a.URL() == b.URL() <==> a == b
  {
    URLRoundTrip(a);
    URLRoundTrip(b);
  }
}
