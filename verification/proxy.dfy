/**
  Proxy selection: a static pool of `host:port:user:password` entries, one
  picked per transcript request and rendered as a SOCKS5 URL for both the
  `http` and `https` schemes.
 */
module Proxy {
  import opened Wrappers
  import opened Text

  /** One pool entry, split into its four fields. */
  datatype ProxyEndpoint = ProxyEndpoint(host: string, port: string, user: string, password: string)

  /** The `proxies` mapping handed to the transcript service. */
  datatype ProxyConfig = ProxyConfig(http: string, https: string)

  datatype ProxyError =
    | EmptyPool                      // `random.choice` on an empty list raises
    | WrongFieldCount(fields: nat)   // the four-name unpack of `split(':')` raises

  const SocksScheme: string := "socks5://"

  /** No field of the endpoint holds `c`. */
  predicate FieldsFree(e: ProxyEndpoint, c: char)
  {
    c !in e.host && c !in e.port && c !in e.user && c !in e.password
  }

  /** The pool entry an endpoint is written as. */
  function FormatEntry(e: ProxyEndpoint): string
  {
    Join([e.host, e.port, e.user, e.password], ':')
  }

  /** The entry text of an endpoint, its fields with `:` between them. */
  lemma FormatFour(e: ProxyEndpoint)
    ensures FormatEntry(e) == e.host + ":" + e.port + ":" + e.user + ":" + e.password
  {
    var parts := [e.host, e.port, e.user, e.password];
    assert Join([e.password], ':') == e.password;
    assert [e.user, e.password][1..] == [e.password];
    assert Join([e.user, e.password], ':') == e.user + [':'] + e.password;
    assert [e.port, e.user, e.password][1..] == [e.user, e.password];
    assert Join([e.port, e.user, e.password], ':') == e.port + [':'] + (e.user + [':'] + e.password);
    assert parts[1..] == [e.port, e.user, e.password];
    assert Join(parts, ':') == e.host + [':'] + (e.port + [':'] + (e.user + [':'] + e.password));
  }

  /** `host, port, user, password = proxy.split(':')`. */
  function ParseEntry(entry: string): (r: Result<ProxyEndpoint, ProxyError>)
    ensures r.Success? <==> Count(entry, ':') == 3
    ensures r.Failure? ==> r.error == WrongFieldCount(Count(entry, ':') + 1)
    ensures r.Success? ==> FieldsFree(r.value, ':') && FormatEntry(r.value) == entry
  {
    var f := Split(entry, ':');
    if |f| == 4 then
      var e := ProxyEndpoint(f[0], f[1], f[2], f[3]);
      assert [e.host, e.port, e.user, e.password] == f;
      assert FieldsFree(e, ':') by {
        assert ':' !in f[0] && ':' !in f[1] && ':' !in f[2] && ':' !in f[3];
      }
      Success(e)
    else
      Failure(WrongFieldCount(|f|))
  }

  /** Formatting an endpoint whose fields hold no `:` and parsing it back is the identity. */
  lemma FormatThenParse(e: ProxyEndpoint)
    requires FieldsFree(e, ':')
    ensures ParseEntry(FormatEntry(e)) == Success(e)
  {
    var parts := [e.host, e.port, e.user, e.password];
    assert forall i :: 0 <= i < |parts| ==> ':' !in parts[i];
    SplitJoin(parts, ':');
  }

  /**
    `f"socks5://{user}:{password}@{host}:{port}"`: after the scheme come the
    user, `password@host` and the port, joined by `:`.
   */
  function SocksUrl(e: ProxyEndpoint): (r: string)
    ensures |SocksScheme| <= |r| && r[..|SocksScheme|] == SocksScheme
    ensures r[|SocksScheme|..] == Join([e.user, e.password + "@" + e.host, e.port], ':')
  {
    JoinThree(e.user, e.password + "@" + e.host, e.port, ':');
    var r := SocksScheme + e.user + ":" + e.password + "@" + e.host + ":" + e.port;
    assert r == SocksScheme + Join([e.user, e.password + "@" + e.host, e.port], ':');
    r
  }

  /** Reads a SOCKS5 URL of the shape `SocksUrl` writes back into an endpoint. */
  function ParseSocksUrl(u: string): Option<ProxyEndpoint>
  {
    if |u| < |SocksScheme| || u[..|SocksScheme|] != SocksScheme then None
    else
      var f := Split(u[|SocksScheme|..], ':');
      if |f| != 3 then None
      else
        var g := Split(f[1], '@');
        if |g| != 2 then None
        else Some(ProxyEndpoint(g[1], f[2], f[0], g[0]))
  }

  /**
    The rendered URL loses nothing: when no field holds `:` and the user,
    password and host hold no `@`, the endpoint can be read back from it.
   */
  lemma SocksUrlRoundTrip(e: ProxyEndpoint)
    ensures FieldsFree(e, ':') && '@' !in e.user && '@' !in e.password && '@' !in e.host
            ==> ParseSocksUrl(SocksUrl(e)) == Some(e)
  {
    if FieldsFree(e, ':') && '@' !in e.user && '@' !in e.password && '@' !in e.host {
      var mid := e.password + "@" + e.host;
      var parts := [e.user, mid, e.port];
      AbsentFromGlued(e.password, '@', e.host, ':');
      assert forall i :: 0 <= i < |parts| ==> ':' !in parts[i];
      SplitJoin(parts, ':');
      var inner := [e.password, e.host];
      JoinTwo(e.password, e.host, '@');
      assert forall i :: 0 <= i < |inner| ==> '@' !in inner[i];
      SplitJoin(inner, '@');
    }
  }

  /** Two endpoints without `:` or `@` in the relevant fields never render to the same URL. */
  lemma SocksUrlInjective(a: ProxyEndpoint, b: ProxyEndpoint)
    requires FieldsFree(a, ':') && FieldsFree(b, ':')
    requires '@' !in a.user && '@' !in a.password && '@' !in a.host
    requires '@' !in b.user && '@' !in b.password && '@' !in b.host
    requires SocksUrl(a) == SocksUrl(b)
    ensures a == b
  {
    SocksUrlRoundTrip(a);
    SocksUrlRoundTrip(b);
  }

  /**
    The `proxies` mapping for one endpoint: the same SOCKS5 URL under both
    keys, from which the endpoint can be read back when its fields are clean.
   */
  function ConfigFor(e: ProxyEndpoint): (r: ProxyConfig)
    ensures r.http == r.https
    ensures r.http == SocksUrl(e)
    ensures |SocksScheme| <= |r.http| && r.http[..|SocksScheme|] == SocksScheme
    ensures FieldsFree(e, ':') && '@' !in e.user && '@' !in e.password && '@' !in e.host
            ==> ParseSocksUrl(r.http) == Some(e)
  {
    var u := SocksUrl(e);
    SocksUrlRoundTrip(e);
    ProxyConfig(u, u)
  }

  /** The index `random.choice` lands on, for an arbitrary draw. */
  function PickIndex(poolSize: nat, draw: nat): (i: nat)
    requires poolSize > 0
    ensures i < poolSize
  {
    draw % poolSize
  }

  /** `cfg` is what the pool entry `entry` renders to. */
  predicate Renders(entry: string, cfg: ProxyConfig)
  {
    ParseEntry(entry).Success? && cfg == ConfigFor(ParseEntry(entry).value)
  }

  /**
    `r` is what drawing `entry` yields: it succeeds exactly when the entry has
    four fields, with that entry's rendering, and otherwise fails on that
    entry's field count. No other entry is tried after a bad draw.
   */
  predicate Drawn(entry: string, r: Result<ProxyConfig, ProxyError>)
  {
    && (r.Success? <==> Count(entry, ':') == 3)
    && (r.Success? ==> Renders(entry, r.value))
    && (r.Failure? ==> r.error == WrongFieldCount(Count(entry, ':') + 1))
  }

  /** `get_random_proxy()` on `pool`, with the random choice given as an arbitrary `draw`. */
  function GetRandomProxy(pool: seq<string>, draw: nat): (r: Result<ProxyConfig, ProxyError>)
    ensures r == Failure(EmptyPool) <==> |pool| == 0
    ensures r.Success? ==> exists i :: 0 <= i < |pool| && Renders(pool[i], r.value)
    ensures r.Success? ==> r.value.http == r.value.https
    ensures r.Failure? && |pool| > 0 ==> exists i :: 0 <= i < |pool| && Count(pool[i], ':') != 3
    ensures |pool| > 0 ==> Drawn(pool[PickIndex(|pool|, draw)], r)
  {
    if |pool| == 0 then Failure(EmptyPool)
    else
      var i := PickIndex(|pool|, draw);
      assert 0 <= i < |pool|;
      match ParseEntry(pool[i])
      case Success(e) =>
        assert Renders(pool[i], ConfigFor(e));
        Success(ConfigFor(e))
      case Failure(err) => Failure(err)
  }

  /** Every pool entry can be the one chosen. */
  lemma EveryEntryReachable(pool: seq<string>, i: nat)
    requires i < |pool|
    requires Count(pool[i], ':') == 3
    ensures GetRandomProxy(pool, i) == Success(ConfigFor(ParseEntry(pool[i]).value))
  {
    assert PickIndex(|pool|, i) == i;
  }

  /** A pool `random.choice` can pick from, every entry of which unpacks into four fields. */
  predicate WellFormedPool(pool: seq<string>)
  {
    |pool| > 0 && forall i :: 0 <= i < |pool| ==> Count(pool[i], ':') == 3
  }

  /** Selection from a well-formed pool never fails, whatever the draw. */
  lemma WellFormedPoolNeverFails(pool: seq<string>, draw: nat)
    requires WellFormedPool(pool)
    ensures GetRandomProxy(pool, draw).Success?
  {
  }
}
