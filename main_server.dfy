/** The back end's start-up choices (backend/main.go): which browser origins
    the CORS middleware lets through, and the address the server listens on.
    The router wiring itself is not modelled. */
module Server {
  import opened Text
  import Config

  // ------------------------------------------------------------------ CORS

  const DevOrigin := "http://localhost:4200"
  const SecondDevOrigin := "http://localhost:4201"
  const PublicHttp := "http://157.66.26.139"
  const PublicHttps := "https://157.66.26.139"

  /** `AllowOriginFunc` as written: the two development origins exactly, and
      anything that starts with the public address over http or https. */
  predicate AllowOrigin(origin: string) {
    origin == DevOrigin || origin == SecondDevOrigin
    || StartsWith(origin, PublicHttp) || StartsWith(origin, PublicHttps)
  }

  /** The public address is let through with any port, or none. */
  lemma PublicAddressAllowed(port: nat)
    ensures AllowOrigin(PublicHttp) && AllowOrigin(PublicHttps)
    ensures AllowOrigin(PublicHttp + ":" + NatToDecimal(port))
    ensures AllowOrigin(PublicHttps + ":" + NatToDecimal(port))
  {
    var p := ":" + NatToDecimal(port);
    assert (PublicHttp + p)[..|PublicHttp|] == PublicHttp;
    assert (PublicHttps + p)[..|PublicHttps|] == PublicHttps;
  }

  /** Among localhost origins, only ports 4200 and 4201 over http pass. */
  lemma LocalhostOrigins(origin: string)
    requires StartsWith(origin, "http://localhost")
    ensures AllowOrigin(origin) <==> origin == DevOrigin || origin == SecondDevOrigin
  {
    assert origin[7] == 'l';
    assert PublicHttp[7] == '1' && PublicHttps[7] == '/';
  }

  /** The prefix test also lets through a host whose name merely begins with
      the public address. */
  lemma LookalikeHostAllowed()
    ensures AllowOrigin("http://157.66.26.139.example.com")
    ensures AllowOrigin("https://157.66.26.1390")
  {
    assert "http://157.66.26.139.example.com"[..|PublicHttp|] == PublicHttp;
    assert "https://157.66.26.1390"[..|PublicHttps|] == PublicHttps;
  }

  /** An optional `:port` after the address: empty, or ':' and one or more digits. */
  predicate PortSuffix(s: string) {
    s == "" || (|s| >= 2 && s[0] == ':' && forall k :: 1 <= k < |s| ==> IsDigit(s[k]))
  }

  /** The check the code's own comment describes: the public address over
      http or https, with or without a port, and nothing longer. */
  predicate AllowOriginIntended(origin: string) {
    origin == DevOrigin || origin == SecondDevOrigin
    || (StartsWith(origin, PublicHttp) && PortSuffix(origin[|PublicHttp|..]))
    || (StartsWith(origin, PublicHttps) && PortSuffix(origin[|PublicHttps|..]))
  }

  /** The intended check keeps the address with any port, and refuses every
      host whose name only begins with the address. */
  lemma IntendedAllowsPorts(port: nat)
    ensures AllowOriginIntended(PublicHttp) && AllowOriginIntended(PublicHttps)
    ensures AllowOriginIntended(PublicHttp + ":" + NatToDecimal(port))
    ensures AllowOriginIntended(PublicHttps + ":" + NatToDecimal(port))
  {
    var p := ":" + NatToDecimal(port);
    assert PublicHttp[|PublicHttp|..] == "";
    assert PublicHttps[|PublicHttps|..] == "";
    assert (PublicHttp + p)[..|PublicHttp|] == PublicHttp && (PublicHttp + p)[|PublicHttp|..] == p;
    assert (PublicHttps + p)[..|PublicHttps|] == PublicHttps && (PublicHttps + p)[|PublicHttps|..] == p;
    assert PortSuffix(p);
  }

  /** What follows the address in an origin the intended check lets through
      is nothing or a port: never a further label of a host name. */
  lemma IntendedRefusesLookalikes(origin: string)
    requires AllowOriginIntended(origin)
    requires StartsWith(origin, PublicHttp)
    ensures |origin| == |PublicHttp| || origin[|PublicHttp|] == ':'
  {
    assert origin[4] == PublicHttp[4] == ':' && origin[7] == PublicHttp[7] == '1';
    assert DevOrigin[7] == 'l' && SecondDevOrigin[7] == 'l' && PublicHttps[4] == 's';
    var rest := origin[|PublicHttp|..];
    assert PortSuffix(rest);
    if rest != "" {
      assert rest[0] == origin[|PublicHttp|];
    }
  }

  lemma IntendedRefusesExample()
    ensures !AllowOriginIntended("http://157.66.26.139.example.com")
  {
    var o := "http://157.66.26.139.example.com";
    assert o[..|PublicHttp|] == PublicHttp;
    if AllowOriginIntended(o) {
      IntendedRefusesLookalikes(o);
    }
  }

  /** The intended check lets through no more than the written one. */
  lemma IntendedNarrower(origin: string)
    requires AllowOriginIntended(origin)
    ensures AllowOrigin(origin)
  {
  }

  // ------------------------------------------------------------------ port

  const DefaultPort := "8080"
  const ListenHost := "0.0.0.0:"

  /** The listen address: `SERVER_PORT` when it is set and not empty, 8080
      otherwise, on every interface. */
  function ListenAddress(env: map<string, string>): (addr: string)
    ensures StartsWith(addr, ListenHost) && |addr| > |ListenHost|
    ensures Config.Getenv(env, "SERVER_PORT") != "" ==> addr[|ListenHost|..] == Config.Getenv(env, "SERVER_PORT")
    ensures Config.Getenv(env, "SERVER_PORT") == "" ==> addr == "0.0.0.0:8080"
  {
    var port := if Config.Getenv(env, "SERVER_PORT") == "" then DefaultPort else Config.Getenv(env, "SERVER_PORT");
    assert (ListenHost + port)[..|ListenHost|] == ListenHost;
    assert (ListenHost + port)[|ListenHost|..] == port;
    ListenHost + port
  }

  /** A port already set in the environment decides the address whatever the
      `.env` file says. */
  lemma EnvironmentPortWins(env: map<string, string>, dotenv: seq<string>)
    requires Config.Getenv(env, "SERVER_PORT") != ""
    ensures ListenAddress(Config.ApplyLines(env, dotenv)) == ListenAddress(env)
  {
    Config.KeepsSetVariables(env, dotenv, "SERVER_PORT");
  }

  /** Otherwise the first `.env` line that sets a non-empty `SERVER_PORT`
      decides it. */
  lemma FilePortUsed(env: map<string, string>, dotenv: seq<string>, i: nat)
    requires Config.Getenv(env, "SERVER_PORT") == ""
    requires i < |dotenv| && Config.Sets(dotenv[i], "SERVER_PORT")
    requires forall j :: 0 <= j < i ==> !Config.Sets(dotenv[j], "SERVER_PORT")
    ensures ListenAddress(Config.ApplyLines(env, dotenv)) == ListenHost + Config.ParseLine(dotenv[i]).value.value
  {
    Config.FirstEntryWins(env, dotenv, i, "SERVER_PORT");
    var addr := ListenAddress(Config.ApplyLines(env, dotenv));
    assert addr == addr[..|ListenHost|] + addr[|ListenHost|..];
  }
}
