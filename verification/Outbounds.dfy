/** sing-box outbounds and inbounds for one link and for a chain in one process
    (internal/tunnel/configgen.go). A detour says through which other outbound
    a connection is made, so a chain is a walk along detours. */
module Outbounds {
  import opened Text
  import opened Links

  datatype SbOutbound = SbOutbound(
    tag: string,
    kind: string,
    server: string,
    port: int,
    flow: string,
    detour: Option<string>)

  datatype SbInbound = SbInbound(kind: string, tag: string, port: int)

  const DIRECT_OUT: SbOutbound := SbOutbound("direct", "direct", "", 0, "", None)

  // ----- the "host:port" strings that join hops -----

  function LoopbackAddr(port: nat): string {
    "127.0.0.1:" + Itoa(port)
  }

  /** extractPort, as a value: the digits after the last colon, or 0. */
  function ExtractedPort(addr: string): nat {
    if ':' in addr then Digits(AfterLastColon(addr)) else 0
  }

  function AfterLastColon(addr: string): string {
    if addr == [] || addr[|addr| - 1] == ':' then []
    else AfterLastColon(addr[..|addr| - 1]) + [addr[|addr| - 1]]
  }

  lemma {:induction false} AfterLastColonOf(head: string, tail: string)
    requires ':' !in tail
    ensures AfterLastColon(head + ":" + tail) == tail
  {
    var s := head + ":" + tail;
    if tail == [] {
      assert s[|s| - 1] == ':';
    } else {
      var init, last := tail[..|tail| - 1], tail[|tail| - 1];
      assert last in tail;
      assert s[..|s| - 1] == head + ":" + init;
      AfterLastColonOf(head, init);
    }
  }

  /** A port printed after the last colon of anything is the port read back from it. */
  lemma ExtractedPortOf(head: string, port: nat)
    ensures ExtractedPort(head + ":" + Itoa(port)) == port
  {
    assert (head + ":" + Itoa(port))[|head|] == ':';
    AfterLastColonOf(head, Itoa(port));
    DigitsItoa(port);
  }

  /** So the port printed into an address is the port read back from it. */
  lemma ExtractedPortOfLoopback(port: nat)
    ensures ExtractedPort("127.0.0.1:" + Itoa(port)) == port
    ensures ExtractedPort(LoopbackAddr(port)) == port
  {
    assert LoopbackAddr(port) == "127.0.0.1" + ":" + Itoa(port);
    ExtractedPortOf("127.0.0.1", port);
  }

  /** Characters that are no digits make no difference to the number read. */
  lemma {:induction false} DigitsSkip(a: string, c: char, b: string)
    requires !IsDigit(c)
    ensures Digits(a + [c] + b) == Digits(a + b)
  {
    var s := a + [c] + b;
    if b == [] {
      assert s[..|s| - 1] == a == a + b;
    } else {
      var init := b[..|b| - 1];
      assert s[..|s| - 1] == a + [c] + init && (a + b)[..|a + b| - 1] == a + init;
      DigitsSkip(a, c, init);
    }
  }

  /** The inner loop of extractPort. */
  method ReadDigits(s: string) returns (port: nat)
    ensures port == Digits(s)
  {
    port := 0;
    for k := 0 to |s|
      invariant port == Digits(s[..k])
    {
      assert s[..k + 1][..k] == s[..k];
      var ch := s[k];
      if '0' <= ch <= '9' {
        port := port * 10 + (ch as int - '0' as int);
      }
    }
    assert s[..|s|] == s;
  }

  /** extractPort: from the end to the last colon, then over what follows it. */
  method ExtractPort(addr: string) returns (port: nat)
    ensures port == ExtractedPort(addr)
  {
    var i := |addr| - 1;
    while i >= 0
      invariant -1 <= i < |addr|
      invariant ':' !in addr[i + 1..]
    {
      if addr[i] == ':' {
        assert addr == addr[..i] + ":" + addr[i + 1..];
        AfterLastColonOf(addr[..i], addr[i + 1..]);
        port := ReadDigits(addr[i + 1..]);
        return;
      }
      assert addr[i..] == [addr[i]] + addr[i + 1..];
      i := i - 1;
    }
    assert addr[0..] == addr;
    return 0;
  }

  // ----- a chain in one process -----

  function HopTag(chain: string, i: nat): string {
    "chain-" + chain + "-hop-" + Itoa(i)
  }

  function AfterLastDash(s: string): string {
    if s == [] || s[|s| - 1] == '-' then []
    else AfterLastDash(s[..|s| - 1]) + [s[|s| - 1]]
  }

  lemma {:induction false} AfterLastDashOf(head: string, tail: string)
    requires '-' !in tail
    ensures AfterLastDash(head + "-" + tail) == tail
  {
    var s := head + "-" + tail;
    if tail == [] {
      assert s[|s| - 1] == '-';
    } else {
      var init, last := tail[..|tail| - 1], tail[|tail| - 1];
      assert last in tail;
      assert s[..|s| - 1] == head + "-" + init;
      AfterLastDashOf(head, init);
    }
  }

  lemma SameStart(a: string, b: string, end: string)
    requires a + end == b + end
    ensures a == b
  {
    assert a == (a + end)[..|a|] && b == (b + end)[..|b|];
  }

  /** A name followed by "-hop-" and a number gives both away, whatever the name. */
  lemma HopSuffixInjective(a: string, i: nat, b: string, j: nat)
    requires a + "-hop-" + Itoa(i) == b + "-hop-" + Itoa(j)
    ensures a == b && i == j
  {
    assert a + "-hop-" == (a + "-hop") + "-" && b + "-hop-" == (b + "-hop") + "-";
    AfterLastDashOf(a + "-hop", Itoa(i));
    AfterLastDashOf(b + "-hop", Itoa(j));
    ItoaInjective(i, j);
    Assoc(a, "-hop-", Itoa(i));
    Assoc(b, "-hop-", Itoa(i));
    SameStart(a, b, "-hop-" + Itoa(i));
  }

  /** Tags tell chains and positions apart. */
  lemma HopTagInjective(a: string, i: nat, b: string, j: nat)
    requires HopTag(a, i) == HopTag(b, j)
    ensures a == b && i == j
  {
    assert HopTag(a, i) == ("chain-" + a) + "-hop-" + Itoa(i);
    assert HopTag(b, j) == ("chain-" + b) + "-hop-" + Itoa(j);
    HopSuffixInjective("chain-" + a, i, "chain-" + b, j);
    assert a == ("chain-" + a)[6..];
    assert b == ("chain-" + b)[6..];
  }

  // ----- one link -----

  /** What BuildSingboxOutbound gives for a link, without tag and detour. */
  datatype Body = Body(kind: string, server: string, port: int, flow: string)

  /** The address that the outbound of a link is given: a pinned one if there is one. */
  function ServerAddress(address: string, pinnedHosts: map<string, string>): string {
    if address in pinnedHosts && pinnedHosts[address] != "" then pinnedHosts[address] else address
  }

  /** The fields that say where a link's outbound connects to. */
  function BodyOf(link: LinkData, listenPort: int, pinnedHosts: map<string, string>): Body {
    var server := ServerAddress(link.address, pinnedHosts);
    if link.protocol == "ssh" then Body("socks", "127.0.0.1", if listenPort == 0 then 10800 else listenPort, "")
    else if link.protocol == "socks5" then Body("socks", server, link.port, "")
    else if link.protocol == "vless" then Body("vless", server, link.port, link.flow)
    else if link.protocol in ["vmess", "trojan", "shadowsocks", "wireguard", "http"] then
      Body(link.protocol, server, link.port, "")
    else Body("direct", "", 0, "")
  }

  /** Spelled out: where the outbound of each kind of link connects to. The pinned address
      of a server takes the place of its name. */
  lemma BodyMeans(link: LinkData, listenPort: int, pinnedHosts: map<string, string>)
    ensures var body := BodyOf(link, listenPort, pinnedHosts);
            && (link.protocol == "ssh" ==>
                  body == Body("socks", "127.0.0.1", if listenPort != 0 then listenPort else 10800, ""))
            && (link.protocol in ["vmess", "vless", "trojan", "shadowsocks", "wireguard", "socks5", "http"] ==>
                  && body.kind == (if link.protocol == "socks5" then "socks" else link.protocol)
                  && body.port == link.port
                  && body.flow == (if link.protocol == "vless" then link.flow else "")
                  && (link.address !in pinnedHosts || pinnedHosts[link.address] == "" ==> body.server == link.address)
                  && (link.address in pinnedHosts && pinnedHosts[link.address] != "" ==>
                        body.server == pinnedHosts[link.address]))
            && (link.protocol !in ["ssh", "vmess", "vless", "trojan", "shadowsocks", "wireguard", "socks5", "http"] ==>
                  body == Body("direct", "", 0, ""))
  {
  }

  const CHAIN_OUT: string := "chain-out"

  /** singboxInbounds: a link's own port, else the configured one, else 2801. */
  function MixedInbound(listenPort: int, socksPort: int): SbInbound {
    SbInbound("mixed", "mixed-in",
              if listenPort != 0 then listenPort else if socksPort != 0 then socksPort else 2801)
  }

  /** singboxOutbounds, without external outbounds: a link that has an upstream
      proxy connects to its server through it. */
  function ProxyOutbounds(body: Body, chainProxy: string): seq<SbOutbound> {
    if chainProxy != "" then
      [SbOutbound("proxy", body.kind, body.server, body.port, body.flow, Some(CHAIN_OUT)),
       SbOutbound(CHAIN_OUT, "socks", "127.0.0.1", ExtractedPort(chainProxy), "", None),
       DIRECT_OUT]
    else
      [SbOutbound("proxy", body.kind, body.server, body.port, body.flow, None), DIRECT_OUT]
  }

  /** What the outbounds of one link say: the first connects to where the body says, by
      itself, or through the one after it, which is the upstream proxy on this machine;
      the last one goes direct. */
  lemma ProxyOutboundsMean(body: Body, chainProxy: string)
    ensures var outs := ProxyOutbounds(body, chainProxy);
            && |outs| == (if chainProxy == "" then 2 else 3)
            && outs[0].tag == "proxy" && Body(outs[0].kind, outs[0].server, outs[0].port, outs[0].flow) == body
            && (chainProxy == "" ==> outs[0].detour == None)
            && (chainProxy != "" ==>
                  && outs[0].detour == Some(outs[1].tag) && outs[1].tag !in ["proxy", "direct"]
                  && outs[1].kind == "socks" && outs[1].server == "127.0.0.1" && outs[1].detour == None
                  && outs[1].port == ExtractedPort(chainProxy))
            && outs[|outs| - 1] == SbOutbound("direct", "direct", "", 0, "", None)
  {
    assert CHAIN_OUT[0] == 'c';
  }

  // ----- the outbounds of a chain -----

  /** What the outbounds of a chain have to say: hop by hop the fields of the bodies;
      every hop but the first goes through the one before it, and then has no flow; the
      one after the hops goes direct. */
  predicate Chained(outbounds: seq<SbOutbound>, bodies: seq<Body>) {
    && |outbounds| == |bodies| + 1
    && (forall i :: 0 <= i < |bodies| ==>
          && outbounds[i].kind == bodies[i].kind
          && outbounds[i].server == bodies[i].server && outbounds[i].port == bodies[i].port
          && (if i == 0 then outbounds[i].flow == bodies[0].flow && outbounds[i].detour == None
              else outbounds[i].flow == "" && outbounds[i].detour == Some(outbounds[i - 1].tag)))
    && outbounds[|bodies|] == SbOutbound("direct", "direct", "", 0, "", None)
  }

  /** A hop reached through another one cannot keep its flow setting. */
  function HopOutbound(chain: string, bodies: seq<Body>, i: nat): SbOutbound
    requires i < |bodies|
  {
    SbOutbound(HopTag(chain, i), bodies[i].kind, bodies[i].server, bodies[i].port,
               if i > 0 then "" else bodies[i].flow,
               if i > 0 then Some(HopTag(chain, i - 1)) else None)
  }

  function ChainOutbounds(chain: string, bodies: seq<Body>): seq<SbOutbound> {
    seq(|bodies|, i requires 0 <= i < |bodies| => HopOutbound(chain, bodies, i)) + [DIRECT_OUT]
  }

  datatype ChainConfig = ChainConfig(inbound: SbInbound, outbounds: seq<SbOutbound>, final: string)

  /** buildChainOutbounds: the loop that links each hop to the one before it. */
  method BuildChainOutbounds(chain: string, bodies: seq<Body>) returns (outbounds: seq<SbOutbound>)
    ensures outbounds == ChainOutbounds(chain, bodies)
    ensures Chained(outbounds, bodies)
    ensures forall i :: 0 <= i < |bodies| ==> outbounds[i].tag == "chain-" + chain + "-hop-" + Itoa(i)
  {
    outbounds := [];
    for i := 0 to |bodies|
      invariant outbounds == ChainOutbounds(chain, bodies)[..i]
    {
      var outbound := SbOutbound(HopTag(chain, i), bodies[i].kind, bodies[i].server, bodies[i].port,
                                 bodies[i].flow, None);
      if i > 0 {
        outbound := outbound.(detour := Some(HopTag(chain, i - 1)), flow := "");
      }
      outbounds := outbounds + [outbound];
    }
    outbounds := outbounds + [SbOutbound("direct", "direct", "", 0, "", None)];
  }

  /** GenerateChainConfig. */
  method GenerateChainConfig(chain: string, bodies: seq<Body>) returns (cfg: Option<ChainConfig>)
    ensures cfg.None? <==> bodies == []
    ensures cfg.Some? ==> cfg.value == ChainConfig(SbInbound("mixed", "mixed-in", 10800),
                                                   ChainOutbounds(chain, bodies), HopTag(chain, |bodies| - 1))
    ensures cfg.Some? ==>
              && Chained(cfg.value.outbounds, bodies)
              && cfg.value.inbound == SbInbound("mixed", "mixed-in", 10800)
              && cfg.value.final == cfg.value.outbounds[|bodies| - 1].tag
  {
    if |bodies| == 0 {
      return None;
    }
    var outbounds := BuildChainOutbounds(chain, bodies);
    return Some(ChainConfig(SbInbound("mixed", "mixed-in", 10800), outbounds, HopTag(chain, |bodies| - 1)));
  }

  // ----- walking along detours -----

  /** A path that starts at an outbound with the given tag, goes from each
      outbound to one its detour names, and ends at one without a detour. */
  predicate WalksFrom(outbounds: seq<SbOutbound>, tag: string, path: seq<nat>) {
    && path != []
    && (forall k :: 0 <= k < |path| ==> path[k] < |outbounds|)
    && outbounds[path[0]].tag == tag
    && (forall k :: 0 <= k < |path| - 1 ==>
          outbounds[path[k]].detour == Some(outbounds[path[k + 1]].tag))
    && outbounds[path[|path| - 1]].detour.None?
  }

  function Down(n: nat): seq<nat> {
    seq(n, k requires 0 <= k < n => n - 1 - k)
  }

  /** All tags of a chain's outbounds are distinct, the direct one included. */
  lemma TagsDistinct(chain: string, bodies: seq<Body>)
    ensures forall i, j :: 0 <= i < j <= |bodies| ==>
              ChainOutbounds(chain, bodies)[i].tag != ChainOutbounds(chain, bodies)[j].tag
  {
    var outs := ChainOutbounds(chain, bodies);
    forall i, j | 0 <= i < j <= |bodies| ensures outs[i].tag != outs[j].tag {
      if j < |bodies| {
        if outs[i].tag == outs[j].tag {
          HopTagInjective(chain, i, chain, j);
        }
      } else {
        assert outs[i].tag[0] == 'c' && outs[j].tag[0] == 'd';
      }
    }
  }

  /** The outbound that a detour names is the hop before. */
  lemma DetourLeadsDown(chain: string, bodies: seq<Body>, i: nat, j: nat)
    requires i <= |bodies| && j <= |bodies|
    requires var outs := ChainOutbounds(chain, bodies); outs[i].detour == Some(outs[j].tag)
    ensures i < |bodies| && j == i - 1
  {
    var outs := ChainOutbounds(chain, bodies);
    TagsDistinct(chain, bodies);
    assert outs[i - 1].tag == HopTag(chain, i - 1);
  }

  /** From the route's final outbound the walk exists, and it is the only one:
      it visits the hops from the last to the first, each exactly once, and ends
      there, for a chain of any length. */
  lemma ChainWalksDown(chain: string, bodies: seq<Body>, path: seq<nat>)
    requires bodies != []
    ensures WalksFrom(ChainOutbounds(chain, bodies), HopTag(chain, |bodies| - 1), path) <==> path == Down(|bodies|)
  {
    var outs, n := ChainOutbounds(chain, bodies), |bodies|;
    if WalksFrom(outs, HopTag(chain, n - 1), path) {
      assert outs[n - 1].tag == HopTag(chain, n - 1);
      TagsDistinct(chain, bodies);
      WalkGoesDown(chain, bodies, path, |path|);
    }
  }

  lemma {:induction false} WalkGoesDown(chain: string, bodies: seq<Body>, path: seq<nat>, m: nat)
    requires bodies != [] && 0 < m <= |path| && path[0] == |bodies| - 1
    requires WalksFrom(ChainOutbounds(chain, bodies), HopTag(chain, |bodies| - 1), path)
    ensures m <= |bodies| && forall k :: 0 <= k < m ==> path[k] == |bodies| - 1 - k
  {
    if m > 1 {
      WalkGoesDown(chain, bodies, path, m - 1);
      DetourLeadsDown(chain, bodies, path[m - 2], path[m - 1]);
    }
  }
}
