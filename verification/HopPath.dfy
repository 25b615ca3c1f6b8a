/** How the processes of a multi-hop chain are joined (internal/tunnel/chain.go
    and configgen.go): each hop listens on its own port and reaches its server
    through the port of the hop before, which it reads back from a string. */
module HopPath {
  import opened Text
  import opened Links
  import opened Outbounds

  const FIRST_PORT: nat := 10800

  /** What an engine process is started with, as far as it concerns other hops. */
  datatype HopConfig =
    | SingBoxHop(link: LinkData, listenPort: int, chainProxy: string, socksPort: int, pinnedHosts: map<string, string>)
    | PortHop(port: int)    // xray, ssh: a port of its own, the upstream proxy is ignored
    | PortlessHop           // wireguard-go, openvpn: neither
    | ChainHop(chain: ChainConfig)  // a whole chain in one sing-box process

  /** resolveEngine, after an engine that is forced; ssh links always use ssh. */
  function EngineFor(protocol: string, forced: string): string {
    if protocol == "ssh" then "ssh"
    else if forced != "" then forced
    else if protocol == "wireguard" then "wireguard-go"
    else if protocol == "openvpn" then "openvpn"
    else "sing-box"
  }

  /** Spelled out: ssh links always run ssh; else an engine that is forced; else the one
      made for the protocol, which is sing-box but for wireguard and openvpn. */
  lemma EngineForMeans(protocol: string, forced: string)
    ensures protocol == "ssh" ==> EngineFor(protocol, forced) == "ssh"
    ensures protocol != "ssh" && forced != "" ==> EngineFor(protocol, forced) == forced
    ensures protocol == "wireguard" && forced == "" ==> EngineFor(protocol, forced) == "wireguard-go"
    ensures protocol == "openvpn" && forced == "" ==> EngineFor(protocol, forced) == "openvpn"
    ensures protocol !in ["ssh", "wireguard", "openvpn"] && forced == "" ==> EngineFor(protocol, forced) == "sing-box"
  {
  }

  function StartedWith(engine: string, link: LinkData, listenPort: int, chainProxy: string, socksPort: int,
                       pinnedHosts: map<string, string>): HopConfig
  {
    if engine == "sing-box" then
      SingBoxHop(link, listenPort, chainProxy, socksPort, pinnedHosts)
    else if engine == "xray" then PortHop(MixedInbound(listenPort, socksPort).port)
    else if engine == "ssh" then PortHop(if listenPort == 0 then socksPort else listenPort)
    else PortlessHop
  }

  /** The outbounds that the generator writes for a sing-box hop. */
  function OutboundsOf(c: HopConfig): seq<SbOutbound>
    requires c.SingBoxHop?
  {
    ProxyOutbounds(BodyOf(c.link, c.listenPort, c.pinnedHosts), c.chainProxy)
  }

  // ----- from port to port -----

  function ListensOn(c: HopConfig): Option<int> {
    match c
    case SingBoxHop(_, listenPort, _, socksPort, _) => Some(MixedInbound(listenPort, socksPort).port)
    case PortHop(port) => Some(port)
    case PortlessHop => None
    case ChainHop(chain) => Some(chain.inbound.port)
  }

  function PortOfTag(outbounds: seq<SbOutbound>, tag: string): Option<int> {
    if outbounds == [] then None
    else if outbounds[0].tag == tag then Some(outbounds[0].port)
    else PortOfTag(outbounds[1..], tag)
  }

  /** The local port that a hop reaches its server through. */
  function DialsVia(c: HopConfig): Option<int> {
    match c
    case SingBoxHop(_, _, _, _, _) =>
      var outbounds := OutboundsOf(c);
      if outbounds != [] && outbounds[0].detour.Some? then PortOfTag(outbounds, outbounds[0].detour.value) else None
    case _ => None
  }

  /** A connection to a port passes these hops, each one dialling the next, and
      leaves at the last one, which dials none of them. */
  ghost predicate Passes(hops: seq<HopConfig>, port: int, path: seq<nat>) {
    && path != []
    && (forall k :: 0 <= k < |path| ==> path[k] < |hops|)
    && ListensOn(hops[path[0]]) == Some(port)
    && (forall k :: 0 <= k < |path| - 1 ==> Dials(hops[path[k]], hops[path[k + 1]]))
    && (forall i :: 0 <= i < |hops| ==> !Dials(hops[path[|path| - 1]], hops[i]))
  }

  predicate Dials(a: HopConfig, b: HopConfig) {
    DialsVia(a).Some? && DialsVia(a) == ListensOn(b)
  }

  // ----- the hops of a chain -----

  datatype Hop = Hop(engine: string, link: LinkData)

  /** What the upstream proxy of hop i is set to; the first hop keeps what its
      link had before. */
  function UpstreamOf(i: nat, leftover: string): string {
    if i > 0 then LoopbackAddr(FIRST_PORT + i - 1) else leftover
  }

  function HopConfigs(hops: seq<Hop>, leftover: string, socksPort: int, pinnedHosts: map<string, string>)
    : seq<HopConfig>
  {
    seq(|hops|, i requires 0 <= i < |hops| =>
      StartedWith(hops[i].engine, hops[i].link, FIRST_PORT + i, UpstreamOf(i, leftover), socksPort, pinnedHosts))
  }

  /** A connection to the last hop's port goes this way exactly when the way is
      from the last hop down to the first. */
  ghost predicate GoesDown(hops: seq<Hop>, leftover: string, socksPort: int, pinnedHosts: map<string, string>,
                           path: seq<nat>)
  {
    Passes(HopConfigs(hops, leftover, socksPort, pinnedHosts), FIRST_PORT + |hops| - 1, path)
    <==> path == Down(|hops|)
  }

  predicate HasPort(engine: string) {
    engine in ["sing-box", "xray", "ssh"]
  }

  /** Every hop after the first can be sent through a proxy, the first can be
      reached, and an upstream left over on it does not lead back into the chain. */
  predicate Joined(hops: seq<Hop>, leftover: string) {
    && (forall i :: 0 < i < |hops| ==> hops[i].engine == "sing-box")
    && (hops != [] ==> HasPort(hops[0].engine))
    && (hops != [] && hops[0].engine == "sing-box" && leftover != "" ==>
          !(FIRST_PORT <= ExtractedPort(leftover) < FIRST_PORT + |hops|))
  }

  lemma DialsOf(c: HopConfig)
    requires c.SingBoxHop?
    ensures DialsVia(c) == if c.chainProxy != "" then Some(ExtractedPort(c.chainProxy)) else None
  {
    var outs := OutboundsOf(c);
    if c.chainProxy != "" {
      assert outs[1..][0] == outs[1];
      assert PortOfTag(outs, CHAIN_OUT) == PortOfTag(outs[1..], CHAIN_OUT);
    }
  }

  /** Hop i listens on its own port, if at all, and dials the one before it. */
  lemma HopPorts(hops: seq<Hop>, leftover: string, socksPort: int, pinnedHosts: map<string, string>, i: nat)
    requires i < |hops|
    ensures var c := HopConfigs(hops, leftover, socksPort, pinnedHosts)[i];
            && ListensOn(c) == (if hops[i].engine in ["sing-box", "xray", "ssh"] then Some(10800 + i) else None)
            && DialsVia(c) == (if hops[i].engine != "sing-box" then None
                               else if i > 0 then Some(10800 + i - 1)
                               else if leftover != "" then Some(ExtractedPort(leftover)) else None)
            && (hops[i].engine == "sing-box" ==>
                  c.SingBoxHop? && c.link == hops[i].link && c.pinnedHosts == pinnedHosts)
  {
    var upstream := UpstreamOf(i, leftover);
    if hops[i].engine == "sing-box" {
      DialsOf(SingBoxHop(hops[i].link, FIRST_PORT + i, upstream, socksPort, pinnedHosts));
      if i > 0 {
        ExtractedPortOfLoopback(FIRST_PORT + i - 1);
        assert upstream[0] == '1';
      }
    }
  }

  /** The first hop's leftover upstream, or the hop before, is where hop i leads. */
  predicate LeadsTo(hops: seq<Hop>, leftover: string, i: nat, j: nat)
    requires i < |hops| && j < |hops|
  {
    && hops[i].engine == "sing-box" && HasPort(hops[j].engine)
    && if i > 0 then j == i - 1 else leftover != "" && ExtractedPort(leftover) == FIRST_PORT + j
  }

  predicate LeadsOut(hops: seq<Hop>, leftover: string, i: nat)
    requires i < |hops|
  {
    forall j :: 0 <= j < |hops| ==> !LeadsTo(hops, leftover, i, j)
  }

  lemma DialsFrom(a: HopConfig, b: HopConfig, hops: seq<Hop>, leftover: string, i: nat, j: nat)
    requires i < |hops| && j < |hops|
    requires ListensOn(b) == if HasPort(hops[j].engine) then Some(FIRST_PORT + j) else None
    requires DialsVia(a) == if hops[i].engine != "sing-box" then None
                            else if i > 0 then Some(FIRST_PORT + i - 1)
                            else if leftover != "" then Some(ExtractedPort(leftover)) else None
    ensures Dials(a, b) <==> LeadsTo(hops, leftover, i, j)
  {
  }

  lemma DialsIff(hops: seq<Hop>, leftover: string, socksPort: int, pinnedHosts: map<string, string>, i: nat, j: nat)
    requires i < |hops| && j < |hops|
    ensures var configs := HopConfigs(hops, leftover, socksPort, pinnedHosts);
            Dials(configs[i], configs[j]) <==> LeadsTo(hops, leftover, i, j)
  {
    var configs := HopConfigs(hops, leftover, socksPort, pinnedHosts);
    HopPorts(hops, leftover, socksPort, pinnedHosts, i);
    HopPorts(hops, leftover, socksPort, pinnedHosts, j);
    DialsFrom(configs[i], configs[j], hops, leftover, i, j);
  }

  /** The same path, told by places instead of ports. */
  ghost predicate Leads(hops: seq<Hop>, leftover: string, path: seq<nat>) {
    && path != []
    && (forall k :: 0 <= k < |path| ==> path[k] < |hops|)
    && path[0] == |hops| - 1 && HasPort(hops[path[0]].engine)
    && (forall k :: 0 <= k < |path| - 1 ==> LeadsTo(hops, leftover, path[k], path[k + 1]))
    && LeadsOut(hops, leftover, path[|path| - 1])
  }

  /** Configurations that listen and dial as the hops say. */
  ghost predicate Wired(configs: seq<HopConfig>, hops: seq<Hop>, leftover: string) {
    && |configs| == |hops|
    && (forall i :: 0 <= i < |hops| ==> (ListensOn(configs[i]) == Some(FIRST_PORT + |hops| - 1)
                                         <==> i == |hops| - 1 && HasPort(hops[i].engine)))
    && (forall i, j :: 0 <= i < |hops| && 0 <= j < |hops| ==>
          Dials(configs[i], configs[j]) == LeadsTo(hops, leftover, i, j))
  }

  lemma ConfigsWired(hops: seq<Hop>, leftover: string, socksPort: int, pinnedHosts: map<string, string>)
    ensures Wired(HopConfigs(hops, leftover, socksPort, pinnedHosts), hops, leftover)
  {
    var configs := HopConfigs(hops, leftover, socksPort, pinnedHosts);
    forall i | 0 <= i < |hops|
      ensures ListensOn(configs[i]) == Some(FIRST_PORT + |hops| - 1) <==> i == |hops| - 1 && HasPort(hops[i].engine)
    {
      HopPorts(hops, leftover, socksPort, pinnedHosts, i);
    }
    forall i, j | 0 <= i < |hops| && 0 <= j < |hops|
      ensures Dials(configs[i], configs[j]) == LeadsTo(hops, leftover, i, j)
    {
      DialsIff(hops, leftover, socksPort, pinnedHosts, i, j);
    }
  }

  lemma PassesIffLeads(configs: seq<HopConfig>, hops: seq<Hop>, leftover: string, path: seq<nat>)
    requires hops != [] && Wired(configs, hops, leftover)
    ensures Passes(configs, FIRST_PORT + |hops| - 1, path) <==> Leads(hops, leftover, path)
  {
  }

  lemma DownLeadsIff(hops: seq<Hop>, leftover: string)
    requires hops != []
    ensures Leads(hops, leftover, Down(|hops|)) <==> Joined(hops, leftover)
  {
    var n, path := |hops|, Down(|hops|);
    if Leads(hops, leftover, path) {
      forall i | 0 < i < n ensures hops[i].engine == "sing-box" {
        assert LeadsTo(hops, leftover, path[n - 1 - i], path[n - i]);
      }
      if n > 1 {
        assert LeadsTo(hops, leftover, path[n - 2], path[n - 1]);
      }
      var back := ExtractedPort(leftover) - FIRST_PORT;
      if hops[0].engine == "sing-box" && leftover != "" && 0 <= back < n {
        var leadsBack := LeadsTo(hops, leftover, path[n - 1], back);
      }
    }
  }

  lemma {:induction false} LeadsDown(hops: seq<Hop>, leftover: string, path: seq<nat>, m: nat)
    requires hops != [] && Joined(hops, leftover) && Leads(hops, leftover, path) && 0 < m <= |path|
    ensures m <= |hops| && forall k :: 0 <= k < m ==> path[k] == |hops| - 1 - k
    ensures m == |path| ==> path == Down(|hops|)
  {
    if m > 1 {
      LeadsDown(hops, leftover, path, m - 1);
      assert LeadsTo(hops, leftover, path[m - 2], path[m - 1]);
    }
    if m == |path| && path[m - 1] > 0 {
      var leadsOn := LeadsTo(hops, leftover, path[m - 1], path[m - 1] - 1);
    }
  }

  /** Every connection to the last hop's port passes through all hops, from the
      last to the first, each once, and leaves the chain at the first one, exactly
      when the hops are joined; there is no other way through. */
  lemma ConnectionPassesAllIff(hops: seq<Hop>, leftover: string, socksPort: int, pinnedHosts: map<string, string>)
    requires hops != []
    ensures (forall path :: GoesDown(hops, leftover, socksPort, pinnedHosts, path))
       <==> Joined(hops, leftover)
  {
    var configs := HopConfigs(hops, leftover, socksPort, pinnedHosts);
    ConfigsWired(hops, leftover, socksPort, pinnedHosts);
    DownLeadsIff(hops, leftover);
    PassesIffLeads(configs, hops, leftover, Down(|hops|));
    if Joined(hops, leftover) {
      forall path ensures GoesDown(hops, leftover, socksPort, pinnedHosts, path) {
        PassesIffLeads(configs, hops, leftover, path);
        if Leads(hops, leftover, path) {
          LeadsDown(hops, leftover, path, |path|);
        }
      }
    } else {
      assert !GoesDown(hops, leftover, socksPort, pinnedHosts, Down(|hops|));
    }
  }

  /** A link that was hop i of a chain keeps its upstream. As the first hop of a
      chain of sing-box hops it is joined only if the new chain is so short that
      the old port lies outside it. */
  lemma LeftoverUpstream(hops: seq<Hop>, i: nat)
    requires hops != [] && forall k :: 0 <= k < |hops| ==> hops[k].engine == "sing-box"
    requires i > 0
    ensures Joined(hops, UpstreamOf(i, "")) <==> |hops| < i
  {
    ExtractedPortOfLoopback(FIRST_PORT + i - 1);
    assert LoopbackAddr(FIRST_PORT + i - 1)[0] == '1';
  }
}
