/** Starting and stopping multi-hop chains (internal/tunnel/chain.go), on top of
    single tunnels (internal/tunnel/tunnel.go) and processes
    (internal/engine/process.go). A process may exit by itself at any time. */
module Chains {
  import opened Text
  import opened Links
  import opened Outbounds
  import opened HopPath
  import C = Carrying
  import P = Profiles

  /** Every process that was told to stop, in the order in which they were told. */
  class StopLog {
    ghost var told: Record<Process>

    constructor ()
      ensures told == Nothing
    {
      told := Nothing;
    }
  }

  class Process {
    const engine: string
    const source: C.Source  // where it reads its config, some time after its start
    const log: StopLog
    var running: bool    // not yet seen to have exited
    var cancelled: bool  // told to stop

    constructor (engine: string, source: C.Source, log: StopLog)
      ensures this.engine == engine && this.source == source && this.log == log && running && !cancelled
    {
      this.engine, this.source, this.log, running, cancelled := engine, source, log, true, false;
    }

    method IsRunning() returns (yes: bool)
      modifies `running
      ensures yes == running && (running ==> old(running))
    {
      var exited: bool := *;
      running := running && !exited;
      yes := running;
    }

    /** Stop: a process that still runs is told to stop, and the log keeps that. */
    method Stop()
      modifies this, log
      ensures running ==> old(running)
      ensures cancelled == (old(cancelled) || running)
      ensures log.told == if running then Then(old(log.told), this) else old(log.told)
    {
      var exited: bool := *;
      running := running && !exited;
      if !running {
        return;
      }
      cancelled := true;
      log.told := Then(log.told, this);
    }

    /** It was told to stop, or has stopped by itself. */
    ghost predicate Ended()
      reads this
    {
      cancelled || !running
    }
  }

  datatype Status = Stopped | Running | Error

  class Tunnel {
    const name: string
    const link: Link
    const engine: string
    const config: HopConfig  // what was written for it
    const process: Process
    var status: Status

    constructor (name: string, link: Link, engine: string, config: HopConfig, process: Process)
      ensures this.name == name && this.link == link && this.engine == engine && this.config == config
      ensures this.process == process && status == Running
    {
      this.name, this.link, this.engine, this.config, this.process := name, link, engine, config, process;
      status := Running;
    }
  }

  datatype Strategy = SingleProcess | MultiProcess

  class Chain {
    const name: string
    const hops: seq<Tunnel>
    const strategy: Strategy
    var status: Status

    constructor (name: string, hops: seq<Tunnel>, strategy: Strategy, status: Status)
      ensures this.name == name && this.hops == hops && this.strategy == strategy && this.status == status
    {
      this.name, this.hops, this.strategy, this.status := name, hops, strategy, status;
    }
  }

  datatype HopSpec = HopSpec(profile: string, engine: string)

  datatype ChainSpec = ChainSpec(name: string, hops: seq<HopSpec>)

  const SINGLE_PROTOCOLS: seq<string> := ["vmess", "vless", "trojan", "shadowsocks", "wireguard", "socks5", "http"]

  function HopName(chain: string, i: nat): string {
    chain + "-hop-" + Itoa(i)
  }

  /** Hop names tell chains and positions apart, whatever the chains are called. */
  lemma HopNameInjective(a: string, i: nat, b: string, j: nat)
    requires HopName(a, i) == HopName(b, j)
    ensures a == b && i == j
  {
    HopSuffixInjective(a, i, b, j);
  }

  function ProcessesOf(hops: seq<Tunnel>): set<Process> {
    set i | 0 <= i < |hops| :: hops[i].process
  }

  predicate Distinct(hops: seq<Tunnel>) {
    forall i, j :: 0 <= i < j < |hops| ==> hops[i].process != hops[j].process
  }

  /** All hops stop through the one log. */
  predicate LoggedIn(hops: seq<Tunnel>, log: StopLog) {
    forall i :: 0 <= i < |hops| ==> hops[i].process.log == log
  }

  /** The log after the hops in `told`, and no others, were told to stop, going from
      the last hop down to hop i. */
  function ToldDown(before: Record<Process>, hops: seq<Tunnel>, told: set<nat>, i: nat): Record<Process>
    requires i <= |hops|
    decreases |hops| - i
  {
    if i == |hops| then before
    else
      var later := ToldDown(before, hops, told, i + 1);
      if i in told then Then(later, hops[i].process) else later
  }

  /** The log afterwards: what was there, then those told, each once, in descending order. */
  lemma {:induction false} ToldDownMeans(before: Record<Process>, hops: seq<Tunnel>, told: set<nat>, i: nat)
    returns (ps: seq<Process>, at: seq<nat>)
    requires i <= |hops|
    ensures ToldDown(before, hops, told, i).ToSeq() == before.ToSeq() + ps
    ensures |ps| == |at| && forall k :: 0 <= k < |at| ==> at[k] < |hops| && ps[k] == hops[at[k]].process
    ensures forall k, l :: 0 <= k < l < |at| ==> at[k] > at[l]
    ensures forall j :: i <= j < |hops| ==> (j in at <==> j in told)
    ensures forall k :: 0 <= k < |at| ==> i <= at[k]
    decreases |hops| - i
  {
    ps, at := [], [];
    if i < |hops| {
      ps, at := ToldDownMeans(before, hops, told, i + 1);
      if i in told {
        Assoc(before.ToSeq(), ps, [hops[i].process]);
        ps, at := ps + [hops[i].process], at + [i];
      }
    }
  }

  /** Adding a hop further down changes nothing above it. */
  lemma {:induction false} ToldAbove(before: Record<Process>, hops: seq<Tunnel>, told: set<nat>, k: nat, i: nat)
    requires k < i <= |hops|
    ensures ToldDown(before, hops, told + {k}, i) == ToldDown(before, hops, told, i)
    decreases |hops| - i
  {
    if i < |hops| {
      ToldAbove(before, hops, told, k, i + 1);
    }
  }

  lemma ToldNext(before: Record<Process>, hops: seq<Tunnel>, told: set<nat>, i: nat, one: bool)
    requires i < |hops| && i !in told
    ensures ToldDown(before, hops, if one then told + {i} else told, i)
         == var above := ToldDown(before, hops, told, i + 1);
            if one then Then(above, hops[i].process) else above
  {
    ToldAbove(before, hops, told, i, i + 1);
  }

  /** What a start leaves behind outside the chain table: the tunnels, the config
      files, every process ever started, and every process told to stop, the last two
      in order. */
  datatype Snapshot = Snapshot(tunnels: map<string, Tunnel>, files: C.Files, launched: seq<Process>,
                               told: Record<Process>)

  /** What became of a start that failed: what it wrote, and its process, if any,
      which has ended. */
  datatype Loss = Loss(wrote: Option<C.Launch>, process: Option<Process>, told: bool)

  const NO_LOSS: Loss := Loss(None, None, false)

  ghost function Losing(s: Snapshot, loss: Loss): Snapshot {
    var files := if loss.wrote.Some? then C.Written(s.files, loss.wrote.value) else s.files;
    match loss.process
    case None => Snapshot(s.tunnels, files, s.launched, s.told)
    case Some(p) => Snapshot(s.tunnels, files, s.launched + [p], if loss.told then Then(s.told, p) else s.told)
  }

  /** Started hops are in the tunnel table under their names. */
  ghost function Adding(s: Snapshot, chain: string, hops: seq<Tunnel>): Snapshot {
    Snapshot(Registered(s.tunnels, chain, hops, |hops|), C.FilesAfter(s.files, LaunchesIn(hops), |hops|),
             s.launched + ProcessSeq(hops), s.told)
  }

  /** Hops were told to stop, going from the last to the first. */
  ghost function Stopping(s: Snapshot, hops: seq<Tunnel>, told: set<nat>): Snapshot {
    s.(told := ToldDown(s.told, hops, told, 0))
  }

  class Manager {
    const socksPort: int
    const pinnedHosts: map<string, string>
    const log: StopLog
    var files: C.Files  // the config files; other parts of the program may have written some
    var tunnels: map<string, Tunnel>
    var chains: map<string, Chain>
    ghost var launched: seq<Process>  // every process ever started, in order

    constructor (socksPort: int, pinnedHosts: map<string, string>, files: C.Files)
      ensures this.files == files && this.socksPort == socksPort && this.pinnedHosts == pinnedHosts
      ensures tunnels == map[] && chains == map[] && launched == [] && fresh(log) && log.told == Nothing
    {
      this.socksPort, this.pinnedHosts, this.files := socksPort, pinnedHosts, files;
      log := new StopLog();
      tunnels, chains, launched := map[], map[], [];
    }

    /** Hops of a chain are different tunnels with different processes. */
    ghost predicate Valid()
      reads `chains
    {
      forall name :: name in chains ==> Distinct(chains[name].hops) && LoggedIn(chains[name].hops, log)
    }

    /** Starting a process, which may fail. */
    method StartProcess(engine: string, source: C.Source) returns (p: Option<Process>)
      modifies `launched
      ensures p.None? ==> launched == old(launched)
      ensures p.Some? ==> fresh(p.value) && launched == old(launched) + [p.value]
      ensures p.Some? ==> p.value.engine == engine && p.value.source == source && p.value.log == log
      ensures p.Some? ==> p.value.running && !p.value.cancelled
    {
      var starts: bool := *;
      if !starts {
        return None;
      }
      var process := new Process(engine, source, log);
      launched := launched + [process];
      return Some(process);
    }

    /** What is still running of what was started since. */
    ghost predicate NewOnesEnded(before: seq<Process>)
      reads `launched, launched
    {
      before <= launched && forall i :: |before| <= i < |launched| ==> launched[i].Ended()
    }

    ghost function Now(): Snapshot
      reads `tunnels, `files, `launched, log
    {
      Snapshot(tunnels, files, launched, log.told)
    }

    /** StartTunnel and startSSHTunnel. The config is written to the engine's file, and
        the process, once it has been started, reads that file some time later; nobody
        waits for it. Only the port of an ssh process is waited for. */
    method StartTunnel(name: string, link: Link, forced: string) returns (ok: bool, ghost loss: Loss)
      modifies `tunnels, `files, `launched, log
      ensures name in old(tunnels) && old(tunnels[name].status) == Running ==> !ok
      ensures !ok ==> Now() == Losing(old(Now()), loss)
      ensures !ok && loss.process.Some? ==> fresh(loss.process.value) && loss.process.value.Ended()
      ensures !ok && loss.wrote.Some? ==>
                var engine := EngineFor(link.data.protocol, forced);
                loss.wrote.value == C.Launch(C.SourceFor(engine, link.data),
                                             StartedWith(engine, link.data, link.listenPort, link.chainProxy, socksPort,
                                                         pinnedHosts))
      ensures ok ==>
                && name in tunnels && fresh(tunnels[name]) && fresh(tunnels[name].process)
                && tunnels == old(tunnels)[name := tunnels[name]]
                && files == C.Written(old(files), LaunchIn(tunnels[name]))
                && launched == old(launched) + [tunnels[name].process] && log.told == old(log.told)
                && tunnels[name].status == Running && !tunnels[name].process.cancelled
                && tunnels[name].process.log == log
                && tunnels[name].process.source == C.SourceFor(tunnels[name].engine, link.data)
                && tunnels[name].name == name && tunnels[name].link == link
                && tunnels[name].engine == EngineFor(link.data.protocol, forced)
                && tunnels[name].engine == (if link.data.protocol == "ssh" then "ssh"
                                            else if forced != "" then forced
                                            else if link.data.protocol == "wireguard" then "wireguard-go"
                                            else if link.data.protocol == "openvpn" then "openvpn"
                                            else "sing-box")
                && tunnels[name].config == StartedWith(tunnels[name].engine, link.data, link.listenPort,
                                                       link.chainProxy, socksPort, pinnedHosts)
    {
      loss := NO_LOSS;
      if name in tunnels && tunnels[name].status == Running {
        return false, loss;
      }
      var engine := EngineFor(link.data.protocol, forced);
      var available: bool := *;
      if !available {
        return false, loss;
      }
      var config := StartedWith(engine, link.data, link.listenPort, link.chainProxy, socksPort, pinnedHosts);
      var source := C.SourceFor(engine, link.data);
      if link.data.protocol != "ssh" {
        var written: bool := *;
        if engine !in ["sing-box", "xray", "wireguard-go", "openvpn"] || !written {
          return false, loss;
        }
        files := files[source.file := config];
        loss := loss.(wrote := Some(C.Launch(source, config)));
      }
      var process := StartProcess(engine, source);
      if process.None? {
        return false, loss;
      }
      if link.data.protocol == "ssh" {
        var portReady: bool := *;
        if !portReady {
          process.value.Stop();
          return false, Loss(None, process, process.value.running);
        }
      }
      var tunnel := new Tunnel(name, link, engine, config, process.value);
      tunnels := tunnels[name := tunnel];
      return true, loss;
    }

    /** StopTunnel: the status is set whether or not the process still ran. */
    method StopTunnel(name: string) returns (ok: bool)
      modifies if name in tunnels then {tunnels[name].process, tunnels[name].process.log} else {}
      modifies (if name in tunnels then {tunnels[name]} else {})`status
      ensures ok <==> name in tunnels
      ensures ok ==> tunnels[name].process.Ended() && tunnels[name].status == Stopped
      ensures ok ==>
                var p := tunnels[name].process;
                p.log.told == if p.running then Then(old(p.log.told), p) else old(p.log.told)
    {
      if name !in tunnels {
        return false;
      }
      tunnels[name].process.Stop();
      tunnels[name].status := Stopped;
      return true;
    }

    /** The body of the loop in stopChainHops: only a process that still runs when it
        is looked at is told to stop, and only then is the status of its tunnel set.
        It may exit in between. */
    method StopHop(hop: Tunnel) returns (seen: bool, ghost told: bool)
      requires hop.process.log == log
      modifies hop`status, hop.process, log
      ensures log.told == if told then Then(old(log.told), hop.process) else old(log.told)
      ensures told ==> seen && hop.process.cancelled
      ensures !told ==> !hop.process.running
      ensures hop.status == if seen then Stopped else old(hop.status)
      ensures seen ==> old(hop.process.running)
    {
      seen := hop.process.IsRunning();
      told := false;
      if seen {
        hop.process.Stop();
        told := hop.process.running;
        hop.status := Stopped;
      }
    }

    /** stopChainHops: from the last hop to the first. */
    method StopHops(hops: seq<Tunnel>) returns (ghost told: set<nat>)
      requires Distinct(hops) && LoggedIn(hops, log)
      modifies hops`status, ProcessesOf(hops), log
      ensures log.told == ToldDown(old(log.told), hops, told, 0)
      ensures forall i :: 0 <= i < |hops| && i in told ==> hops[i].process.cancelled && hops[i].status == Stopped
      ensures forall i :: 0 <= i < |hops| && i !in told ==> !hops[i].process.running
      ensures forall i :: 0 <= i < |hops| && !old(hops[i].process.running) ==> hops[i].status == old(hops[i].status)
    {
      told := {};
      var i := |hops|;
      while i > 0
        invariant 0 <= i <= |hops| && forall k :: k in told ==> i <= k
        invariant log.told == ToldDown(old(log.told), hops, told, i)
        invariant forall j :: i <= j < |hops| ==>
                    if j in told then hops[j].process.cancelled && hops[j].status == Stopped
                    else !hops[j].process.running
        invariant forall j :: 0 <= j < |hops| && !old(hops[j].process.running) ==> hops[j].status == old(hops[j].status)
        invariant forall j :: 0 <= j < i ==> hops[j].process.running == old(hops[j].process.running)
      {
        i := i - 1;
        ghost var one;
        var seen;
        seen, one := StopHop(hops[i]);
        ToldNext(old(log.told), hops, told, i, one);
        told := if one then told + {i} else told;
      }
    }

    /** The roll-back of StartChain: when every process launched since is one of
        the hops' or has ended, stopping the hops leaves none. */
    method RollBack(hops: seq<Tunnel>, ghost before: seq<Process>, ghost loss: Loss) returns (ghost told: set<nat>)
      requires Distinct(hops) && LoggedIn(hops, log)
      requires launched == before + ProcessSeq(hops) + (if loss.process.Some? then [loss.process.value] else [])
      requires loss.process.Some? ==> loss.process.value.Ended() && loss.process.value !in ProcessesOf(hops)
      modifies hops`status, ProcessesOf(hops), log
      ensures NewOnesEnded(before)
      ensures log.told == ToldDown(old(log.told), hops, told, 0)
      ensures forall k :: 0 <= k < |hops| && k !in told ==> !hops[k].process.running
    {
      told := StopHops(hops);
      forall k | |before| <= k < |before| + |hops| ensures launched[k].Ended() {
        assert launched[k] == (before + ProcessSeq(hops))[k] == hops[k - |before|].process;
      }
    }

    /** One turn of the loop in StartChain: look the link up, give it the upstream
        and the port of its place, and start its tunnel. */
    method StartHop(chain: string, spec: HopSpec, i: nat, previous: string, profiles: P.Manager, ghost links: set<Link>)
      returns (r: Option<Tunnel>, ghost upstream: string, ghost loss: Loss)
      requires i > 0 ==> previous == LoopbackAddr(FIRST_PORT + i - 1)
      requires links == profiles.LinksHeld()
      modifies `tunnels, `files, `launched, links`chainProxy, links`listenPort, log
      ensures HopName(chain, i) in old(tunnels) && old(tunnels[HopName(chain, i)].status) == Running ==> r.None?
      ensures r.None? ==> Now() == Losing(old(Now()), loss)
      ensures r.None? && loss.process.Some? ==> fresh(loss.process.value) && loss.process.value.Ended()
      ensures r.Some? ==>
                && fresh(r.value) && fresh(r.value.process)
                && tunnels == old(tunnels)[chain + "-hop-" + Itoa(i) := r.value]
                && files == C.Written(old(files), LaunchIn(r.value))
                && launched == old(launched) + [r.value.process] && log.told == old(log.told)
                && r.value.status == Running && !r.value.process.cancelled
                && r.value.process.log == log
                && r.value.process.source == C.SourceFor(r.value.engine, r.value.link.data)
                && Chosen(r.value, spec)
                && r.value.config == StartedWith(r.value.engine, r.value.link.data, FIRST_PORT + i, upstream,
                                                 socksPort, pinnedHosts)
      ensures r.Some? ==> r.value.link.listenPort == 10800 + i && r.value.link.chainProxy == upstream
      ensures r.Some? ==> if i > 0 then upstream == previous
                          else LeftoverOf(old(UpstreamsOf(links)), r.value.link, upstream)
    {
      upstream, loss := "", NO_LOSS;
      var link := profiles.GetLink(spec.profile);
      if link.None? {
        return None, upstream, loss;
      }
      var hopName := chain + "-hop-" + Itoa(i);
      if i > 0 && previous != "" {
        link.value.chainProxy := previous;
      }
      link.value.listenPort := 10800 + i;
      upstream := link.value.chainProxy;
      var ok;
      ok, loss := StartTunnel(hopName, link.value, spec.engine);
      if !ok {
        return None, upstream, loss;
      }
      return Some(tunnels[hopName]), upstream, loss;
    }

    /** The tunnels are those asked for, each with the port and the upstream of its
        place. */
    ghost predicate HopsFit(ts: seq<Tunnel>, cfg: ChainSpec, leftover: string) {
      && Distinct(ts) && LoggedIn(ts, log) && AllChosen(ts, cfg.hops)
      && LaunchesIn(ts) == C.LaunchesOf(HopsOf(ts), leftover, socksPort, pinnedHosts)
    }

    /** The tunnel is what place i of the chain asks for. */
    ghost predicate Suits(t: Tunnel, i: nat, cfg: ChainSpec, leftover: string) {
      && i < |cfg.hops| && Chosen(t, cfg.hops[i]) && t.process.log == log
      && t.process.source == C.SourceFor(t.engine, t.link.data)
      && t.config == StartedWith(t.engine, t.link.data, FIRST_PORT + i, UpstreamOf(i, leftover), socksPort, pinnedHosts)
    }

    /** The first n tunnels suit their places and have different processes; the first
        has the upstream that its link was left with. */
    ghost predicate InPlace(ts: seq<Tunnel>, n: nat, cfg: ChainSpec, leftover: string, upstreams: map<Link, string>)
      requires n <= |ts|
    {
      n == 0
      || (&& InPlace(ts, n - 1, cfg, leftover, upstreams) && Suits(ts[n - 1], n - 1, cfg, leftover)
          && (n == 1 ==> LeftoverOf(upstreams, ts[0].link, leftover))
          && forall k :: 0 <= k < n - 1 ==> ts[k].process != ts[n - 1].process)
    }

    lemma {:induction false} StaysInPlace(ts: seq<Tunnel>, t: Tunnel, n: nat, cfg: ChainSpec, before: string,
                                          leftover: string, upstreams: map<Link, string>)
      requires n <= |ts| && InPlace(ts, n, cfg, before, upstreams) && (n > 0 ==> before == leftover)
      ensures InPlace(ts + [t], n, cfg, leftover, upstreams)
    {
      if n > 0 {
        StaysInPlace(ts, t, n - 1, cfg, before, leftover, upstreams);
      }
    }

    lemma NextInPlace(ts: seq<Tunnel>, t: Tunnel, cfg: ChainSpec, before: string, leftover: string,
                      upstreams: map<Link, string>)
      requires InPlace(ts, |ts|, cfg, before, upstreams) && (ts != [] ==> before == leftover)
      requires Suits(t, |ts|, cfg, leftover) && t.process !in ProcessesOf(ts)
      requires ts == [] ==> LeftoverOf(upstreams, t.link, leftover)
      ensures InPlace(ts + [t], |ts| + 1, cfg, leftover, upstreams)
    {
      StaysInPlace(ts, t, |ts|, cfg, before, leftover, upstreams);
    }

    lemma {:induction false} InPlaceMeans(ts: seq<Tunnel>, n: nat, cfg: ChainSpec, leftover: string,
                                          upstreams: map<Link, string>)
      requires n <= |ts| && InPlace(ts, n, cfg, leftover, upstreams)
      ensures forall k :: 0 <= k < n ==> Suits(ts[k], k, cfg, leftover)
      ensures n > 0 ==> LeftoverOf(upstreams, ts[0].link, leftover)
    {
      if n > 0 {
        InPlaceMeans(ts, n - 1, cfg, leftover, upstreams);
      }
    }

    lemma {:induction false} InPlaceApart(ts: seq<Tunnel>, n: nat, cfg: ChainSpec, leftover: string,
                                          upstreams: map<Link, string>)
      requires n <= |ts| && InPlace(ts, n, cfg, leftover, upstreams)
      ensures forall i, k :: 0 <= i < k < n ==> ts[i].process != ts[k].process
    {
      if n > 0 {
        InPlaceApart(ts, n - 1, cfg, leftover, upstreams);
      }
    }

    lemma InPlaceFits(ts: seq<Tunnel>, cfg: ChainSpec, leftover: string, upstreams: map<Link, string>)
      requires |ts| <= |cfg.hops| && InPlace(ts, |ts|, cfg, leftover, upstreams)
      ensures HopsFit(ts, cfg, leftover) && (ts != [] ==> LeftoverOf(upstreams, ts[0].link, leftover))
    {
      InPlaceMeans(ts, |ts|, cfg, leftover, upstreams);
      InPlaceApart(ts, |ts|, cfg, leftover, upstreams);
      var ls := C.LaunchesOf(HopsOf(ts), leftover, socksPort, pinnedHosts);
      forall k | 0 <= k < |ts| ensures LaunchIn(ts[k]) == ls[k] {
        assert Suits(ts[k], k, cfg, leftover);
      }
    }

    /** A turn of the loop that succeeds makes the chain one hop longer. */
    method StartNext(cfg: ChainSpec, hops: seq<Tunnel>, previous: string, profiles: P.Manager, ghost links: set<Link>,
                     ghost leftover: string, ghost before: Snapshot, ghost upstreams: map<Link, string>)
      returns (hop: Option<Tunnel>, ghost nowLeftover: string, ghost loss: Loss)
      requires InPlace(hops, |hops|, cfg, leftover, upstreams) && AllUp(hops) && |hops| < |cfg.hops|
      requires previous == UpstreamOf(|hops|, "") && (hops == [] ==> upstreams == UpstreamsOf(links))
      requires links == profiles.LinksHeld() && Now() == Adding(before, cfg.name, hops)
      modifies `tunnels, `files, `launched, links`chainProxy, links`listenPort, log
      ensures hop.None? ==> Now() == Losing(Adding(before, cfg.name, hops), loss) && nowLeftover == leftover
      ensures hop.None? && loss.process.Some? ==>
                fresh(loss.process.value) && loss.process.value.Ended() && loss.process.value !in ProcessesOf(hops)
      ensures hop.Some? ==> fresh(hop.value) && fresh(hop.value.process)
      ensures hop.Some? ==> InPlace(hops + [hop.value], |hops| + 1, cfg, nowLeftover, upstreams)
      ensures hop.Some? ==> AllUp(hops + [hop.value])
      ensures hop.Some? ==> Now() == Adding(before, cfg.name, hops + [hop.value])
    {
      nowLeftover := leftover;
      ghost var upstream;
      hop, upstream, loss := StartHop(cfg.name, cfg.hops[|hops|], |hops|, previous, profiles, links);
      if hop.Some? {
        nowLeftover := if |hops| == 0 then upstream else leftover;
        NextInPlace(hops, hop.value, cfg, leftover, nowLeftover, upstreams);
        OneMoreUp(hops, hop.value);
        OneMoreAdded(before, cfg.name, hops, hop.value);
      }
    }

    /** The loop of StartChain up to the first hop that fails, if any. */
    method StartHops(cfg: ChainSpec, profiles: P.Manager, ghost links: set<Link>)
      returns (ok: bool, hops: seq<Tunnel>, ghost leftover: string, ghost loss: Loss)
      requires links == profiles.LinksHeld()
      modifies `tunnels, `files, `launched, links`chainProxy, links`listenPort, log
      ensures InPlace(hops, |hops|, cfg, leftover, old(UpstreamsOf(links)))
      ensures |hops| <= |cfg.hops| && (ok ==> |hops| == |cfg.hops| && AllUp(hops))
      ensures AllNew(hops, |hops|)
      ensures Now() == Losing(Adding(old(Now()), cfg.name, hops), loss)
      ensures ok ==> loss == NO_LOSS
      ensures loss.process.Some? ==> loss.process.value.Ended() && loss.process.value !in ProcessesOf(hops)
    {
      hops := [];
      ghost var upstreams := UpstreamsOf(links);
      var previous := "";
      leftover, loss := "", NO_LOSS;
      for i := 0 to |cfg.hops|
        invariant |hops| == i && InPlace(hops, i, cfg, leftover, upstreams) && AllUp(hops)
        invariant i == 0 ==> upstreams == UpstreamsOf(links)
        invariant previous == UpstreamOf(i, "")
        invariant AllNew(hops, i)
        invariant Now() == Adding(old(Now()), cfg.name, hops) && loss == NO_LOSS
      {
        var hop;
        hop, leftover, loss := StartNext(cfg, hops, previous, profiles, links, leftover, old(Now()), upstreams);
        if hop.None? {
          return false, hops, leftover, loss;
        }
        loss := NO_LOSS;
        NewStays(hops, hop.value, i);
        hops := hops + [hop.value];
        previous := LoopbackAddr(10800 + i);
      }
      return true, hops, leftover, loss;
    }

    /** The hops are started, or none is left running: those started before are told to
        stop from the last to the first, after the process of the failed hop if that
        had to be stopped. */
    method StartAllHops(cfg: ChainSpec, profiles: P.Manager, ghost links: set<Link>)
      returns (ok: bool, hops: seq<Tunnel>, ghost loss: Loss, ghost told: set<nat>, ghost leftover: string)
      requires links == profiles.LinksHeld()
      modifies `tunnels, `files, `launched, links`chainProxy, links`listenPort, log
      ensures InPlace(hops, |hops|, cfg, leftover, old(UpstreamsOf(links))) && |hops| <= |cfg.hops|
      ensures ok ==> Now() == Adding(old(Now()), cfg.name, hops) && AllUp(hops) && |hops| == |cfg.hops|
      ensures !ok ==> Now() == Stopping(Losing(Adding(old(Now()), cfg.name, hops), loss), hops, told)
      ensures !ok ==> NewOnesEnded(old(launched))
      ensures !ok ==> forall k :: 0 <= k < |hops| && k !in told ==> !hops[k].process.running
    {
      told := {};
      ok, hops, leftover, loss := StartHops(cfg, profiles, links);
      if !ok {
        EachNew(hops, |hops|);
        InPlaceFits(hops, cfg, leftover, old(UpstreamsOf(links)));
        told := RollBack(hops, old(launched), loss);
      }
    }

    /** StartChain, one process for each hop. If any hop fails, nothing of this call
        keeps running and the chain is not registered. */
    method StartMulti(cfg: ChainSpec, profiles: P.Manager, ghost links: set<Link>)
      returns (ok: bool, ghost hops: seq<Tunnel>, ghost loss: Loss, ghost told: set<nat>, ghost leftover: string)
      requires Valid() && links == profiles.LinksHeld()
      modifies `tunnels, `chains, `files, `launched, links`chainProxy, links`listenPort, log
      ensures Valid() && HopsFit(hops, cfg, leftover)
      ensures hops != [] ==> LeftoverOf(old(UpstreamsOf(links)), hops[0].link, leftover)
      ensures ok ==> cfg.name in chains && fresh(chains[cfg.name])
      ensures ok ==> chains == old(chains)[cfg.name := chains[cfg.name]]
      ensures ok ==> chains[cfg.name].hops == hops && chains[cfg.name].status == Running && |hops| == |cfg.hops|
      ensures ok ==> chains[cfg.name].name == cfg.name && chains[cfg.name].strategy == MultiProcess
      ensures ok ==> Now() == Adding(old(Now()), cfg.name, hops) && AllUp(hops)
      ensures !ok ==> chains == old(chains) && NewOnesEnded(old(launched))
      ensures !ok ==> Now() == Stopping(Losing(Adding(old(Now()), cfg.name, hops), loss), hops, told)
      ensures !ok ==> forall k :: 0 <= k < |hops| && k !in told ==> !hops[k].process.running
    {
      var started;
      ok, started, loss, told, leftover := StartAllHops(cfg, profiles, links);
      hops := started;
      InPlaceFits(hops, cfg, leftover, old(UpstreamsOf(links)));
      if ok {
        var chain := new Chain(cfg.name, started, MultiProcess, Running);
        chains := chains[cfg.name := chain];
      }
    }

    /** The links of all hops, or nothing when one is not found. */
    method LinksOf(specs: seq<HopSpec>, profiles: P.Manager) returns (found: Option<seq<Link>>)
      ensures found.Some? ==> |found.value| == |specs| && forall k :: 0 <= k < |specs| ==>
                found.value[k] in profiles.LinksHeld() && found.value[k].data.remark == specs[k].profile
      ensures found.None? ==> exists k :: 0 <= k < |specs| && NoLink(specs[k].profile, profiles.LinksHeld())
    {
      var links: seq<Link> := [];
      for i := 0 to |specs|
        invariant |links| == i
        invariant forall k :: 0 <= k < i ==>
                    links[k] in profiles.LinksHeld() && links[k].data.remark == specs[k].profile
      {
        var link := profiles.GetLink(specs[i].profile);
        if link.None? {
          assert NoLink(specs[i].profile, profiles.LinksHeld());
          return None;
        }
        links := links + [link.value];
      }
      return Some(links);
    }

    method BodiesOf(links: seq<Link>) returns (bodies: seq<Body>)
      ensures |bodies| == |links|
      ensures forall k :: 0 <= k < |links| ==> bodies[k] == BodyOf(links[k].data, links[k].listenPort, pinnedHosts)
    {
      bodies := [];
      for i := 0 to |links|
        invariant |bodies| == i
        invariant forall k :: 0 <= k < i ==> bodies[k] == BodyOf(links[k].data, links[k].listenPort, pinnedHosts)
      {
        bodies := bodies + [BodyOf(links[i].data, links[i].listenPort, pinnedHosts)];
      }
    }

    /** A chain that could not be started in one process is registered as failed. */
    method Fail(name: string)
      requires Valid()
      modifies `chains
      ensures Valid() && name in chains && fresh(chains[name]) && chains == old(chains)[name := chains[name]]
      ensures chains[name].status == Error && chains[name].hops == []
    {
      var chain := new Chain(name, [], SingleProcess, Error);
      chains := chains[name := chain];
    }

    /** StartChainSingleProcess: one process whose outbounds are the chain's. It
        keeps no entry in the tunnel table, and unlike StartChain it leaves a
        record of a failed start behind. */
    method StartSingle(cfg: ChainSpec, profiles: P.Manager) returns (ok: bool, ghost bodies: seq<Body>)
      requires Valid()
      modifies `chains, `files, `launched
      ensures ok ==> |bodies| == |cfg.hops| && forall k :: 0 <= k < |bodies| ==>
                BodyFrom(bodies[k], cfg.hops[k], profiles.LinksHeld())
      ensures Valid()
      ensures if cfg.name in old(chains) && old(chains[cfg.name].status) == Running then !ok && chains == old(chains)
              else cfg.name in chains && fresh(chains[cfg.name])
                   && chains == old(chains)[cfg.name := chains[cfg.name]]
                   && (!ok ==> chains[cfg.name].status == Error && chains[cfg.name].hops == [])
      ensures !ok ==> launched == old(launched)
      ensures ok ==> chains[cfg.name].status == Running && chains[cfg.name].name == cfg.name
      ensures ok ==> IsSingle(chains[cfg.name], bodies)
      ensures ok ==> files == C.Written(old(files), LaunchIn(chains[cfg.name].hops[0]))
      ensures ok ==> launched == old(launched) + [chains[cfg.name].hops[0].process]
    {
      bodies := [];
      if cfg.name in chains && chains[cfg.name].status == Running {
        return false, bodies;
      }
      var tunnel;
      tunnel, bodies := StartCarrier(cfg, profiles);
      if tunnel.None? {
        Fail(cfg.name);
        return false, bodies;
      }
      var chain := new Chain(cfg.name, [tunnel.value], SingleProcess, Running);
      chains := chains[cfg.name := chain];
      return true, bodies;
    }

    /** The steps of it that can fail: the links are looked up, the config is generated
        and written, the process is started. */
    method StartCarrier(cfg: ChainSpec, profiles: P.Manager) returns (t: Option<Tunnel>, ghost bodies: seq<Body>)
      modifies `files, `launched
      ensures t.None? ==> launched == old(launched)
      ensures t.Some? ==> |bodies| == |cfg.hops| && forall k :: 0 <= k < |bodies| ==>
                BodyFrom(bodies[k], cfg.hops[k], profiles.LinksHeld())
      ensures t.Some? ==> t.value.engine == "sing-box" && t.value.process.log == log
      ensures t.Some? ==> CarriesWhole(t.value, cfg.name) && CarriesBodies(t.value, cfg.name, bodies)
      ensures t.Some? ==> files == C.Written(old(files), LaunchIn(t.value))
      ensures t.Some? ==> launched == old(launched) + [t.value.process]
    {
      bodies := [];
      var links := LinksOf(cfg.hops, profiles);
      if links.None? {
        return None, bodies;
      }
      var built := BodiesOf(links.value);
      bodies := built;
      var config := GenerateChainConfig(cfg.name, built);
      if config.None? {
        return None, bodies;
      }
      t := StartWhole(cfg.name, links.value[0], config.value);
    }

    /** The config of the whole chain is written to a file of its own, and one process
        is started with it. */
    method StartWhole(name: string, first: Link, config: ChainConfig) returns (t: Option<Tunnel>)
      modifies `files, `launched
      ensures t.None? ==> launched == old(launched)
      ensures t.None? ==> files == old(files) || files == old(files)[C.ChainFile(name) := ChainHop(config)]
      ensures t.Some? ==> launched == old(launched) + [t.value.process] && fresh(t.value) && fresh(t.value.process)
      ensures t.Some? ==> files == old(files)[C.ChainFile(name) := ChainHop(config)]
      ensures t.Some? ==> t.value.config == ChainHop(config) && t.value.engine == "sing-box"
      ensures t.Some? ==> t.value.process.source == C.InFile(C.ChainFile(name)) && t.value.process.log == log
      ensures t.Some? ==> t.value.process.source.file == "chain-" + C.Sanitized(name) + "-config.json"
    {
      var written: bool := *;
      if !written {
        return None;
      }
      var file := "chain-" + C.Sanitized(name) + "-config.json";
      files := files[file := ChainHop(config)];
      var available: bool := *;
      if !available {
        return None;
      }
      var process := StartProcess("sing-box", C.InFile(file));
      if process.None? {
        return None;
      }
      var tunnel := new Tunnel(name + "-single", first, "sing-box", ChainHop(config), process.value);
      return Some(tunnel);
    }

    /** The outbound goes where a link of the hop's name says. */
    ghost predicate BodyFrom(body: Body, spec: HopSpec, links: set<Link>)
      reads links`listenPort
    {
      exists l :: l in links && l.data.remark == spec.profile && body == BodyOf(l.data, l.listenPort, pinnedHosts)
    }

    /** The process has a config file of its own, and listens on the first port. */
    predicate CarriesWhole(t: Tunnel, name: string) {
      && t.process.source == C.InFile(C.ChainFile(name))
      && t.config.ChainHop? && t.config.chain.inbound.port == FIRST_PORT
    }

    /** It runs the outbounds of a chain with these bodies: every hop goes where its body
        says, the first by itself and with its flow, each other one through the hop before
        it and without a flow. Connections to the first port leave through the last hop. */
    predicate CarriesBodies(t: Tunnel, name: string, bodies: seq<Body>) {
      && bodies != [] && t.config.ChainHop? && t.config.chain.outbounds == ChainOutbounds(name, bodies)
      && Chained(t.config.chain.outbounds, bodies)
      && t.config.chain.final == t.config.chain.outbounds[|bodies| - 1].tag
      && t.config.chain.inbound == SbInbound("mixed", "mixed-in", 10800)
    }

    /** One sing-box process that carries the whole chain. */
    ghost predicate IsSingle(c: Chain, bodies: seq<Body>) {
      && |c.hops| == 1 && c.hops[0].engine == "sing-box" && c.strategy == SingleProcess
      && CarriesWhole(c.hops[0], c.name) && CarriesBodies(c.hops[0], c.name, bodies)
    }

    /** A hop that a single sing-box process can carry out, through some link of
        its name. */
    ghost predicate MayBeSingle(spec: HopSpec, links: set<Link>) {
      && (spec.engine == "" || spec.engine == "sing-box")
      && exists l :: l in links && l.data.remark == spec.profile
           && l.data.protocol in ["vmess", "vless", "trojan", "shadowsocks", "wireguard", "socks5", "http"]
    }

    ghost predicate NoLink(profile: string, links: set<Link>) {
      forall l :: l in links ==> l.data.remark != profile
    }

    ghost predicate MayBeMulti(spec: HopSpec, links: set<Link>) {
      || (spec.engine != "" && spec.engine != "sing-box")
      || NoLink(spec.profile, links)
      || exists l :: l in links && l.data.remark == spec.profile
           && l.data.protocol !in ["vmess", "vless", "trojan", "shadowsocks", "wireguard", "socks5", "http"]
    }

    /** resolveChainStrategy: one process only when every hop allows it. */
    method ResolveStrategy(cfg: ChainSpec, profiles: P.Manager) returns (s: Strategy)
      ensures s == SingleProcess ==> forall k :: 0 <= k < |cfg.hops| ==> MayBeSingle(cfg.hops[k], profiles.LinksHeld())
      ensures s == MultiProcess ==> exists k :: 0 <= k < |cfg.hops| && MayBeMulti(cfg.hops[k], profiles.LinksHeld())
    {
      for i := 0 to |cfg.hops|
        invariant forall k :: 0 <= k < i ==> MayBeSingle(cfg.hops[k], profiles.LinksHeld())
      {
        var hop := cfg.hops[i];
        if hop.engine != "" && hop.engine != "sing-box" {
          assert MayBeMulti(cfg.hops[i], profiles.LinksHeld());
          return MultiProcess;
        }
        var link := profiles.GetLink(hop.profile);
        if link.None? {
          assert MayBeMulti(cfg.hops[i], profiles.LinksHeld());
          return MultiProcess;
        }
        if link.value.data.protocol !in SINGLE_PROTOCOLS {
          assert MayBeMulti(cfg.hops[i], profiles.LinksHeld());
          return MultiProcess;
        }
      }
      return SingleProcess;
    }

    /** A started chain: one process with the whole chain, or one for each hop. */
    ghost predicate Fits(c: Chain, cfg: ChainSpec, leftover: string) {
      && c.name == cfg.name && c.hops != []
      && match c.strategy
         case SingleProcess => |c.hops| == 1 && CarriesWhole(c.hops[0], c.name)
         case MultiProcess => |c.hops| == |cfg.hops| && HopsFit(c.hops, cfg, leftover)
    }

    /** StartChain, either way: a failure leaves nothing running that this call
        started, and no chain but the one named is touched. */
    method StartChain(cfg: ChainSpec, profiles: P.Manager, ghost links: set<Link>)
      returns (ok: bool, ghost leftover: string)
      requires Valid() && links == profiles.LinksHeld()
      modifies `tunnels, `chains, `files, `launched, links`chainProxy, links`listenPort, log
      ensures Valid()
      ensures !ok ==> NewOnesEnded(old(launched))
      ensures ok ==> cfg.name in chains && fresh(chains[cfg.name]) && chains[cfg.name].status == Running
      ensures ok ==> Fits(chains[cfg.name], cfg, leftover)
      ensures || chains == old(chains)
              || (cfg.name in chains && chains == old(chains)[cfg.name := chains[cfg.name]])
      ensures forall name :: !IsHopOf(name, cfg.name) ==> SameEntry(name, old(tunnels), tunnels)
    {
      leftover := "";
      var strategy := ResolveStrategy(cfg, profiles);
      if strategy == SingleProcess {
        ghost var bodies;
        ok, bodies := StartSingle(cfg, profiles);
        return;
      }
      ghost var hops, loss, told;
      ok, hops, loss, told, leftover := StartMulti(cfg, profiles, links);
      OthersKept(old(tunnels), cfg.name, hops);
    }

    /** What it means that the tunnels fit: hop k has the link and the engine asked for,
        listens on its own port, if at all, and dials the hop before. */
    lemma HopsFitMean(ts: seq<Tunnel>, cfg: ChainSpec, leftover: string, k: nat)
      requires HopsFit(ts, cfg, leftover) && k < |ts|
      ensures k < |cfg.hops| && ts[k].link.data.remark == cfg.hops[k].profile
      ensures ts[k].link.data.protocol == "ssh" ==> ts[k].engine == "ssh"
      ensures ts[k].link.data.protocol != "ssh" && cfg.hops[k].engine != "" ==> ts[k].engine == cfg.hops[k].engine
      ensures ListensOn(ts[k].config)
           == if ts[k].engine in ["sing-box", "xray", "ssh"] then Some(10800 + k) else None
      ensures DialsVia(ts[k].config)
           == if ts[k].engine != "sing-box" then None
              else if k > 0 then Some(10800 + k - 1)
              else if leftover != "" then Some(ExtractedPort(leftover)) else None
      ensures ts[k].engine == "sing-box" ==> ts[k].config.SingBoxHop? && ts[k].config.link == ts[k].link.data
    {
      assert LaunchIn(ts[k]) == LaunchesIn(ts)[k];
      HopPorts(HopsOf(ts), leftover, socksPort, pinnedHosts, k);
    }

    /** Whether a started chain carries connections, whatever other processes do. */
    ghost predicate WillCarry(c: Chain, leftover: string, files: C.Files, others: seq<C.Other>) {
      match c.strategy
      case SingleProcess => forall k :: 0 <= k < |others| ==> C.LeavesFirstPort(C.ChainFile(c.name), files, others[k])
      case MultiProcess => C.Sound(HopsOf(c.hops), leftover, files, others)
    }

    lemma StartedCarriesIff(c: Chain, cfg: ChainSpec, leftover: string, files: C.Files, others: seq<C.Other>)
      requires Fits(c, cfg, leftover) && C.PortsHeldOnce(others)
      ensures C.Carries(LaunchesIn(c.hops), files, others) <==> WillCarry(c, leftover, files, others)
    {
      match c.strategy
      case SingleProcess =>
        assert LaunchesIn(c.hops) == [LaunchIn(c.hops[0])];
        C.SingleCarriesIff(LaunchIn(c.hops[0]), files, others);
      case MultiProcess =>
        C.CarriesIff(HopsOf(c.hops), leftover, socksPort, pinnedHosts, files, others);
    }

    /** A chain is started while other processes run or have still to read their
        configs. When the start succeeds, the chain carries every connection through
        all its hops, and in no other way, exactly under the conditions above. */
    method StartAmong(cfg: ChainSpec, profiles: P.Manager, ghost links: set<Link>, ghost others: seq<C.Other>)
      returns (ok: bool, ghost leftover: string)
      requires Valid() && links == profiles.LinksHeld() && C.PortsHeldOnce(others)
      modifies `tunnels, `chains, `files, `launched, links`chainProxy, links`listenPort, log
      ensures Valid() && (ok ==> cfg.name in chains)
      ensures ok ==> (C.Carries(LaunchesIn(chains[cfg.name].hops), old(files), others)
                      <==> WillCarry(chains[cfg.name], leftover, old(files), others))
    {
      ok, leftover := StartChain(cfg, profiles, links);
      if ok {
        StartedCarriesIff(chains[cfg.name], cfg, leftover, old(files), others);
      }
    }

    /** StopChain. */
    method StopChain(name: string) returns (ok: bool, ghost told: set<nat>)
      requires Valid()
      modifies (if name in chains then {chains[name]} else {})`status
      modifies (if name in chains then chains[name].hops else [])`status
      modifies if name in chains then ProcessesOf(chains[name].hops) else {}
      modifies log
      ensures ok <==> name in chains
      ensures ok ==> chains[name].status == Stopped
      ensures log.told == if ok then ToldDown(old(log.told), chains[name].hops, told, 0) else old(log.told)
      ensures ok ==> forall k :: 0 <= k < |chains[name].hops| ==> chains[name].hops[k].process.Ended()
      ensures ok ==> forall k :: 0 <= k < |chains[name].hops| && k !in told ==> !chains[name].hops[k].process.running
      ensures ok ==> forall k :: 0 <= k < |chains[name].hops| && !old(chains[name].hops[k].process.running) ==>
                chains[name].hops[k].status == old(chains[name].hops[k].status)
    {
      told := {};
      if name !in chains {
        return false, told;
      }
      told := StopHops(chains[name].hops);
      chains[name].status := Stopped;
      return true, told;
    }
  }

  function HopsOf(ts: seq<Tunnel>): seq<Hop> {
    seq(|ts|, i requires 0 <= i < |ts| => Hop(ts[i].engine, ts[i].link.data))
  }

  /** How a tunnel's process was started. */
  function LaunchIn(t: Tunnel): C.Launch {
    C.Launch(t.process.source, t.config)
  }

  function LaunchesIn(ts: seq<Tunnel>): seq<C.Launch> {
    seq(|ts|, i requires 0 <= i < |ts| => LaunchIn(ts[i]))
  }

  lemma OneMoreLaunchIn(ts: seq<Tunnel>, t: Tunnel)
    ensures LaunchesIn(ts + [t]) == LaunchesIn(ts) + [LaunchIn(t)]
  {
  }

  /** The tunnel has the link and the engine that the hop asks for. */
  predicate Chosen(t: Tunnel, spec: HopSpec) {
    t.link.data.remark == spec.profile && t.engine == EngineFor(t.link.data.protocol, spec.engine)
  }

  predicate AllChosen(ts: seq<Tunnel>, specs: seq<HopSpec>) {
    |ts| <= |specs| && forall k :: 0 <= k < |ts| ==> Chosen(ts[k], specs[k])
  }

  ghost predicate AllUp(ts: seq<Tunnel>)
    reads ts`status, ProcessesOf(ts)`cancelled
  {
    forall k :: 0 <= k < |ts| ==> ts[k].status == Running && !ts[k].process.cancelled
  }

  /** The first n tunnels and their processes are new. */
  twostate predicate AllNew(new ts: seq<Tunnel>, n: nat)
    requires n <= |ts|
  {
    n == 0 || (fresh(ts[n - 1]) && fresh(ts[n - 1].process) && AllNew(ts, n - 1))
  }

  twostate lemma {:induction false} NewStays(new ts: seq<Tunnel>, new t: Tunnel, n: nat)
    requires n <= |ts| && AllNew(ts, n)
    ensures AllNew(ts + [t], n)
  {
    if n > 0 {
      NewStays(ts, t, n - 1);
    }
  }

  twostate lemma {:induction false} EachNew(new ts: seq<Tunnel>, n: nat)
    requires n <= |ts| && AllNew(ts, n)
    ensures forall k :: 0 <= k < n ==> fresh(ts[k]) && fresh(ts[k].process)
  {
    if n > 0 {
      EachNew(ts, n - 1);
    }
  }

  lemma OneMoreUp(ts: seq<Tunnel>, t: Tunnel)
    requires AllUp(ts) && t.status == Running && !t.process.cancelled
    ensures AllUp(ts + [t])
  {
  }

  lemma OneMoreProcess(ts: seq<Tunnel>, t: Tunnel)
    ensures ProcessSeq(ts + [t]) == ProcessSeq(ts) + [t.process]
  {
  }

  /** The upstream proxies that links are set to. */
  ghost function UpstreamsOf(links: set<Link>): map<Link, string>
    reads links`chainProxy
  {
    map l | l in links :: l.chainProxy
  }

  ghost predicate LeftoverOf(upstreams: map<Link, string>, link: Link, leftover: string) {
    link in upstreams && leftover == upstreams[link]
  }

  lemma {:induction false} RegisteredPrefix(tunnels: map<string, Tunnel>, chain: string, hops: seq<Tunnel>, t: Tunnel,
                                            n: nat)
    requires n <= |hops|
    ensures Registered(tunnels, chain, hops + [t], n) == Registered(tunnels, chain, hops, n)
  {
    if n > 0 {
      RegisteredPrefix(tunnels, chain, hops, t, n - 1);
    }
  }

  lemma RegisteredOneMore(tunnels: map<string, Tunnel>, chain: string, hops: seq<Tunnel>, t: Tunnel)
    ensures Registered(tunnels, chain, hops + [t], |hops| + 1)
         == Registered(tunnels, chain, hops, |hops|)[HopName(chain, |hops|) := t]
  {
    RegisteredPrefix(tunnels, chain, hops, t, |hops|);
  }

  function ProcessSeq(hops: seq<Tunnel>): seq<Process> {
    seq(|hops|, i requires 0 <= i < |hops| => hops[i].process)
  }

  /** The tunnel table after the first n hops were entered under their names. */
  function Registered(tunnels: map<string, Tunnel>, chain: string, hops: seq<Tunnel>, n: nat): map<string, Tunnel>
    requires n <= |hops|
  {
    if n == 0 then tunnels else Registered(tunnels, chain, hops, n - 1)[HopName(chain, n - 1) := hops[n - 1]]
  }

  lemma OneMoreAdded(s: Snapshot, chain: string, hops: seq<Tunnel>, t: Tunnel)
    ensures Adding(s, chain, hops + [t])
         == Snapshot(Adding(s, chain, hops).tunnels[HopName(chain, |hops|) := t],
                     C.Written(Adding(s, chain, hops).files, LaunchIn(t)),
                     Adding(s, chain, hops).launched + [t.process], s.told)
  {
    OneMoreLaunchIn(hops, t);
    C.FilesAfterMore(s.files, LaunchesIn(hops), LaunchIn(t), |hops|);
    OneMoreProcess(hops, t);
    Assoc(s.launched, ProcessSeq(hops), [t.process]);
    RegisteredOneMore(s.tunnels, chain, hops, t);
  }

  // ----- the tunnel table afterwards -----

  lemma {:induction false} RegisteredElsewhere(tunnels: map<string, Tunnel>, chain: string, hops: seq<Tunnel>, n: nat,
                                               name: string)
    requires n <= |hops| && forall k :: 0 <= k < n ==> HopName(chain, k) != name
    ensures SameEntry(name, tunnels, Registered(tunnels, chain, hops, n))
  {
    if n > 0 {
      RegisteredElsewhere(tunnels, chain, hops, n - 1, name);
    }
  }

  lemma OthersKept(tunnels: map<string, Tunnel>, chain: string, hops: seq<Tunnel>)
    ensures forall name :: !IsHopOf(name, chain) ==> SameEntry(name, tunnels, Registered(tunnels, chain, hops, |hops|))
  {
    forall name | !IsHopOf(name, chain)
      ensures SameEntry(name, tunnels, Registered(tunnels, chain, hops, |hops|))
    {
      RegisteredElsewhere(tunnels, chain, hops, |hops|, name);
    }
  }

  /** Every hop is found under its own name. */
  lemma {:induction false} RegisteredAt(tunnels: map<string, Tunnel>, chain: string, hops: seq<Tunnel>, n: nat, k: nat)
    requires k < n <= |hops|
    ensures HopName(chain, k) in Registered(tunnels, chain, hops, n)
    ensures Registered(tunnels, chain, hops, n)[HopName(chain, k)] == hops[k]
  {
    if k < n - 1 {
      RegisteredAt(tunnels, chain, hops, n - 1, k);
      if HopName(chain, k) == HopName(chain, n - 1) {
        HopNameInjective(chain, k, chain, n - 1);
      }
    }
  }

  ghost predicate IsHopOf(name: string, chain: string) {
    exists k: nat :: name == HopName(chain, k)
  }

  predicate SameEntry(name: string, a: map<string, Tunnel>, b: map<string, Tunnel>) {
    (name in a <==> name in b) && (name in a ==> a[name] == b[name])
  }

  /** Whatever other chains are called, the entries of their hops stay. */
  lemma OtherChainsUntouched(chain: string, other: string, j: nat, a: map<string, Tunnel>, b: map<string, Tunnel>)
    requires other != chain
    requires forall name :: !IsHopOf(name, chain) ==> SameEntry(name, a, b)
    ensures SameEntry(HopName(other, j), a, b)
  {
    if k: nat :| HopName(other, j) == HopName(chain, k) {
      HopNameInjective(other, j, chain, k);
    }
    assert !IsHopOf(HopName(other, j), chain);
  }
}
