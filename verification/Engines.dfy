/** Starting one engine for a link, with fallback to the other engines
    (internal/engine/fallback.go), over an outside world that decides freely
    which processes start, which ports open and which checks pass. */
module Engines {
  import opened Links
  import opened Text

  const SING_BOX: string := "sing-box"
  const XRAY: string := "xray"

  // ----- processes -----

  datatype Proc = Proc(id: nat, engine: string, gatewayMode: bool, embedded: bool)

  // ----- attempts -----

  /** The start of an engine, built in or as a separate process, and whether its
      config is in gateway mode. */
  datatype Launch = Launch(engine: string, embedded: bool, gatewayMode: bool)

  /** What starting this engine comes to while the config generator is in gateway mode
      or not; only sing-box has configs in gateway mode. */
  function LaunchIn(engine: string, embedded: bool, mode: bool): Launch {
    Launch(engine, embedded, mode && engine == SING_BOX)
  }

  /** How far an attempt to start an engine came. */
  datatype Stage = Unavailable | Unsupported | Unwritten | Uninitialised | Unstarted | PortClosed | Ready

  datatype Attempt = Attempt(launch: Launch, stage: Stage)

  /** The record of trying the first of some launches, in order: every one
      failed except that the last one became ready exactly when `ok`. */
  ghost predicate TriedInOrder(attempts: seq<Attempt>, launches: seq<Launch>, ok: bool) {
    && |attempts| <= |launches|
    && (ok ==> attempts != [])
    && forall i :: 0 <= i < |attempts| ==>
         attempts[i].launch == launches[i] && (attempts[i].stage.Ready? <==> ok && i == |attempts| - 1)
  }

  /** The same, and nothing is given up while there is a launch left to try. */
  ghost predicate TriedAll(attempts: seq<Attempt>, launches: seq<Launch>, ok: bool) {
    TriedInOrder(attempts, launches, ok) && (ok || |attempts| == |launches|)
  }

  lemma TriedConcat(a: seq<Attempt>, first: seq<Launch>, b: seq<Attempt>, rest: seq<Launch>, ok: bool)
    requires TriedInOrder(a, first, false) && |a| == |first|
    requires TriedInOrder(b, rest, ok)
    ensures TriedInOrder(a + b, first + rest, ok)
  {
  }

  lemma TriedOfPrefix(a: seq<Attempt>, first: seq<Launch>, rest: seq<Launch>, ok: bool)
    requires TriedInOrder(a, first, ok) && ok
    ensures TriedAll(a, first + rest, ok)
  {
  }

  // ----- what the outside world sees of an attempt -----

  /** What the world decides: a question that the program asks, or the start of
      an engine with the config of a link. */
  datatype Step =
    | NetworkFound
    | Available(engine: string)
    | ConfigWritten(engine: string, link: Link)
    | Initialised(engine: string)
    | Start(launch: Launch, link: Link)
    | PortOpens(engine: string)
    | Connects
    | TunDevice

  /** One entry of the world's journal. */
  datatype Event = Event(step: Step, yes: bool)

  /** What has to go well for a launch: a built-in engine has its config written,
      is initialised and started; any other is looked up, has its config written,
      is started, and opens its port. */
  function Steps(launch: Launch, link: Link): seq<Step> {
    if launch.embedded then [ConfigWritten(launch.engine, link), Initialised(launch.engine), Start(launch, link)]
    else
      [Available(launch.engine), ConfigWritten(launch.engine, link), Start(launch, link), PortOpens(launch.engine)]
  }

  /** How many steps an attempt went, the one that failed included. An engine that
      no config can be written for is given up without another question. */
  function Depth(a: Attempt): (n: nat)
    ensures 1 <= n <= if a.launch.embedded then 3 else 4
  {
    match a.stage
    case Unavailable => 1
    case Unsupported => 1
    case Unwritten => if a.launch.embedded then 1 else 2
    case Uninitialised => 2
    case Unstarted => 3
    case _ => if a.launch.embedded then 3 else 4
  }

  type Journal = Record<Event>

  /** The journal after the first n steps, all of which went well but the last one,
      which went as given; nothing comes after a failure. */
  function StepsLogged(j: Journal, steps: seq<Step>, n: nat, last: bool): Journal
    requires n <= |steps|
  {
    if n == 0 then j else Then(StepsLogged(j, steps, n - 1, true), Event(steps[n - 1], last))
  }

  /** The journal after an attempt: everything that it asked and started. */
  function AttemptLogged(j: Journal, a: Attempt, link: Link): Journal {
    StepsLogged(j, Steps(a.launch, link), Depth(a), a.stage.Ready? || a.stage.Unsupported?)
  }

  /** Spelled out: what the world was asked and answered in an attempt, for each stage
      at which it can have ended. */
  lemma AttemptLoggedMeans(j: Journal, a: Attempt, link: Link)
    ensures !a.launch.embedded ==>
              var found := Then(j, Event(Available(a.launch.engine), true));
              var written := Then(found, Event(ConfigWritten(a.launch.engine, link), true));
              var started := Then(written, Event(Start(a.launch, link), true));
              && (a.stage.Unavailable? ==>
                    AttemptLogged(j, a, link) == Then(j, Event(Available(a.launch.engine), false)))
              && (a.stage.Unsupported? ==> AttemptLogged(j, a, link) == found)
              && (a.stage.Unwritten? ==>
                    AttemptLogged(j, a, link) == Then(found, Event(ConfigWritten(a.launch.engine, link), false)))
              && (a.stage.Unstarted? ==>
                    AttemptLogged(j, a, link) == Then(written, Event(Start(a.launch, link), false)))
              && (a.stage.PortClosed? ==>
                    AttemptLogged(j, a, link) == Then(started, Event(PortOpens(a.launch.engine), false)))
              && (a.stage.Ready? ==>
                    AttemptLogged(j, a, link) == Then(started, Event(PortOpens(a.launch.engine), true)))
    ensures a.launch.embedded ==>
              var written := Then(j, Event(ConfigWritten(a.launch.engine, link), true));
              var initialised := Then(written, Event(Initialised(a.launch.engine), true));
              && (a.stage.Unwritten? ==>
                    AttemptLogged(j, a, link) == Then(j, Event(ConfigWritten(a.launch.engine, link), false)))
              && (a.stage.Uninitialised? ==>
                    AttemptLogged(j, a, link) == Then(written, Event(Initialised(a.launch.engine), false)))
              && (a.stage.Unstarted? ==>
                    AttemptLogged(j, a, link) == Then(initialised, Event(Start(a.launch, link), false)))
              && (a.stage.Ready? ==> AttemptLogged(j, a, link) == Then(initialised, Event(Start(a.launch, link), true)))
  {
    var steps := Steps(a.launch, link);
    assert StepsLogged(j, steps, 1, true) == Then(j, Event(steps[0], true));
    assert StepsLogged(j, steps, 2, true) == Then(StepsLogged(j, steps, 1, true), Event(steps[1], true));
    assert StepsLogged(j, steps, 3, true) == Then(StepsLogged(j, steps, 2, true), Event(steps[2], true));
  }

  /** The journal after the first n of some attempts. */
  function AttemptsLogged(j: Journal, attempts: seq<Attempt>, n: nat, link: Link): Journal
    requires n <= |attempts|
  {
    if n == 0 then j else AttemptLogged(AttemptsLogged(j, attempts, n - 1, link), attempts[n - 1], link)
  }

  lemma {:induction false} LoggedOfMore(j: Journal, a: seq<Attempt>, b: seq<Attempt>, n: nat, link: Link)
    requires n <= |a|
    ensures AttemptsLogged(j, a + b, n, link) == AttemptsLogged(j, a, n, link)
  {
    if n > 0 {
      LoggedOfMore(j, a, b, n - 1, link);
    }
  }

  lemma {:induction false} LoggedConcat(j: Journal, a: seq<Attempt>, b: seq<Attempt>, n: nat, link: Link)
    requires n <= |b|
    ensures AttemptsLogged(j, a + b, |a| + n, link)
         == AttemptsLogged(AttemptsLogged(j, a, |a|, link), b, n, link)
  {
    if n == 0 {
      LoggedOfMore(j, a, b, |a|, link);
    } else {
      LoggedConcat(j, a, b, n - 1, link);
    }
  }

  /** One more attempt after attempts that all failed. */
  lemma NextAttempt(j: Journal, a: seq<Attempt>, next: Attempt, launches: seq<Launch>, link: Link)
    requires TriedInOrder(a, launches, false) && |a| < |launches| && next.launch == launches[|a|]
    ensures TriedInOrder(a + [next], launches, next.stage.Ready?)
    ensures AttemptsLogged(j, a + [next], |a| + 1, link) == AttemptLogged(AttemptsLogged(j, a, |a|, link), next, link)
  {
    LoggedOfMore(j, a, [next], |a|, link);
  }

  /** Attempts after attempts that all failed, as one record. */
  lemma AttemptsConcat(j: Journal, a: seq<Attempt>, first: seq<Launch>, b: seq<Attempt>, rest: seq<Launch>, ok: bool,
                       link: Link)
    requires TriedAll(a, first, false) && TriedAll(b, rest, ok)
    ensures TriedAll(a + b, first + rest, ok)
    ensures AttemptsLogged(j, a + b, |a + b|, link) == AttemptsLogged(AttemptsLogged(j, a, |a|, link), b, |b|, link)
    ensures ok ==> (a + b)[|a + b| - 1] == b[|b| - 1]
  {
    TriedConcat(a, first, b, rest, ok);
    LoggedConcat(j, a, b, |b|, link);
  }

  /** How often the world was asked to start an engine. */
  ghost function StartsIn(j: Journal): nat {
    match j
    case Nothing => 0
    case Then(before, last) => StartsIn(before) + if last.step.Start? then 1 else 0
  }

  lemma {:induction false} StepsStartOnce(j: Journal, steps: seq<Step>, n: nat, last: bool)
    requires n <= |steps| && forall i :: 0 <= i < n && i != 2 ==> !steps[i].Start?
    ensures StartsIn(StepsLogged(j, steps, n, last)) <= StartsIn(j) + if n > 2 then 1 else 0
  {
    if n > 0 {
      StepsStartOnce(j, steps, n - 1, true);
    }
  }

  /** An attempt starts an engine at most once. */
  lemma {:induction false} AttemptsStartOnce(j: Journal, attempts: seq<Attempt>, n: nat, link: Link)
    requires n <= |attempts|
    ensures StartsIn(AttemptsLogged(j, attempts, n, link)) <= StartsIn(j) + n
  {
    if n > 0 {
      AttemptsStartOnce(j, attempts, n - 1, link);
      var a := attempts[n - 1];
      StepsStartOnce(AttemptsLogged(j, attempts, n - 1, link), Steps(a.launch, link), Depth(a),
                     a.stage.Ready? || a.stage.Unsupported?);
    }
  }

  // ----- the outside world -----

  /** Everything the program cannot decide: each method below may answer
      either way, every time it is asked. The journal keeps every question with
      its answer and every start of an engine. */
  class World {
    var nextId: nat
    var alive: set<Proc>            // engines started and not yet stopped
    ghost var peak: nat             // the most engines that were ever alive at once
    ghost var journal: Journal

    constructor ()
      ensures alive == {} && peak == 0 && journal == Nothing
    {
      nextId, alive, peak, journal := 0, {}, 0, Nothing;
    }

    method StartProcess(link: Link, launch: Launch) returns (p: Option<Proc>)
      modifies this
      ensures journal == Then(old(journal), Event(Start(launch, link), p.Some?))
      ensures p.None? ==> alive == old(alive) && peak == old(peak)
      ensures p.Some? ==>
                && p.value == Proc(old(nextId), launch.engine, launch.gatewayMode, launch.embedded)
                && nextId == old(nextId) + 1
                && alive == old(alive) + {p.value}
                && peak == if |alive| > old(peak) then |alive| else old(peak)
    {
      var starts: bool := *;
      if starts {
        p := Some(Proc(nextId, launch.engine, launch.gatewayMode, launch.embedded));
        nextId := nextId + 1;
        alive := alive + {p.value};
        peak := if |alive| > peak then |alive| else peak;
      } else {
        p := None;
      }
      journal := Then(journal, Event(Start(launch, link), starts));
    }

    method Kill(p: Proc)
      modifies `alive
      ensures alive == old(alive) - {p}
    {
      alive := alive - {p};
    }

    /** A yes-or-no question whose answer nothing constrains. */
    method Ask(question: Step) returns (yes: bool)
      modifies `journal
      ensures journal == Then(old(journal), Event(question, yes))
    {
      yes := *;
      journal := Then(journal, Event(question, yes));
    }

    /** Whether tun0 shows up in time. The device exists only while a sing-box
        with a TUN inbound lives. */
    method TunAppears() returns (up: bool)
      modifies `journal
      ensures journal == Then(old(journal), Event(TunDevice, up))
      ensures up ==> exists p :: p in alive && p.engine == SING_BOX && p.gatewayMode
    {
      up := *;
      up := up && exists p | p in alive :: p.engine == SING_BOX && p.gatewayMode;
      journal := Then(journal, Event(TunDevice, up));
    }
  }

  // ----- the order in which engines are tried -----

  datatype FallbackConfig = FallbackConfig(enabled: bool, order: seq<string>)

  function Without(names: seq<string>, x: string): (rest: seq<string>)
    ensures |rest| <= |names|
  {
    if names == [] then []
    else (if names[0] == x then [] else [names[0]]) + Without(names[1..], x)
  }

  const DEFAULT_ORDER: seq<string> := [SING_BOX, XRAY]

  function BaseOrder(cfg: FallbackConfig): seq<string> {
    if cfg.order == [] then DEFAULT_ORDER else cfg.order
  }

  /** The preferred engine first, then the configured ones in their order. */
  function EngineOrder(cfg: FallbackConfig, preferred: string): (order: seq<string>)
    ensures order != []
  {
    if preferred == "" then BaseOrder(cfg) else [preferred] + Without(BaseOrder(cfg), preferred)
  }

  /** The engines that may be tried: without fallback only the first of the order. */
  function Allowed(cfg: FallbackConfig, preferred: string): seq<string> {
    if cfg.enabled then EngineOrder(cfg, preferred) else EngineOrder(cfg, preferred)[..1]
  }

  lemma {:induction false} WithoutConcat(a: seq<string>, b: seq<string>, x: string)
    ensures Without(a + b, x) == Without(a, x) + Without(b, x)
  {
    if a == [] {
      assert a + b == b;
    } else {
      assert (a + b)[1..] == a[1..] + b;
      WithoutConcat(a[1..], b, x);
    }
  }

  lemma WithoutMore(names: seq<string>, i: nat, x: string)
    requires i < |names|
    ensures Without(names[..i + 1], x) == Without(names[..i], x) + if names[i] == x then [] else [names[i]]
  {
    assert names[..i + 1] == names[..i] + [names[i]];
    WithoutConcat(names[..i], [names[i]], x);
  }

  /** What the order tried has to be: the configured one, or the preferred engine and
      then the configured engines other than it, each at every place where it is
      configured, in that order. */
  ghost predicate Prefers(order: seq<string>, configured: seq<string>, preferred: string) {
    if preferred == "" then order == configured
    else
      && order != [] && order[0] == preferred
      && exists at: seq<nat> :: PicksAt(order[1..], configured, at)
           && forall i :: 0 <= i < |configured| ==> (i in at <==> configured[i] != preferred)
  }

  lemma {:induction false} WithoutPlaces(names: seq<string>, x: string) returns (at: seq<nat>)
    ensures PicksAt(Without(names, x), names, at)
    ensures forall i :: 0 <= i < |names| ==> (i in at <==> names[i] != x)
  {
    at := [];
    if names != [] {
      var n := |names| - 1;
      at := WithoutPlaces(names[..n], x);
      WithoutMore(names, n, x);
      assert names[..n + 1] == names == names[..n] + [names[n]];
      PicksMore(Without(names[..n], x), names[..n], at, names[n]);
      if names[n] != x {
        at := at + [n];
      }
    }
  }

  /** For every configuration: the engines tried are the configured ones, sing-box and
      xray if none are, with the preferred one moved to the front. */
  lemma EngineOrderIsComplete(cfg: FallbackConfig, preferred: string)
    ensures Prefers(EngineOrder(cfg, preferred), if cfg.order == [] then ["sing-box", "xray"] else cfg.order, preferred)
  {
    var rest := Without(BaseOrder(cfg), preferred);
    var at := WithoutPlaces(BaseOrder(cfg), preferred);
    assert ([preferred] + rest)[1..] == rest;
  }

  // ----- the fallback controller -----

  datatype FallbackResult = FallbackResult(process: Proc, engineName: string, wasFallback: bool)

  /** The launches of an engine order, all as separate processes. */
  function Binaries(order: seq<string>, mode: bool): seq<Launch> {
    seq(|order|, i requires 0 <= i < |order| => LaunchIn(order[i], false, mode))
  }

  lemma TriedAllowed(attempts: seq<Attempt>, cfg: FallbackConfig, preferred: string, mode: bool, ok: bool)
    requires TriedInOrder(attempts, Binaries(EngineOrder(cfg, preferred), mode), ok)
    requires |attempts| > 1 ==> cfg.enabled
    requires !ok ==> |attempts| == if cfg.enabled then |EngineOrder(cfg, preferred)| else 1
    ensures TriedAll(attempts, Binaries(Allowed(cfg, preferred), mode), ok)
  {
  }

  /** The engines that the config generator can write a file for. */
  predicate Generatable(engine: string) {
    engine in ["sing-box", "xray", "wireguard-go", "openvpn"]
  }

  class FallbackController {
    const cfg: FallbackConfig
    const gatewayMode: bool  // whether the shared config generator is in gateway mode
    const world: World

    constructor (cfg: FallbackConfig, gatewayMode: bool, world: World)
      ensures this.cfg == cfg && this.gatewayMode == gatewayMode && this.world == world
    {
      this.cfg, this.gatewayMode, this.world := cfg, gatewayMode, world;
    }

    /** engineOrder: the loop that moves the preferred engine to the front. */
    method OrderOf(preferred: string) returns (result: seq<string>)
      ensures result == EngineOrder(cfg, preferred)
      ensures Prefers(result, if cfg.order == [] then ["sing-box", "xray"] else cfg.order, preferred)
    {
      var order := cfg.order;
      if |order| == 0 {
        order := ["sing-box", "xray"];
      }
      EngineOrderIsComplete(cfg, preferred);
      if preferred == "" {
        return order;
      }
      result := [preferred];
      for i := 0 to |order|
        invariant result == [preferred] + Without(order[..i], preferred)
      {
        WithoutMore(order, i, preferred);
        if order[i] != preferred {
          result := result + [order[i]];
        }
      }
      assert order[..|order|] == order;
    }

    /** tryEngine: succeeds exactly when everything it asked was answered yes, the
        port last; at most one process is started, and it is killed again when its
        port does not open. */
    method TryEngine(engine: string, link: Link) returns (r: Option<Proc>, stage: Stage)
      requires world.alive == {} && world.peak <= 1
      modifies world
      ensures var launch := Launch(engine, false, gatewayMode && engine == "sing-box");
              world.journal == AttemptLogged(old(world.journal), Attempt(launch, stage), link)
      ensures r.Some? <==> stage.Ready?
      ensures !stage.Uninitialised?
      ensures stage.Unavailable?
           || (stage.Unsupported? <==> engine !in ["sing-box", "xray", "wireguard-go", "openvpn"])
      ensures world.peak <= 1
      ensures r.None? ==> world.alive == {}
      ensures r.Some? ==>
                && world.alive == {r.value}
                && r.value.engine == engine && !r.value.embedded
                && (r.value.gatewayMode <==> gatewayMode && engine == "sing-box")
    {
      ghost var j, steps := world.journal, Steps(LaunchIn(engine, false, gatewayMode), link);
      var available := world.Ask(Available(engine));
      assert world.journal == StepsLogged(j, steps, 1, available);
      if !available {
        return None, Unavailable;
      }
      if !Generatable(engine) {
        return None, Unsupported;
      }
      var written := world.Ask(ConfigWritten(engine, link));
      assert world.journal == StepsLogged(j, steps, 2, written);
      if !written {
        return None, Unwritten;
      }
      r := world.StartProcess(link, LaunchIn(engine, false, gatewayMode));
      assert world.journal == StepsLogged(j, steps, 3, r.Some?);
      if r.None? {
        return None, Unstarted;
      }
      var portReady := world.Ask(PortOpens(engine));
      assert world.journal == StepsLogged(j, steps, 4, portReady);
      if portReady {
        return r, Ready;
      }
      world.Kill(r.value);
      return None, PortClosed;
    }

    /** StartWithFallback: the first engine of the order whose port opens wins;
        every engine before it was tried and failed, and none after it was
        tried. With fallback disabled only the first engine is tried. */
    method StartWithFallback(link: Link, preferred: string) returns (r: Option<FallbackResult>, attempts: seq<Attempt>)
      requires world.alive == {} && world.peak <= 1
      modifies world
      ensures world.journal == AttemptsLogged(old(world.journal), attempts, |attempts|, link)
      ensures world.peak <= 1
      ensures TriedAll(attempts, Binaries(Allowed(cfg, preferred), gatewayMode), r.Some?)
      ensures Prefers(EngineOrder(cfg, preferred),
                      if cfg.order == [] then ["sing-box", "xray"] else cfg.order, preferred)
      ensures forall i :: 0 <= i < |attempts| ==>
                && i < |EngineOrder(cfg, preferred)|
                && var engine := EngineOrder(cfg, preferred)[i];
                   attempts[i].launch == Launch(engine, false, gatewayMode && engine == "sing-box")
      ensures r.None? ==> world.alive == {}
      ensures r.None? ==> |attempts| == if cfg.enabled then |EngineOrder(cfg, preferred)| else 1
      ensures r.Some? ==>
                && (|attempts| == 1 || cfg.enabled)
                && r.value.engineName == EngineOrder(cfg, preferred)[|attempts| - 1]
                && r.value.wasFallback == (|attempts| > 1)
                && world.alive == {r.value.process}
                && r.value.process.engine == r.value.engineName && !r.value.process.embedded
                && (r.value.process.gatewayMode <==> gatewayMode && r.value.engineName == "sing-box")
    {
      var order := OrderOf(preferred);
      attempts := [];
      for i := 0 to |order|
        invariant |attempts| == i
        invariant i > 0 ==> cfg.enabled
        invariant world.alive == {} && world.peak <= 1
        invariant TriedInOrder(attempts, Binaries(order, gatewayMode), false)
        invariant world.journal == AttemptsLogged(old(world.journal), attempts, i, link)
      {
        var p, stage := TryEngine(order[i], link);
        var attempt := Attempt(LaunchIn(order[i], false, gatewayMode), stage);
        NextAttempt(old(world.journal), attempts, attempt, Binaries(order, gatewayMode), link);
        attempts := attempts + [attempt];
        if p.Some? {
          TriedAllowed(attempts, cfg, preferred, gatewayMode, true);
          return Some(FallbackResult(p.value, order[i], i > 0)), attempts;
        }
        if !cfg.enabled && i == 0 {
          TriedAllowed(attempts, cfg, preferred, gatewayMode, false);
          return None, attempts;
        }
      }
      TriedAllowed(attempts, cfg, preferred, gatewayMode, false);
      return None, attempts;
    }
  }
}
