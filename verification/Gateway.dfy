/** The gateway's engine lifecycle (internal/gateway/gateway.go): `Start` nests
    passes (native TUN, one native retry, legacy) over links over engines, and
    must end with exactly one engine alive and a truthful native-TUN flag, or
    with none alive. */
module Gateway {
  import opened Text
  import opened Links
  import opened Engines
  import opened Passes
  import R = Reload

  datatype Config = Config(
    gatewayEnabled: bool,
    nativeTUN: bool,
    preferredEngine: string,
    fallback: FallbackConfig,
    activeGroup: string,
    socksPort: int,
    apiPort: int,
    dnsUpstream: seq<string>,
    localDns: seq<R.LocalDnsEntry>)

  class Gateway {
    const world: World
    const embeddedEngines: set<string>      // engines built into this binary; empty in a lite build
    const full: bool                        // whether this is a full build
    const groups: map<string, seq<Link>>    // the profile groups
    var config: Config
    var engineProc: Option<Proc>
    var embeddedEngine: Option<Proc>
    var nativeTUN: bool
    var activeEngine: string
    var activeLink: Option<Link>            // the profile manager's active link

    constructor (cfg: Config, world: World, embeddedEngines: set<string>, full: bool,
                 groups: map<string, seq<Link>>, activeLink: Option<Link>)
      ensures this.world == world && config == cfg && this.groups == groups
      ensures this.embeddedEngines == embeddedEngines && this.full == full
      ensures NoHandles() && !nativeTUN && this.activeLink == activeLink
    {
      this.config, this.world, this.groups := cfg, world, groups;
      this.embeddedEngines, this.full, this.activeLink := embeddedEngines, full, activeLink;
      engineProc, embeddedEngine, nativeTUN, activeEngine := None, None, false, "";
    }

    // ----- the two states between operations -----

    predicate NoHandles()
      reads `engineProc, `embeddedEngine
    {
      engineProc.None? && embeddedEngine.None?
    }

    /** The process the gateway has recorded: a separate process or an
        in-process runner, never both. */
    function Engine(): Option<Proc>
      reads `engineProc, `embeddedEngine
    {
      if embeddedEngine.Some? then embeddedEngine else engineProc
    }

    ghost function Phase(): State
      reads `engineProc, `embeddedEngine, `activeEngine, world`alive, world`peak
    {
      if world.peak > 1 then Broken
      else if NoHandles() && world.alive == {} then Down
      else if
        && (embeddedEngine.Some? <==> engineProc.None?)
        && world.alive == {Engine().value}
        && Engine().value.embedded == embeddedEngine.Some?
        && Engine().value.engine == activeEngine
        && (Engine().value.gatewayMode ==> activeEngine == SING_BOX)
      then Up(Launch(activeEngine, embeddedEngine.Some?, Engine().value.gatewayMode))
      else Broken
    }

    /** The flag is raised whenever the engine alive owns a TUN device. */
    ghost predicate NotTooLow()
      reads `engineProc, `embeddedEngine, `activeEngine, `nativeTUN, world`alive, world`peak
    {
      Phase().Up? && Phase().launch.gatewayMode ==> nativeTUN
    }

    // ----- what a pass goes through -----

    /** The active link, then the other usable links of its group. */
    ghost function Candidates(link: Link): seq<Link>
      reads `config, link`group
    {
      CandidateLinks(link, if link.group == "" then config.activeGroup else link.group, groups)
    }

    /** Which group is turned to, and what is taken from it. */
    lemma CandidatesMean(link: Link)
      ensures var group := if link.group != "" then link.group else config.activeGroup;
              Fallbacks(Candidates(link), link, if group in groups then groups[group] else [])
    {
      var group := if link.group != "" then link.group else config.activeGroup;
      if group in groups {
        EligibleMeans(groups[group], link);
      } else {
        EligibleMeans([], link);
      }
    }

    /** The launches that one link is worth in the present mode. */
    ghost function Launches(): seq<Launch>
      reads `config
    {
      LaunchPlan(config.preferredEngine, config.fallback, embeddedEngines, GatewayMode())
    }

    ghost function EmbeddedLaunches(): seq<Launch>
      reads `config
    {
      EmbeddedPlan(config.preferredEngine, config.fallback, embeddedEngines, GatewayMode())
    }

    /** The launches in either mode. */
    ghost function LaunchesByMode(): Plan
      reads `config
    {
      Plan(LaunchPlan(config.preferredEngine, config.fallback, embeddedEngines, true),
           LaunchPlan(config.preferredEngine, config.fallback, embeddedEngines, false))
    }

    predicate GatewayMode()
      reads `config
    {
      config.gatewayEnabled && config.nativeTUN
    }

    // ----- starting an engine for one link -----

    /** The first half of startEngine: the engine built into this binary, if any. */
    method StartEmbedded(link: Link) returns (ok: bool, ghost attempts: seq<Attempt>)
      requires Phase() == Down
      modifies `embeddedEngine, `nativeTUN, `activeEngine, world
      ensures world.journal == AttemptsLogged(old(world.journal), attempts, |attempts|, link)
      ensures TriedAll(attempts, EmbeddedLaunches(), ok)
      ensures |attempts| == |EmbeddedLaunches()|
      ensures !ok ==> Phase() == Down && nativeTUN == old(nativeTUN) && activeEngine == old(activeEngine)
      ensures ok ==> Phase() == Up(attempts[0].launch)
      ensures ok ==> nativeTUN == (old(nativeTUN) || Phase().launch.gatewayMode)
    {
      var preferredName := EmbeddedName(config.preferredEngine, config.fallback);
      if preferredName !in embeddedEngines {
        return false, [];
      }
      var runner, stage := RunEmbedded(preferredName, link);
      attempts := [Attempt(LaunchIn(preferredName, true, GatewayMode()), stage)];
      ok := runner.Some?;
      if ok {
        embeddedEngine, activeEngine := runner, preferredName;
        if config.gatewayEnabled && config.nativeTUN && preferredName == SING_BOX {
          nativeTUN := true;
        }
      }
    }

    /** Generating the config, building the runner and starting it, each only when
        the step before went well. */
    method RunEmbedded(name: string, link: Link) returns (runner: Option<Proc>, stage: Stage)
      requires Phase() == Down
      modifies world
      ensures world.journal
           == AttemptLogged(old(world.journal), Attempt(LaunchIn(name, true, GatewayMode()), stage), link)
      ensures runner.Some? <==> stage.Ready?
      ensures world.peak <= 1
      ensures runner.None? ==> world.alive == {}
      ensures runner.Some? ==>
                && world.alive == {runner.value} && runner.value.engine == name && runner.value.embedded
                && (runner.value.gatewayMode <==> GatewayMode() && name == SING_BOX)
    {
      ghost var j, steps := world.journal, Steps(LaunchIn(name, true, GatewayMode()), link);
      var written := world.Ask(ConfigWritten(name, link));
      assert world.journal == StepsLogged(j, steps, 1, written);
      if !written {
        return None, Unwritten;
      }
      var initialised := world.Ask(Initialised(name));
      assert world.journal == StepsLogged(j, steps, 2, initialised);
      if !initialised {
        return None, Uninitialised;
      }
      runner := world.StartProcess(link, LaunchIn(name, true, GatewayMode()));
      assert world.journal == StepsLogged(j, steps, 3, runner.Some?);
      stage := if runner.Some? then Ready else Unstarted;
    }

    /** The second half of startEngine: the fallback controller. */
    method StartBinary(link: Link) returns (ok: bool, ghost attempts: seq<Attempt>)
      requires Phase() == Down
      modifies `engineProc, `nativeTUN, `activeEngine, world
      ensures world.journal == AttemptsLogged(old(world.journal), attempts, |attempts|, link)
      ensures TriedAll(attempts, Binaries(Allowed(config.fallback, config.preferredEngine), GatewayMode()), ok)
      ensures !ok ==> Phase() == Down && nativeTUN == old(nativeTUN) && activeEngine == old(activeEngine)
      ensures ok ==> Phase() == Up(attempts[|attempts| - 1].launch)
      ensures ok ==> nativeTUN == (old(nativeTUN) || Phase().launch.gatewayMode)
    {
      var fc := new FallbackController(config.fallback, GatewayMode(), world);
      var result, tried := fc.StartWithFallback(link, config.preferredEngine);
      attempts := tried;
      if result.None? {
        return false, attempts;
      }
      engineProc, activeEngine := Some(result.value.process), result.value.engineName;
      if config.gatewayEnabled && config.nativeTUN && activeEngine == SING_BOX {
        nativeTUN := true;
      }
      ok := true;
    }

    /** startEngine: the built-in engine first, then the fallback controller.
        The flag only ever goes up here, and goes up whenever the engine now
        running owns a TUN device. */
    method StartEngine(link: Link) returns (ok: bool, ghost attempts: seq<Attempt>)
      requires Phase() == Down
      modifies `engineProc, `embeddedEngine, `nativeTUN, `activeEngine, world
      ensures world.journal == AttemptsLogged(old(world.journal), attempts, |attempts|, link)
      ensures TriedAll(attempts, Launches(), ok)
      ensures !ok ==> Phase() == Down && nativeTUN == old(nativeTUN) && activeEngine == old(activeEngine)
      ensures ok ==> Phase() == Up(attempts[|attempts| - 1].launch)
      ensures ok ==> nativeTUN == (old(nativeTUN) || Phase().launch.gatewayMode)
    {
      ghost var first := EmbeddedLaunches();
      ghost var rest := Binaries(Allowed(config.fallback, config.preferredEngine), GatewayMode());
      ok, attempts := StartEmbedded(link);
      if ok {
        TriedOfPrefix(attempts, first, rest, true);
        return;
      }
      ghost var others;
      ok, others := StartBinary(link);
      AttemptsConcat(old(world.journal), attempts, first, others, rest, ok, link);
      attempts := attempts + others;
    }

    /** Stops the recorded engine, whichever of the two handles holds it. */
    method StopEngine()
      requires Phase() != Broken
      modifies `engineProc, `embeddedEngine, world`alive
      ensures Phase() == Down
    {
      if embeddedEngine.Some? {
        world.Kill(embeddedEngine.value);
        embeddedEngine := None;
      } else if engineProc.Some? {
        world.Kill(engineProc.value);
        engineProc := None;
      }
    }

    /** Connectivity is checked up to three times before the link is given up. */
    method ConnectsInThreeChecks() returns (ok: bool, ghost check: Check)
      modifies world`journal
      ensures world.journal == CheckLogged(old(world.journal), check)
      ensures ok == check.Passed? && !check.NotChecked?
    {
      for i := 0 to 3
        invariant world.journal == NoesLogged(old(world.journal), i)
      {
        ok := world.Ask(Connects);
        if ok {
          return ok, Passed(i);
        }
      }
      return false, Failed;
    }

    /** startEngineWithEngineFallback: the first engine that becomes ready must
        also pass one of three connectivity checks; if it does not, it is
        stopped and the link has failed, whatever other engines there are. The
        flag is not lowered then. */
    method StartLink(link: Link) returns (ok: bool, ghost attempt: LinkTry)
      requires Phase() == Down
      modifies `engineProc, `embeddedEngine, `nativeTUN, `activeEngine, world
      ensures world.journal == attempt.Logged(old(world.journal))
      ensures attempt.link == link && attempt.check.Passed? == ok
      ensures TriedAll(attempt.attempts, Launches(), !attempt.check.NotChecked?)
      ensures Phase() == Outcome(attempt) && NotTooLow()
      ensures !ok && attempt.Ready() ==> activeEngine == ""
      ensures nativeTUN == (old(nativeTUN) || (attempt.Ready() && LaunchOf(attempt).gatewayMode))
      ensures nativeTUN ==> old(nativeTUN) || GatewayMode()
    {
      ghost var attempts, check;
      ok, attempts := StartEngine(link);
      attempt := LinkTry(link, attempts, NotChecked);
      if !ok {
        return;
      }
      ok, check := ConnectsInThreeChecks();
      attempt := LinkTry(link, attempts, check);
      if !ok {
        StopEngine();
        activeEngine := "";
      }
    }

    // ----- passes over links -----

    /** startEngineWithLinkFallback: the given link, then the usable links of
        its group; a fallback link that works becomes the active link. */
    method StartPass(link: Link) returns (ok: bool, ghost tries: Tries)
      requires Phase() == Down
      modifies `engineProc, `embeddedEngine, `nativeTUN, `activeEngine, `activeLink, world
      ensures world.journal == TriesLogged(old(world.journal), tries)
      ensures PassOver(tries, Candidates(link), Launches())
      ensures ok == Works(tries)
      ensures tries.Then? && Phase() == Outcome(tries.last) && NotTooLow()
      ensures activeLink == if ok && tries.before.Then? then Some(tries.last.link) else old(activeLink)
      ensures nativeTUN == (old(nativeTUN) || Raises(tries))
      ensures nativeTUN ==> old(nativeTUN) || GatewayMode()
    {
      ghost var first;
      ok, first := StartLink(link);
      tries := Then(Nothing, first);
      if !ok {
        ok, tries := TryOthers(link, first, old(world.journal), old(nativeTUN));
      }
    }

    /** What follows when the given link has failed: its group, or else the active one. */
    method TryOthers(link: Link, ghost first: LinkTry, ghost base: Journal, ghost flag: bool)
      returns (ok: bool, ghost tries: Tries)
      requires Phase() == Down
      requires first.link == link && !first.Works() && TriedAll(first.attempts, Launches(), first.Ready())
      requires world.journal == first.Logged(base)
      requires nativeTUN == (flag || Raises(Then(Nothing, first)))
      modifies `engineProc, `embeddedEngine, `nativeTUN, `activeEngine, `activeLink, world
      ensures world.journal == TriesLogged(base, tries)
      ensures PassOver(tries, Candidates(link), Launches())
      ensures ok == Works(tries)
      ensures tries.Then? && Phase() == Outcome(tries.last) && NotTooLow()
      ensures activeLink == if ok && tries.before.Then? then Some(tries.last.link) else old(activeLink)
      ensures nativeTUN == (flag || Raises(tries))
      ensures nativeTUN ==> old(nativeTUN) || GatewayMode()
    {
      var fallbackGroup := link.group;
      if fallbackGroup == "" {
        fallbackGroup := config.activeGroup;
      }
      var links: seq<Link> := [];
      if fallbackGroup in groups {
        links := groups[fallbackGroup];
      }
      ok, tries := TryGroup(link, links, first, base, flag);
    }

    /** The loop over the other links of the group, after the given link has failed. */
    method TryGroup(link: Link, links: seq<Link>, ghost first: LinkTry, ghost base: Journal, ghost flag: bool)
      returns (ok: bool, ghost tries: Tries)
      requires Phase() == Down
      requires first.link == link && !first.Works()
      requires TriedAll(first.attempts, Launches(), first.Ready())
      requires world.journal == first.Logged(base)
      requires nativeTUN == (flag || Raises(Then(Nothing, first)))
      modifies `engineProc, `embeddedEngine, `nativeTUN, `activeEngine, `activeLink, world
      ensures world.journal == TriesLogged(base, tries)
      ensures PassOver(tries, Eligible(links, |links|, link), Launches())
      ensures ok == Works(tries)
      ensures tries.Then? && Phase() == Outcome(tries.last) && NotTooLow()
      ensures activeLink == if ok && tries.before.Then? then Some(tries.last.link) else old(activeLink)
      ensures nativeTUN == (flag || Raises(tries))
      ensures nativeTUN ==> old(nativeTUN) || GatewayMode()
    {
      tries, ok := Then(Nothing, first), false;
      for i := 0 to |links|
        invariant Phase() == Down && !ok && activeLink == old(activeLink)
        invariant nativeTUN == (flag || Raises(tries))
        invariant nativeTUN ==> old(nativeTUN) || GatewayMode()
        invariant FailedOver(tries, Eligible(links, i, link), Launches())
        invariant world.journal == TriesLogged(base, tries)
      {
        if links[i].data.remark != link.data.remark && Usable(links[i]) {
          ok, tries := TryNext(link, links, i, tries, base);
          if ok {
            return;
          }
        }
      }
    }

    /** One round of that loop, for a link that is not skipped. */
    method TryNext(link: Link, links: seq<Link>, i: nat, ghost tried: Tries, ghost base: Journal)
      returns (ok: bool, ghost tries: Tries)
      requires i < |links| && links[i].data.remark != link.data.remark && Usable(links[i])
      requires Phase() == Down
      requires FailedOver(tried, Eligible(links, i, link), Launches())
      requires world.journal == TriesLogged(base, tried)
      modifies `engineProc, `embeddedEngine, `nativeTUN, `activeEngine, `activeLink, world
      ensures world.journal == TriesLogged(base, tries)
      ensures ok ==> Works(tries) && PassOver(tries, Eligible(links, |links|, link), Launches()) && tries.before.Then?
      ensures !ok ==> FailedOver(tries, Eligible(links, i + 1, link), Launches()) && Phase() == Down
      ensures ok ==> Phase() == Outcome(tries.last) && NotTooLow()
      ensures activeLink == if ok then Some(tries.last.link) else old(activeLink)
      ensures tries.Then? && tries.before == tried
      ensures nativeTUN == (old(nativeTUN) || (tries.last.Ready() && LaunchOf(tries.last).gatewayMode))
      ensures nativeTUN ==> old(nativeTUN) || GatewayMode()
    {
      ghost var next;
      ok, next := StartLink(links[i]);
      NextTry(tried, next, links, link, i, Launches());
      tries := Then(tried, next);
      if ok {
        activeLink := Some(links[i]);
      }
    }

    // ----- native and legacy mode -----

    /** What every successful start must come to: one engine is alive, it is the
        recorded one, and the flag says whether it owns a TUN device. */
    ghost predicate Truthful()
      reads `engineProc, `embeddedEngine, `activeEngine, `nativeTUN, world`alive, world`peak
    {
      Phase().Up? && (nativeTUN <==> Phase().launch.gatewayMode)
    }

    /** The link in use is the one that start was given, or it was made active. */
    ghost predicate Serves(running: Link, given: Link)
      reads `activeLink
    {
      running == given || activeLink == Some(running)
    }

    /** Passes over these candidates, logged since `base`, each in its turn, with the
        flag as they left it. */
    ghost predicate MadeSince(made: Passes, link: Link, base: Journal, native: bool)
      reads `config, `nativeTUN, link`group, world`journal
    {
      && PassesOver(made, Candidates(link), LaunchesByMode(), config.gatewayEnabled)
      && world.journal == PassesLogged(base, made) && InTurn(made, native, full)
      && nativeTUN == FlagAfter(made)
    }

    /** One more pass in the mode that the configuration asks for, added to those
        made so far. */
    method AddPass(link: Link, ghost kind: Kind, ghost before: Passes, ghost base: Journal, ghost native: bool)
      returns (ok: bool, ghost made: Passes)
      requires Phase() == Down && (nativeTUN ==> GatewayMode())
      requires kind.Native? <==> config.nativeTUN
      requires PassesOver(before, Candidates(link), LaunchesByMode(), config.gatewayEnabled)
      requires world.journal == PassesLogged(base, before) && InTurn(before, native, full)
      requires NextKind(before, native, full) == Some(kind)
      requires nativeTUN == (kind.Native? && FlagAfter(before))
      modifies `engineProc, `embeddedEngine, `nativeTUN, `activeEngine, `activeLink, world
      ensures made.Then? && made.before == before && made.last.kind == kind && made.last.tun == NotAsked
      ensures MadeSince(made, link, base, native)
      ensures made.last.tries.Then? && ok == made.last.tries.last.Works()
      ensures Phase() == Outcome(made.last.tries.last) && NotTooLow()
      ensures nativeTUN ==> GatewayMode()
      ensures ok ==> Serves(made.last.tries.last.link, link)
    {
      ghost var tries;
      ok, tries := StartPass(link);
      made := Then(before, Pass(kind, tries, NotAsked));
    }

    /** restartEngineAsLegacy: stops what runs, then adds a pass with native TUN
        switched off in the configuration, which is then put back. */
    method RestartAsLegacy(link: Link, ghost before: Passes, ghost base: Journal, ghost native: bool)
      returns (ok: bool, ghost made: Passes)
      requires Phase() != Broken
      requires PassesOver(before, Candidates(link), LaunchesByMode(), config.gatewayEnabled)
      requires world.journal == PassesLogged(base, before) && InTurn(before, native, full)
      requires NextKind(before, native, full) == Some(Legacy)
      modifies `engineProc, `embeddedEngine, `nativeTUN, `activeEngine, `activeLink, `config, world
      ensures config == old(config)
      ensures made.Then? && made.before == before && made.last.kind == Legacy && made.last.tun == NotAsked
      ensures MadeSince(made, link, base, native)
      ensures made.last.tries.Then? && ok == made.last.tries.last.Works()
      ensures Phase() == Outcome(made.last.tries.last) && NotTooLow() && !nativeTUN
      ensures ok ==> Serves(made.last.tries.last.link, link)
    {
      StopEngine();
      var origNativeTUN := config.nativeTUN;
      config := config.(nativeTUN := false);
      nativeTUN := false;
      assert Candidates(link) == old(Candidates(link)) && LaunchesByMode() == old(LaunchesByMode());
      ok, made := AddPass(link, Legacy, before, base, native);
      config := config.(nativeTUN := origNativeTUN);
    }

    /** startEngineWithFallback: a native pass, a second native pass in a full
        build, then a legacy pass. After it the flag may have been raised by a link
        that failed later; it is never too low. */
    method StartEngineWithFallback(link: Link) returns (ok: bool, ghost made: Passes)
      requires Phase() == Down && !nativeTUN
      modifies `engineProc, `embeddedEngine, `nativeTUN, `activeEngine, `activeLink, `config, world
      ensures config == old(config)
      ensures made.Then? && MadeSince(made, link, old(world.journal), config.nativeTUN)
      ensures NeverAsked(made) && NextKind(made, config.nativeTUN, full) == None
      ensures made.last.tries.Then? && ok == made.last.tries.last.Works()
      ensures Phase() == Outcome(made.last.tries.last) && NotTooLow()
      ensures nativeTUN ==> ok && made.last.kind == Native
      ensures ok ==> Serves(made.last.tries.last.link, link)
    {
      if !config.nativeTUN {
        nativeTUN := false;
        ok, made := AddPass(link, Legacy, Nothing, old(world.journal), config.nativeTUN);
      } else {
        ok, made := NativePasses(link);
        if !ok {
          nativeTUN := false;
          ok, made := RestartAsLegacy(link, made, old(world.journal), config.nativeTUN);
        }
      }
    }

    /** The native attempts: a full build has no tun2socks to fall back to, so
        it tries once more before going legacy. */
    method NativePasses(link: Link) returns (ok: bool, ghost made: Passes)
      requires Phase() == Down && !nativeTUN && config.nativeTUN
      modifies `engineProc, `embeddedEngine, `nativeTUN, `activeEngine, `activeLink, world
      ensures made.Then? && MadeSince(made, link, old(world.journal), config.nativeTUN)
      ensures NeverAsked(made) && made.last.kind == Native
      ensures NextKind(made, config.nativeTUN, full) == if ok then None else Some(Legacy)
      ensures made.last.tries.Then? && ok == made.last.tries.last.Works()
      ensures Phase() == Outcome(made.last.tries.last) && NotTooLow()
      ensures nativeTUN ==> GatewayMode()
      ensures ok ==> Serves(made.last.tries.last.link, link)
    {
      ok, made := AddPass(link, Native, Nothing, old(world.journal), config.nativeTUN);
      if !ok && full {
        ok, made := AddPass(link, Native, made, old(world.journal), config.nativeTUN);
      }
    }

    // ----- start, stop, reload -----

    /** getActiveLink: the persisted link, or else the first usable link of any
        group, which then becomes the active one. The groups come in no
        particular order. */
    method GetActiveLink() returns (link: Option<Link>)
      modifies `activeLink
      ensures link == activeLink
      ensures old(activeLink).Some? ==> activeLink == old(activeLink)
      ensures old(activeLink).None? && link.Some? ==>
                && link.value.data.port >= 10 && link.value.data.address !in ["", "0.0.0.0"]
                && exists g, i ::
                     && g in groups && 0 <= i < |groups[g]| && groups[g][i] == link.value
                     && forall j :: 0 <= j < i ==>
                          groups[g][j].data.port < 10 || groups[g][j].data.address in ["", "0.0.0.0"]
      ensures link.None? ==>
                forall g, l :: g in groups && l in groups[g] ==>
                  l.data.port < 10 || l.data.address in ["", "0.0.0.0"]
    {
      if activeLink.Some? {
        return activeLink;
      }
      var names := groups.Keys;
      while names != {}
        invariant names <= groups.Keys && activeLink.None?
        invariant forall g, l :: g in groups && g !in names && l in groups[g] ==> !Usable(l)
        decreases names
      {
        var name :| name in names;
        var links := groups[name];
        for i := 0 to |links|
          invariant activeLink.None?
          invariant forall j :: 0 <= j < i ==> !Usable(links[j])
        {
          if Usable(links[i]) {
            assert groups[name][i] == links[i];
            activeLink := Some(links[i]);
            return activeLink;
          }
        }
        names := names - {name};
      }
      forall g, l | g in groups && l in groups[g]
        ensures l.data.port < 10 || l.data.address in ["", "0.0.0.0"]
      {
        assert !Usable(l);
      }
      return None;
    }

    /** The state in which New and every failed Start leave the gateway. */
    ghost predicate ReadyToStart()
      reads `engineProc, `embeddedEngine, `activeEngine, `nativeTUN, world`alive, world`peak
    {
      Phase() == Down && !nativeTUN
    }

    /** Start. Whatever fails on the way, it ends with one engine alive and a
        truthful flag, or ready to be called again; the configuration is as it
        was. The passes made are all that it asked of the world, besides the
        network. It starts from the active link, or else from a usable link of some
        group; with neither, nothing is tried. */
    method Start() returns (ok: bool, ghost network: bool, ghost given: Option<Link>, ghost made: Passes)
      requires ReadyToStart()
      modifies `engineProc, `embeddedEngine, `nativeTUN, `activeEngine, `activeLink, `config, world
      ensures config == old(config)
      ensures if ok then Truthful() else ReadyToStart()
      ensures world.peak <= 1
      ensures ok ==>
                && (embeddedEngine.Some? <==> engineProc.None?)
                && var p := if embeddedEngine.Some? then embeddedEngine.value else engineProc.value;
                   world.alive == {p} && p.engine == activeEngine && (nativeTUN <==> p.gatewayMode)
      ensures !ok ==> world.alive == {} && embeddedEngine.None? && engineProc.None? && !nativeTUN
      ensures world.journal == PassesLogged(Then(old(world.journal), Event(NetworkFound, network)), made)
      ensures given.Some? ==>
                network && (given == old(activeLink) || (old(activeLink).None? && InSomeGroup(given.value)))
      ensures given.None? && network ==> old(activeLink).None? && NoneUsable()
      ensures given.Some? ==>
                StartsIn(world.journal)
                  <= StartsIn(old(world.journal)) + Budget(|Candidates(given.value)|, |Launches()|)
      ensures if given.Some? then StartReport(ok, given.value, made) else !ok && made == Nothing
    {
      given, made := None, Nothing;
      var networkFound := world.Ask(NetworkFound);
      network := networkFound;
      if !networkFound {
        return false, network, given, made;
      }
      var link := GetActiveLink();
      if link.None? {
        return false, network, given, made;
      }
      given := link;
      ok, made := StartOn(link.value);
    }

    ghost predicate InSomeGroup(link: Link) {
      link.data.port >= 10 && link.data.address !in ["", "0.0.0.0"] && exists g :: g in groups && link in groups[g]
    }

    ghost predicate NoneUsable() {
      forall g, l :: g in groups && l in groups[g] ==> l.data.port < 10 || l.data.address in ["", "0.0.0.0"]
    }

    /** What one start has done: complete passes over the given link and its fallbacks,
        each in its turn, the world asked for tun0 where it has to be, and nothing left
        to do; when it succeeded, the last link tried is the one in use. */
    ghost predicate StartReport(ok: bool, given: Link, made: Passes)
      reads `engineProc, `embeddedEngine, `activeEngine, `activeLink, `config, given`group, world`alive, world`peak
    {
      && made.Then? && PassesOver(made, Candidates(given), LaunchesByMode(), config.gatewayEnabled)
      && InTurn(made, config.nativeTUN, full) && NextKind(made, config.nativeTUN, full) == None && TunAsked(made)
      && made.last.tries.Then? && ok == made.last.tries.last.Works()
      && (ok ==> Phase() == Up(LaunchOf(made.last.tries.last)) && Serves(made.last.tries.last.link, given))
    }

    method StartOn(link: Link) returns (ok: bool, ghost made: Passes)
      requires ReadyToStart()
      modifies `engineProc, `embeddedEngine, `nativeTUN, `activeEngine, `activeLink, `config, world
      ensures config == old(config)
      ensures if ok then Truthful() else ReadyToStart()
      ensures world.journal == PassesLogged(old(world.journal), made)
      ensures StartReport(ok, link, made)
      ensures StartsIn(world.journal) <= StartsIn(old(world.journal)) + Budget(|Candidates(link)|, |Launches()|)
    {
      ok, made := StartEngineWithFallback(link);
      FailedUnasked(made, config.nativeTUN, full);
      if ok && nativeTUN {
        ok, made := ConfirmTun(link, made, old(world.journal));
      }
      AtMostThree(made, config.nativeTUN, full);
      LaunchBudget(old(world.journal), made, Candidates(link), LaunchesByMode(), config.gatewayEnabled);
    }

    /** The wait for tun0 after a native start. A flag left raised by a link
        that failed is found out here, since then there is no device. */
    method ConfirmTun(link: Link, ghost before: Passes, ghost base: Journal)
      returns (ok: bool, ghost made: Passes)
      requires Phase().Up? && nativeTUN
      requires before.Then? && MadeSince(before, link, base, config.nativeTUN) && TunAsked(before.before)
      requires before.last.kind == Native && before.last.tun == NotAsked
      requires before.last.tries.Then? && before.last.tries.last.Works()
      requires Phase() == Outcome(before.last.tries.last) && Serves(before.last.tries.last.link, link)
      modifies `engineProc, `embeddedEngine, `nativeTUN, `activeEngine, `activeLink, `config, world
      ensures config == old(config)
      ensures StartReport(ok, link, made) && world.journal == PassesLogged(base, made)
      ensures var asked := if made.last.kind == Native then made else made.before;
              asked.Then? && asked.before == before.before && asked.last == before.last.(tun := asked.last.tun)
      ensures if ok then Truthful() else ReadyToStart()
    {
      var up := world.TunAppears();
      made := Then(before.before, before.last.(tun := Answered(up)));
      if up {
        return true, made;
      }
      ok, made := RestartAsLegacy(link, made, base, config.nativeTUN);
    }

    /** Stop: whichever handle is set is stopped. The process handle is left
        pointing at the dead process. */
    method Stop()
      requires Phase() != Broken
      modifies `embeddedEngine, world`alive
      ensures world.alive == {} && world.peak == old(world.peak)
      ensures embeddedEngine.None?
    {
      if embeddedEngine.Some? {
        world.Kill(embeddedEngine.value);
        embeddedEngine := None;
      } else if engineProc.Some? {
        world.Kill(engineProc.value);
      }
    }

    /** Reload: the new configuration replaces the old one. No engine is started or
        stopped for it and the flag stays, so whatever was true of them still is;
        the new settings count from the next start on. Settings that changed are
        reported, lists being compared by their pieces between commas. */
    method Reload(newConfig: Config) returns (needRestart: seq<string>)
      modifies `config
      ensures config == newConfig
      ensures var was := old(config);
              forall setting :: setting in needRestart <==>
                || (setting == "server.socks_port" && newConfig.socksPort != was.socksPort)
                || (setting == "server.api_port" && newConfig.apiPort != was.apiPort)
                || (setting == "gateway.native_tun" && newConfig.nativeTUN != was.nativeTUN)
                || (setting == "gateway.dns_upstream" && R.Pieces(newConfig.dnsUpstream) != R.Pieces(was.dnsUpstream))
                || (setting == "gateway.local_dns" && !R.SameLocalDns(was.localDns, newConfig.localDns))
                || (setting == "engines.preferred" && newConfig.preferredEngine != was.preferredEngine)
      ensures Phase() == old(Phase())
      ensures Truthful() == old(Truthful()) && ReadyToStart() == old(ReadyToStart())
      ensures world.journal == old(world.journal) && world.alive == old(world.alive)
    {
      needRestart := [];
      if newConfig.socksPort != config.socksPort {
        needRestart := needRestart + ["server.socks_port"];
      }
      if newConfig.apiPort != config.apiPort {
        needRestart := needRestart + ["server.api_port"];
      }
      if newConfig.nativeTUN != config.nativeTUN {
        needRestart := needRestart + ["gateway.native_tun"];
      }
      R.JoinedEqualIff(newConfig.dnsUpstream, config.dnsUpstream);
      if Join(newConfig.dnsUpstream, ',') != Join(config.dnsUpstream, ',') {
        needRestart := needRestart + ["gateway.dns_upstream"];
      }
      var localChanged := R.LocalDnsChanged(config.localDns, newConfig.localDns);
      if localChanged {
        needRestart := needRestart + ["gateway.local_dns"];
      }
      if newConfig.preferredEngine != config.preferredEngine {
        needRestart := needRestart + ["engines.preferred"];
      }
      config := newConfig;
    }
  }

  /** A whole run of the program: start, retried while it fails and with the
      configuration possibly reloaded before a retry, then stop. However long
      the run, two engines are never alive together and none survives it. */
  method Session(world: World, cfg: Config, embeddedEngines: set<string>, full: bool,
                 groups: map<string, seq<Link>>, activeLink: Option<Link>, reloads: seq<Option<Config>>)
    returns (served: bool)
    requires world.alive == {} && world.peak == 0
    modifies world
    ensures world.alive == {} && world.peak <= 1
  {
    var gw := new Gateway(cfg, world, embeddedEngines, full, groups, activeLink);
    served := false;
    for i := 0 to |reloads|
      invariant fresh(gw) && gw.world == world
      invariant if served then gw.Truthful() else gw.ReadyToStart()
    {
      if reloads[i].Some? {
        var _ := gw.Reload(reloads[i].value);
      }
      if !served {
        ghost var network, given, made;
        served, network, given, made := gw.Start();
      }
    }
    if served {
      gw.Stop();
    }
  }
}
