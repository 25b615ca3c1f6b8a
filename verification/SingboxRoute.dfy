/** The sing-box route section compiled from routing rules
    (internal/tunnel/configgen.go, singboxRouteFromRules and its helpers), and
    what sing-box does with it: the first rule that matches decides, after the
    sniff and resolve actions have added what they can to the flow. */
module SingboxRoute {
  import opened Text
  import opened Routing

  // ----- the section -----

  datatype Condition =
    | IpIsPrivate
    | DomainSuffixIn(suffixes: seq<string>)
    | DomainIn(names: seq<string>)
    | IpCidrIn(cidrs: seq<string>)
    | RuleSetIn(tags: seq<string>)

  datatype SbRule = Sniff | Resolve(server: string) | Route(cond: Condition, outbound: string)

  /** A rule set kept in a local file. */
  datatype RuleSet = RuleSet(tag: string, path: string)

  datatype SbRoute = SbRoute(
    rules: seq<SbRule>,
    final: string,
    ruleSets: seq<RuleSet>,
    defaultDomainResolver: string,
    autoDetectInterface: bool)

  // ----- what sing-box does with it -----

  function Sniffed(net: Net, f: Flow): Flow {
    if f.domain.Some? then f else f.(domain := net.sniff(f))
  }

  function Resolved(net: Net, server: string, f: Flow): Flow {
    if f.ip.None? && f.domain.Some? then f.(ip := net.resolve(server, f.domain.value)) else f
  }

  /** The path of the first definition of a tag. */
  function PathOf(sets: seq<RuleSet>, tag: string): Option<string> {
    if sets == [] then None
    else if sets[0].tag == tag then Some(sets[0].path)
    else PathOf(sets[1..], tag)
  }

  ghost predicate InRuleSet(net: Net, sets: seq<RuleSet>, tag: string, f: Flow) {
    PathOf(sets, tag).Some? && net.srs(PathOf(sets, tag).value, f)
  }

  ghost predicate Holds(net: Net, sets: seq<RuleSet>, c: Condition, f: Flow) {
    match c
    case IpIsPrivate => f.ip.Some? && net.isPrivate(f.ip.value)
    case DomainSuffixIn(suffixes) =>
      f.domain.Some? && exists i :: 0 <= i < |suffixes| && net.underSuffix(suffixes[i], f.domain.value)
    case DomainIn(names) => f.domain.Some? && f.domain.value in names
    case IpCidrIn(cidrs) => f.ip.Some? && exists i :: 0 <= i < |cidrs| && net.inCidr(cidrs[i], f.ip.value)
    case RuleSetIn(tags) => exists i :: 0 <= i < |tags| && InRuleSet(net, sets, tags[i], f)
  }

  /** The outbound chosen for a flow: actions change the flow and go on, the
      first route rule that holds decides, and `final` is what is left. */
  ghost function Decide(net: Net, route: SbRoute, rules: seq<SbRule>, f: Flow): string {
    if rules == [] then route.final
    else
      match rules[0]
      case Sniff => Decide(net, route, rules[1..], Sniffed(net, f))
      case Resolve(server) => Decide(net, route, rules[1..], Resolved(net, server, f))
      case Route(cond, outbound) =>
        if Holds(net, route.ruleSets, cond, f) then outbound
        else Decide(net, route, rules[1..], f)
  }

  // ----- compiling one matcher -----

  /** A rule set whose file is looked for under the name of its tag. */
  function RuleSetIfPresent(tag: string, geoFiles: set<string>): Option<RuleSet> {
    if SrsFile(tag) in geoFiles then Some(RuleSet(tag, SrsFile(tag))) else None
  }

  /** ruleSetForMatcher: the definition that a geo matcher needs, if its file exists. */
  function RuleSetForMatcher(m: Matcher, geoFiles: set<string>): Option<RuleSet> {
    match m
    case GeoIP(country) => RuleSetIfPresent(GeoipTag(country), geoFiles)
    case Geosite(tag) => RuleSetIfPresent(GeositeTag(tag), geoFiles)
    case _ => None
  }

  /** singboxRuleFromMatcher. */
  function RuleFromMatcher(m: Matcher, outbound: string, geoFiles: set<string>): Option<SbRule> {
    match m
    case GeoIP(country) =>
      if RuleSetForMatcher(m, geoFiles).None? then None
      else Some(Route(RuleSetIn([GeoipTag(country)]), outbound))
    case Geosite(tag) =>
      if RuleSetForMatcher(m, geoFiles).None? then None
      else Some(Route(RuleSetIn([GeositeTag(tag)]), outbound))
    case Domain(name) => Some(Route(DomainIn([name]), outbound))
    case DomainSuffix(suffix) => Some(Route(DomainSuffixIn([suffix]), outbound))
    case IPCidr(cidr) => Some(Route(IpCidrIn([cidr]), outbound))
    case _ => None
  }

  // ----- what the loops build from the first n entries -----

  function LocalRule(local: LocalDNSRule): seq<SbRule> {
    if local.domains == [] then [] else [Route(DomainSuffixIn(local.domains), DIRECT)]
  }

  function LocalRules(locals: seq<LocalDNSRule>, n: nat): seq<SbRule>
    requires n <= |locals|
  {
    if n == 0 then [] else LocalRules(locals, n - 1) + LocalRule(locals[n - 1])
  }

  function CompiledRule(r: RoutingRule, geoFiles: set<string>): seq<SbRule> {
    match RuleFromMatcher(r.matcher, r.outbound, geoFiles)
    case None => []
    case Some(rule) => [rule]
  }

  function CompiledRules(rules: seq<RoutingRule>, n: nat, geoFiles: set<string>): seq<SbRule>
    requires n <= |rules|
  {
    if n == 0 then [] else CompiledRules(rules, n - 1, geoFiles) + CompiledRule(rules[n - 1], geoFiles)
  }

  predicate Defines(sets: seq<RuleSet>, tag: string) {
    exists i :: 0 <= i < |sets| && sets[i].tag == tag
  }

  /** The definitions so far, with the one that another rule needs. */
  function SetsAfter(before: seq<RuleSet>, r: RoutingRule, geoFiles: set<string>): seq<RuleSet> {
    if CompiledRule(r, geoFiles) == [] then before
    else
      match RuleSetForMatcher(r.matcher, geoFiles)
      case None => before
      case Some(rs) => if Defines(before, rs.tag) then before else before + [rs]
  }

  /** The definitions, one for each tag, in the order of first use. */
  function CompiledSets(rules: seq<RoutingRule>, n: nat, geoFiles: set<string>): seq<RuleSet>
    requires n <= |rules|
  {
    if n == 0 then [] else SetsAfter(CompiledSets(rules, n - 1, geoFiles), rules[n - 1], geoFiles)
  }

  const PREAMBLE: seq<SbRule> := [Sniff, Resolve("dns-tunnel"), Route(IpIsPrivate, DIRECT)]

  function RouteFromRules(rules: seq<RoutingRule>, locals: seq<LocalDNSRule>, geoFiles: set<string>,
                          gatewayMode: bool): SbRoute {
    SbRoute(PREAMBLE + LocalRules(locals, |locals|) + CompiledRules(rules, |rules|, geoFiles),
            FinalOutbound(rules, |rules|), CompiledSets(rules, |rules|, geoFiles), "dns-direct", gatewayMode)
  }

  // ----- the definitions -----

  predicate WellDefined(sets: seq<RuleSet>, geoFiles: set<string>) {
    && (forall i :: 0 <= i < |sets| ==> sets[i].path == SrsFile(sets[i].tag) && sets[i].path in geoFiles)
    && (forall i, j :: 0 <= i < j < |sets| ==> sets[i].tag != sets[j].tag)
  }

  /** The tag that a rule uses, if any, has a definition. */
  predicate Covers(sets: seq<RuleSet>, r: RoutingRule, geoFiles: set<string>) {
    CompiledRule(r, geoFiles) != [] && RuleSetForMatcher(r.matcher, geoFiles).Some? ==>
      Defines(sets, RuleSetForMatcher(r.matcher, geoFiles).value.tag)
  }

  lemma OneMoreSet(before: seq<RuleSet>, r: RoutingRule, geoFiles: set<string>)
    requires WellDefined(before, geoFiles)
    ensures WellDefined(SetsAfter(before, r, geoFiles), geoFiles)
    ensures forall tag :: Defines(before, tag) ==> Defines(SetsAfter(before, r, geoFiles), tag)
    ensures Covers(SetsAfter(before, r, geoFiles), r, geoFiles)
  {
    var after := SetsAfter(before, r, geoFiles);
    assert before <= after;
    forall tag | Defines(before, tag) ensures Defines(after, tag) {
      var i :| 0 <= i < |before| && before[i].tag == tag;
      assert after[i].tag == tag;
    }
    var rs := RuleSetForMatcher(r.matcher, geoFiles);
    if CompiledRule(r, geoFiles) != [] && rs.Some? && !Defines(before, rs.value.tag) {
      assert after[|before|].tag == rs.value.tag;
    }
  }

  lemma {:induction false} SetsCover(rules: seq<RoutingRule>, n: nat, geoFiles: set<string>)
    requires n <= |rules|
    ensures WellDefined(CompiledSets(rules, n, geoFiles), geoFiles)
    ensures forall i :: 0 <= i < n ==> Covers(CompiledSets(rules, n, geoFiles), rules[i], geoFiles)
  {
    if n > 0 {
      SetsCover(rules, n - 1, geoFiles);
      OneMoreSet(CompiledSets(rules, n - 1, geoFiles), rules[n - 1], geoFiles);
    }
  }

  lemma {:induction false} PathOfDefined(sets: seq<RuleSet>, tag: string)
    requires forall i :: 0 <= i < |sets| ==> sets[i].path == SrsFile(sets[i].tag)
    requires Defines(sets, tag)
    ensures PathOf(sets, tag) == Some(SrsFile(tag))
  {
    if sets[0].tag != tag {
      var i :| 0 <= i < |sets| && sets[i].tag == tag;
      assert sets[1..][i - 1].tag == tag;
      PathOfDefined(sets[1..], tag);
    }
  }

  /** Every rule set tag used by a compiled route rule is defined exactly once,
      and the definition names a file that exists. */
  lemma TagsDefinedOnce(rules: seq<RoutingRule>, geoFiles: set<string>, n: nat, tag: string)
    requires n < |rules|
    requires CompiledRule(rules[n], geoFiles) == [Route(RuleSetIn([tag]), rules[n].outbound)]
    ensures var sets := CompiledSets(rules, |rules|, geoFiles);
            && PathOf(sets, tag) == Some(SrsFile(tag)) && SrsFile(tag) in geoFiles
            && forall i, j :: 0 <= i < |sets| && 0 <= j < |sets| && sets[i].tag == sets[j].tag == tag ==> i == j
  {
    var sets := CompiledSets(rules, |rules|, geoFiles);
    SetsCover(rules, |rules|, geoFiles);
    assert Covers(sets, rules[n], geoFiles);
    assert [tag][0] == tag;
    PathOfDefined(sets, tag);
  }

  // ----- one compiled rule -----

  /** A condition on one value asks about that value. */
  lemma OneValue(net: Net, sets: seq<RuleSet>, x: string, f: Flow)
    ensures Holds(net, sets, DomainIn([x]), f) <==> f.domain == Some(x)
    ensures Holds(net, sets, DomainSuffixIn([x]), f) <==> f.domain.Some? && net.underSuffix(x, f.domain.value)
    ensures Holds(net, sets, IpCidrIn([x]), f) <==> f.ip.Some? && net.inCidr(x, f.ip.value)
    ensures Holds(net, sets, RuleSetIn([x]), f) <==> InRuleSet(net, sets, x, f)
  {
    assert [x][0] == x;
  }

  lemma MatcherHits(net: Net, sets: seq<RuleSet>, m: Matcher, outbound: string, geoFiles: set<string>, f: Flow)
    requires forall i :: 0 <= i < |sets| ==> sets[i].path == SrsFile(sets[i].tag)
    requires RuleSetForMatcher(m, geoFiles).Some? ==> Defines(sets, RuleSetForMatcher(m, geoFiles).value.tag)
    ensures RuleFromMatcher(m, outbound, geoFiles).Some? ==>
              && RuleFromMatcher(m, outbound, geoFiles).value.Route?
              && RuleFromMatcher(m, outbound, geoFiles).value.outbound == outbound
              && Holds(net, sets, RuleFromMatcher(m, outbound, geoFiles).value.cond, f)
              == Matches(SingBox(net, geoFiles), m, f)
  {
    match m
    case GeoIP(country) =>
      OneValue(net, sets, GeoipTag(country), f);
      if SrsFile(GeoipTag(country)) in geoFiles {
        PathOfDefined(sets, GeoipTag(country));
      }
    case Geosite(tag) =>
      OneValue(net, sets, GeositeTag(tag), f);
      if SrsFile(GeositeTag(tag)) in geoFiles {
        PathOfDefined(sets, GeositeTag(tag));
      }
    case Domain(name) => OneValue(net, sets, name, f);
    case DomainSuffix(suffix) => OneValue(net, sets, suffix, f);
    case IPCidr(cidr) => OneValue(net, sets, cidr, f);
    case _ =>
  }

  lemma DecideRoute(net: Net, route: SbRoute, cond: Condition, outbound: string, rest: seq<SbRule>, f: Flow)
    ensures Decide(net, route, [Route(cond, outbound)] + rest, f)
         == if Holds(net, route.ruleSets, cond, f) then outbound else Decide(net, route, rest, f)
  {
  }

  /** One compiled rule, followed by whatever comes next. */
  lemma DecideOne(net: Net, route: SbRoute, rules: seq<RoutingRule>, i: nat,
                  geoFiles: set<string>, rest: seq<SbRule>, f: Flow)
    requires i < |rules| && route.ruleSets == CompiledSets(rules, |rules|, geoFiles)
    ensures Decide(net, route, CompiledRule(rules[i], geoFiles) + rest, f)
         == if Hits(SingBox(net, geoFiles), rules[i], f) then rules[i].outbound else Decide(net, route, rest, f)
  {
    var r := rules[i];
    var c := CompiledRule(r, geoFiles);
    if c == [] {
      assert c + rest == rest;
    } else {
      SetsCover(rules, |rules|, geoFiles);
      assert Covers(route.ruleSets, rules[i], geoFiles);
      MatcherHits(net, route.ruleSets, r.matcher, r.outbound, geoFiles, f);
      DecideRoute(net, route, c[0].cond, r.outbound, rest, f);
    }
  }

  // ----- the compiled section means what the rules mean -----

  /** Past the first n compiled rules, evaluation goes on with what follows them
      exactly when none of the n rules hits. */
  lemma {:induction false} DecideRules(net: Net, route: SbRoute, rules: seq<RoutingRule>, n: nat,
                                       geoFiles: set<string>, rest: seq<SbRule>, f: Flow)
    requires n <= |rules| && route.ruleSets == CompiledSets(rules, |rules|, geoFiles)
    ensures Decide(net, route, CompiledRules(rules, n, geoFiles) + rest, f)
         == FirstPick(SingBox(net, geoFiles), rules, n, f, Decide(net, route, rest, f))
  {
    if n == 0 {
      assert CompiledRules(rules, 0, geoFiles) + rest == rest;
    } else {
      var c := CompiledRule(rules[n - 1], geoFiles);
      Assoc(CompiledRules(rules, n - 1, geoFiles), c, rest);
      DecideRules(net, route, rules, n - 1, geoFiles, c + rest, f);
      DecideOne(net, route, rules, n - 1, geoFiles, rest, f);
    }
  }

  ghost predicate AnyLocalHit(e: Engine, locals: seq<LocalDNSRule>, n: nat, f: Flow)
    requires n <= |locals|
  {
    exists i :: 0 <= i < n && LocalHit(e, locals[i], f)
  }

  /** One local rule, followed by whatever comes next. */
  lemma DecideLocal(net: Net, route: SbRoute, local: LocalDNSRule, geoFiles: set<string>, rest: seq<SbRule>, f: Flow)
    ensures Decide(net, route, LocalRule(local) + rest, f)
         == if LocalHit(SingBox(net, geoFiles), local, f) then DIRECT else Decide(net, route, rest, f)
  {
    if local.domains == [] {
      assert LocalRule(local) + rest == rest;
    } else {
      DecideRoute(net, route, DomainSuffixIn(local.domains), DIRECT, rest, f);
    }
  }

  lemma AnyLocalHitStep(e: Engine, locals: seq<LocalDNSRule>, n: nat, f: Flow)
    requires 0 < n <= |locals|
    ensures AnyLocalHit(e, locals, n, f) <==> AnyLocalHit(e, locals, n - 1, f) || LocalHit(e, locals[n - 1], f)
  {
  }

  lemma {:induction false} DecideLocals(net: Net, route: SbRoute, locals: seq<LocalDNSRule>, n: nat,
                                        geoFiles: set<string>, rest: seq<SbRule>, f: Flow)
    requires n <= |locals|
    ensures Decide(net, route, LocalRules(locals, n) + rest, f)
         == if AnyLocalHit(SingBox(net, geoFiles), locals, n, f) then DIRECT else Decide(net, route, rest, f)
  {
    if n == 0 {
      assert LocalRules(locals, 0) + rest == rest;
    } else {
      var c := LocalRule(locals[n - 1]);
      Assoc(LocalRules(locals, n - 1), c, rest);
      DecideLocals(net, route, locals, n - 1, geoFiles, c + rest, f);
      DecideLocal(net, route, locals[n - 1], geoFiles, rest, f);
      AnyLocalHitStep(SingBox(net, geoFiles), locals, n, f);
    }
  }

  /** The flow as it is when the first route rule sees it. */
  function Prepared(net: Net, f: Flow): Flow {
    Resolved(net, "dns-tunnel", Sniffed(net, f))
  }

  lemma DecidePreamble(net: Net, route: SbRoute, rest: seq<SbRule>, f: Flow)
    ensures Decide(net, route, PREAMBLE + rest, f)
         == if Holds(net, route.ruleSets, IpIsPrivate, Prepared(net, f)) then DIRECT
            else Decide(net, route, rest, Prepared(net, f))
  {
    var r1 := [Resolve("dns-tunnel")] + ([Route(IpIsPrivate, DIRECT)] + rest);
    assert PREAMBLE + rest == [Sniff] + r1;
    assert ([Sniff] + r1)[1..] == r1;
    assert r1[1..] == [Route(IpIsPrivate, DIRECT)] + rest;
    assert Decide(net, route, r1, Sniffed(net, f))
        == Decide(net, route, [Route(IpIsPrivate, DIRECT)] + rest, Prepared(net, f));
    DecideRoute(net, route, IpIsPrivate, DIRECT, rest, Prepared(net, f));
  }

  /** For every rule list and every flow, the compiled section picks the outbound
      that the rules mean for the flow once sniffed and resolved. */
  lemma RouteMeansRules(net: Net, rules: seq<RoutingRule>, locals: seq<LocalDNSRule>, geoFiles: set<string>,
                        gatewayMode: bool, f: Flow)
    ensures var route := RouteFromRules(rules, locals, geoFiles, gatewayMode);
            Means(SingBox(net, geoFiles), locals, rules, Resolved(net, "dns-tunnel", Sniffed(net, f)),
                  Decide(net, route, route.rules, f))
  {
    var e, p := SingBox(net, geoFiles), Prepared(net, f);
    var route := RouteFromRules(rules, locals, geoFiles, gatewayMode);
    var compiled := CompiledRules(rules, |rules|, geoFiles);
    assert route.rules == PREAMBLE + (LocalRules(locals, |locals|) + compiled);
    assert compiled == compiled + [];
    DecidePreamble(net, route, LocalRules(locals, |locals|) + compiled, f);
    DecideLocals(net, route, locals, |locals|, geoFiles, compiled, p);
    DecideRules(net, route, rules, |rules|, geoFiles, [], p);
    if !Private(e, p) && !AnyLocalHit(e, locals, |locals|, p) {
      PickMeans(e, locals, rules, p);
    }
  }

  // ----- where the defaults stand makes no difference -----

  function NonDefaults(rules: seq<RoutingRule>, n: nat): seq<RoutingRule>
    requires n <= |rules|
  {
    if n == 0 then []
    else NonDefaults(rules, n - 1) + if rules[n - 1].matcher.Default? then [] else [rules[n - 1]]
  }

  lemma {:induction false} CompileDependsOnPrefix(a: seq<RoutingRule>, b: seq<RoutingRule>, n: nat,
                                                  geoFiles: set<string>)
    requires n <= |a| && n <= |b| && a[..n] == b[..n]
    ensures CompiledRules(a, n, geoFiles) == CompiledRules(b, n, geoFiles)
    ensures CompiledSets(a, n, geoFiles) == CompiledSets(b, n, geoFiles)
  {
    if n > 0 {
      assert a[n - 1] == a[..n][n - 1] == b[n - 1];
      assert a[..n - 1] == a[..n][..n - 1] == b[..n - 1];
      CompileDependsOnPrefix(a, b, n - 1, geoFiles);
    }
  }

  /** Adding one rule to those compiled so far. */
  lemma OneMoreRule(before: seq<RoutingRule>, r: RoutingRule, geoFiles: set<string>)
    ensures var after := before + [r];
            && CompiledRules(after, |after|, geoFiles)
               == CompiledRules(before, |before|, geoFiles) + CompiledRule(r, geoFiles)
            && CompiledSets(after, |after|, geoFiles)
               == SetsAfter(CompiledSets(before, |before|, geoFiles), r, geoFiles)
  {
    var after := before + [r];
    assert after[..|before|] == before == before[..|before|];
    CompileDependsOnPrefix(after, before, |before|, geoFiles);
  }

  lemma {:induction false} NonDefaultsCompileTheSame(rules: seq<RoutingRule>, n: nat, geoFiles: set<string>)
    requires n <= |rules|
    ensures var others := NonDefaults(rules, n);
            && CompiledRules(others, |others|, geoFiles) == CompiledRules(rules, n, geoFiles)
            && CompiledSets(others, |others|, geoFiles) == CompiledSets(rules, n, geoFiles)
  {
    if n > 0 {
      var before := NonDefaults(rules, n - 1);
      NonDefaultsCompileTheSame(rules, n - 1, geoFiles);
      if rules[n - 1].matcher.Default? {
        assert NonDefaults(rules, n) == before;
        assert CompiledRule(rules[n - 1], geoFiles) == [];
      } else {
        OneMoreRule(before, rules[n - 1], geoFiles);
      }
    }
  }

  lemma AppendedDefault(others: seq<RoutingRule>, final: string, geoFiles: set<string>)
    ensures var moved := others + [RoutingRule(Default, final)];
            && CompiledRules(moved, |moved|, geoFiles) == CompiledRules(others, |others|, geoFiles)
            && CompiledSets(moved, |moved|, geoFiles) == CompiledSets(others, |others|, geoFiles)
            && FinalOutbound(moved, |moved|) == final
  {
    OneMoreRule(others, RoutingRule(Default, final), geoFiles);
    assert CompiledRule(RoutingRule(Default, final), geoFiles) == [];
  }

  /** The rules with every `default` taken out and one put at the end. */
  function DefaultLast(rules: seq<RoutingRule>): seq<RoutingRule> {
    NonDefaults(rules, |rules|) + [RoutingRule(Default, FinalOutbound(rules, |rules|))]
  }

  /** A `default` in the middle of the list or given several times shadows
      nothing: the section compiled is the same as with one `default` at the end. */
  lemma DefaultsShadowNothing(rules: seq<RoutingRule>, locals: seq<LocalDNSRule>, geoFiles: set<string>,
                              gatewayMode: bool)
    ensures RouteFromRules(rules, locals, geoFiles, gatewayMode)
         == RouteFromRules(DefaultLast(rules), locals, geoFiles, gatewayMode)
  {
    NonDefaultsCompileTheSame(rules, |rules|, geoFiles);
    AppendedDefault(NonDefaults(rules, |rules|), FinalOutbound(rules, |rules|), geoFiles);
  }
}
