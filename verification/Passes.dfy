/** What a start goes through, as records: links with the attempts to start an engine
    for them, passes over links, and which passes follow which
    (internal/gateway/gateway.go, startEngineWithFallback and what it calls). The
    journal of the world after such a record is a function of the record. */
module Passes {
  import opened Text
  import opened Links
  import opened Engines

  /** Down: no engine is alive and none is recorded. Up: exactly one engine is
      alive, the one recorded and named, as it was launched. Anything else, now or at
      an earlier moment of the run, is Broken. */
  datatype State = Down | Up(launch: Launch) | Broken

  /** The connectivity checks of a ready engine: up to three, until one passes. */
  datatype Check = NotChecked | Passed(failures: UpToTwo) | Failed

  type UpToTwo = n: nat | n <= 2

  function NoesLogged(j: Journal, n: nat): Journal {
    if n == 0 then j else Then(NoesLogged(j, n - 1), Event(Connects, false))
  }

  function CheckLogged(j: Journal, c: Check): Journal {
    match c
    case NotChecked => j
    case Passed(failures) => Then(NoesLogged(j, failures), Event(Connects, true))
    case Failed => NoesLogged(j, 3)
  }

  /** Spelled out: no answer, or up to two times no and then yes, or three times no. */
  lemma CheckMeans(j: Journal, c: Check)
    ensures var no, yes := Event(Connects, false), Event(Connects, true);
            && (c.NotChecked? ==> CheckLogged(j, c) == j)
            && (c == Passed(0) ==> CheckLogged(j, c) == Then(j, yes))
            && (c == Passed(1) ==> CheckLogged(j, c) == Then(Then(j, no), yes))
            && (c == Passed(2) ==> CheckLogged(j, c) == Then(Then(Then(j, no), no), yes))
            && (c.Failed? ==> CheckLogged(j, c) == Then(Then(Then(j, no), no), no))
  {
    assert NoesLogged(j, 1) == Then(j, Event(Connects, false));
    assert NoesLogged(j, 2) == Then(NoesLogged(j, 1), Event(Connects, false));
  }

  /** What trying one link came to: the launches it took, and how the checks went
      if one of them became ready. */
  datatype LinkTry = LinkTry(link: Link, attempts: seq<Attempt>, check: Check) {
    predicate Ready() {
      !check.NotChecked?
    }

    predicate Works() {
      check.Passed?
    }

    /** The journal after the link was tried. */
    function Logged(j: Journal): Journal {
      CheckLogged(AttemptsLogged(j, attempts, |attempts|, link), check)
    }
  }

  type Tries = Record<LinkTry>

  /** A native attempt or one in legacy mode. */
  datatype Kind = Native | Legacy

  /** Whether the world was asked for tun0 after a pass, and its answer. */
  datatype TunCheck = NotAsked | Answered(there: bool)

  datatype Pass = Pass(kind: Kind, tries: Tries, tun: TunCheck)

  type Passes = Record<Pass>

  /** The journal after some links were tried, and after some passes. */
  function TriesLogged(j: Journal, tries: Tries): Journal {
    match tries
    case Nothing => j
    case Then(before, last) => last.Logged(TriesLogged(j, before))
  }

  function PassesLogged(j: Journal, passes: Passes): Journal {
    match passes
    case Nothing => j
    case Then(before, last) => PassLogged(PassesLogged(j, before), last)
  }

  function PassLogged(j: Journal, pass: Pass): Journal {
    var after := TriesLogged(j, pass.tries);
    match pass.tun
    case NotAsked => after
    case Answered(there) => Then(after, Event(TunDevice, there))
  }

  /** The launch that a link which works owes its engine to. */
  ghost function LaunchOf(attempt: LinkTry): Launch {
    if attempt.attempts == [] then Launch("", false, false)
    else attempt.attempts[|attempt.attempts| - 1].launch
  }

  /** The state that trying a link leaves behind. */
  ghost function Outcome(t: LinkTry): State {
    if t.Works() then Up(LaunchOf(t)) else Down
  }

  /** One of the links had an engine in gateway mode become ready, whether or not the
      link worked then. */
  ghost predicate Raises(tries: Tries) {
    match tries
    case Nothing => false
    case Then(before, last) => Raises(before) || (last.Ready() && LaunchOf(last).gatewayMode)
  }

  ghost predicate Works(tries: Tries) {
    tries.Then? && tries.last.Works()
  }

  /** The first of the candidates were tried in order, for each the launches went in
      order up to the first ready engine, and all links but the last failed. */
  ghost predicate Tried(tries: Tries, candidates: seq<Link>, launches: seq<Launch>) {
    match tries
    case Nothing => true
    case Then(before, last) =>
      && before.Size() < |candidates| && last.link == candidates[before.Size()]
      && TriedAll(last.attempts, launches, last.Ready())
      && !Works(before) && Tried(before, candidates, launches)
  }

  /** One complete pass: up to the first link that works, or over all of them when
      none does. */
  ghost predicate PassOver(tries: Tries, candidates: seq<Link>, launches: seq<Launch>) {
    Tried(tries, candidates, launches) && (Works(tries) || tries.Size() == |candidates|)
  }

  /** Said of each link of a pass at once. */
  lemma {:induction false} TriedMeans(tries: Tries, candidates: seq<Link>, launches: seq<Launch>)
    requires Tried(tries, candidates, launches)
    ensures tries.Size() <= |candidates|
    ensures forall i :: 0 <= i < tries.Size() ==>
              && tries.ToSeq()[i].link == candidates[i]
              && TriedAll(tries.ToSeq()[i].attempts, launches, !tries.ToSeq()[i].check.NotChecked?)
              && (tries.ToSeq()[i].check.Passed? ==> i == tries.Size() - 1)
  {
    if tries.Then? {
      TriedMeans(tries.before, candidates, launches);
    }
  }

  /** A pass works when its last link does. */
  lemma WorksMeans(tries: Tries)
    ensures Works(tries) <==> tries.Size() > 0 && tries.ToSeq()[tries.Size() - 1].check.Passed?
  {
  }

  lemma {:induction false} RaisesMeans(tries: Tries)
    ensures Raises(tries) <==>
              exists t :: t in tries.ToSeq() && !t.check.NotChecked?
                          && t.attempts != [] && t.attempts[|t.attempts| - 1].launch.gatewayMode
  {
    if tries.Then? {
      RaisesMeans(tries.before);
      assert forall t :: t in tries.ToSeq() <==> t in tries.before.ToSeq() || t == tries.last;
    }
  }

  /** Where the candidates end makes no difference to those tried so far. */
  lemma {:induction false} TriedOfMore(tries: Tries, a: seq<Link>, b: seq<Link>, launches: seq<Launch>)
    requires a <= b && Tried(tries, a, launches)
    ensures Tried(tries, b, launches)
  {
    if tries.Then? {
      TriedOfMore(tries.before, a, b, launches);
    }
  }

  /** n times l, by adding. */
  ghost function Times(n: nat, l: nat): nat {
    if n == 0 then 0 else Times(n - 1, l) + l
  }

  lemma {:induction false} TimesIsProduct(n: nat, l: nat)
    ensures Times(n, l) == n * l
  {
    if n > 0 {
      TimesIsProduct(n - 1, l);
    }
  }

  lemma {:induction false} NoesStartNothing(j: Journal, n: nat)
    ensures StartsIn(NoesLogged(j, n)) == StartsIn(j)
  {
    if n > 0 {
      NoesStartNothing(j, n - 1);
    }
  }

  lemma TryStarts(j: Journal, t: LinkTry)
    ensures StartsIn(t.Logged(j)) <= StartsIn(j) + |t.attempts|
  {
    var after := AttemptsLogged(j, t.attempts, |t.attempts|, t.link);
    AttemptsStartOnce(j, t.attempts, |t.attempts|, t.link);
    match t.check
    case NotChecked =>
    case Passed(failures) => NoesStartNothing(after, failures);
    case Failed => NoesStartNothing(after, 3);
  }

  /** A pass asks the world to start an engine at most once for each launch. */
  lemma {:induction false} TriesStart(j: Journal, tries: Tries, candidates: seq<Link>, launches: seq<Launch>)
    requires Tried(tries, candidates, launches)
    ensures StartsIn(TriesLogged(j, tries)) <= StartsIn(j) + Times(tries.Size(), |launches|)
    ensures tries.Size() <= |candidates|
  {
    if tries.Then? {
      TriesStart(j, tries.before, candidates, launches);
      TryStarts(TriesLogged(j, tries.before), tries.last);
    }
  }

  lemma Scale(a: nat, b: nat, c: nat)
    requires a <= b
    ensures a * c <= b * c
  {
  }

  /** The launches that one link is worth, in gateway mode and not. */
  datatype Plan = Plan(inGatewayMode: seq<Launch>, otherwise: seq<Launch>) {
    function In(mode: bool): seq<Launch> {
      if mode then inGatewayMode else otherwise
    }

    predicate Even() {
      |inGatewayMode| == |otherwise|
    }
  }

  /** Every pass of one start goes over the same candidates, and over the launches of
      its mode: only native passes of an enabled gateway are in gateway mode. */
  ghost predicate PassesOver(passes: Passes, candidates: seq<Link>, plan: Plan, enabled: bool) {
    match passes
    case Nothing => true
    case Then(before, last) =>
      && PassesOver(before, candidates, plan, enabled)
      && PassOver(last.tries, candidates, plan.In(last.kind.Native? && enabled))
  }

  /** Said of each pass at once: link k is candidate k, its launches are those of the mode
      of the pass, none of them is left out before a link is given up, and no candidate
      before the pass is. */
  lemma {:induction false} PassesOverMean(passes: Passes, candidates: seq<Link>, plan: Plan, enabled: bool)
    requires PassesOver(passes, candidates, plan, enabled)
    ensures forall i :: 0 <= i < passes.Size() ==>
              var pass := passes.ToSeq()[i];
              var tries := pass.tries.ToSeq();
              var launches := if pass.kind == Native && enabled then plan.inGatewayMode else plan.otherwise;
              && |tries| <= |candidates|
              && (|tries| < |candidates| ==> tries != [] && tries[|tries| - 1].check.Passed?)
              && forall k :: 0 <= k < |tries| ==>
                   && tries[k].link == candidates[k]
                   && TriedAll(tries[k].attempts, launches, !tries[k].check.NotChecked?)
                   && (tries[k].check.Passed? ==> k == |tries| - 1)
  {
    if passes.Then? {
      var pass := passes.last;
      PassesOverMean(passes.before, candidates, plan, enabled);
      TriedMeans(pass.tries, candidates, if pass.kind == Native && enabled then plan.inGatewayMode else plan.otherwise);
    }
  }

  // ----- which passes are made -----

  /** The flag after some passes, as long as nothing lowers it but a legacy pass. */
  ghost predicate FlagAfter(passes: Passes) {
    match passes
    case Nothing => false
    case Then(before, last) => (last.kind.Native? && FlagAfter(before)) || Raises(last.tries)
  }

  /** The kind of the pass that is to follow, if any: a start begins with a native pass
      exactly when native TUN is configured; a full build repeats a first native pass
      that failed; a legacy pass follows a native one that failed otherwise, or after
      which tun0 is missing; nothing follows a legacy pass. */
  ghost function NextKind(made: Passes, nativeTUN: bool, full: bool): Option<Kind> {
    match made
    case Nothing => Some(if nativeTUN then Native else Legacy)
    case Then(before, last) =>
      if last.kind.Legacy? then None
      else if Works(last.tries) then (if last.tun == Answered(false) then Some(Legacy) else None)
      else Some(if full && before.Nothing? then Native else Legacy)
  }

  ghost predicate InTurn(made: Passes, nativeTUN: bool, full: bool) {
    match made
    case Nothing => true
    case Then(before, last) =>
      InTurn(before, nativeTUN, full) && NextKind(before, nativeTUN, full) == Some(last.kind)
  }

  /** The world is asked for tun0 exactly after a pass that worked and left the flag up. */
  ghost predicate TunAsked(made: Passes) {
    match made
    case Nothing => true
    case Then(before, last) =>
      TunAsked(before) && (last.tun.Answered? <==> Works(last.tries) && FlagAfter(made))
  }

  /** The question about tun0 is still open. */
  ghost predicate NeverAsked(made: Passes) {
    match made
    case Nothing => true
    case Then(before, last) => NeverAsked(before) && last.tun == NotAsked
  }

  /** All passes of a start, told one by one. */
  lemma PassesMean(made: Passes, nativeTUN: bool, full: bool)
    requires InTurn(made, nativeTUN, full) && TunAsked(made) && NextKind(made, nativeTUN, full) == None
    ensures var ps := made.ToSeq();
            && 1 <= |ps| <= 3
            && ps[0].kind == (if nativeTUN then Native else Legacy)
            && (|ps| > 1 && ps[1].kind == Native <==> nativeTUN && full && !Works(ps[0].tries))
            && (forall i :: 0 < i < |ps| && ps[i].kind == Legacy ==>
                  ps[i - 1].kind == Native && (!Works(ps[i - 1].tries) || ps[i - 1].tun == Answered(false)))
            && (forall i :: 0 <= i < |ps| - 1 ==> ps[i].kind == Native)
            && (ps[|ps| - 1].kind == Native ==>
                  Works(ps[|ps| - 1].tries) && ps[|ps| - 1].tun != Answered(false))
            && (forall i :: 0 <= i < |ps| ==>
                  (ps[i].tun != NotAsked <==>
                    && Works(ps[i].tries)
                    && exists k :: 0 <= k <= i && Raises(ps[k].tries) && (k == i || ps[i].kind == Native)))
  {
    assert made.before.Then? && made.before.before.Then? ==> made.before.before.before.Nothing?;
  }

  /** Before the last pass, no pass worked; so the question about tun0 is open only
      after the last. */
  lemma FailedUnasked(made: Passes, nativeTUN: bool, full: bool)
    requires made.Then? && InTurn(made, nativeTUN, full) && NeverAsked(made)
    ensures TunAsked(made.before)
    ensures !(Works(made.last.tries) && FlagAfter(made)) ==> TunAsked(made)
  {
  }

  lemma AtMostThree(made: Passes, nativeTUN: bool, full: bool)
    requires InTurn(made, nativeTUN, full)
    ensures made.Size() <= 3
  {
    if made.Then? && made.before.Then? && made.before.before.Then? {
      LaterIsLegacy(made, nativeTUN, full);
      LaterIsLegacy(made.before, nativeTUN, full);
      assert made.before.before.Size() == 1;
    }
  }

  /** Only the first two passes can be native, and a legacy pass is the last. */
  lemma LaterIsLegacy(made: Passes, nativeTUN: bool, full: bool)
    requires made.Then? && InTurn(made, nativeTUN, full)
    ensures made.last.kind.Legacy? ==> NextKind(made, nativeTUN, full) == None
    ensures made.before.Then? ==> made.before.last.kind.Native?
    ensures made.before.Then? && made.before.before.Then? ==> made.last.kind.Legacy?
  {
  }

  lemma {:induction false} TimesGrows(a: nat, b: nat, l: nat)
    requires a <= b
    ensures Times(a, l) <= Times(b, l)
  {
    if a < b {
      TimesGrows(a, b - 1, l);
    }
  }

  lemma {:induction false} PassesStart(j: Journal, passes: Passes, candidates: seq<Link>, plan: Plan, enabled: bool)
    requires PassesOver(passes, candidates, plan, enabled) && plan.Even()
    ensures StartsIn(PassesLogged(j, passes))
         <= StartsIn(j) + Times(passes.Size(), Times(|candidates|, |plan.otherwise|))
  {
    if passes.Then? {
      var mode := passes.last.kind.Native? && enabled;
      PassesStart(j, passes.before, candidates, plan, enabled);
      TriesStart(PassesLogged(j, passes.before), passes.last.tries, candidates, plan.In(mode));
      TimesGrows(passes.last.tries.Size(), |candidates|, |plan.otherwise|);
    }
  }

  /** Links that carry only information are never used as a fallback. */
  predicate Usable(link: Link) {
    link.data.port >= 10 && link.data.address != "" && link.data.address != "0.0.0.0"
  }

  /** The given link, then those of the first n links of its group that a pass turns
      to when it has failed. */
  function Eligible(links: seq<Link>, n: nat, link: Link): (candidates: seq<Link>)
    requires n <= |links|
    ensures candidates != [] && candidates[0] == link
  {
    if n == 0 then [link]
    else
      var rest, last := Eligible(links, n - 1, link), links[n - 1];
      if last.data.remark == link.data.remark || !Usable(last) then rest else rest + [last]
  }

  /** The candidates after a given link has failed: that link, and after it the links of
      the group at all those places, in order, where the remark is another one and the
      link is more than information. */
  ghost predicate Fallbacks(candidates: seq<Link>, link: Link, group: seq<Link>) {
    && candidates != [] && candidates[0] == link
    && exists at: seq<nat> :: PicksAt(candidates[1..], group, at)
         && forall i :: 0 <= i < |group| ==>
              (i in at <==>
                && group[i].data.remark != link.data.remark
                && group[i].data.port >= 10 && group[i].data.address !in ["", "0.0.0.0"])
  }

  lemma {:induction false} EligiblePlaces(links: seq<Link>, n: nat, link: Link) returns (at: seq<nat>)
    requires n <= |links|
    ensures PicksAt(Eligible(links, n, link)[1..], links[..n], at)
    ensures forall i :: 0 <= i < n ==>
              (i in at <==>
                && links[i].data.remark != link.data.remark
                && links[i].data.port >= 10 && links[i].data.address !in ["", "0.0.0.0"])
  {
    at := [];
    if n > 0 {
      at := EligiblePlaces(links, n - 1, link);
      var rest, last := Eligible(links, n - 1, link), links[n - 1];
      assert links[..n] == links[..n - 1] + [last];
      PicksMore(rest[1..], links[..n - 1], at, last);
      if last.data.remark != link.data.remark && Usable(last) {
        assert (rest + [last])[1..] == rest[1..] + [last];
        at := at + [n - 1];
      }
    }
  }

  /** For every group: exactly the links that carry more than information follow. */
  lemma EligibleMeans(links: seq<Link>, link: Link)
    ensures Fallbacks(Eligible(links, |links|, link), link, links)
  {
    var at := EligiblePlaces(links, |links|, link);
    assert links[..|links|] == links;
  }

  lemma {:induction false} EligibleBound(links: seq<Link>, n: nat, link: Link)
    requires n <= |links|
    ensures |Eligible(links, n, link)| <= 1 + n
  {
    if n > 0 {
      EligibleBound(links, n - 1, link);
    }
  }

  lemma {:induction false} EligiblePrefix(links: seq<Link>, i: nat, n: nat, link: Link)
    requires i <= n <= |links|
    ensures Eligible(links, i, link) <= Eligible(links, n, link)
  {
    if i < n {
      EligiblePrefix(links, i, n - 1, link);
    }
  }

  /** At most three passes ask the world to start a bounded number of engines. */
  lemma LaunchBudget(j: Journal, passes: Passes, candidates: seq<Link>, plan: Plan, enabled: bool)
    requires PassesOver(passes, candidates, plan, enabled) && plan.Even() && passes.Size() <= 3
    ensures StartsIn(PassesLogged(j, passes)) <= StartsIn(j) + Budget(|candidates|, |plan.otherwise|)
  {
    PassesStart(j, passes, candidates, plan, enabled);
    TimesGrows(passes.Size(), 3, Times(|candidates|, |plan.otherwise|));
    TimesIsProduct(3, Times(|candidates|, |plan.otherwise|));
    TimesIsProduct(|candidates|, |plan.otherwise|);
  }

  ghost function Budget(candidates: nat, launches: nat): nat {
    3 * (candidates * launches)
  }

  function CandidateLinks(link: Link, group: string, groups: map<string, seq<Link>>): (candidates: seq<Link>)
    ensures candidates != [] && candidates[0] == link
  {
    if group in groups then Eligible(groups[group], |groups[group]|, link) else [link]
  }

  /** The engine that startEngine looks for among the built-in ones. */
  function EmbeddedName(preferred: string, fallback: FallbackConfig): string {
    if preferred != "" then preferred
    else if fallback.order != [] && fallback.order[0] != "" then fallback.order[0]
    else SING_BOX
  }

  function EmbeddedPlan(preferred: string, fallback: FallbackConfig, embedded: set<string>, mode: bool): seq<Launch> {
    var name := EmbeddedName(preferred, fallback);
    if name in embedded then [LaunchIn(name, true, mode)] else []
  }

  /** The built-in engine when there is one, then the separate engines in
      fallback order. */
  function LaunchPlan(preferred: string, fallback: FallbackConfig, embedded: set<string>, mode: bool): seq<Launch> {
    EmbeddedPlan(preferred, fallback, embedded, mode) + Binaries(Allowed(fallback, preferred), mode)
  }

  /** Spelled out: the engine that is preferred, or configured first, or sing-box, if it
      is built in. A config in gateway mode is for sing-box only. */
  lemma EmbeddedPlanMeans(preferred: string, fallback: FallbackConfig, embedded: set<string>, mode: bool)
    ensures var named := if fallback.order == [] || fallback.order[0] == "" then "sing-box" else fallback.order[0];
            var first := if preferred == "" then named else preferred;
            EmbeddedPlan(preferred, fallback, embedded, mode)
              == if first in embedded then [Launch(first, true, mode && first == "sing-box")] else []
  {
  }

  /** After it, as separate processes, all engines of the order (what that is, see
      Engines.EngineOrderIsComplete), or its first one without fallback. */
  lemma LaunchPlanMeans(preferred: string, fallback: FallbackConfig, embedded: set<string>, mode: bool)
    ensures var order := EngineOrder(fallback, preferred);
            var n := if fallback.enabled then |order| else 1;
            var plan, first := LaunchPlan(preferred, fallback, embedded, mode),
                               |EmbeddedPlan(preferred, fallback, embedded, mode)|;
            && |plan| == first + n
            && plan[..first] == EmbeddedPlan(preferred, fallback, embedded, mode)
            && forall i :: 0 <= i < n ==>
                 plan[first + i] == Launch(order[i], false, mode && order[i] == "sing-box")
  {
    PlanJoined(EmbeddedPlan(preferred, fallback, embedded, mode), EngineOrder(fallback, preferred),
               Allowed(fallback, preferred), mode);
  }

  lemma PlanJoined(first: seq<Launch>, order: seq<string>, allowed: seq<string>, mode: bool)
    requires allowed <= order
    ensures var plan := first + Binaries(allowed, mode);
            && |plan| == |first| + |allowed| && plan[..|first|] == first
            && forall i :: 0 <= i < |allowed| ==>
                 plan[|first| + i] == Launch(order[i], false, mode && order[i] == "sing-box")
  {
  }

  /** Every candidate was tried and failed. */
  ghost predicate FailedOver(tries: Tries, candidates: seq<Link>, launches: seq<Launch>) {
    Tried(tries, candidates, launches) && !Works(tries) && tries.Size() == |candidates|
  }

  lemma NextTry(tries: Tries, next: LinkTry, links: seq<Link>, link: Link, i: nat, launches: seq<Launch>)
    requires i < |links| && next.link == links[i]
    requires links[i].data.remark != link.data.remark && Usable(links[i])
    requires FailedOver(tries, Eligible(links, i, link), launches)
    requires TriedAll(next.attempts, launches, next.Ready())
    ensures next.Works() ==> PassOver(Then(tries, next), Eligible(links, |links|, link), launches)
    ensures !next.Works() ==> FailedOver(Then(tries, next), Eligible(links, i + 1, link), launches)
  {
    var before := Eligible(links, i, link);
    var now, all := Eligible(links, i + 1, link), Eligible(links, |links|, link);
    EligiblePrefix(links, i + 1, |links|, link);
    TriedOfMore(tries, before, now, launches);
    TriedOfMore(Then(tries, next), now, all, launches);
  }

  lemma Product(a: nat, b: nat, c: nat, d: nat)
    requires a <= c && b <= d
    ensures a * b <= c * d
  {
    Scale(a, c, b);
    Scale(b, d, c);
  }

  lemma PlanBound(preferred: string, fallback: FallbackConfig, embedded: set<string>, mode: bool)
    ensures |LaunchPlan(preferred, fallback, embedded, mode)|
         <= 2 + if fallback.order == [] then 2 else |fallback.order|
  {
  }

  /** The same bound in terms of the configuration: the links of the group, the
      engines of the order, and one built-in engine. */
  lemma BudgetOfConfig(link: Link, group: string, groups: map<string, seq<Link>>, preferred: string,
                       fallback: FallbackConfig, embedded: set<string>, mode: bool)
    ensures Budget(|CandidateLinks(link, group, groups)|, |LaunchPlan(preferred, fallback, embedded, mode)|)
         <= 3 * ((1 + if group in groups then |groups[group]| else 0)
                 * (2 + if fallback.order == [] then 2 else |fallback.order|))
  {
    var links := if group in groups then |groups[group]| else 0;
    var order := if fallback.order == [] then 2 else |fallback.order|;
    if group in groups {
      EligibleBound(groups[group], links, link);
    }
    PlanBound(preferred, fallback, embedded, mode);
    Product(|CandidateLinks(link, group, groups)|, |LaunchPlan(preferred, fallback, embedded, mode)|,
            1 + links, 2 + order);
  }
}
