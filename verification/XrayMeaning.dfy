/** When the xray section means what the rules mean, and when it agrees with the
    sing-box section compiled from the same rules: exactly when no rule that xray
    reads as something else can make a difference. */
module XrayMeaning {
  import opened Text
  import opened Routing
  import opened XrayRoute
  import SB = SingboxRoute

  predicate IsDisguised(m: Matcher) {
    m.IPCidr? && Disguised(m.cidr)
  }

  /** Some flow may come to this rule: it is carried out, it is the first with its
      matcher, and neither the private blocks nor the local domains are before it. */
  ghost predicate Reachable(rules: seq<RoutingRule>, locals: seq<LocalDNSRule>, geositeDat: bool, i: nat) {
    && i < |rules| && CompiledRule(rules[i], geositeDat) != []
    && (forall j :: 0 <= j < i ==> rules[j].matcher != rules[i].matcher)
    && (rules[i].matcher.IPCidr? ==> rules[i].matcher.cidr !in PRIVATE_BLOCKS)
    && (rules[i].matcher.DomainSuffix? ==> !IsLocalSuffix(locals, rules[i].matcher.suffix))
  }

  ghost predicate IsLocalSuffix(locals: seq<LocalDNSRule>, suffix: string) {
    exists l :: 0 <= l < |locals| && suffix in locals[l].domains
  }

  /** Rule j is reachable, and so is a rule with a disguised block not after it. */
  ghost predicate Disturbing(rules: seq<RoutingRule>, locals: seq<LocalDNSRule>, geositeDat: bool, i: nat, j: nat) {
    && i <= j && Reachable(rules, locals, geositeDat, i) && IsDisguised(rules[i].matcher)
    && Reachable(rules, locals, geositeDat, j)
  }

  /** From the first reachable rule with a disguised block on, all reachable rules
      go where the default goes. */
  ghost predicate Harmless(rules: seq<RoutingRule>, locals: seq<LocalDNSRule>, geositeDat: bool) {
    forall i: nat, j: nat ::
      Disturbing(rules, locals, geositeDat, i, j) ==> rules[j].outbound == FinalOutbound(rules, |rules|)
  }

  ghost predicate XrayMeansRules(net: Net, rules: seq<RoutingRule>, locals: seq<LocalDNSRule>, geositeDat: bool,
                                 f: Flow) {
    Means(Xray(net, geositeDat), locals, rules, SB.Sniffed(net, f),
          Decide(net, RouteFromRules(rules, locals, geositeDat).rules, SB.Sniffed(net, f)))
  }

  // ----- harmless lists keep their meaning -----

  /** The first rule that hits, as meant or as read, is reachable. */
  lemma FirstIsReachable(net: Net, rules: seq<RoutingRule>, locals: seq<LocalDNSRule>, geositeDat: bool, f: Flow,
                         k: nat)
    requires !Private(Xray(net, geositeDat), f)
    requires !SB.AnyLocalHit(Xray(net, geositeDat), locals, |locals|, f)
    requires k < |rules|
    requires || FirstHit(Xray(net, geositeDat), rules, f, k)
             || FirstRead(net, rules, |rules|, geositeDat, f, k)
    ensures Reachable(rules, locals, geositeDat, k)
  {
    var e, m := Xray(net, geositeDat), rules[k].matcher;
    if m.IPCidr? && m.cidr in PRIVATE_BLOCKS {
      assert !Disguised(m.cidr) by {
        NotDisguised(m.cidr);
      }
      assert InSomeBlock(net, PRIVATE_BLOCKS, f.ip.value);
    }
  }

  lemma ReadAsMeant(net: Net, r: RoutingRule, geositeDat: bool, f: Flow)
    requires !IsDisguised(r.matcher)
    ensures ReadHits(net, r, geositeDat, f) <==> Hits(Xray(net, geositeDat), r, f)
  {
  }

  /** A rule with a disguised block that is carried out has a reachable one at or
      before its place. */
  lemma FirstOfItsKind(rules: seq<RoutingRule>, locals: seq<LocalDNSRule>, geositeDat: bool, k: nat) returns (i: nat)
    requires k < |rules| && IsDisguised(rules[k].matcher)
    ensures i <= k && rules[i].matcher == rules[k].matcher && Reachable(rules, locals, geositeDat, i)
  {
    i := 0;
    while rules[i].matcher != rules[k].matcher
      invariant i <= k && forall j :: 0 <= j < i ==> rules[j].matcher != rules[k].matcher
      decreases k - i
    {
      i := i + 1;
    }
    if rules[i].matcher.cidr in PRIVATE_BLOCKS {
      NotDisguised(rules[i].matcher.cidr);
    }
  }

  lemma GoesToDefault(rules: seq<RoutingRule>, locals: seq<LocalDNSRule>, geositeDat: bool, i: nat, j: nat)
    requires Harmless(rules, locals, geositeDat) && Disturbing(rules, locals, geositeDat, i, j)
    ensures rules[j].outbound == FinalOutbound(rules, |rules|)
  {
  }

  /** From a rule with a disguised block on, whatever comes first goes where the
      default goes. */
  lemma FromThereOn(net: Net, rules: seq<RoutingRule>, locals: seq<LocalDNSRule>, geositeDat: bool, f: Flow,
                    low: nat, x: nat)
    requires Harmless(rules, locals, geositeDat)
    requires !Private(Xray(net, geositeDat), f)
    requires !SB.AnyLocalHit(Xray(net, geositeDat), locals, |locals|, f)
    requires low <= x < |rules| && IsDisguised(rules[low].matcher)
    requires || FirstHit(Xray(net, geositeDat), rules, f, x)
             || FirstRead(net, rules, |rules|, geositeDat, f, x)
    ensures rules[x].outbound == FinalOutbound(rules, |rules|)
  {
    var i := FirstOfItsKind(rules, locals, geositeDat, low);
    FirstIsReachable(net, rules, locals, geositeDat, f, x);
    GoesToDefault(rules, locals, geositeDat, i, x);
  }

  lemma FirstDifference(net: Net, rules: seq<RoutingRule>, geositeDat: bool, f: Flow, h: nat, k: nat)
    requires h <= |rules| && (h < |rules| ==> Hits(Xray(net, geositeDat), rules[h], f))
    requires forall j :: 0 <= j < h ==> !Hits(Xray(net, geositeDat), rules[j], f)
    requires FirstRead(net, rules, |rules|, geositeDat, f, k) && h != k
    ensures IsDisguised(rules[if h < k then h else k].matcher)
  {
    var low := if h < k then h else k;
    if !IsDisguised(rules[low].matcher) {
      ReadAsMeant(net, rules[low], geositeDat, f);
    }
  }

  lemma HarmlessMeans(net: Net, rules: seq<RoutingRule>, locals: seq<LocalDNSRule>, geositeDat: bool, f: Flow)
    requires Harmless(rules, locals, geositeDat)
    ensures XrayMeansRules(net, rules, locals, geositeDat, f)
  {
    var e, p, n := Xray(net, geositeDat), SB.Sniffed(net, f), |rules|;
    var k := FirstReadExists(net, rules, n, geositeDat, p);
    var h := FirstHitIndex(e, rules, n, p);
    WhatXrayDoes(net, rules, locals, geositeDat, p, k);
    if !Private(e, p) && !SB.AnyLocalHit(e, locals, |locals|, p) {
      FirstHitMeans(e, locals, rules, p, h);
      if h != k {
        var low := if h < k then h else k;
        FirstDifference(net, rules, geositeDat, p, h, k);
        if h < n {
          FromThereOn(net, rules, locals, geositeDat, p, low, h);
        }
        if k < n {
          FromThereOn(net, rules, locals, geositeDat, p, low, k);
        }
      }
    }
  }

  // ----- other lists do not -----

  /** A net in which the block `cidr` and the matcher `m` hold, and nothing else. */
  function Only(cidr: Option<string>, m: Matcher): Net {
    Net((ip: string) => false,
        (suffix: string, d: string) => m == DomainSuffix(suffix),
        (c: string, ip: string) => cidr == Some(c) || m == IPCidr(c),
        (file: string, f: Flow) => InFile(m, file),
        (country: string, ip: string) => m == GeoIP(country),
        (tag: string, d: string) => m == Geosite(tag),
        (t: string, ip: string) => false, (f: Flow) => None, (server: string, d: string) => None)
  }

  predicate InFile(m: Matcher, file: string) {
    match m
    case GeoIP(country) => file == SrsFile(GeoipTag(country))
    case Geosite(tag) => file == SrsFile(GeositeTag(tag))
    case _ => false
  }

  /** A flow for that net; its name is none of the rules' unless m asks for one. */
  function FlowFor(rules: seq<RoutingRule>, m: Matcher): Flow {
    Flow(match m
         case Domain(name) => Some(name)
         case DomainSuffix(_) => Some(NewName(rules, |rules|))
         case Geosite(_) => Some(NewName(rules, |rules|))
         case _ => None,
         Some("1.1.1.1"))
  }

  /** Longer than every name in the rules. */
  function NewName(rules: seq<RoutingRule>, n: nat): (name: string)
    requires n <= |rules|
    ensures forall k :: 0 <= k < n && rules[k].matcher.Domain? ==> |rules[k].matcher.name| < |name|
  {
    if n == 0 then "x"
    else
      var before := NewName(rules, n - 1);
      if rules[n - 1].matcher.Domain? then before + rules[n - 1].matcher.name + "x" else before
  }

  lemma OnlyMatches(cidr: Option<string>, m: Matcher, rules: seq<RoutingRule>, geositeDat: bool, k: nat)
    requires k < |rules|
    ensures var hit := Hits(Xray(Only(cidr, m), geositeDat), rules[k], FlowFor(rules, m));
            hit <==> CompiledRule(rules[k], geositeDat) != []
                     && (rules[k].matcher == m || (cidr.Some? && rules[k].matcher == IPCidr(cidr.value)))
  {
  }

  lemma OnlyReads(cidr: Option<string>, m: Matcher, rules: seq<RoutingRule>, geositeDat: bool, k: nat)
    requires k < |rules| && IsDisguised(rules[k].matcher)
    ensures ReadHits(Only(cidr, m), rules[k], geositeDat, FlowFor(rules, m))
       <==> m.GeoIP? && rules[k].matcher == IPCidr(GEOIP + m.country)
  {
    var text := rules[k].matcher.cidr;
    if m.GeoIP? {
      assert (GEOIP + m.country)[|GEOIP|..] == m.country;
    }
    if HasPrefix(text, GEOIP) {
      assert text == GEOIP + text[|GEOIP|..];
    }
  }

  /** Neither the private blocks nor the local domains hold of the flow. */
  lemma OnlyPasses(cidr: Option<string>, m: Matcher, rules: seq<RoutingRule>, locals: seq<LocalDNSRule>,
                   geositeDat: bool)
    requires cidr.Some? ==> Disguised(cidr.value)
    requires m.IPCidr? ==> m.cidr !in PRIVATE_BLOCKS
    requires m.DomainSuffix? ==> !IsLocalSuffix(locals, m.suffix)
    ensures var e, f := Xray(Only(cidr, m), geositeDat), FlowFor(rules, m);
            !Private(e, f) && !SB.AnyLocalHit(e, locals, |locals|, f)
  {
    forall i | 0 <= i < |PRIVATE_BLOCKS| ensures cidr != Some(PRIVATE_BLOCKS[i]) {
      NotDisguised(PRIVATE_BLOCKS[i]);
    }
  }

  /** What is meant goes by the first of its places, what xray does by its reading. */
  lemma OnlyTells(cidr: Option<string>, m: Matcher, rules: seq<RoutingRule>, locals: seq<LocalDNSRule>,
                  geositeDat: bool, h: nat, k: nat)
    requires cidr.Some? ==> Disguised(cidr.value)
    requires m.IPCidr? ==> m.cidr !in PRIVATE_BLOCKS
    requires m.DomainSuffix? ==> !IsLocalSuffix(locals, m.suffix)
    requires h < |rules| && FirstHit(Xray(Only(cidr, m), geositeDat), rules, FlowFor(rules, m), h)
    requires FirstRead(Only(cidr, m), rules, |rules|, geositeDat, FlowFor(rules, m), k)
    requires rules[h].outbound != if k < |rules| then rules[k].outbound else FinalOutbound(rules, |rules|)
    ensures !XrayMeansRules(Only(cidr, m), rules, locals, geositeDat, FlowFor(rules, m))
  {
    var net, f := Only(cidr, m), FlowFor(rules, m);
    var e := Xray(net, geositeDat);
    assert SB.Sniffed(net, f) == f;
    OnlyPasses(cidr, m, rules, locals, geositeDat);
    WhatXrayDoes(net, rules, locals, geositeDat, f, k);
    FirstHitMeans(e, locals, rules, f, h);
    if XrayMeansRules(net, rules, locals, geositeDat, f) {
      MeansOne(e, locals, rules, f, rules[h].outbound,
               Decide(net, RouteFromRules(rules, locals, geositeDat).rules, f));
    }
  }

  /** Only the disguised block holds: its rule is meant, but xray sees nothing. */
  lemma Alone(rules: seq<RoutingRule>, locals: seq<LocalDNSRule>, geositeDat: bool, i: nat)
    returns (cidr: Option<string>, m: Matcher)
    requires Reachable(rules, locals, geositeDat, i) && IsDisguised(rules[i].matcher)
    requires rules[i].outbound != FinalOutbound(rules, |rules|)
    ensures (cidr.Some? ==> Disguised(cidr.value)) && (m.IPCidr? ==> m.cidr !in PRIVATE_BLOCKS)
    ensures !XrayMeansRules(Only(cidr, m), rules, locals, geositeDat, FlowFor(rules, m))
  {
    cidr, m := Some(rules[i].matcher.cidr), Default;
    forall k | 0 <= k < |rules|
      ensures Hits(Xray(Only(cidr, m), geositeDat), rules[k], FlowFor(rules, m)) ==> k >= i
      ensures k == i ==> Hits(Xray(Only(cidr, m), geositeDat), rules[k], FlowFor(rules, m))
      ensures !ReadHits(Only(cidr, m), rules[k], geositeDat, FlowFor(rules, m))
    {
      OnlyMatches(cidr, m, rules, geositeDat, k);
      if IsDisguised(rules[k].matcher) {
        OnlyReads(cidr, m, rules, geositeDat, k);
      } else {
        ReadAsMeant(Only(cidr, m), rules[k], geositeDat, FlowFor(rules, m));
      }
    }
    OnlyTells(cidr, m, rules, locals, geositeDat, i, |rules|);
  }

  /** Only a country holds whose name the disguised block has: xray takes the block
      for the country. */
  lemma Taken(rules: seq<RoutingRule>, locals: seq<LocalDNSRule>, geositeDat: bool, i: nat, j: nat)
    returns (cidr: Option<string>, m: Matcher)
    requires i < j && Reachable(rules, locals, geositeDat, i) && Reachable(rules, locals, geositeDat, j)
    requires rules[j].matcher.GeoIP? && rules[i].matcher == IPCidr(GEOIP + rules[j].matcher.country)
    requires rules[j].outbound != rules[i].outbound
    ensures (cidr.Some? ==> Disguised(cidr.value)) && (m.IPCidr? ==> m.cidr !in PRIVATE_BLOCKS)
    ensures !XrayMeansRules(Only(cidr, m), rules, locals, geositeDat, FlowFor(rules, m))
  {
    cidr, m := None, rules[j].matcher;
    forall k | 0 <= k < |rules|
      ensures Hits(Xray(Only(cidr, m), geositeDat), rules[k], FlowFor(rules, m)) ==> k >= j
      ensures k == j ==> Hits(Xray(Only(cidr, m), geositeDat), rules[k], FlowFor(rules, m))
      ensures ReadHits(Only(cidr, m), rules[k], geositeDat, FlowFor(rules, m)) ==> k >= i
      ensures k == i ==> ReadHits(Only(cidr, m), rules[k], geositeDat, FlowFor(rules, m))
    {
      OnlyMatches(cidr, m, rules, geositeDat, k);
      if IsDisguised(rules[k].matcher) {
        OnlyReads(cidr, m, rules, geositeDat, k);
      } else {
        ReadAsMeant(Only(cidr, m), rules[k], geositeDat, FlowFor(rules, m));
      }
    }
    OnlyTells(cidr, m, rules, locals, geositeDat, j, i);
  }

  /** The disguised block and a later rule hold: the block is meant, but xray sees
      the later rule only. */
  lemma Both(rules: seq<RoutingRule>, locals: seq<LocalDNSRule>, geositeDat: bool, i: nat, j: nat)
    returns (cidr: Option<string>, m: Matcher)
    requires i < j && Reachable(rules, locals, geositeDat, i) && Reachable(rules, locals, geositeDat, j)
    requires IsDisguised(rules[i].matcher) && !IsDisguised(rules[j].matcher)
    requires rules[j].outbound != rules[i].outbound
    requires rules[j].matcher.GeoIP? ==>
               forall k :: 0 <= k < j ==> rules[k].matcher != IPCidr(GEOIP + rules[j].matcher.country)
    ensures (cidr.Some? ==> Disguised(cidr.value)) && (m.IPCidr? ==> m.cidr !in PRIVATE_BLOCKS)
    ensures !XrayMeansRules(Only(cidr, m), rules, locals, geositeDat, FlowFor(rules, m))
  {
    cidr, m := Some(rules[i].matcher.cidr), rules[j].matcher;
    forall k | 0 <= k < |rules|
      ensures Hits(Xray(Only(cidr, m), geositeDat), rules[k], FlowFor(rules, m)) ==> k >= i
      ensures k == i ==> Hits(Xray(Only(cidr, m), geositeDat), rules[k], FlowFor(rules, m))
      ensures ReadHits(Only(cidr, m), rules[k], geositeDat, FlowFor(rules, m)) ==> k >= j
      ensures k == j ==> ReadHits(Only(cidr, m), rules[k], geositeDat, FlowFor(rules, m))
    {
      OnlyMatches(cidr, m, rules, geositeDat, k);
      if IsDisguised(rules[k].matcher) {
        OnlyReads(cidr, m, rules, geositeDat, k);
      } else {
        ReadAsMeant(Only(cidr, m), rules[k], geositeDat, FlowFor(rules, m));
      }
    }
    OnlyTells(cidr, m, rules, locals, geositeDat, i, j);
  }

  /** The net and the flow that show it. */
  lemma Counterexample(rules: seq<RoutingRule>, locals: seq<LocalDNSRule>, geositeDat: bool, i: nat, j: nat)
    returns (cidr: Option<string>, m: Matcher)
    requires Disturbing(rules, locals, geositeDat, i, j) && rules[j].outbound != FinalOutbound(rules, |rules|)
    ensures (cidr.Some? ==> Disguised(cidr.value)) && (m.IPCidr? ==> m.cidr !in PRIVATE_BLOCKS)
    ensures !XrayMeansRules(Only(cidr, m), rules, locals, geositeDat, FlowFor(rules, m))
  {
    var final := FinalOutbound(rules, |rules|);
    if IsDisguised(rules[j].matcher) {
      cidr, m := Alone(rules, locals, geositeDat, j);
    } else if rules[i].outbound != final {
      cidr, m := Alone(rules, locals, geositeDat, i);
    } else if k :| 0 <= k < j && rules[j].matcher.GeoIP?
                   && rules[k].matcher == IPCidr(GEOIP + rules[j].matcher.country) {
      var first := FirstOfItsKind(rules, locals, geositeDat, k);
      if rules[first].outbound != final {
        cidr, m := Alone(rules, locals, geositeDat, first);
      } else {
        cidr, m := Taken(rules, locals, geositeDat, first, j);
      }
    } else {
      cidr, m := Both(rules, locals, geositeDat, i, j);
    }
  }

  // ----- main results -----

  /** The xray section with its catch-all picks, for every flow, with or without an
      address, the outbound that the rules mean for the flow once sniffed, exactly
      when the rule list is harmless. */
  lemma RouteMeansRulesIff(rules: seq<RoutingRule>, locals: seq<LocalDNSRule>, geositeDat: bool)
    ensures (forall net: Net, f: Flow :: XrayMeansRules(net, rules, locals, geositeDat, f))
       <==> Harmless(rules, locals, geositeDat)
  {
    if Harmless(rules, locals, geositeDat) {
      forall net: Net, f: Flow ensures XrayMeansRules(net, rules, locals, geositeDat, f) {
        HarmlessMeans(net, rules, locals, geositeDat, f);
      }
    } else {
      var i: nat, j: nat :| Disturbing(rules, locals, geositeDat, i, j)
                            && rules[j].outbound != FinalOutbound(rules, |rules|);
      var cidr, m := Counterexample(rules, locals, geositeDat, i, j);
    }
  }

  /** The two engines send the flow to the same outbound. */
  ghost predicate Agree(net: Net, rules: seq<RoutingRule>, locals: seq<LocalDNSRule>, geoFiles: set<string>,
                        geositeDat: bool, gatewayMode: bool, f: Flow) {
    var route := SB.RouteFromRules(rules, locals, geoFiles, gatewayMode);
    SB.Decide(net, route, route.rules, f) ==
    Decide(net, RouteFromRules(rules, locals, geositeDat).rules, SB.Sniffed(net, f))
  }

  /** For a flow with an address, given the same geo data and the same private
      addresses, the engines agree exactly when xray does what the rules mean. */
  lemma AgreeIffMeant(net: Net, rules: seq<RoutingRule>, locals: seq<LocalDNSRule>, geoFiles: set<string>,
                      geositeDat: bool, gatewayMode: bool, f: Flow)
    requires f.ip.Some?
    requires AgreeOn(SingBox(net, geoFiles), Xray(net, geositeDat), rules, SB.Sniffed(net, f))
    ensures Agree(net, rules, locals, geoFiles, geositeDat, gatewayMode, f)
       <==> XrayMeansRules(net, rules, locals, geositeDat, f)
  {
    var route := SB.RouteFromRules(rules, locals, geoFiles, gatewayMode);
    var p := SB.Sniffed(net, f);
    var bySingbox := SB.Decide(net, route, route.rules, f);
    SB.RouteMeansRules(net, rules, locals, geoFiles, gatewayMode, f);
    assert SB.Prepared(net, f) == p;
    AgreementCarriesMeaning(SingBox(net, geoFiles), Xray(net, geositeDat), locals, rules, p, bySingbox);
    if XrayMeansRules(net, rules, locals, geositeDat, f) {
      MeansOne(Xray(net, geositeDat), locals, rules, p, bySingbox,
               Decide(net, RouteFromRules(rules, locals, geositeDat).rules, p));
    }
  }

  /** Both engines find the geo data for the same rules. */
  predicate SameFiles(rules: seq<RoutingRule>, geoFiles: set<string>, geositeDat: bool) {
    forall i :: 0 <= i < |rules| ==>
      match rules[i].matcher
      case GeoIP(country) => SrsFile(GeoipTag(country)) in geoFiles
      case Geosite(tag) => SrsFile(GeositeTag(tag)) in geoFiles <==> geositeDat
      case _ => true
  }

  lemma FilesApart(a: string, b: string)
    ensures SrsFile(GeoipTag(a)) == SrsFile(GeoipTag(b)) <==> a == b
    ensures SrsFile(GeositeTag(a)) == SrsFile(GeositeTag(b)) <==> a == b
    ensures SrsFile(GeoipTag(a)) != SrsFile(GeositeTag(b))
  {
    assert SrsFile(GeoipTag(a))[6..][..|a|] == a && SrsFile(GeoipTag(b))[6..][..|b|] == b;
    assert SrsFile(GeositeTag(a))[8..][..|a|] == a && SrsFile(GeositeTag(b))[8..][..|b|] == b;
    assert SrsFile(GeoipTag(a))[3] == 'i' && SrsFile(GeositeTag(b))[3] == 's';
  }

  lemma OnlyAgrees(cidr: Option<string>, m: Matcher, rules: seq<RoutingRule>, geoFiles: set<string>, geositeDat: bool)
    requires SameFiles(rules, geoFiles, geositeDat)
    requires cidr.Some? ==> Disguised(cidr.value)
    requires m.IPCidr? ==> m.cidr !in PRIVATE_BLOCKS
    ensures AgreeOn(SingBox(Only(cidr, m), geoFiles), Xray(Only(cidr, m), geositeDat), rules, FlowFor(rules, m))
  {
    var net, f := Only(cidr, m), FlowFor(rules, m);
    var a, b := SingBox(net, geoFiles), Xray(net, geositeDat);
    OnlyPasses(cidr, m, rules, [], geositeDat);
    forall i | 0 <= i < |rules| && rules[i].matcher.GeoIP? ensures SameGeoip(a, b, rules[i].matcher.country, f) {
      FilesApart(rules[i].matcher.country, if m.GeoIP? then m.country else if m.Geosite? then m.tag else "");
    }
    forall i | 0 <= i < |rules| && rules[i].matcher.Geosite? ensures SameGeosite(a, b, rules[i].matcher.tag, f) {
      FilesApart(if m.GeoIP? then m.country else if m.Geosite? then m.tag else "", rules[i].matcher.tag);
    }
  }

  /** When both engines find the geo data for the same rules, they agree on every
      flow with an address, whatever is outside, exactly when the list is harmless. */
  lemma EnginesAgreeIff(rules: seq<RoutingRule>, locals: seq<LocalDNSRule>, geoFiles: set<string>,
                        geositeDat: bool, gatewayMode: bool)
    requires SameFiles(rules, geoFiles, geositeDat)
    ensures (forall net: Net, f: Flow ::
               f.ip.Some? && AgreeOn(SingBox(net, geoFiles), Xray(net, geositeDat), rules, SB.Sniffed(net, f)) ==>
                 Agree(net, rules, locals, geoFiles, geositeDat, gatewayMode, f))
       <==> Harmless(rules, locals, geositeDat)
  {
    if Harmless(rules, locals, geositeDat) {
      forall net: Net, f: Flow | f.ip.Some?
          && AgreeOn(SingBox(net, geoFiles), Xray(net, geositeDat), rules, SB.Sniffed(net, f))
        ensures Agree(net, rules, locals, geoFiles, geositeDat, gatewayMode, f)
      {
        HarmlessMeans(net, rules, locals, geositeDat, f);
        AgreeIffMeant(net, rules, locals, geoFiles, geositeDat, gatewayMode, f);
      }
    } else {
      var i: nat, j: nat :| Disturbing(rules, locals, geositeDat, i, j)
                            && rules[j].outbound != FinalOutbound(rules, |rules|);
      var cidr, m := Counterexample(rules, locals, geositeDat, i, j);
      var net, f := Only(cidr, m), FlowFor(rules, m);
      OnlyAgrees(cidr, m, rules, geoFiles, geositeDat);
      assert SB.Sniffed(net, f) == f;
      AgreeIffMeant(net, rules, locals, geoFiles, geositeDat, gatewayMode, f);
    }
  }
}
