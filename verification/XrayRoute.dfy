/** The xray routing section compiled from the same rules
    (internal/tunnel/configgen.go, xrayRouteFromRules and xrayRuleFromMatcher),
    and what xray does with it. xray conditions are strings with a prefix that
    says how to read them. */
module XrayRoute {
  import opened Text
  import opened Routing
  import SB = SingboxRoute

  /** A field rule; every condition present must hold. */
  datatype XrRule = XrRule(
    ip: Option<seq<string>>,
    domain: Option<seq<string>>,
    network: Option<string>,
    outboundTag: string)

  datatype XrRoute = XrRoute(rules: seq<XrRule>, domainStrategy: string)

  const CATCH_ALL: string := "tcp,udp"
  const GEOIP: string := "geoip:"
  const GEOSITE: string := "geosite:"
  const FULL: string := "full:"
  const DOMAIN: string := "domain:"

  // ----- what xray does with it -----

  /** How one entry of an `ip` condition is read. */
  predicate IpEntry(net: Net, s: string, ip: string) {
    if HasPrefix(s, "geoip:") then net.datGeoip(s[6..], ip)
    else if HasPrefix(s, "ext:") then net.datExt(s[4..], ip)
    else if HasPrefix(s, "ext-ip:") then net.datExt(s[7..], ip)
    else net.inCidr(s, ip)
  }

  /** How one entry of a `domain` condition is read; without a prefix it is a keyword. */
  predicate DomainEntry(net: Net, s: string, domain: string) {
    if HasPrefix(s, "geosite:") then net.datGeosite(s[8..], domain)
    else if HasPrefix(s, "full:") then domain == s[5..]
    else if HasPrefix(s, "domain:") then net.underSuffix(s[7..], domain)
    else Contains(domain, s)
  }

  predicate IpHolds(net: Net, entries: seq<string>, f: Flow) {
    f.ip.Some? && exists i :: 0 <= i < |entries| && IpEntry(net, entries[i], f.ip.value)
  }

  predicate DomainHolds(net: Net, entries: seq<string>, f: Flow) {
    f.domain.Some? && exists i :: 0 <= i < |entries| && DomainEntry(net, entries[i], f.domain.value)
  }

  /** Every flow is TCP or UDP, so the network condition written here always holds. */
  predicate Holds(net: Net, r: XrRule, f: Flow) {
    && (r.ip.Some? ==> IpHolds(net, r.ip.value, f))
    && (r.domain.Some? ==> DomainHolds(net, r.domain.value, f))
    && (r.network.Some? ==> r.network.value == "tcp,udp")
  }

  /** The first rule that holds decides; without one, the first outbound does. */
  function Decide(net: Net, rules: seq<XrRule>, f: Flow): string {
    if rules == [] then PROXY
    else if Holds(net, rules[0], f) then rules[0].outboundTag
    else Decide(net, rules[1..], f)
  }

  // ----- compiling -----

  function IpRule(entries: seq<string>, outbound: string): XrRule {
    XrRule(Some(entries), None, None, outbound)
  }

  function DomainRule(entries: seq<string>, outbound: string): XrRule {
    XrRule(None, Some(entries), None, outbound)
  }

  /** xrayRuleFromMatcher: geoip is taken as present, geosite needs geosite.dat. */
  function RuleFromMatcher(m: Matcher, outbound: string, geositeDat: bool): Option<XrRule> {
    match m
    case GeoIP(country) => Some(IpRule([GEOIP + country], outbound))
    case Geosite(tag) => if geositeDat then Some(DomainRule([GEOSITE + tag], outbound)) else None
    case Domain(name) => Some(DomainRule([FULL + name], outbound))
    case DomainSuffix(suffix) => Some(DomainRule([DOMAIN + suffix], outbound))
    case IPCidr(cidr) => Some(IpRule([cidr], outbound))
    case _ => None
  }

  function CompiledRule(r: RoutingRule, geositeDat: bool): seq<XrRule> {
    match RuleFromMatcher(r.matcher, r.outbound, geositeDat)
    case None => []
    case Some(rule) => [rule]
  }

  function CompiledRules(rules: seq<RoutingRule>, n: nat, geositeDat: bool): seq<XrRule>
    requires n <= |rules|
  {
    if n == 0 then [] else CompiledRules(rules, n - 1, geositeDat) + CompiledRule(rules[n - 1], geositeDat)
  }

  function Prefixed(domains: seq<string>): seq<string> {
    seq(|domains|, i requires 0 <= i < |domains| => DOMAIN + domains[i])
  }

  function LocalRule(local: LocalDNSRule): seq<XrRule> {
    if local.domains == [] then [] else [DomainRule(Prefixed(local.domains), DIRECT)]
  }

  function LocalRules(locals: seq<LocalDNSRule>, n: nat): seq<XrRule>
    requires n <= |locals|
  {
    if n == 0 then [] else LocalRules(locals, n - 1) + LocalRule(locals[n - 1])
  }

  function CatchAll(outbound: string): XrRule {
    XrRule(None, None, Some(CATCH_ALL), outbound)
  }

  function RouteFromRules(rules: seq<RoutingRule>, locals: seq<LocalDNSRule>, geositeDat: bool): XrRoute {
    XrRoute([IpRule(PRIVATE_BLOCKS, DIRECT)]
            + LocalRules(locals, |locals|)
            + CompiledRules(rules, |rules|, geositeDat)
            + [CatchAll(FinalOutbound(rules, |rules|))],
            "IPIfNonMatch")
  }

  // ----- one compiled rule -----

  lemma IpValue(net: Net, x: string, outbound: string, f: Flow)
    ensures Holds(net, IpRule([x], outbound), f) <==> f.ip.Some? && IpEntry(net, x, f.ip.value)
  {
    assert [x][0] == x;
  }

  lemma DomainValue(net: Net, x: string, outbound: string, f: Flow)
    ensures Holds(net, DomainRule([x], outbound), f) <==> f.domain.Some? && DomainEntry(net, x, f.domain.value)
  {
    assert [x][0] == x;
  }

  /** Each prefix is read back as it was written. */
  lemma PrefixesReadBack(net: Net, x: string, s: string)
    ensures IpEntry(net, GEOIP + x, s) <==> net.datGeoip(x, s)
    ensures DomainEntry(net, GEOSITE + x, s) <==> net.datGeosite(x, s)
    ensures DomainEntry(net, FULL + x, s) <==> s == x
    ensures DomainEntry(net, DOMAIN + x, s) <==> net.underSuffix(x, s)
  {
    assert (GEOIP + x)[|GEOIP|..] == x;
    assert (GEOSITE + x)[|GEOSITE|..] == x;
    assert (FULL + x)[|FULL|..] == x && (FULL + x)[0] == 'f';
    assert (DOMAIN + x)[|DOMAIN|..] == x && (DOMAIN + x)[0] == 'd';
    assert GEOSITE[0] == 'g';
  }

  /** An address block that xray would read as geo data. */
  predicate Disguised(cidr: string) {
    HasPrefix(cidr, "geoip:") || HasPrefix(cidr, "ext:") || HasPrefix(cidr, "ext-ip:")
  }

  /** What xray takes a matcher for: for address blocks that depends on their text. */
  ghost predicate Reads(net: Net, m: Matcher, f: Flow) {
    if m.IPCidr? then f.ip.Some? && IpEntry(net, m.cidr, f.ip.value)
    else Matches(Xray(net, false), m, f)
  }

  ghost predicate ReadHits(net: Net, r: RoutingRule, geositeDat: bool, f: Flow) {
    Supported(Xray(net, geositeDat), r) && Reads(net, r.matcher, f)
  }

  lemma MatcherHits(net: Net, m: Matcher, outbound: string, geositeDat: bool, f: Flow)
    ensures RuleFromMatcher(m, outbound, geositeDat).Some? ==>
              && RuleFromMatcher(m, outbound, geositeDat).value.outboundTag == outbound
              && Holds(net, RuleFromMatcher(m, outbound, geositeDat).value, f) == Reads(net, m, f)
  {
    match m
    case GeoIP(country) =>
      IpValue(net, GEOIP + country, outbound, f);
      PrefixesReadBack(net, country, if f.ip.Some? then f.ip.value else "");
    case Geosite(tag) =>
      DomainValue(net, GEOSITE + tag, outbound, f);
      PrefixesReadBack(net, tag, if f.domain.Some? then f.domain.value else "");
    case Domain(name) =>
      DomainValue(net, FULL + name, outbound, f);
      PrefixesReadBack(net, name, if f.domain.Some? then f.domain.value else "");
    case DomainSuffix(suffix) =>
      DomainValue(net, DOMAIN + suffix, outbound, f);
      PrefixesReadBack(net, suffix, if f.domain.Some? then f.domain.value else "");
    case IPCidr(cidr) => IpValue(net, cidr, outbound, f);
    case _ =>
  }

  lemma DecideRule(net: Net, r: XrRule, rest: seq<XrRule>, f: Flow)
    ensures Decide(net, [r] + rest, f) == if Holds(net, r, f) then r.outboundTag else Decide(net, rest, f)
  {
  }

  lemma DecideOne(net: Net, r: RoutingRule, geositeDat: bool, rest: seq<XrRule>, f: Flow)
    ensures Decide(net, CompiledRule(r, geositeDat) + rest, f)
         == if ReadHits(net, r, geositeDat, f) then r.outbound else Decide(net, rest, f)
  {
    var c := CompiledRule(r, geositeDat);
    if c == [] {
      assert c + rest == rest;
    } else {
      MatcherHits(net, r.matcher, r.outbound, geositeDat, f);
      DecideRule(net, c[0], rest, f);
    }
  }

  // ----- the whole section -----

  /** Rule k is the first of the first n that hits as xray reads it; n when none does. */
  ghost predicate FirstRead(net: Net, rules: seq<RoutingRule>, n: nat, geositeDat: bool, f: Flow, k: nat)
    requires n <= |rules|
  {
    && k <= n && (k < n ==> ReadHits(net, rules[k], geositeDat, f))
    && forall j :: 0 <= j < k ==> !ReadHits(net, rules[j], geositeDat, f)
  }

  lemma {:induction false} FirstReadExists(net: Net, rules: seq<RoutingRule>, n: nat, geositeDat: bool, f: Flow)
    returns (k: nat)
    requires n <= |rules|
    ensures FirstRead(net, rules, n, geositeDat, f, k)
  {
    if n == 0 {
      k := 0;
    } else {
      k := FirstReadExists(net, rules, n - 1, geositeDat, f);
      if k == n - 1 && !ReadHits(net, rules[n - 1], geositeDat, f) {
        k := n;
      }
    }
  }

  lemma {:induction false} DecideRules(net: Net, rules: seq<RoutingRule>, n: nat, geositeDat: bool,
                                       rest: seq<XrRule>, f: Flow, k: nat)
    requires n <= |rules| && FirstRead(net, rules, n, geositeDat, f, k)
    ensures Decide(net, CompiledRules(rules, n, geositeDat) + rest, f)
         == if k < n then rules[k].outbound else Decide(net, rest, f)
  {
    if n == 0 {
      assert CompiledRules(rules, 0, geositeDat) + rest == rest;
    } else {
      var c := CompiledRule(rules[n - 1], geositeDat);
      Assoc(CompiledRules(rules, n - 1, geositeDat), c, rest);
      DecideRules(net, rules, n - 1, geositeDat, c + rest, f, if k < n - 1 then k else n - 1);
      DecideOne(net, rules[n - 1], geositeDat, rest, f);
    }
  }

  lemma LocalRuleHolds(net: Net, local: LocalDNSRule, geositeDat: bool, f: Flow)
    ensures DomainHolds(net, Prefixed(local.domains), f) <==> LocalHit(Xray(net, geositeDat), local, f)
  {
    if f.domain.Some? {
      forall i | 0 <= i < |local.domains|
        ensures DomainEntry(net, Prefixed(local.domains)[i], f.domain.value)
           <==> UnderSuffix(Xray(net, geositeDat), local.domains[i], f)
      {
        PrefixesReadBack(net, local.domains[i], f.domain.value);
      }
    }
  }

  lemma DecideLocal(net: Net, local: LocalDNSRule, geositeDat: bool, rest: seq<XrRule>, f: Flow)
    ensures Decide(net, LocalRule(local) + rest, f)
         == if LocalHit(Xray(net, geositeDat), local, f) then DIRECT else Decide(net, rest, f)
  {
    if local.domains == [] {
      assert LocalRule(local) + rest == rest;
    } else {
      LocalRuleHolds(net, local, geositeDat, f);
      DecideRule(net, LocalRule(local)[0], rest, f);
    }
  }

  lemma {:induction false} DecideLocals(net: Net, locals: seq<LocalDNSRule>, n: nat, geositeDat: bool,
                                        rest: seq<XrRule>, f: Flow)
    requires n <= |locals|
    ensures Decide(net, LocalRules(locals, n) + rest, f)
         == if SB.AnyLocalHit(Xray(net, geositeDat), locals, n, f) then DIRECT else Decide(net, rest, f)
  {
    if n == 0 {
      assert LocalRules(locals, 0) + rest == rest;
    } else {
      var c := LocalRule(locals[n - 1]);
      Assoc(LocalRules(locals, n - 1), c, rest);
      DecideLocals(net, locals, n - 1, geositeDat, c + rest, f);
      DecideLocal(net, locals[n - 1], geositeDat, rest, f);
      SB.AnyLocalHitStep(Xray(net, geositeDat), locals, n, f);
    }
  }

  lemma PrivateRuleHolds(net: Net, geositeDat: bool, f: Flow)
    ensures Holds(net, IpRule(PRIVATE_BLOCKS, DIRECT), f) <==> Private(Xray(net, geositeDat), f)
  {
    if f.ip.Some? {
      forall i | 0 <= i < |PRIVATE_BLOCKS| ensures !Disguised(PRIVATE_BLOCKS[i]) {
        NotDisguised(PRIVATE_BLOCKS[i]);
      }
    }
  }

  lemma NotDisguised(cidr: string)
    requires cidr != "" && cidr[0] != 'g' && cidr[0] != 'e'
    ensures !Disguised(cidr)
  {
    assert "geoip:"[0] == 'g' && "ext:"[0] == 'e' && "ext-ip:"[0] == 'e';
  }

  /** What xray does with the section, for every rule list: private addresses and
      local domains go direct, then the first rule decides that hits as xray reads
      it, then the catch-all. */
  lemma WhatXrayDoes(net: Net, rules: seq<RoutingRule>, locals: seq<LocalDNSRule>, geositeDat: bool, f: Flow, k: nat)
    requires FirstRead(net, rules, |rules|, geositeDat, f, k)
    ensures Decide(net, RouteFromRules(rules, locals, geositeDat).rules, f)
         == if Private(Xray(net, geositeDat), f) then DIRECT
            else if SB.AnyLocalHit(Xray(net, geositeDat), locals, |locals|, f) then DIRECT
            else if k < |rules| then rules[k].outbound
            else FinalOutbound(rules, |rules|)
  {
    var last := [CatchAll(FinalOutbound(rules, |rules|))];
    var compiled := CompiledRules(rules, |rules|, geositeDat);
    var afterPrivate := LocalRules(locals, |locals|) + (compiled + last);
    assert RouteFromRules(rules, locals, geositeDat).rules == [IpRule(PRIVATE_BLOCKS, DIRECT)] + afterPrivate;
    PrivateRuleHolds(net, geositeDat, f);
    DecideRule(net, IpRule(PRIVATE_BLOCKS, DIRECT), afterPrivate, f);
    DecideLocals(net, locals, |locals|, geositeDat, compiled + last, f);
    DecideRules(net, rules, |rules|, geositeDat, last, f, k);
  }

  /** A net in which every block holds every address and geo data hold none. */
  function BlocksOnly(): Net {
    Net((ip: string) => false, (s: string, d: string) => false, (c: string, ip: string) => true,
        (file: string, f: Flow) => false, (c: string, ip: string) => false, (t: string, d: string) => false,
        (t: string, ip: string) => false, (f: Flow) => None, (server: string, d: string) => None)
  }

  /** An ip_cidr matcher is carried over faithfully exactly when its text does not
      begin with "geoip:", "ext:" or "ext-ip:"; xray takes such a text for geo data. */
  lemma CidrFaithfulIff(cidr: string, outbound: string)
    ensures (forall net: Net, f: Flow ::
               Holds(net, IpRule([cidr], outbound), f) == Matches(Xray(net, false), IPCidr(cidr), f))
       <==> !Disguised(cidr)
  {
    if Disguised(cidr) {
      var net, f := BlocksOnly(), Flow(None, Some("1.1.1.1"));
      IpValue(net, cidr, outbound, f);
      assert Holds(net, IpRule([cidr], outbound), f) != Matches(Xray(net, false), IPCidr(cidr), f);
    } else {
      forall net: Net, f: Flow
        ensures Holds(net, IpRule([cidr], outbound), f) == Matches(Xray(net, false), IPCidr(cidr), f)
      {
        IpValue(net, cidr, outbound, f);
      }
    }
  }
}
