/** The sing-box route section without routing rules (internal/tunnel/configgen.go,
    singboxRoute): whole countries go direct, some domains are forced one way or
    the other, and the DNS section shares its rule set definitions. */
module LegacyRoute {
  import opened Text
  import opened Links
  import opened Routing
  import opened SingboxRoute
  import opened SplitDns

  /** The settings that only this section depends on. */
  datatype Lists = Lists(forceProxyDomains: seq<string>, bypassDomains: seq<string>)

  function SuffixRule(domains: seq<string>, outbound: string): seq<SbRule> {
    if domains == [] then [] else [Route(DomainSuffixIn(domains), outbound)]
  }

  function TagsRule(tags: seq<string>): seq<SbRule> {
    if tags == [] then [] else [Route(RuleSetIn(tags), DIRECT)]
  }

  function GeoipTags(countries: seq<string>): seq<string> {
    seq(|countries|, i requires 0 <= i < |countries| => GeoipTag(countries[i]))
  }

  /** One definition for each tag of a list, in order and with repetitions. */
  function SetsOf(tags: seq<string>): seq<RuleSet> {
    seq(|tags|, i requires 0 <= i < |tags| => RuleSet(tags[i], SrsFile(tags[i])))
  }

  function SiteTags(s: Settings, geoFiles: set<string>): seq<string> {
    PresentGeosites(s.geositeCountries, |s.geositeCountries|, geoFiles)
  }

  function Sets(s: Settings, geoFiles: set<string>): seq<RuleSet> {
    SetsOf(SiteTags(s, geoFiles)) + SetsOf(GeoipTags(s.whitelistCountries))
  }

  const START: seq<SbRule> := [Sniff, Resolve("dns-direct")]

  function ByName(s: Settings, lists: Lists): seq<SbRule> {
    LocalRules(s.locals, |s.locals|) + SuffixRule(lists.bypassDomains, DIRECT)
  }

  function ByPlace(s: Settings, geoFiles: set<string>): seq<SbRule> {
    [Route(IpIsPrivate, DIRECT)] + TagsRule(SiteTags(s, geoFiles)) + TagsRule(GeoipTags(s.whitelistCountries))
  }

  function LegacyRoute(s: Settings, lists: Lists, geoFiles: set<string>): SbRoute {
    SbRoute(START + SuffixRule(lists.forceProxyDomains, PROXY) + ByName(s, lists) + ByPlace(s, geoFiles),
            PROXY, Sets(s, geoFiles), "dns-direct", s.gatewayMode)
  }

  /** singboxRoute: routing rules take the place of the lists. */
  function AnyRoute(s: Settings, lists: Lists, geoFiles: set<string>): SbRoute {
    if s.rules != [] then RouteFromRules(s.rules, s.locals, geoFiles, s.gatewayMode)
    else LegacyRoute(s, lists, geoFiles)
  }

  // ----- every tag is defined -----

  lemma {:induction false} SiteTagsExist(countries: seq<string>, n: nat, geoFiles: set<string>)
    requires n <= |countries|
    ensures forall i :: 0 <= i < |PresentGeosites(countries, n, geoFiles)| ==>
              SrsFile(PresentGeosites(countries, n, geoFiles)[i]) in geoFiles
    ensures forall i :: 0 <= i < n && SrsFile(GeositeTag(countries[i])) in geoFiles ==>
              GeositeTag(countries[i]) in PresentGeosites(countries, n, geoFiles)
    ensures forall tag :: tag in PresentGeosites(countries, n, geoFiles) ==>
              exists i :: 0 <= i < n && tag == GeositeTag(countries[i])
  {
    if n > 0 {
      SiteTagsExist(countries, n - 1, geoFiles);
    }
  }

  lemma SetsDefine(a: seq<string>, b: seq<string>, tag: string)
    ensures Defines(SetsOf(a) + SetsOf(b), tag) <==> tag in a || tag in b
    ensures Defines(SetsOf(a) + SetsOf(b), tag) ==> PathOf(SetsOf(a) + SetsOf(b), tag) == Some(SrsFile(tag))
  {
    var sets := SetsOf(a) + SetsOf(b);
    if tag in a {
      var i :| 0 <= i < |a| && a[i] == tag;
      assert sets[i].tag == tag;
    } else if tag in b {
      var i :| 0 <= i < |b| && b[i] == tag;
      assert sets[|a| + i].tag == tag;
    }
    if Defines(sets, tag) {
      PathOfDefined(sets, tag);
    }
  }

  predicate RouteTagsDefined(rules: seq<SbRule>, sets: seq<RuleSet>) {
    forall i :: 0 <= i < |rules| && rules[i].Route? && rules[i].cond.RuleSetIn? ==>
      forall k :: 0 <= k < |rules[i].cond.tags| ==> Defines(sets, rules[i].cond.tags[k])
  }

  lemma {:induction false} LocalRulesHaveNoSets(locals: seq<LocalDNSRule>, n: nat, sets: seq<RuleSet>)
    requires n <= |locals|
    ensures RouteTagsDefined(LocalRules(locals, n), sets)
  {
    if n > 0 {
      LocalRulesHaveNoSets(locals, n - 1, sets);
    }
  }

  /** Without routing rules every rule set tag used in the route section or in
      the DNS section is defined. */
  lemma LegacyTagsDefined(s: Settings, lists: Lists, link: LinkData, isAddress: string -> bool, geoFiles: set<string>)
    requires s.rules == []
    ensures RouteTagsDefined(AnyRoute(s, lists, geoFiles).rules, AnyRoute(s, lists, geoFiles).ruleSets)
    ensures AllTagsDefined(Section(s, link, isAddress, geoFiles).rules, AnyRoute(s, lists, geoFiles).ruleSets)
  {
    var sets, site, ip := Sets(s, geoFiles), SiteTags(s, geoFiles), GeoipTags(s.whitelistCountries);
    forall tag | tag in site || tag in ip ensures Defines(sets, tag) {
      SetsDefine(site, ip, tag);
    }
    LocalRulesHaveNoSets(s.locals, |s.locals|, sets);
    var names := START + SuffixRule(lists.forceProxyDomains, PROXY) + ByName(s, lists);
    assert RouteTagsDefined(names, sets);
    assert RouteTagsDefined(ByPlace(s, geoFiles), sets);
    LocalRulesHaveNoTags(s.locals, |s.locals|, sets);
    var proxy := ProxyRule(ProxyDomains(link, isAddress));
    AllTagsDefinedConcat(proxy, WhitelistRule(site), sets);
    AllTagsDefinedConcat(LocalDnsRules(s.locals, |s.locals|), proxy + WhitelistRule(site), sets);
  }

  /** Here geoip definitions are written without a look at their files, so every
      definition names a file that exists exactly when the geoip file of every
      whitelisted country does. */
  lemma LegacyFilesExistIff(s: Settings, geoFiles: set<string>)
    ensures (forall i :: 0 <= i < |Sets(s, geoFiles)| ==> Sets(s, geoFiles)[i].path in geoFiles)
       <==> forall i :: 0 <= i < |s.whitelistCountries| ==> SrsFile(GeoipTag(s.whitelistCountries[i])) in geoFiles
  {
    var sets, site, ip := Sets(s, geoFiles), SiteTags(s, geoFiles), GeoipTags(s.whitelistCountries);
    SiteTagsExist(s.geositeCountries, |s.geositeCountries|, geoFiles);
    assert forall i :: 0 <= i < |site| ==> sets[i].path == SrsFile(site[i]);
    assert forall i :: 0 <= i < |ip| ==> sets[|site| + i].path == SrsFile(GeoipTag(s.whitelistCountries[i]));
  }

  // ----- what the section means -----

  ghost predicate UnderAny(net: Net, suffixes: seq<string>, f: Flow) {
    f.domain.Some? && exists i :: 0 <= i < |suffixes| && net.underSuffix(suffixes[i], f.domain.value)
  }

  /** In the geosite data, if present, or the geoip data of a listed country. */
  ghost predicate InWhitelist(net: Net, s: Settings, geoFiles: set<string>, f: Flow) {
    || (exists i :: 0 <= i < |s.geositeCountries| && SiteHolds(net, s.geositeCountries[i], geoFiles, f))
    || (exists i :: 0 <= i < |s.whitelistCountries| && net.srs("geoip-" + s.whitelistCountries[i] + ".srs", f))
  }

  ghost predicate SiteHolds(net: Net, country: string, geoFiles: set<string>, f: Flow) {
    "geosite-" + country + ".srs" in geoFiles && net.srs("geosite-" + country + ".srs", f)
  }

  ghost predicate Direct(net: Net, s: Settings, lists: Lists, geoFiles: set<string>, f: Flow) {
    || AnyLocalHit(SingBox(net, geoFiles), s.locals, |s.locals|, f)
    || UnderAny(net, lists.bypassDomains, f)
    || (f.ip.Some? && net.isPrivate(f.ip.value))
    || InWhitelist(net, s, geoFiles, f)
  }

  lemma DecideSuffix(net: Net, route: SbRoute, domains: seq<string>, outbound: string, rest: seq<SbRule>, f: Flow)
    ensures Decide(net, route, SuffixRule(domains, outbound) + rest, f)
         == if UnderAny(net, domains, f) then outbound else Decide(net, route, rest, f)
  {
    if domains == [] {
      assert SuffixRule(domains, outbound) + rest == rest;
    } else {
      DecideRoute(net, route, DomainSuffixIn(domains), outbound, rest, f);
    }
  }

  lemma DecideTags(net: Net, route: SbRoute, tags: seq<string>, rest: seq<SbRule>, f: Flow)
    requires forall i :: 0 <= i < |tags| ==> PathOf(route.ruleSets, tags[i]) == Some(SrsFile(tags[i]))
    ensures Decide(net, route, TagsRule(tags) + rest, f)
         == if exists i :: 0 <= i < |tags| && net.srs(SrsFile(tags[i]), f) then DIRECT
            else Decide(net, route, rest, f)
  {
    if tags == [] {
      assert TagsRule(tags) + rest == rest;
    } else {
      DecideRoute(net, route, RuleSetIn(tags), DIRECT, rest, f);
    }
  }

  lemma WhitelistTags(net: Net, s: Settings, geoFiles: set<string>, f: Flow)
    ensures InWhitelist(net, s, geoFiles, f)
       <==> || (exists i :: 0 <= i < |SiteTags(s, geoFiles)| && net.srs(SrsFile(SiteTags(s, geoFiles)[i]), f))
            || (exists i :: 0 <= i < |GeoipTags(s.whitelistCountries)|
                            && net.srs(SrsFile(GeoipTags(s.whitelistCountries)[i]), f))
  {
    var site, ip := SiteTags(s, geoFiles), GeoipTags(s.whitelistCountries);
    SiteTagsExist(s.geositeCountries, |s.geositeCountries|, geoFiles);
    forall i | 0 <= i < |s.geositeCountries| && SiteHolds(net, s.geositeCountries[i], geoFiles, f)
      ensures exists k :: 0 <= k < |site| && net.srs(SrsFile(site[k]), f)
    {
      var k :| 0 <= k < |site| && site[k] == GeositeTag(s.geositeCountries[i]);
    }
    forall k | 0 <= k < |site| && net.srs(SrsFile(site[k]), f)
      ensures exists i :: 0 <= i < |s.geositeCountries| && SiteHolds(net, s.geositeCountries[i], geoFiles, f)
    {
      assert site[k] in site;
      var i :| 0 <= i < |s.geositeCountries| && site[k] == GeositeTag(s.geositeCountries[i]);
      assert SiteHolds(net, s.geositeCountries[i], geoFiles, f);
    }
    assert forall i :: 0 <= i < |ip| ==> ip[i] == GeoipTag(s.whitelistCountries[i]);
  }

  lemma DecidePlaces(net: Net, s: Settings, lists: Lists, geoFiles: set<string>, f: Flow)
    ensures Decide(net, LegacyRoute(s, lists, geoFiles), ByPlace(s, geoFiles), f)
         == if (f.ip.Some? && net.isPrivate(f.ip.value)) || InWhitelist(net, s, geoFiles, f) then DIRECT else PROXY
  {
    var route, site, ip := LegacyRoute(s, lists, geoFiles), SiteTags(s, geoFiles), GeoipTags(s.whitelistCountries);
    forall tag | tag in site || tag in ip ensures PathOf(route.ruleSets, tag) == Some(SrsFile(tag)) {
      SetsDefine(site, ip, tag);
    }
    WhitelistTags(net, s, geoFiles, f);
    assert TagsRule(ip) == TagsRule(ip) + [];
    DecideTags(net, route, ip, [], f);
    DecideTags(net, route, site, TagsRule(ip), f);
    Assoc([Route(IpIsPrivate, DIRECT)], TagsRule(site), TagsRule(ip));
    DecideRoute(net, route, IpIsPrivate, DIRECT, TagsRule(site) + TagsRule(ip), f);
  }

  /** For every setting and every flow, once sniffed and resolved: a forced
      domain goes through the proxy whatever else holds, and everything else goes
      direct exactly when it is local, bypassed, private or whitelisted. */
  lemma LegacyMeans(net: Net, s: Settings, lists: Lists, geoFiles: set<string>, f: Flow)
    requires s.rules == []
    ensures var p := Resolved(net, "dns-direct", Sniffed(net, f));
            var route := AnyRoute(s, lists, geoFiles);
            Decide(net, route, route.rules, f)
            == if !UnderAny(net, lists.forceProxyDomains, p) && Direct(net, s, lists, geoFiles, p) then "direct"
               else "proxy"
  {
    var p := Resolved(net, "dns-direct", Sniffed(net, f));
    var route := LegacyRoute(s, lists, geoFiles);
    var force, locals := SuffixRule(lists.forceProxyDomains, PROXY), LocalRules(s.locals, |s.locals|);
    var bypass, places := SuffixRule(lists.bypassDomains, DIRECT), ByPlace(s, geoFiles);
    var r2 := force + (locals + (bypass + places));
    var r1 := [Resolve("dns-direct")] + r2;
    assert route.rules == [Sniff] + r1;
    assert ([Sniff] + r1)[1..] == r1 && r1[1..] == r2;
    DecideSuffix(net, route, lists.forceProxyDomains, PROXY, locals + (bypass + places), p);
    DecideLocals(net, route, s.locals, |s.locals|, geoFiles, bypass + places, p);
    DecideSuffix(net, route, lists.bypassDomains, DIRECT, places, p);
    DecidePlaces(net, s, lists, geoFiles, p);
    assert Decide(net, route, r1, Sniffed(net, f)) == Decide(net, route, r2, p);
  }

  // ----- which names are looked up through the tunnel -----

  /** The rule for the geosite files that are there holds exactly when one of them does. */
  lemma SiteRuleHolds(net: Net, s: Settings, geoFiles: set<string>, domain: string)
    ensures NoneHolds(net, Sets(s, geoFiles), WhitelistRule(SiteTags(s, geoFiles)), domain)
       <==> forall i :: 0 <= i < |s.geositeCountries| ==>
              !SiteHolds(net, s.geositeCountries[i], geoFiles, Query(domain))
  {
    var sets, site, f := Sets(s, geoFiles), SiteTags(s, geoFiles), Query(domain);
    SiteTagsExist(s.geositeCountries, |s.geositeCountries|, geoFiles);
    forall tag | tag in site ensures InRuleSet(net, sets, tag, f) == net.srs(SrsFile(tag), f) {
      SetsDefine(site, GeoipTags(s.whitelistCountries), tag);
    }
    if site != [] {
      NoneHoldsOne(net, sets, DnsRule(RuleSetIn(site), DIRECT_DNS), domain);
    }
    forall i | 0 <= i < |s.geositeCountries| && SiteHolds(net, s.geositeCountries[i], geoFiles, f)
      ensures exists k :: 0 <= k < |site| && InRuleSet(net, sets, site[k], f)
    {
      var k :| 0 <= k < |site| && site[k] == GeositeTag(s.geositeCountries[i]);
    }
    forall k | 0 <= k < |site| && InRuleSet(net, sets, site[k], f)
      ensures exists i :: 0 <= i < |s.geositeCountries| && SiteHolds(net, s.geositeCountries[i], geoFiles, f)
    {
      assert site[k] in site;
      var i :| 0 <= i < |s.geositeCountries| && site[k] == GeositeTag(s.geositeCountries[i]);
      assert SiteHolds(net, s.geositeCountries[i], geoFiles, f);
    }
  }

  /** Without routing rules a name is looked up through the tunnel exactly when there is
      a gateway, a listed country or a local rule at all, no local server answers for it,
      it is not a name of the proxy server, and no geosite file of a listed country that
      is there has it. */
  lemma LegacyThroughTunnelIff(net: Net, s: Settings, lists: Lists, link: LinkData, isAddress: string -> bool,
                               geoFiles: set<string>, domain: string)
    requires s.rules == []
    ensures ServerFor(net, AnyRoute(s, lists, geoFiles).ruleSets, Section(s, link, isAddress, geoFiles), 0, domain)
            == "dns-tunnel"
       <==> && (s.gatewayMode || s.whitelistCountries != [] || s.geositeCountries != [] || s.locals != [])
            && !AskedLocally(net, s.locals, domain)
            && !ServerName(link, isAddress, domain)
            && forall i :: 0 <= i < |s.geositeCountries| ==>
                 !SiteHolds(net, s.geositeCountries[i], geoFiles, Query(domain))
  {
    var sets := Sets(s, geoFiles);
    if !Plain(s) {
      SplitSection(net, sets, s, link, isAddress, geoFiles, domain);
      SiteRuleHolds(net, s, geoFiles, domain);
    } else {
      assert ServerFor(net, sets, Dns([DIRECT_SERVER], [], DIRECT_DNS), 0, domain) == DIRECT_DNS;
      assert TUNNEL[4] == 't' && DIRECT_DNS[4] == 'd';
    }
  }
}
