/** When a generated sing-box configuration refers only to what it defines:
    rule sets, DNS servers and outbounds. sing-box refuses to start otherwise. */
module Closure {
  import opened Text
  import opened Links
  import opened Routing
  import opened SingboxRoute
  import opened SplitDns
  import opened LegacyRoute
  import opened Outbounds
  import opened ConfigGen

  // ----- references -----

  function Tags(cfg: SbConfig): set<string> {
    (set o | o in cfg.outbounds :: o.tag) + (set e | e in cfg.externals)
  }

  predicate RuleDefined(r: SbRule, servers: seq<DnsServer>, tags: set<string>) {
    match r
    case Sniff => true
    case Resolve(server) => HasServer(servers, server)
    case Route(_, outbound) => outbound in tags
  }

  predicate RulesDefined(rules: seq<SbRule>, servers: seq<DnsServer>, tags: set<string>) {
    forall i :: 0 <= i < |rules| ==> RuleDefined(rules[i], servers, tags)
  }

  predicate DetoursDefined(servers: seq<DnsServer>, tags: set<string>) {
    forall i :: 0 <= i < |servers| && servers[i].detour.Some? ==> servers[i].detour.value in tags
  }

  predicate OutboundDetoursDefined(outbounds: seq<SbOutbound>, tags: set<string>) {
    forall i :: 0 <= i < |outbounds| && outbounds[i].detour.Some? ==> outbounds[i].detour.value in tags
  }

  predicate SectionsClosed(route: SbRoute, dns: Dns, tags: set<string>) {
    && RouteTagsDefined(route.rules, route.ruleSets)
    && AllTagsDefined(dns.rules, route.ruleSets)
    && ServersDefined(dns)
    && HasServer(dns.servers, route.defaultDomainResolver)
    && RulesDefined(route.rules, dns.servers, tags)
    && route.final in tags
    && DetoursDefined(dns.servers, tags)
  }

  predicate Closed(cfg: SbConfig) {
    && OutboundDetoursDefined(cfg.outbounds, Tags(cfg))
    && (cfg.route.Some? && cfg.dns.Some? ==> SectionsClosed(cfg.route.value, cfg.dns.value, Tags(cfg)))
  }

  // ----- the condition -----

  /** The rule is compiled: its matcher is known and its geo file is there. */
  predicate Carried(r: RoutingRule, geoFiles: set<string>) {
    match r.matcher
    case Default => false
    case Unsupported => false
    case GeoIP(country) => SrsFile(GeoipTag(country)) in geoFiles
    case Geosite(tag) => SrsFile(GeositeTag(tag)) in geoFiles
    case _ => true
  }

  predicate Known(outbound: string, chainProxy: string, externals: seq<string>) {
    outbound == PROXY || outbound == DIRECT || (chainProxy != "" && outbound == CHAIN_OUT) || outbound in externals
  }

  predicate RulesKnown(rules: seq<RoutingRule>, geoFiles: set<string>, chainProxy: string, externals: seq<string>) {
    && (forall i :: 0 <= i < |rules| && Carried(rules[i], geoFiles) ==> Known(rules[i].outbound, chainProxy, externals))
    && Known(FinalOutbound(rules, |rules|), chainProxy, externals)
  }

  // ----- the outbound tags -----

  lemma TagsOf(cfg: SbConfig, body: Body, chainProxy: string, tag: string)
    requires cfg.outbounds == ProxyOutbounds(body, chainProxy)
    ensures tag in Tags(cfg) <==> Known(tag, chainProxy, cfg.externals)
  {
  }

  lemma DetoursOf(cfg: SbConfig, body: Body, chainProxy: string)
    requires cfg.outbounds == ProxyOutbounds(body, chainProxy)
    ensures OutboundDetoursDefined(cfg.outbounds, Tags(cfg))
  {
  }

  // ----- with routing rules -----

  lemma CompiledRuleTags(rules: seq<RoutingRule>, i: nat, geoFiles: set<string>, servers: seq<DnsServer>,
                         tags: set<string>)
    requires i < |rules|
    ensures RouteTagsDefined(CompiledRule(rules[i], geoFiles), CompiledSets(rules, |rules|, geoFiles))
    ensures RulesDefined(CompiledRule(rules[i], geoFiles), servers, tags)
       <==> (Carried(rules[i], geoFiles) ==> rules[i].outbound in tags)
  {
    SetsCover(rules, |rules|, geoFiles);
    assert Covers(CompiledSets(rules, |rules|, geoFiles), rules[i], geoFiles);
    var c := CompiledRule(rules[i], geoFiles);
    if c != [] {
      assert c[0].outbound == rules[i].outbound;
      assert RulesDefined(c, servers, tags) ==> RuleDefined(c[0], servers, tags);
    }
  }

  predicate CarriedIn(rules: seq<RoutingRule>, n: nat, geoFiles: set<string>, tags: set<string>)
    requires n <= |rules|
  {
    forall i :: 0 <= i < n && Carried(rules[i], geoFiles) ==> rules[i].outbound in tags
  }

  lemma RulesDefinedConcat(a: seq<SbRule>, b: seq<SbRule>, servers: seq<DnsServer>, tags: set<string>)
    ensures RulesDefined(a + b, servers, tags) <==> RulesDefined(a, servers, tags) && RulesDefined(b, servers, tags)
  {
    if RulesDefined(a + b, servers, tags) {
      assert forall i :: 0 <= i < |a| ==> a[i] == (a + b)[i];
      assert forall i :: 0 <= i < |b| ==> b[i] == (a + b)[|a| + i];
    }
  }

  lemma {:induction false} CompiledRulesTags(rules: seq<RoutingRule>, n: nat, geoFiles: set<string>,
                                             servers: seq<DnsServer>, tags: set<string>)
    requires n <= |rules|
    ensures RouteTagsDefined(CompiledRules(rules, n, geoFiles), CompiledSets(rules, |rules|, geoFiles))
    ensures RulesDefined(CompiledRules(rules, n, geoFiles), servers, tags) <==> CarriedIn(rules, n, geoFiles, tags)
  {
    if n > 0 {
      CompiledRulesTags(rules, n - 1, geoFiles, servers, tags);
      CompiledRuleTags(rules, n - 1, geoFiles, servers, tags);
      RulesDefinedConcat(CompiledRules(rules, n - 1, geoFiles), CompiledRule(rules[n - 1], geoFiles), servers, tags);
    }
  }

  lemma {:induction false} LocalRulesGoDirect(locals: seq<LocalDNSRule>, n: nat, servers: seq<DnsServer>,
                                              tags: set<string>)
    requires n <= |locals| && DIRECT in tags
    ensures RulesDefined(SingboxRoute.LocalRules(locals, n), servers, tags)
  {
    if n > 0 {
      LocalRulesGoDirect(locals, n - 1, servers, tags);
    }
  }

  lemma RulesRouteClosed(s: Settings, geoFiles: set<string>, servers: seq<DnsServer>, tags: set<string>)
    requires DIRECT in tags && HasServer(servers, TUNNEL)
    ensures var route := RouteFromRules(s.rules, s.locals, geoFiles, s.gatewayMode);
            && RouteTagsDefined(route.rules, route.ruleSets)
            && (RulesDefined(route.rules, servers, tags) <==> CarriedIn(s.rules, |s.rules|, geoFiles, tags))
  {
    var locals, compiled := SingboxRoute.LocalRules(s.locals, |s.locals|), CompiledRules(s.rules, |s.rules|, geoFiles);
    LocalRulesGoDirect(s.locals, |s.locals|, servers, tags);
    LocalRulesHaveNoSets(s.locals, |s.locals|, CompiledSets(s.rules, |s.rules|, geoFiles));
    CompiledRulesTags(s.rules, |s.rules|, geoFiles, servers, tags);
    RulesDefinedConcat(PREAMBLE, locals, servers, tags);
    RulesDefinedConcat(PREAMBLE + locals, compiled, servers, tags);
  }

  // ----- without routing rules -----

  lemma LegacyRouteClosed(s: Settings, lists: Lists, geoFiles: set<string>, servers: seq<DnsServer>, tags: set<string>)
    requires s.rules == []
    requires DIRECT in tags && PROXY in tags && HasServer(servers, DIRECT_DNS)
    ensures RulesDefined(AnyRoute(s, lists, geoFiles).rules, servers, tags)
  {
    var locals := SingboxRoute.LocalRules(s.locals, |s.locals|);
    LocalRulesGoDirect(s.locals, |s.locals|, servers, tags);
    var force, bypass := SuffixRule(lists.forceProxyDomains, PROXY), SuffixRule(lists.bypassDomains, DIRECT);
    RulesDefinedConcat(locals, bypass, servers, tags);
    RulesDefinedConcat(START, force, servers, tags);
    RulesDefinedConcat(START + force, ByName(s, lists), servers, tags);
    RulesDefinedConcat(START + force + ByName(s, lists), ByPlace(s, geoFiles), servers, tags);
    PlacesGoDirect(s, geoFiles, servers, tags);
  }

  lemma PlacesGoDirect(s: Settings, geoFiles: set<string>, servers: seq<DnsServer>, tags: set<string>)
    requires DIRECT in tags
    ensures RulesDefined(ByPlace(s, geoFiles), servers, tags)
  {
  }

  // ----- the whole configuration -----

  lemma DnsBasics(s: Settings, link: LinkData, isAddress: string -> bool, geoFiles: set<string>, tags: set<string>)
    requires PROXY in tags
    ensures var dns := Section(s, link, isAddress, geoFiles);
            && HasServer(dns.servers, DIRECT_DNS)
            && (s.rules != [] ==> HasServer(dns.servers, TUNNEL))
            && DetoursDefined(dns.servers, tags)
  {
    var servers := Section(s, link, isAddress, geoFiles).servers;
    if Plain(s) {
      assert servers[0].tag == DIRECT_DNS;
    } else {
      assert servers[0].tag == TUNNEL && servers[1].tag == DIRECT_DNS;
    }
  }

  predicate NoneActive(locals: seq<LocalDNSRule>) {
    forall i :: 0 <= i < |locals| ==> !Active(locals[i])
  }

  predicate GeoipsPresent(rules: seq<RoutingRule>, geoFiles: set<string>) {
    forall i :: 0 <= i < |rules| ==> GeoipPresent(rules[i], geoFiles)
  }

  lemma SectionsClosedIff(s: Settings, lists: Lists, link: LinkData, isAddress: string -> bool,
                          geoFiles: set<string>, tags: set<string>)
    requires DIRECT in tags && PROXY in tags
    ensures SectionsClosed(AnyRoute(s, lists, geoFiles), Section(s, link, isAddress, geoFiles), tags)
       <==> && NoneActive(s.locals)
            && GeoipsPresent(s.rules, geoFiles)
            && CarriedIn(s.rules, |s.rules|, geoFiles, tags)
            && FinalOutbound(s.rules, |s.rules|) in tags
  {
    var dns := Section(s, link, isAddress, geoFiles);
    DnsBasics(s, link, isAddress, geoFiles, tags);
    ServersDefinedIff(s, link, isAddress, geoFiles);
    if s.rules == [] {
      LegacyTagsDefined(s, lists, link, isAddress, geoFiles);
      LegacyRouteClosed(s, lists, geoFiles, dns.servers, tags);
    } else {
      DnsTagsDefinedIff(s, link, isAddress, geoFiles);
      RulesRouteClosed(s, geoFiles, dns.servers, tags);
    }
  }

  /** A configuration refers only to what it defines exactly when no local DNS
      rule is active, the geoip file of every direct geoip rule exists, and every
      compiled rule and the last default name an outbound that there is. */
  lemma ConfigClosedIff(s: Settings, lists: Lists, link: LinkData, listenPort: int, chainProxy: string, socksPort: int,
                        dnsPort: int, externals: seq<string>, isAddress: string -> bool, geoFiles: set<string>)
    ensures Closed(WholeConfig(s, lists, link, listenPort, chainProxy, socksPort, dnsPort, externals, isAddress,
                               geoFiles))
       <==> && NoneActive(s.locals)
            && GeoipsPresent(s.rules, geoFiles)
            && RulesKnown(s.rules, geoFiles, chainProxy, externals)
  {
    var cfg := WholeConfig(s, lists, link, listenPort, chainProxy, socksPort, dnsPort, externals, isAddress, geoFiles);
    var body := BodyOf(link, listenPort, s.pinnedHosts);
    DetoursOf(cfg, body, chainProxy);
    forall tag ensures tag in Tags(cfg) <==> Known(tag, chainProxy, externals) {
      TagsOf(cfg, body, chainProxy, tag);
    }
    SectionsClosedIff(s, lists, link, isAddress, geoFiles, Tags(cfg));
  }

  /** Generated sections always name a default resolver, so with hosts pinned to
      addresses looking names up never goes round in a circle. */
  lemma GeneratedHasNoCircle(net: Net, s: Settings, lists: Lists, link: LinkData, listenPort: int, chainProxy: string,
                             socksPort: int, dnsPort: int, externals: seq<string>, isAddress: string -> bool,
                             geoFiles: set<string>)
    requires isAddress(DIRECT_SERVER.server)
    requires forall h :: h in s.pinnedHosts && s.pinnedHosts[h] != "" ==> isAddress(s.pinnedHosts[h])
    ensures var cfg := WholeConfig(s, lists, link, listenPort, chainProxy, socksPort, dnsPort, externals, isAddress,
                                   geoFiles);
            cfg.dns.Some? ==>
              && cfg.route.Some?
              && NoCircle(net, Naming(cfg.dns.value, cfg.route.value.ruleSets,
                                      Some(cfg.route.value.defaultDomainResolver),
                                      ServerAddress(link.address, s.pinnedHosts)), isAddress)
  {
    if NeedsRoute(s, lists) {
      var route := AnyRoute(s, lists, geoFiles);
      NoCircleIff(net, s, link, isAddress, geoFiles, route.ruleSets, Some(route.defaultDomainResolver));
    }
  }
}
