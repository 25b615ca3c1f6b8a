/** The config generator itself (internal/tunnel/configgen.go): the loops that
    append rules, definitions and servers one by one, tied to the functions that
    say what the sections mean, and a condition for a whole configuration to
    refer to nothing that it does not define. */
module ConfigGen {
  import opened Text
  import opened Links
  import opened Routing
  import opened SingboxRoute
  import opened SplitDns
  import opened LegacyRoute
  import opened Outbounds
  import X = XrayRoute

  datatype SbConfig = SbConfig(
    inbounds: seq<SbInbound>,
    outbounds: seq<SbOutbound>,
    externals: seq<string>,  // tags of further outbounds, read from URLs
    route: Option<SbRoute>,
    dns: Option<Dns>)

  // ----- specification -----

  /** In gateway mode the geosite countries default to the whitelisted ones. */
  function Widened(s: Settings): Settings {
    if s.gatewayMode && s.geositeCountries == [] && s.whitelistCountries != [] then
      s.(geositeCountries := s.whitelistCountries)
    else s
  }

  predicate NeedsRoute(s: Settings, lists: Lists) {
    || s.gatewayMode || s.rules != [] || s.whitelistCountries != [] || lists.bypassDomains != []
    || s.geositeCountries != [] || s.locals != []
  }

  function Inbounds(gatewayMode: bool, dnsPort: int, listenPort: int, socksPort: int): seq<SbInbound> {
    (if gatewayMode then
       [SbInbound("tun", "tun-in", 0), SbInbound("direct", "dns-in", if dnsPort == 0 then 53 else dnsPort)]
     else [])
    + [MixedInbound(listenPort, socksPort)]
  }

  /** What singboxRouteFromRules has collected so far. */
  datatype Compilation = Compilation(rules: seq<SbRule>, ruleSets: seq<RuleSet>, final: string)

  function CompileStep(acc: Compilation, r: RoutingRule, geoFiles: set<string>): Compilation {
    Compilation(acc.rules + CompiledRule(r, geoFiles), SetsAfter(acc.ruleSets, r, geoFiles),
                if r.matcher.Default? then r.outbound else acc.final)
  }

  function CompiledSoFar(rules: seq<RoutingRule>, n: nat, geoFiles: set<string>): Compilation
    requires n <= |rules|
  {
    Compilation(CompiledRules(rules, n, geoFiles), CompiledSets(rules, n, geoFiles), FinalOutbound(rules, n))
  }

  ghost predicate TagsSeen(sets: seq<RuleSet>, seen: set<string>) {
    forall tag :: tag in seen <==> Defines(sets, tag)
  }

  // ----- the generator -----

  class ConfigGenerator {
    const whitelistCountries: seq<string>
    var geositeCountries: seq<string>
    const bypassDomains: seq<string>
    const forceProxyDomains: seq<string>
    const dnsUpstream: seq<string>
    const socksPort: int
    const dnsPort: int
    const gatewayMode: bool
    const routingRules: seq<RuleText>
    ghost const rules: seq<RoutingRule>  // what the matcher strings of routingRules say
    const localDNSRules: seq<LocalDNSRule>
    const pinnedHosts: map<string, string>
    const externals: seq<string>
    const geoFiles: set<string>          // names of the files in the geo directory
    const geositeDat: bool               // whether xray's geosite.dat was found
    const isAddress: string -> bool      // net.ParseIP

    constructor (s: Settings, lists: Lists, texts: seq<RuleText>, socksPort: int, dnsPort: int,
                 externals: seq<string>, geoFiles: set<string>, geositeDat: bool, isAddress: string -> bool)
      requires s.rules == Parsed(texts)
      ensures Valid() && routingRules == texts && SettingsNow() == s && ListsNow() == lists
      ensures this.socksPort == socksPort && this.dnsPort == dnsPort && this.externals == externals
      ensures this.geoFiles == geoFiles && this.geositeDat == geositeDat && this.isAddress == isAddress
    {
      whitelistCountries, geositeCountries := s.whitelistCountries, s.geositeCountries;
      bypassDomains, forceProxyDomains := lists.bypassDomains, lists.forceProxyDomains;
      dnsUpstream, gatewayMode, localDNSRules, pinnedHosts := s.dnsUpstream, s.gatewayMode, s.locals, s.pinnedHosts;
      routingRules, rules := texts, s.rules;
      this.socksPort, this.dnsPort, this.externals := socksPort, dnsPort, externals;
      this.geoFiles, this.geositeDat, this.isAddress := geoFiles, geositeDat, isAddress;
    }

    ghost predicate Valid() {
      |rules| == |routingRules|
      && forall k {:trigger routingRules[k]} :: 0 <= k < |rules| ==>
           rules[k] == RoutingRule(Parse(routingRules[k].matcher), routingRules[k].outbound)
    }

    ghost function SettingsNow(): Settings
      reads `geositeCountries
    {
      Settings(whitelistCountries, geositeCountries, dnsUpstream, gatewayMode, rules,
               localDNSRules, pinnedHosts)
    }

    function ListsNow(): Lists {
      Lists(forceProxyDomains, bypassDomains)
    }

    /** The geo file under a tag, as a definition. */
    method LocalRuleSet(tag: string) returns (rs: Option<RuleSet>)
      ensures rs == RuleSetIfPresent(tag, geoFiles)
      ensures rs == if tag + ".srs" in geoFiles then Some(RuleSet(tag, tag + ".srs")) else None
    {
      var path := tag + ".srs";
      if path !in geoFiles {
        return None;
      }
      return Some(RuleSet(tag, path));
    }

    /** ruleSetForMatcher. */
    method RuleSetFor(matcher: string) returns (rs: Option<RuleSet>)
      ensures rs == RuleSetForMatcher(Parse(matcher), geoFiles)
    {
      var parts := Cut(matcher, ':');
      if parts.None? {
        return None;
      }
      var typ, val := parts.value.0, parts.value.1;
      if typ == "geoip" {
        rs := LocalRuleSet("geoip-" + val);
      } else if typ == "geosite" {
        rs := LocalRuleSet("geosite-" + val);
      } else {
        rs := None;
      }
    }

    /** singboxRuleFromMatcher. */
    method SingboxRuleFor(matcher: string, outbound: string) returns (rule: Option<SbRule>)
      ensures rule == RuleFromMatcher(Parse(matcher), outbound, geoFiles)
    {
      var parts := Cut(matcher, ':');
      if parts.None? {
        return None;
      }
      var typ, val := parts.value.0, parts.value.1;
      if typ == "geoip" {
        var rs := RuleSetFor(matcher);
        if rs.None? {
          return None;
        }
        return Some(Route(RuleSetIn(["geoip-" + val]), outbound));
      } else if typ == "geosite" {
        var rs := RuleSetFor(matcher);
        if rs.None? {
          return None;
        }
        return Some(Route(RuleSetIn(["geosite-" + val]), outbound));
      } else if typ == "domain" {
        return Some(Route(DomainIn([val]), outbound));
      } else if typ == "domain_suffix" {
        return Some(Route(DomainSuffixIn([val]), outbound));
      } else if typ == "ip_cidr" {
        return Some(Route(IpCidrIn([val]), outbound));
      }
      return None;
    }

    /** The loop over the local DNS rules that both route sections share. */
    method AppendLocalRules(before: seq<SbRule>) returns (rules: seq<SbRule>)
      ensures rules == before + LocalRules(localDNSRules, |localDNSRules|)
    {
      rules := before;
      for i := 0 to |localDNSRules|
        invariant rules == before + LocalRules(localDNSRules, i)
      {
        if |localDNSRules[i].domains| == 0 {
          continue;
        }
        Assoc(before, LocalRules(localDNSRules, i), LocalRule(localDNSRules[i]));
        rules := rules + [Route(DomainSuffixIn(localDNSRules[i].domains), "direct")];
      }
    }

    /** The body of the loop in singboxRouteFromRules: a default becomes the final
        outbound, any other rule is appended with the definition it needs. */
    method AppendRule(i: nat, acc: Compilation, seen: set<string>)
      returns (next: Compilation, nowSeen: set<string>)
      requires Valid() && i < |rules| && TagsSeen(acc.ruleSets, seen)
      ensures next == CompileStep(acc, rules[i], geoFiles)
      ensures TagsSeen(next.ruleSets, nowSeen)
    {
      var rule := routingRules[i];
      next, nowSeen := acc, seen;
      if rule.matcher == "default" {
        next := acc.(final := rule.outbound);
        return;
      }
      var sbRule := SingboxRuleFor(rule.matcher, rule.outbound);
      if sbRule.None? {
        return;
      }
      var rs := RuleSetFor(rule.matcher);
      next := acc.(rules := acc.rules + [sbRule.value]);
      if rs.Some? && rs.value.tag !in seen {
        nowSeen := seen + {rs.value.tag};
        DefinesOneMore(acc.ruleSets, rs.value);
        next := next.(ruleSets := acc.ruleSets + [rs.value]);
      }
    }

    /** singboxRouteFromRules: one pass over the rules that collects the compiled
        rules, the definitions they need, and the last default. */
    method SingboxRouteFromRules() returns (route: SbRoute)
      requires Valid()
      ensures route == RouteFromRules(rules, localDNSRules, geoFiles, gatewayMode)
    {
      var before := AppendLocalRules([Sniff, Resolve("dns-tunnel"), Route(IpIsPrivate, "direct")]);
      var acc, seen := Compilation([], [], "proxy"), {};
      for i := 0 to |routingRules|
        invariant acc == CompiledSoFar(rules, i, geoFiles) && TagsSeen(acc.ruleSets, seen)
      {
        acc, seen := AppendRule(i, acc, seen);
      }
      route := SbRoute(before + acc.rules, acc.final, acc.ruleSets, "dns-direct", gatewayMode);
    }

    /** xrayRuleFromMatcher. */
    method XrayRuleFor(matcher: string, outbound: string) returns (rule: Option<X.XrRule>)
      ensures rule == X.RuleFromMatcher(Parse(matcher), outbound, geositeDat)
    {
      var parts := Cut(matcher, ':');
      if parts.None? {
        return None;
      }
      var typ, val := parts.value.0, parts.value.1;
      if typ == "geoip" {
        return Some(X.XrRule(Some(["geoip:" + val]), None, None, outbound));
      } else if typ == "geosite" {
        if !geositeDat {
          return None;
        }
        return Some(X.XrRule(None, Some(["geosite:" + val]), None, outbound));
      } else if typ == "domain" {
        return Some(X.XrRule(None, Some(["full:" + val]), None, outbound));
      } else if typ == "domain_suffix" {
        return Some(X.XrRule(None, Some(["domain:" + val]), None, outbound));
      } else if typ == "ip_cidr" {
        return Some(X.XrRule(Some([val]), None, None, outbound));
      }
      return None;
    }

    method PrefixDomains(domains: seq<string>) returns (prefixed: seq<string>)
      ensures prefixed == X.Prefixed(domains)
    {
      prefixed := [];
      for j := 0 to |domains|
        invariant prefixed == X.Prefixed(domains)[..j]
      {
        prefixed := prefixed + ["domain:" + domains[j]];
      }
    }

    method XrayLocalRules(before: seq<X.XrRule>) returns (rules: seq<X.XrRule>)
      ensures rules == before + X.LocalRules(localDNSRules, |localDNSRules|)
    {
      rules := before;
      for i := 0 to |localDNSRules|
        invariant rules == before + X.LocalRules(localDNSRules, i)
      {
        if |localDNSRules[i].domains| == 0 {
          continue;
        }
        var domains := PrefixDomains(localDNSRules[i].domains);
        rules := rules + [X.XrRule(None, Some(domains), None, "direct")];
      }
    }

    /** The body of the loop in xrayRouteFromRules. */
    method XrayAppendRule(i: nat, before: seq<X.XrRule>, final: string)
      returns (nextRules: seq<X.XrRule>, nextFinal: string)
      requires Valid() && i < |rules|
      ensures nextRules == before + X.CompiledRule(rules[i], geositeDat)
      ensures nextFinal == if rules[i].matcher.Default? then rules[i].outbound else final
    {
      var rule := routingRules[i];
      nextRules, nextFinal := before, final;
      if rule.matcher == "default" {
        nextFinal := rule.outbound;
        return;
      }
      var xrayRule := XrayRuleFor(rule.matcher, rule.outbound);
      if xrayRule.Some? {
        nextRules := before + [xrayRule.value];
      }
    }

    /** xrayRouteFromRules. */
    method XrayRouteFromRules() returns (route: X.XrRoute)
      requires Valid()
      ensures route == X.RouteFromRules(rules, localDNSRules, geositeDat)
      ensures route.domainStrategy == "IPIfNonMatch"
    {
      var blocks := ["10.0.0.0/8", "172.16.0.0/12", "192.168.0.0/16", "127.0.0.0/8", "fc00::/7", "::1/128"];
      var before := XrayLocalRules([X.XrRule(Some(blocks), None, None, "direct")]);
      var compiled: seq<X.XrRule>, final := [], "proxy";
      for i := 0 to |routingRules|
        invariant compiled == X.CompiledRules(rules, i, geositeDat) && final == FinalOutbound(rules, i)
      {
        compiled, final := XrayAppendRule(i, compiled, final);
      }
      route := X.XrRoute(before + compiled + [X.XrRule(None, None, Some("tcp,udp"), final)], "IPIfNonMatch");
    }

    /** The loop over the geosite countries: the tags whose file is there. */
    method GeositeTags() returns (tags: seq<string>)
      ensures tags == SiteTags(SettingsNow(), geoFiles)
    {
      tags := [];
      for i := 0 to |geositeCountries|
        invariant tags == PresentGeosites(geositeCountries, i, geoFiles)
      {
        if "geosite-" + geositeCountries[i] + ".srs" in geoFiles {
          tags := tags + ["geosite-" + geositeCountries[i]];
        }
      }
    }

    /** singboxGeositeRuleSets. */
    method GeositeRuleSets() returns (ruleSets: seq<RuleSet>)
      ensures ruleSets == SetsOf(SiteTags(SettingsNow(), geoFiles))
    {
      ruleSets := [];
      for i := 0 to |geositeCountries|
        invariant ruleSets == SetsOf(PresentGeosites(geositeCountries, i, geoFiles))
      {
        var tag := "geosite-" + geositeCountries[i];
        if tag + ".srs" in geoFiles {
          ruleSets := ruleSets + [RuleSet(tag, tag + ".srs")];
        }
      }
    }

    method WhitelistTags() returns (tags: seq<string>)
      ensures tags == GeoipTags(whitelistCountries)
    {
      tags := [];
      for i := 0 to |whitelistCountries|
        invariant tags == GeoipTags(whitelistCountries)[..i]
      {
        tags := tags + ["geoip-" + whitelistCountries[i]];
      }
    }

    /** The definitions at the end of singboxRoute: the geosite ones that exist,
        then one for every whitelisted country. */
    method RuleSetDefinitions() returns (ruleSets: seq<RuleSet>)
      ensures ruleSets == Sets(SettingsNow(), geoFiles)
    {
      ruleSets := GeositeRuleSets();
      ghost var sites := ruleSets;
      for i := 0 to |whitelistCountries|
        invariant ruleSets == sites + SetsOf(GeoipTags(whitelistCountries))[..i]
      {
        var tag := "geoip-" + whitelistCountries[i];
        ruleSets := ruleSets + [RuleSet(tag, tag + ".srs")];
      }
    }

    /** The domain rules of singboxRoute: forced, local and bypassed domains. */
    method NameRules() returns (rules: seq<SbRule>)
      ensures rules == START + SuffixRule(forceProxyDomains, PROXY) + ByName(SettingsNow(), ListsNow())
    {
      rules := [Sniff, Resolve("dns-direct")];
      if |forceProxyDomains| > 0 {
        rules := rules + [Route(DomainSuffixIn(forceProxyDomains), "proxy")];
      }
      ghost var forced := rules;
      rules := AppendLocalRules(rules);
      if |bypassDomains| > 0 {
        rules := rules + [Route(DomainSuffixIn(bypassDomains), "direct")];
      }
      assert rules == forced + ByName(SettingsNow(), ListsNow());
    }

    /** The other rules of singboxRoute: private addresses and whole countries. */
    method PlaceRules() returns (rules: seq<SbRule>)
      ensures rules == ByPlace(SettingsNow(), geoFiles)
    {
      rules := [Route(IpIsPrivate, "direct")];
      var sites := GeositeTags();
      if |sites| > 0 {
        rules := rules + [Route(RuleSetIn(sites), "direct")];
      }
      var countries := WhitelistTags();
      if |countries| > 0 {
        rules := rules + [Route(RuleSetIn(countries), "direct")];
      }
    }

    /** singboxRoute. */
    method RouteSection() returns (route: SbRoute)
      requires Valid()
      ensures route == AnyRoute(SettingsNow(), ListsNow(), geoFiles)
      ensures route.defaultDomainResolver == "dns-direct" && route.autoDetectInterface == gatewayMode
    {
      if |routingRules| > 0 {
        route := SingboxRouteFromRules();
        return;
      }
      var names := NameRules();
      var places := PlaceRules();
      var ruleSets := RuleSetDefinitions();
      route := SbRoute(names + places, "proxy", ruleSets, "dns-direct", gatewayMode);
    }

    /** The names that singboxDNS collects from a link, each once. */
    method ProxyNames(link: LinkData) returns (names: seq<string>)
      ensures names == ProxyDomains(link, isAddress)
      ensures forall x :: x in names <==> x in [link.address, link.sni, link.host] && x != "" && !isAddress(x)
      ensures forall i, j :: 0 <= i < j < |names| ==> names[i] != names[j]
    {
      var candidates := [link.address, link.sni, link.host];
      var seen: set<string> := {};
      names := [];
      for i := 0 to 3
        invariant names == NamesOf(candidates, i, isAddress)
        invariant forall c :: c in seen <==> c != "" && c in candidates[..i]
      {
        assert candidates[..i + 1] == candidates[..i] + [candidates[i]];
        var candidate := candidates[i];
        if candidate == "" || candidate in seen {
          continue;
        }
        seen := seen + {candidate};
        if !isAddress(candidate) {
          names := names + [candidate];
        }
      }
      ProxyDomainsMean(link, isAddress);
    }

    /** proxyDNSServer. */
    method TunnelDnsServer() returns (server: string)
      ensures server == ProxyDnsServer(dnsUpstream, 0)
      ensures (exists i :: 0 <= i < |dnsUpstream| && server == dnsUpstream[i] && server !in ["1.1.1.1", "1.0.0.1"]
                           && forall j :: 0 <= j < i ==> dnsUpstream[j] in ["1.1.1.1", "1.0.0.1"])
              || ((forall i :: 0 <= i < |dnsUpstream| ==> dnsUpstream[i] in ["1.1.1.1", "1.0.0.1"])
                  && server == if dnsUpstream == [] then "8.8.8.8" else dnsUpstream[|dnsUpstream| - 1])
    {
      for i := 0 to |dnsUpstream|
        invariant ProxyDnsServer(dnsUpstream, 0) == ProxyDnsServer(dnsUpstream, i)
        invariant forall j :: 0 <= j < i ==> dnsUpstream[j] in ["1.1.1.1", "1.0.0.1"]
      {
        if !(dnsUpstream[i] in {"1.1.1.1", "1.0.0.1"}) {
          return dnsUpstream[i];
        }
      }
      if |dnsUpstream| > 0 {
        return dnsUpstream[|dnsUpstream| - 1];
      }
      return "8.8.8.8";
    }

    /** What singboxDNS derives from one routing rule. */
    method DirectDnsRule(i: nat) returns (dnsRules: seq<DnsRule>)
      requires Valid() && i < |rules|
      ensures dnsRules == DirectRule(rules[i], geoFiles)
    {
      var rule := routingRules[i];
      dnsRules := [];
      if rule.outbound != "direct" || rule.matcher == "default" {
        return;
      }
      var parts := Cut(rule.matcher, ':');
      if parts.None? {
        return;
      }
      var typ, val := parts.value.0, parts.value.1;
      if typ == "geosite" {
        if "geosite-" + val + ".srs" in geoFiles {
          dnsRules := [DnsRule(RuleSetIn(["geosite-" + val]), "dns-direct")];
        }
      } else if typ == "geoip" {
        dnsRules := [DnsRule(RuleSetIn(["geoip-" + val]), "dns-direct")];
      } else if typ == "domain_suffix" {
        dnsRules := [DnsRule(DomainSuffixIn([val]), "dns-direct")];
      } else if typ == "domain" {
        dnsRules := [DnsRule(DomainIn([val]), "dns-direct")];
      }
    }

    method DirectDnsRules() returns (dnsRules: seq<DnsRule>)
      requires Valid()
      ensures dnsRules == DirectRules(rules, |rules|, geoFiles)
    {
      dnsRules := [];
      for i := 0 to |routingRules|
        invariant dnsRules == DirectRules(rules, i, geoFiles)
      {
        var more := DirectDnsRule(i);
        dnsRules := dnsRules + more;
      }
    }

    /** The loop over local DNS rules in singboxDNS. It also appends a server for
        each active rule to the list it is given, but returns the longer list
        under a name of its own, as appending to a slice does. */
    method LocalServersAndRules(servers: seq<DnsServer>)
      returns (extended: seq<DnsServer>, rules: seq<DnsRule>)
      ensures rules == LocalDnsRules(localDNSRules, |localDNSRules|)
      ensures |extended| == |servers| + |rules| && servers <= extended
      ensures forall i :: 0 <= i < |rules| ==> extended[|servers| + i].tag == rules[i].server
      ensures forall i :: 0 <= i < |rules| ==>
                ForLocal(extended[|servers| + i], rules[i], localDNSRules)
    {
      extended, rules := servers, [];
      for i := 0 to |localDNSRules|
        invariant rules == LocalDnsRules(localDNSRules, i)
        invariant |extended| == |servers| + |rules| && servers <= extended
        invariant forall k :: 0 <= k < |rules| ==> extended[|servers| + k].tag == rules[k].server
        invariant forall j :: 0 <= j < |rules| ==>
                    ForLocal(extended[|servers| + j], rules[j], localDNSRules)
      {
        var rule := localDNSRules[i];
        if rule.server == "" || |rule.domains| == 0 {
          continue;
        }
        var tag := "dns-local-" + Itoa(i);
        var server, dnsRule := DnsServer(tag, "udp", rule.server, None), DnsRule(DomainSuffixIn(rule.domains), tag);
        LocalAt(localDNSRules, i);
        extended := extended + [server];
        rules := rules + [dnsRule];
      }
    }

    /** The part of singboxDNS that depends on routing rules or countries. */
    method DerivedDnsRules() returns (dnsRules: seq<DnsRule>)
      requires Valid()
      ensures dnsRules == DerivedRules(SettingsNow(), geoFiles)
    {
      if |routingRules| > 0 {
        dnsRules := DirectDnsRules();
        return;
      }
      dnsRules := [];
      if |geositeCountries| > 0 {
        var tags := GeositeTags();
        if |tags| > 0 {
          dnsRules := [DnsRule(RuleSetIn(tags), "dns-direct")];
        }
      }
    }

    /** singboxDNS. The section is built around the server list before the local
        servers are appended to it, and keeps that list. */
    method SingboxDns(link: LinkData) returns (dns: Dns)
      requires Valid()
      ensures dns == Section(SettingsNow(), link, isAddress, geoFiles)
      ensures var direct := DnsServer("dns-direct", "udp", "1.1.1.1", None);
              if gatewayMode || geositeCountries != [] || whitelistCountries != [] || routingRules != []
                 || localDNSRules != []
              then
                && dns.final == "dns-tunnel" && |dns.servers| == 2 && dns.servers[1] == direct
                && dns.servers[0].tag == "dns-tunnel" && dns.servers[0].kind == "https"
                && dns.servers[0].detour == Some("proxy")
                && dns.servers[0].server == ProxyDnsServer(dnsUpstream, 0)
              else dns == Dns([direct], [], "dns-direct")
    {
      var countries := geositeCountries;
      if |countries| == 0 {
        countries := whitelistCountries;
      }
      if !gatewayMode && |countries| == 0 && |routingRules| == 0 && |localDNSRules| == 0 {
        return Dns([DnsServer("dns-direct", "udp", "1.1.1.1", None)], [], "dns-direct");
      }
      var tunnelServer := TunnelDnsServer();
      var servers := [DnsServer("dns-tunnel", "https", tunnelServer, Some("proxy")),
                      DnsServer("dns-direct", "udp", "1.1.1.1", None)];
      dns := Dns(servers, [], "dns-tunnel");
      var names := ProxyNames(link);
      var dnsRules: seq<DnsRule> := [];
      if |names| > 0 {
        dnsRules := [DnsRule(DomainIn(names), "dns-direct")];
      }
      var derived := DerivedDnsRules();
      dnsRules := dnsRules + derived;
      var localRules;
      servers, localRules := LocalServersAndRules(servers);
      dnsRules := localRules + dnsRules;
      dns := dns.(rules := dnsRules);
    }

    /** generateSingBox. */
    method GenerateSingBox(link: Link) returns (cfg: SbConfig)
      requires Valid()
      modifies `geositeCountries
      ensures SettingsNow() == Widened(old(SettingsNow()))
      ensures cfg.outbounds == ProxyOutbounds(BodyOf(link.data, link.listenPort, pinnedHosts), link.chainProxy)
      ensures cfg.externals == externals
      ensures cfg.route.Some? ==> cfg.route.value == AnyRoute(SettingsNow(), ListsNow(), geoFiles)
      ensures cfg.dns.Some? ==> cfg.dns.value == Section(SettingsNow(), link.data, isAddress, geoFiles)
      ensures geositeCountries
           == if gatewayMode && old(geositeCountries) == [] then whitelistCountries else old(geositeCountries)
      ensures var sections := gatewayMode || routingRules != [] || whitelistCountries != [] || bypassDomains != []
                              || old(geositeCountries) != [] || localDNSRules != [];
              (cfg.route.Some? <==> sections) && (cfg.dns.Some? <==> sections)
      ensures var port := if link.listenPort != 0 then link.listenPort else if socksPort != 0 then socksPort else 2801;
              var mixed := SbInbound("mixed", "mixed-in", port);
              cfg.inbounds
                == if gatewayMode
                   then [SbInbound("tun", "tun-in", 0),
                         SbInbound("direct", "dns-in", if dnsPort == 0 then 53 else dnsPort), mixed]
                   else [mixed]
      ensures cfg == WholeConfig(SettingsNow(), ListsNow(), link.data, link.listenPort, link.chainProxy,
                                 socksPort, dnsPort, externals, isAddress, geoFiles)
    {
      if gatewayMode && |geositeCountries| == 0 && |whitelistCountries| > 0 {
        geositeCountries := whitelistCountries;
      }
      var inbounds: seq<SbInbound> := [];
      if gatewayMode {
        var port := if dnsPort == 0 then 53 else dnsPort;
        inbounds := [SbInbound("tun", "tun-in", 0), SbInbound("direct", "dns-in", port)];
      }
      inbounds := inbounds + [MixedInbound(link.listenPort, socksPort)];
      var outbounds := ProxyOutbounds(BodyOf(link.data, link.listenPort, pinnedHosts), link.chainProxy);
      cfg := SbConfig(inbounds, outbounds, externals, None, None);
      if gatewayMode || |routingRules| > 0 || |whitelistCountries| > 0 || |bypassDomains| > 0
         || |geositeCountries| > 0 || |localDNSRules| > 0
      {
        var route := RouteSection();
        var dns := SingboxDns(link.data);
        cfg := cfg.(route := Some(route), dns := Some(dns));
      }
    }
  }

  /** The server and the rule are those of one of the local DNS rules. */
  ghost predicate ForLocal(server: DnsServer, rule: DnsRule, locals: seq<LocalDNSRule>) {
    exists k :: 0 <= k < |locals| && rule == DnsRule(DomainSuffixIn(locals[k].domains), server.tag)
                && server == DnsServer("dns-local-" + Itoa(k), "udp", locals[k].server, None)
  }

  lemma LocalAt(locals: seq<LocalDNSRule>, k: nat)
    requires k < |locals|
    ensures var tag := "dns-local-" + Itoa(k);
            ForLocal(DnsServer(tag, "udp", locals[k].server, None), DnsRule(DomainSuffixIn(locals[k].domains), tag),
                     locals)
  {
  }

  function WholeConfig(s: Settings, lists: Lists, link: LinkData, listenPort: int, chainProxy: string, socksPort: int,
                       dnsPort: int, externals: seq<string>, isAddress: string -> bool, geoFiles: set<string>): SbConfig
  {
    SbConfig(Inbounds(s.gatewayMode, dnsPort, listenPort, socksPort),
             ProxyOutbounds(BodyOf(link, listenPort, s.pinnedHosts), chainProxy),
             externals,
             if NeedsRoute(s, lists) then Some(AnyRoute(s, lists, geoFiles)) else None,
             if NeedsRoute(s, lists) then Some(Section(s, link, isAddress, geoFiles)) else None)
  }

  lemma DefinesOneMore(sets: seq<RuleSet>, rs: RuleSet)
    ensures forall tag :: Defines(sets + [rs], tag) <==> Defines(sets, tag) || tag == rs.tag
  {
    var more := sets + [rs];
    forall tag | Defines(sets, tag) || tag == rs.tag ensures Defines(more, tag) {
      if tag == rs.tag {
        assert more[|sets|].tag == tag;
      } else {
        var i :| 0 <= i < |sets| && sets[i].tag == tag;
        assert more[i].tag == tag;
      }
    }
  }
}
