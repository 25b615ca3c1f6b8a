/** The sing-box DNS section (internal/tunnel/configgen.go, singboxDNS): which
    names are looked up directly and which through the tunnel, whether the
    section refers only to what is defined, and why looking up the tunnel's own
    server never needs the tunnel. */
module SplitDns {
  import opened Text
  import opened Links
  import opened Routing
  import opened SingboxRoute
  import opened Outbounds

  datatype DnsServer = DnsServer(tag: string, kind: string, server: string, detour: Option<string>)

  datatype DnsRule = DnsRule(cond: Condition, server: string)

  datatype Dns = Dns(servers: seq<DnsServer>, rules: seq<DnsRule>, final: string)

  const TUNNEL: string := "dns-tunnel"
  const DIRECT_DNS: string := "dns-direct"

  /** The settings of the generator that the section depends on. */
  datatype Settings = Settings(
    whitelistCountries: seq<string>,
    geositeCountries: seq<string>,
    dnsUpstream: seq<string>,
    gatewayMode: bool,
    rules: seq<RoutingRule>,
    locals: seq<LocalDNSRule>,
    pinnedHosts: map<string, string>)

  // ----- building the section -----

  predicate Cloudflare(server: string) {
    server == "1.1.1.1" || server == "1.0.0.1"
  }

  /** proxyDNSServer: the first upstream that is not Cloudflare's, else the last one. */
  function ProxyDnsServer(upstream: seq<string>, n: nat): string
    requires n <= |upstream|
    decreases |upstream| - n
  {
    if n < |upstream| then
      if !Cloudflare(upstream[n]) then upstream[n] else ProxyDnsServer(upstream, n + 1)
    else if upstream != [] then upstream[|upstream| - 1]
    else "8.8.8.8"
  }

  function TunnelServer(upstream: seq<string>): DnsServer {
    DnsServer(TUNNEL, "https", ProxyDnsServer(upstream, 0), Some(PROXY))
  }

  const DIRECT_SERVER: DnsServer := DnsServer(DIRECT_DNS, "udp", "1.1.1.1", None)

  /** The server names of the link, each once, without bare addresses. */
  function ProxyDomains(link: LinkData, isAddress: string -> bool): seq<string> {
    NamesOf([link.address, link.sni, link.host], 3, isAddress)
  }

  function NamesOf(candidates: seq<string>, n: nat, isAddress: string -> bool): seq<string>
    requires n <= |candidates|
  {
    if n == 0 then []
    else
      var before, c := NamesOf(candidates, n - 1, isAddress), candidates[n - 1];
      if c == "" || c in candidates[..n - 1] || isAddress(c) then before else before + [c]
  }

  function ProxyRule(names: seq<string>): seq<DnsRule> {
    if names == [] then [] else [DnsRule(DomainIn(names), DIRECT_DNS)]
  }

  /** What a direct routing rule adds. A geoip rule is added without a look at
      its file. */
  function DirectRule(r: RoutingRule, geoFiles: set<string>): seq<DnsRule> {
    if r.outbound != DIRECT then []
    else
      match r.matcher
      case Geosite(tag) =>
        if SrsFile(GeositeTag(tag)) in geoFiles then [DnsRule(RuleSetIn([GeositeTag(tag)]), DIRECT_DNS)] else []
      case GeoIP(country) => [DnsRule(RuleSetIn([GeoipTag(country)]), DIRECT_DNS)]
      case DomainSuffix(suffix) => [DnsRule(DomainSuffixIn([suffix]), DIRECT_DNS)]
      case Domain(name) => [DnsRule(DomainIn([name]), DIRECT_DNS)]
      case _ => []
  }

  function DirectRules(rules: seq<RoutingRule>, n: nat, geoFiles: set<string>): seq<DnsRule>
    requires n <= |rules|
  {
    if n == 0 then [] else DirectRules(rules, n - 1, geoFiles) + DirectRule(rules[n - 1], geoFiles)
  }

  /** The geosite tags of those countries whose file exists. */
  function PresentGeosites(countries: seq<string>, n: nat, geoFiles: set<string>): seq<string>
    requires n <= |countries|
  {
    if n == 0 then []
    else
      var tag := GeositeTag(countries[n - 1]);
      PresentGeosites(countries, n - 1, geoFiles) + if SrsFile(tag) in geoFiles then [tag] else []
  }

  function WhitelistRule(tags: seq<string>): seq<DnsRule> {
    if tags == [] then [] else [DnsRule(RuleSetIn(tags), DIRECT_DNS)]
  }

  predicate Active(local: LocalDNSRule) {
    local.server != "" && local.domains != []
  }

  function LocalTag(i: nat): string {
    "dns-local-" + Itoa(i)
  }

  function LocalDnsRules(locals: seq<LocalDNSRule>, n: nat): seq<DnsRule>
    requires n <= |locals|
  {
    if n == 0 then []
    else
      LocalDnsRules(locals, n - 1)
      + if Active(locals[n - 1]) then [DnsRule(DomainSuffixIn(locals[n - 1].domains), LocalTag(n - 1))] else []
  }

  /** Nothing to split: no gateway, no countries, no rules, no local domains. */
  predicate Plain(s: Settings) {
    !s.gatewayMode && s.geositeCountries == [] && s.whitelistCountries == [] && s.rules == [] && s.locals == []
  }

  /** The rules derived from routing rules when there are any, else from the whitelist. */
  function DerivedRules(s: Settings, geoFiles: set<string>): seq<DnsRule> {
    if s.rules != [] then DirectRules(s.rules, |s.rules|, geoFiles)
    else WhitelistRule(PresentGeosites(s.geositeCountries, |s.geositeCountries|, geoFiles))
  }

  /** The section. The local servers are appended to a list that the section has
      captured before, so they are not in it. */
  function Section(s: Settings, link: LinkData, isAddress: string -> bool, geoFiles: set<string>): Dns {
    if Plain(s) then Dns([DIRECT_SERVER], [], DIRECT_DNS)
    else
      Dns([TunnelServer(s.dnsUpstream), DIRECT_SERVER],
          LocalDnsRules(s.locals, |s.locals|)
          + (ProxyRule(ProxyDomains(link, isAddress)) + DerivedRules(s, geoFiles)),
          TUNNEL)
  }

  // ----- which server answers -----

  /** A name still without an address, as the DNS rules see it. */
  function Query(domain: string): Flow {
    Flow(Some(domain), None)
  }

  ghost function ServerFor(net: Net, sets: seq<RuleSet>, dns: Dns, n: nat, domain: string): string
    requires n <= |dns.rules|
    decreases |dns.rules| - n
  {
    if n == |dns.rules| then dns.final
    else if Holds(net, sets, dns.rules[n].cond, Query(domain)) then dns.rules[n].server
    else ServerFor(net, sets, dns, n + 1, domain)
  }

  ghost predicate NoneHolds(net: Net, sets: seq<RuleSet>, rules: seq<DnsRule>, domain: string) {
    forall i :: 0 <= i < |rules| ==> !Holds(net, sets, rules[i].cond, Query(domain))
  }

  lemma NoneHoldsConcat(net: Net, sets: seq<RuleSet>, a: seq<DnsRule>, b: seq<DnsRule>, domain: string)
    ensures NoneHolds(net, sets, a + b, domain) <==> NoneHolds(net, sets, a, domain) && NoneHolds(net, sets, b, domain)
  {
    if NoneHolds(net, sets, a + b, domain) {
      assert forall i :: 0 <= i < |a| ==> a[i] == (a + b)[i];
      assert forall i :: 0 <= i < |b| ==> b[i] == (a + b)[|a| + i];
    }
  }

  lemma NoneHoldsOne(net: Net, sets: seq<RuleSet>, r: DnsRule, domain: string)
    ensures NoneHolds(net, sets, [r], domain) <==> !Holds(net, sets, r.cond, Query(domain))
  {
    assert [r][0] == r;
  }

  predicate NeverTunnel(rules: seq<DnsRule>) {
    forall i :: 0 <= i < |rules| ==> rules[i].server != TUNNEL
  }

  lemma {:induction false} TunnelIsLastResort(net: Net, sets: seq<RuleSet>, dns: Dns, n: nat, domain: string)
    requires n <= |dns.rules| && NeverTunnel(dns.rules) && dns.final == TUNNEL
    ensures ServerFor(net, sets, dns, n, domain) == TUNNEL
       <==> forall i :: n <= i < |dns.rules| ==> !Holds(net, sets, dns.rules[i].cond, Query(domain))
    decreases |dns.rules| - n
  {
    if n < |dns.rules| {
      TunnelIsLastResort(net, sets, dns, n + 1, domain);
    }
  }

  ghost predicate NoneServesLocally(net: Net, locals: seq<LocalDNSRule>, n: nat, domain: string)
    requires n <= |locals|
  {
    forall i :: 0 <= i < n && Active(locals[i]) ==> !ServesLocally(net, locals[i], domain)
  }

  lemma {:induction false} LocalRulesHold(net: Net, sets: seq<RuleSet>, locals: seq<LocalDNSRule>, n: nat,
                                          domain: string)
    requires n <= |locals|
    ensures NoneHolds(net, sets, LocalDnsRules(locals, n), domain) <==> NoneServesLocally(net, locals, n, domain)
  {
    if n > 0 {
      LocalRulesHold(net, sets, locals, n - 1, domain);
      if Active(locals[n - 1]) {
        var r := DnsRule(DomainSuffixIn(locals[n - 1].domains), LocalTag(n - 1));
        NoneHoldsConcat(net, sets, LocalDnsRules(locals, n - 1), [r], domain);
        NoneHoldsOne(net, sets, r, domain);
      } else {
        assert LocalDnsRules(locals, n) == LocalDnsRules(locals, n - 1);
      }
    }
  }

  /** The domain is one of those the local DNS server answers for. */
  ghost predicate ServesLocally(net: Net, local: LocalDNSRule, domain: string) {
    exists i :: 0 <= i < |local.domains| && net.underSuffix(local.domains[i], domain)
  }

  /** The rule sends the domain direct, on account of its name alone. */
  ghost predicate DirectByName(net: Net, geoFiles: set<string>, r: RoutingRule, domain: string) {
    && r.outbound == DIRECT && !r.matcher.IPCidr?
    && Hits(SingBox(net, geoFiles), r, Query(domain))
  }

  lemma DirectRuleHolds(net: Net, rules: seq<RoutingRule>, i: nat, geoFiles: set<string>, domain: string)
    requires i < |rules|
    ensures NoneHolds(net, CompiledSets(rules, |rules|, geoFiles), DirectRule(rules[i], geoFiles), domain)
       <==> !DirectByName(net, geoFiles, rules[i], domain)
  {
    var sets, r := CompiledSets(rules, |rules|, geoFiles), rules[i];
    var d := DirectRule(r, geoFiles);
    if d != [] {
      SetsCover(rules, |rules|, geoFiles);
      assert Covers(sets, r, geoFiles);
      NoneHoldsOne(net, sets, d[0], domain);
      assert d == [d[0]];
      ConditionHolds(net, sets, r.matcher, geoFiles, domain);
    }
  }

  lemma ConditionHolds(net: Net, sets: seq<RuleSet>, m: Matcher, geoFiles: set<string>, domain: string)
    requires WellDefined(sets, geoFiles) && Covers(sets, RoutingRule(m, DIRECT), geoFiles)
    requires DirectRule(RoutingRule(m, DIRECT), geoFiles) != []
    ensures Holds(net, sets, DirectRule(RoutingRule(m, DIRECT), geoFiles)[0].cond, Query(domain))
       <==> DirectByName(net, geoFiles, RoutingRule(m, DIRECT), domain)
  {
    match m
    case Geosite(tag) =>
      OneValue(net, sets, GeositeTag(tag), Query(domain));
      PathOfDefined(sets, GeositeTag(tag));
    case GeoIP(country) =>
      OneValue(net, sets, GeoipTag(country), Query(domain));
      if SrsFile(GeoipTag(country)) in geoFiles {
        PathOfDefined(sets, GeoipTag(country));
      } else {
        NoFileNoPath(sets, GeoipTag(country), geoFiles);
      }
    case Domain(name) => OneValue(net, sets, name, Query(domain));
    case DomainSuffix(suffix) => OneValue(net, sets, suffix, Query(domain));
    case _ =>
  }

  lemma {:induction false} NoFileNoPath(sets: seq<RuleSet>, tag: string, geoFiles: set<string>)
    requires forall i :: 0 <= i < |sets| ==> sets[i].path == SrsFile(sets[i].tag) && sets[i].path in geoFiles
    requires SrsFile(tag) !in geoFiles
    ensures PathOf(sets, tag) == None && !Defines(sets, tag)
  {
    if sets != [] {
      assert sets[0].tag != tag;
      NoFileNoPath(sets[1..], tag, geoFiles);
    }
  }

  ghost predicate NoneDirectByName(net: Net, geoFiles: set<string>, rules: seq<RoutingRule>, n: nat, domain: string)
    requires n <= |rules|
  {
    forall i :: 0 <= i < n ==> !DirectByName(net, geoFiles, rules[i], domain)
  }

  lemma NoneDirectByNameStep(net: Net, geoFiles: set<string>, rules: seq<RoutingRule>, n: nat, domain: string)
    requires 0 < n <= |rules|
    ensures NoneDirectByName(net, geoFiles, rules, n, domain)
       <==> NoneDirectByName(net, geoFiles, rules, n - 1, domain) && !DirectByName(net, geoFiles, rules[n - 1], domain)
  {
  }

  lemma {:induction false} DirectRulesHold(net: Net, sets: seq<RuleSet>, rules: seq<RoutingRule>, n: nat,
                                           geoFiles: set<string>, domain: string)
    requires n <= |rules| && sets == CompiledSets(rules, |rules|, geoFiles)
    ensures NoneHolds(net, sets, DirectRules(rules, n, geoFiles), domain)
       <==> NoneDirectByName(net, geoFiles, rules, n, domain)
  {
    if n > 0 {
      DirectRulesHold(net, sets, rules, n - 1, geoFiles, domain);
      DirectRuleHolds(net, rules, n - 1, geoFiles, domain);
      NoneHoldsConcat(net, sets, DirectRules(rules, n - 1, geoFiles), DirectRule(rules[n - 1], geoFiles), domain);
      NoneDirectByNameStep(net, geoFiles, rules, n, domain);
    }
  }

  /** A local server that is given answers for the domain. */
  ghost predicate AskedLocally(net: Net, locals: seq<LocalDNSRule>, domain: string) {
    exists i, k ::
      0 <= i < |locals| && locals[i].server != ""
      && 0 <= k < |locals[i].domains| && net.underSuffix(locals[i].domains[k], domain)
  }

  lemma AskedLocallyIff(net: Net, locals: seq<LocalDNSRule>, domain: string)
    ensures AskedLocally(net, locals, domain) <==> !NoneServesLocally(net, locals, |locals|, domain)
  {
    if AskedLocally(net, locals, domain) {
      var i, k :| 0 <= i < |locals| && locals[i].server != ""
                  && 0 <= k < |locals[i].domains| && net.underSuffix(locals[i].domains[k], domain);
      assert Active(locals[i]) && ServesLocally(net, locals[i], domain);
    }
  }

  /** One of the names of the proxy server: not empty, not an address. */
  ghost predicate ServerName(link: LinkData, isAddress: string -> bool, domain: string) {
    && (domain == link.address || domain == link.sni || domain == link.host)
    && domain != "" && !isAddress(domain)
  }

  lemma {:induction false} NamesOfMean(candidates: seq<string>, n: nat, isAddress: string -> bool)
    requires n <= |candidates|
    ensures forall x :: x in NamesOf(candidates, n, isAddress) <==> x in candidates[..n] && x != "" && !isAddress(x)
    ensures forall i, j :: 0 <= i < j < |NamesOf(candidates, n, isAddress)| ==>
              NamesOf(candidates, n, isAddress)[i] != NamesOf(candidates, n, isAddress)[j]
  {
    if n > 0 {
      NamesOfMean(candidates, n - 1, isAddress);
      assert candidates[..n] == candidates[..n - 1] + [candidates[n - 1]];
    }
  }

  /** The names collected from a link are these, each once. */
  lemma ProxyDomainsMean(link: LinkData, isAddress: string -> bool)
    ensures forall x :: x in ProxyDomains(link, isAddress) <==> ServerName(link, isAddress, x)
    ensures forall i, j :: 0 <= i < j < |ProxyDomains(link, isAddress)| ==>
              ProxyDomains(link, isAddress)[i] != ProxyDomains(link, isAddress)[j]
  {
    NamesOfMean([link.address, link.sni, link.host], 3, isAddress);
    assert [link.address, link.sni, link.host][..3] == [link.address, link.sni, link.host];
  }

  lemma ProxyRuleHolds(net: Net, sets: seq<RuleSet>, link: LinkData, isAddress: string -> bool, domain: string)
    ensures NoneHolds(net, sets, ProxyRule(ProxyDomains(link, isAddress)), domain)
       <==> !ServerName(link, isAddress, domain)
  {
    var names := ProxyDomains(link, isAddress);
    ProxyDomainsMean(link, isAddress);
    if names != [] {
      NoneHoldsOne(net, sets, DnsRule(DomainIn(names), DIRECT_DNS), domain);
    }
  }

  /** What a section that is not plain does: the tunnel's resolver answers when none of
      its three parts has a rule that holds. */
  lemma SplitSection(net: Net, sets: seq<RuleSet>, s: Settings, link: LinkData, isAddress: string -> bool,
                     geoFiles: set<string>, domain: string)
    requires !Plain(s)
    ensures ServerFor(net, sets, Section(s, link, isAddress, geoFiles), 0, domain) == TUNNEL
       <==> && !AskedLocally(net, s.locals, domain) && !ServerName(link, isAddress, domain)
            && NoneHolds(net, sets, DerivedRules(s, geoFiles), domain)
  {
    var a, c := LocalDnsRules(s.locals, |s.locals|), DerivedRules(s, geoFiles);
    var b := ProxyRule(ProxyDomains(link, isAddress));
    LocalRulesHold(net, sets, s.locals, |s.locals|, domain);
    AskedLocallyIff(net, s.locals, domain);
    ProxyRuleHolds(net, sets, link, isAddress, domain);
    NoneHoldsConcat(net, sets, b, c, domain);
    NoneHoldsConcat(net, sets, a, b + c, domain);
    NoRuleNamesTunnel(s, link, isAddress, geoFiles);
    TunnelIsLastResort(net, sets, Section(s, link, isAddress, geoFiles), 0, domain);
  }

  /** In rules mode a name is looked up through the tunnel exactly when no local
      server answers for it, it is not a name of the proxy server, and no rule that goes
      direct hits by the name alone. */
  lemma ThroughTunnelIff(net: Net, s: Settings, link: LinkData, isAddress: string -> bool, geoFiles: set<string>,
                         domain: string)
    requires s.rules != []
    ensures ServerFor(net, CompiledSets(s.rules, |s.rules|, geoFiles), Section(s, link, isAddress, geoFiles), 0, domain)
            == "dns-tunnel"
       <==> && !AskedLocally(net, s.locals, domain)
            && !ServerName(link, isAddress, domain)
            && forall i :: 0 <= i < |s.rules| && s.rules[i].outbound == "direct" ==>
                 !Hits(SingBox(net, geoFiles), s.rules[i], Query(domain))
  {
    var sets := CompiledSets(s.rules, |s.rules|, geoFiles);
    SplitSection(net, sets, s, link, isAddress, geoFiles, domain);
    DirectRulesHold(net, sets, s.rules, |s.rules|, geoFiles, domain);
    DirectByNameIff(net, geoFiles, s.rules, domain);
  }

  lemma DirectByNameIff(net: Net, geoFiles: set<string>, rules: seq<RoutingRule>, domain: string)
    ensures NoneDirectByName(net, geoFiles, rules, |rules|, domain)
       <==> forall i :: 0 <= i < |rules| && rules[i].outbound == "direct" ==>
              !Hits(SingBox(net, geoFiles), rules[i], Query(domain))
  {
  }

  /** When local servers answer for the domain, the first one does, under its number in
      the list; when none does and the tunnel is not used, the direct resolver answers. */
  lemma WhoAnswers(net: Net, sets: seq<RuleSet>, s: Settings, link: LinkData, isAddress: string -> bool,
                   geoFiles: set<string>, domain: string)
    ensures var server := ServerFor(net, sets, Section(s, link, isAddress, geoFiles), 0, domain);
            && (forall i :: FirstLocal(net, s.locals, domain, i) ==> server == "dns-local-" + Itoa(i))
            && (!AskedLocally(net, s.locals, domain) ==> server == "dns-tunnel" || server == "dns-direct")
  {
    var dns := Section(s, link, isAddress, geoFiles);
    forall i | FirstLocal(net, s.locals, domain, i)
      ensures ServerFor(net, sets, dns, 0, domain) == "dns-local-" + Itoa(i)
    {
      LocalRuleAt(s.locals, i, |s.locals|);
      LocalRulesHold(net, sets, s.locals, i, domain);
      FirstDecides(net, sets, dns, |LocalDnsRules(s.locals, i)|, domain);
    }
    if !AskedLocally(net, s.locals, domain) && !Plain(s) {
      AskedLocallyIff(net, s.locals, domain);
      LocalRulesHold(net, sets, s.locals, |s.locals|, domain);
      OthersUseDirect(s, link, isAddress, geoFiles);
      OneOfTwo(net, sets, dns, 0, |LocalDnsRules(s.locals, |s.locals|)|, domain);
    }
  }

  /** Local rule i is the first with a server that answers for the domain. */
  ghost predicate FirstLocal(net: Net, locals: seq<LocalDNSRule>, domain: string, i: nat) {
    && i < |locals| && locals[i].server != "" && ServesLocally(net, locals[i], domain)
    && forall j :: 0 <= j < i && locals[j].server != "" ==> !ServesLocally(net, locals[j], domain)
  }

  /** Where the rule of an active local server stands. */
  lemma {:induction false} LocalRuleAt(locals: seq<LocalDNSRule>, i: nat, n: nat)
    requires i < n <= |locals| && Active(locals[i])
    ensures LocalDnsRules(locals, i) + [DnsRule(DomainSuffixIn(locals[i].domains), LocalTag(i))]
         <= LocalDnsRules(locals, n)
  {
    if i < n - 1 {
      LocalRuleAt(locals, i, n - 1);
    }
  }

  lemma {:induction false} FirstDecides(net: Net, sets: seq<RuleSet>, dns: Dns, k: nat, domain: string)
    requires k < |dns.rules| && Holds(net, sets, dns.rules[k].cond, Query(domain))
    requires NoneHolds(net, sets, dns.rules[..k], domain)
    ensures ServerFor(net, sets, dns, 0, domain) == dns.rules[k].server
  {
    PassesOn(net, sets, dns, k, domain);
  }

  lemma {:induction false} PassesOn(net: Net, sets: seq<RuleSet>, dns: Dns, k: nat, domain: string)
    requires k <= |dns.rules| && NoneHolds(net, sets, dns.rules[..k], domain)
    ensures ServerFor(net, sets, dns, 0, domain) == ServerFor(net, sets, dns, k, domain)
  {
    if k > 0 {
      assert dns.rules[..k - 1] == dns.rules[..k][..k - 1];
      PassesOn(net, sets, dns, k - 1, domain);
      assert dns.rules[..k][k - 1] == dns.rules[k - 1];
    }
  }

  lemma {:induction false} OneOfTwo(net: Net, sets: seq<RuleSet>, dns: Dns, n: nat, from: nat, domain: string)
    requires n <= |dns.rules| && dns.final == TUNNEL
    requires forall i :: n <= i < from && i < |dns.rules| ==> !Holds(net, sets, dns.rules[i].cond, Query(domain))
    requires forall i :: from <= i < |dns.rules| ==> dns.rules[i].server == DIRECT_DNS
    ensures ServerFor(net, sets, dns, n, domain) in {TUNNEL, DIRECT_DNS}
    decreases |dns.rules| - n
  {
    if n < |dns.rules| {
      OneOfTwo(net, sets, dns, n + 1, from, domain);
    }
  }

  lemma NoRuleNamesTunnel(s: Settings, link: LinkData, isAddress: string -> bool, geoFiles: set<string>)
    ensures NeverTunnel(Section(s, link, isAddress, geoFiles).rules)
  {
    if !Plain(s) {
      var a := LocalDnsRules(s.locals, |s.locals|);
      LocalRulesUseLocalTags(s.locals, |s.locals|);
      forall i | 0 <= i < |a| ensures a[i].server != TUNNEL {
        LocalTagsApart(a[i].server);
      }
      OthersUseDirect(s, link, isAddress, geoFiles);
    }
  }

  lemma OthersUseDirect(s: Settings, link: LinkData, isAddress: string -> bool, geoFiles: set<string>)
    ensures var b := ProxyRule(ProxyDomains(link, isAddress)) + DerivedRules(s, geoFiles);
            forall i :: 0 <= i < |b| ==> b[i].server == DIRECT_DNS
  {
    DirectRulesUseDirect(s.rules, |s.rules|, geoFiles);
  }

  /** A domain whose first matching rule sends it direct on account of its name
      is not looked up through the tunnel. */
  lemma DirectDomainsAvoidTunnel(net: Net, s: Settings, link: LinkData, isAddress: string -> bool,
                                 geoFiles: set<string>, f: Flow, i: nat)
    requires FirstHit(SingBox(net, geoFiles), s.rules, f, i) && s.rules[i].outbound == "direct"
    requires f.domain.Some?
    requires s.rules[i].matcher.Domain? || s.rules[i].matcher.DomainSuffix? || s.rules[i].matcher.Geosite?
    requires GeositesGoByName(net)
    ensures ServerFor(net, CompiledSets(s.rules, |s.rules|, geoFiles), Section(s, link, isAddress, geoFiles), 0,
                      f.domain.value) != "dns-tunnel"
  {
    ThroughTunnelIff(net, s, link, isAddress, geoFiles, f.domain.value);
    assert DirectByName(net, geoFiles, s.rules[i], f.domain.value);
  }

  /** Geosite files list names, so an address makes no difference to them. */
  ghost predicate GeositesGoByName(net: Net) {
    forall tag: string, f: Flow :: f.domain.Some? ==>
      net.srs("geosite-" + tag + ".srs", f) == net.srs("geosite-" + tag + ".srs", Query(f.domain.value))
  }

  // ----- no circle -----

  /** Who needs whom: a resolver needs the outbound it is reached through and, when
      its server is given by name, that name; the proxy outbound needs the name of
      its server; and a name needs the resolver that answers for it. */
  datatype Node = Resolver(tag: string) | Outbound(tag: string) | Host(name: string)

  /** What decides how names are looked up: the DNS section and the rule sets it
      refers to, the resolver for names that are dialled, when the route section
      sets one, and the address that the proxy outbound dials. */
  datatype Naming = Naming(dns: Dns, sets: seq<RuleSet>, default: Option<string>, proxy: string)

  function ServerOf(servers: seq<DnsServer>, tag: string): Option<DnsServer> {
    if servers == [] then None
    else if servers[0].tag == tag then Some(servers[0])
    else ServerOf(servers[1..], tag)
  }

  predicate IsName(address: string, isAddress: string -> bool) {
    address != "" && !isAddress(address)
  }

  /** Who answers for a dialled name. Without a default resolver the DNS rules decide. */
  ghost function AnswererOf(net: Net, w: Naming, name: string): string {
    if w.default.Some? then w.default.value else ServerFor(net, w.sets, w.dns, 0, name)
  }

  ghost predicate Needs(net: Net, w: Naming, isAddress: string -> bool, a: Node, b: Node) {
    match a
    case Resolver(tag) =>
      var server := ServerOf(w.dns.servers, tag);
      && server.Some?
      && (|| (server.value.detour.Some? && b == Outbound(server.value.detour.value))
          || (IsName(server.value.server, isAddress) && b == Host(server.value.server)))
    case Outbound(tag) => tag == PROXY && IsName(w.proxy, isAddress) && b == Host(w.proxy)
    case Host(name) => b == Resolver(AnswererOf(net, w, name))
  }

  ghost predicate NeedsPath(net: Net, w: Naming, isAddress: string -> bool, path: seq<Node>) {
    forall i :: 0 <= i < |path| - 1 ==> Needs(net, w, isAddress, path[i], path[i + 1])
  }

  /** Whatever is looked up is found after at most three steps. */
  ghost predicate NoCircle(net: Net, w: Naming, isAddress: string -> bool) {
    forall path: seq<Node> :: NeedsPath(net, w, isAddress, path) && path != [] && path[0].Resolver? ==> |path| <= 4
  }

  /** What the names in a generated section are looked up with. */
  function NamingOf(s: Settings, link: LinkData, isAddress: string -> bool, geoFiles: set<string>,
                    sets: seq<RuleSet>, default: Option<string>): Naming {
    Naming(Section(s, link, isAddress, geoFiles), sets, default, ServerAddress(link.address, s.pinnedHosts))
  }

  lemma {:induction false} NamesOfContains(candidates: seq<string>, n: nat, isAddress: string -> bool, i: nat)
    requires i < n <= |candidates| && candidates[i] != "" && !isAddress(candidates[i])
    ensures candidates[i] in NamesOf(candidates, n, isAddress)
  {
    if i < n - 1 {
      NamesOfContains(candidates, n - 1, isAddress, i);
    } else if candidates[i] in candidates[..n - 1] {
      var j :| 0 <= j < n - 1 && candidates[j] == candidates[i];
      NamesOfContains(candidates, n - 1, isAddress, j);
    }
  }

  /** The name of the proxy server itself is never looked up through the tunnel. */
  lemma ServerNameAvoidsTunnel(net: Net, s: Settings, link: LinkData, isAddress: string -> bool, geoFiles: set<string>,
                               sets: seq<RuleSet>)
    requires IsName(link.address, isAddress)
    ensures ServerFor(net, sets, Section(s, link, isAddress, geoFiles), 0, link.address) != TUNNEL
  {
    if !Plain(s) {
      var names, dns := ProxyDomains(link, isAddress), Section(s, link, isAddress, geoFiles);
      var locals := LocalDnsRules(s.locals, |s.locals|);
      NamesOfContains([link.address, link.sni, link.host], 3, isAddress, 0);
      NoRuleNamesTunnel(s, link, isAddress, geoFiles);
      TunnelIsLastResort(net, sets, dns, 0, link.address);
      assert dns.rules[|locals|] == DnsRule(DomainIn(names), DIRECT_DNS);
    }
  }

  lemma ServersOf(s: Settings, link: LinkData, isAddress: string -> bool, geoFiles: set<string>, tag: string)
    ensures ServerOf(Section(s, link, isAddress, geoFiles).servers, tag)
         == if tag == TUNNEL && !Plain(s) then Some(TunnelServer(s.dnsUpstream))
            else if tag == DIRECT_DNS then Some(DIRECT_SERVER)
            else None
  {
    var tunnel := TunnelServer(s.dnsUpstream);
    assert [tunnel, DIRECT_SERVER][1..] == [DIRECT_SERVER] && [DIRECT_SERVER][1..] == [];
    assert ServerOf([DIRECT_SERVER], tag) == if tag == DIRECT_DNS then Some(DIRECT_SERVER) else None;
  }

  /** How many steps are still to come at most. */
  function Rank(node: Node): nat {
    match node
    case Resolver(tag) => if tag == TUNNEL then 3 else 0
    case Outbound(_) => 2
    case Host(_) => 1
  }

  /** The name is not looked up through the tunnel. */
  ghost predicate Safe(net: Net, w: Naming, node: Node) {
    node.Host? ==> AnswererOf(net, w, node.name) != TUNNEL
  }

  /** The server of the tunnel's resolver is not itself looked up through the tunnel. */
  ghost predicate UpstreamFound(net: Net, upstream: seq<string>, isAddress: string -> bool, w: Naming) {
    IsName(ProxyDnsServer(upstream, 0), isAddress) ==> AnswererOf(net, w, ProxyDnsServer(upstream, 0)) != TUNNEL
  }

  lemma StepsDown(net: Net, s: Settings, link: LinkData, isAddress: string -> bool, geoFiles: set<string>, w: Naming,
                  a: Node, b: Node)
    requires isAddress(DIRECT_SERVER.server)
    requires forall h :: h in s.pinnedHosts && s.pinnedHosts[h] != "" ==> isAddress(s.pinnedHosts[h])
    requires w == NamingOf(s, link, isAddress, geoFiles, w.sets, w.default)
    requires w.default.Some? ==> w.default.value == DIRECT_DNS
    requires UpstreamFound(net, s.dnsUpstream, isAddress, w)
    requires Needs(net, w, isAddress, a, b) && Safe(net, w, a)
    ensures Safe(net, w, b) && Rank(b) < Rank(a)
  {
    match a
    case Resolver(tag) =>
      ServersOf(s, link, isAddress, geoFiles, tag);
    case Outbound(tag) =>
      ServerNameAvoidsTunnel(net, s, link, isAddress, geoFiles, w.sets);
    case Host(name) =>
  }

  lemma {:induction false} PathsAreShort(net: Net, s: Settings, link: LinkData, isAddress: string -> bool,
                                         geoFiles: set<string>, w: Naming, path: seq<Node>)
    requires isAddress(DIRECT_SERVER.server)
    requires forall h :: h in s.pinnedHosts && s.pinnedHosts[h] != "" ==> isAddress(s.pinnedHosts[h])
    requires w == NamingOf(s, link, isAddress, geoFiles, w.sets, w.default)
    requires w.default.Some? ==> w.default.value == DIRECT_DNS
    requires UpstreamFound(net, s.dnsUpstream, isAddress, w)
    requires path != [] && NeedsPath(net, w, isAddress, path) && Safe(net, w, path[0])
    ensures |path| <= Rank(path[0]) + 1
  {
    if |path| > 1 {
      StepsDown(net, s, link, isAddress, geoFiles, w, path[0], path[1]);
      var rest := path[1..];
      forall i | 0 <= i < |rest| - 1 ensures Needs(net, w, isAddress, rest[i], rest[i + 1]) {
        assert rest[i] == path[1 + i];
      }
      PathsAreShort(net, s, link, isAddress, geoFiles, w, rest);
    }
  }

  /** With hosts pinned to addresses there is no circle exactly when the server of
      the tunnel's resolver, if it is given by name, is not itself looked up
      through the tunnel. */
  lemma NoCircleIff(net: Net, s: Settings, link: LinkData, isAddress: string -> bool, geoFiles: set<string>,
                    sets: seq<RuleSet>, default: Option<string>)
    requires isAddress(DIRECT_SERVER.server)
    requires forall h :: h in s.pinnedHosts && s.pinnedHosts[h] != "" ==> isAddress(s.pinnedHosts[h])
    requires default.Some? ==> default.value == DIRECT_DNS
    ensures NoCircle(net, NamingOf(s, link, isAddress, geoFiles, sets, default), isAddress)
       <==> var up := ProxyDnsServer(s.dnsUpstream, 0);
            || default.Some?
            || !IsName(up, isAddress)
            || ServerFor(net, sets, Section(s, link, isAddress, geoFiles), 0, up) != TUNNEL
  {
    var w, up := NamingOf(s, link, isAddress, geoFiles, sets, default), ProxyDnsServer(s.dnsUpstream, 0);
    if UpstreamFound(net, s.dnsUpstream, isAddress, w) {
      forall path: seq<Node> | NeedsPath(net, w, isAddress, path) && path != [] && path[0].Resolver?
        ensures |path| <= 4
      {
        PathsAreShort(net, s, link, isAddress, geoFiles, w, path);
      }
    } else {
      ServersOf(s, link, isAddress, geoFiles, TUNNEL);
      var circle := [Resolver(TUNNEL), Host(up), Resolver(TUNNEL), Host(up), Resolver(TUNNEL)];
      assert NeedsPath(net, w, isAddress, circle);
    }
  }

  // ----- everything referred to is defined -----

  predicate ServersDefined(dns: Dns) {
    && (forall i :: 0 <= i < |dns.rules| ==> HasServer(dns.servers, dns.rules[i].server))
    && HasServer(dns.servers, dns.final)
  }

  predicate HasServer(servers: seq<DnsServer>, tag: string) {
    exists i :: 0 <= i < |servers| && servers[i].tag == tag
  }

  /** The DNS section refers only to servers it defines exactly when no local DNS
      rule is active: the servers of active ones are missing from it. */
  lemma ServersDefinedIff(s: Settings, link: LinkData, isAddress: string -> bool, geoFiles: set<string>)
    ensures ServersDefined(Section(s, link, isAddress, geoFiles))
       <==> forall i :: 0 <= i < |s.locals| ==> !Active(s.locals[i])
  {
    var dns := Section(s, link, isAddress, geoFiles);
    if Plain(s) {
      assert dns.servers[0].tag == DIRECT_DNS;
    } else {
      var a := LocalDnsRules(s.locals, |s.locals|);
      var b := ProxyRule(ProxyDomains(link, isAddress)) + DerivedRules(s, geoFiles);
      assert dns.servers[0].tag == TUNNEL && dns.servers[1].tag == DIRECT_DNS;
      LocalRulesUseLocalTags(s.locals, |s.locals|);
      OthersUseDirect(s, link, isAddress, geoFiles);
      if a != [] {
        assert dns.rules[0] == a[0];
        LocalTagsApart(a[0].server);
        assert !HasServer(dns.servers, dns.rules[0].server);
      } else {
        assert dns.rules == b;
      }
    }
  }

  ghost predicate IsLocalTag(tag: string) {
    exists i: nat :: tag == LocalTag(i)
  }

  lemma LocalTagsApart(tag: string)
    requires IsLocalTag(tag)
    ensures tag != TUNNEL && tag != DIRECT_DNS
  {
    assert tag[4] == 'l' && TUNNEL[4] == 't' && DIRECT_DNS[4] == 'd';
  }

  lemma {:induction false} LocalRulesUseLocalTags(locals: seq<LocalDNSRule>, n: nat)
    requires n <= |locals|
    ensures forall i :: 0 <= i < |LocalDnsRules(locals, n)| ==> IsLocalTag(LocalDnsRules(locals, n)[i].server)
    ensures LocalDnsRules(locals, n) == [] <==> forall i :: 0 <= i < n ==> !Active(locals[i])
  {
    if n > 0 {
      LocalRulesUseLocalTags(locals, n - 1);
      assert IsLocalTag(LocalTag(n - 1));
    }
  }

  lemma {:induction false} DirectRulesUseDirect(rules: seq<RoutingRule>, n: nat, geoFiles: set<string>)
    requires n <= |rules|
    ensures forall i :: 0 <= i < |DirectRules(rules, n, geoFiles)| ==>
              DirectRules(rules, n, geoFiles)[i].server == DIRECT_DNS
  {
    if n > 0 {
      DirectRulesUseDirect(rules, n - 1, geoFiles);
    }
  }

  /** The rule set tags that a DNS rule uses are defined. */
  predicate TagsDefined(r: DnsRule, sets: seq<RuleSet>) {
    r.cond.RuleSetIn? ==> forall i :: 0 <= i < |r.cond.tags| ==> Defines(sets, r.cond.tags[i])
  }

  predicate AllTagsDefined(rules: seq<DnsRule>, sets: seq<RuleSet>) {
    forall i :: 0 <= i < |rules| ==> TagsDefined(rules[i], sets)
  }

  lemma AllTagsDefinedConcat(a: seq<DnsRule>, b: seq<DnsRule>, sets: seq<RuleSet>)
    ensures AllTagsDefined(a + b, sets) <==> AllTagsDefined(a, sets) && AllTagsDefined(b, sets)
  {
    if AllTagsDefined(a + b, sets) {
      assert forall i :: 0 <= i < |a| ==> a[i] == (a + b)[i];
      assert forall i :: 0 <= i < |b| ==> b[i] == (a + b)[|a| + i];
    }
  }

  /** The file that a direct geoip rule names is there. */
  predicate GeoipPresent(r: RoutingRule, geoFiles: set<string>) {
    r.outbound == DIRECT && r.matcher.GeoIP? ==> SrsFile(GeoipTag(r.matcher.country)) in geoFiles
  }

  lemma DirectTagDefinedIff(rules: seq<RoutingRule>, i: nat, geoFiles: set<string>)
    requires i < |rules|
    ensures AllTagsDefined(DirectRule(rules[i], geoFiles), CompiledSets(rules, |rules|, geoFiles))
       <==> GeoipPresent(rules[i], geoFiles)
  {
    var sets, r := CompiledSets(rules, |rules|, geoFiles), rules[i];
    SetsCover(rules, |rules|, geoFiles);
    assert Covers(sets, r, geoFiles);
    if r.outbound == DIRECT && r.matcher.GeoIP? {
      var tag := GeoipTag(r.matcher.country);
      var d := DirectRule(r, geoFiles);
      assert d[0].cond.tags[0] == tag;
      assert AllTagsDefined(d, sets) ==> TagsDefined(d[0], sets);
      if SrsFile(tag) !in geoFiles {
        NoFileNoPath(sets, tag, geoFiles);
      }
    }
  }

  lemma {:induction false} DirectTagsDefinedIff(rules: seq<RoutingRule>, n: nat, geoFiles: set<string>)
    requires n <= |rules|
    ensures AllTagsDefined(DirectRules(rules, n, geoFiles), CompiledSets(rules, |rules|, geoFiles))
       <==> forall i :: 0 <= i < n ==> GeoipPresent(rules[i], geoFiles)
  {
    if n > 0 {
      DirectTagsDefinedIff(rules, n - 1, geoFiles);
      DirectTagDefinedIff(rules, n - 1, geoFiles);
      AllTagsDefinedConcat(DirectRules(rules, n - 1, geoFiles), DirectRule(rules[n - 1], geoFiles),
                           CompiledSets(rules, |rules|, geoFiles));
    }
  }

  /** In rules mode every rule set tag in the DNS section is defined exactly when
      the file of every direct geoip rule exists. */
  lemma DnsTagsDefinedIff(s: Settings, link: LinkData, isAddress: string -> bool, geoFiles: set<string>)
    requires s.rules != []
    ensures AllTagsDefined(Section(s, link, isAddress, geoFiles).rules, CompiledSets(s.rules, |s.rules|, geoFiles))
       <==> forall i :: 0 <= i < |s.rules| ==> GeoipPresent(s.rules[i], geoFiles)
  {
    var sets := CompiledSets(s.rules, |s.rules|, geoFiles);
    var a, b := LocalDnsRules(s.locals, |s.locals|), ProxyRule(ProxyDomains(link, isAddress));
    DirectTagsDefinedIff(s.rules, |s.rules|, geoFiles);
    LocalRulesHaveNoTags(s.locals, |s.locals|, sets);
    AllTagsDefinedConcat(b, DerivedRules(s, geoFiles), sets);
    AllTagsDefinedConcat(a, b + DerivedRules(s, geoFiles), sets);
  }

  lemma {:induction false} LocalRulesHaveNoTags(locals: seq<LocalDNSRule>, n: nat, sets: seq<RuleSet>)
    requires n <= |locals|
    ensures AllTagsDefined(LocalDnsRules(locals, n), sets)
  {
    if n > 0 {
      LocalRulesHaveNoTags(locals, n - 1, sets);
    }
  }
}
