/** Routing rules and what they mean, whatever engine carries them out: private
    addresses go direct, then the local domains, then the first rule that can be
    carried out and matches decides, and when none does the last `default`. */
module Routing {
  import opened Text

  /** A rule as it is configured: "geoip:<cc>", "geosite:<tag>", "domain:<name>",
      "domain_suffix:<suffix>", "ip_cidr:<cidr>" or "default", and an outbound. */
  datatype RuleText = RuleText(matcher: string, outbound: string)

  datatype LocalDNSRule = LocalDNSRule(server: string, domains: seq<string>)

  /** A connection to be routed: the domain and the address known of its
      destination so far. */
  datatype Flow = Flow(domain: Option<string>, ip: Option<string>)

  const DIRECT: string := "direct"
  const PROXY: string := "proxy"

  // ----- matcher strings -----

  /** strings.SplitN(s, sep, 2): the text before and after the first separator. */
  function Cut(s: string, sep: char): (r: Option<(string, string)>)
    ensures r.None? <==> sep !in s
    ensures r.Some? ==> s == r.value.0 + [sep] + r.value.1 && sep !in r.value.0
  {
    if s == [] then None
    else if s[0] == sep then Some(([], s[1..]))
    else
      match Cut(s[1..], sep)
      case None => None
      case Some(parts) => Some(([s[0]] + parts.0, parts.1))
  }

  lemma {:induction false} CutConcat(typ: string, sep: char, val: string)
    requires sep !in typ
    ensures Cut(typ + [sep] + val, sep) == Some((typ, val))
  {
    var s := typ + [sep] + val;
    if typ == [] {
      assert s[1..] == val;
    } else {
      assert s[1..] == typ[1..] + [sep] + val;
      CutConcat(typ[1..], sep, val);
      assert [typ[0]] + typ[1..] == typ;
    }
  }

  datatype Matcher =
    | Default
    | GeoIP(country: string) | Geosite(tag: string) | Domain(name: string)
    | DomainSuffix(suffix: string) | IPCidr(cidr: string) | Unsupported

  /** The test, the split and the switch that every matcher string goes through. */
  function Parse(matcher: string): Matcher {
    if matcher == "default" then Default
    else
      match Cut(matcher, ':')
      case None => Unsupported
      case Some((typ, val)) => OfKind(typ, val)
  }

  function OfKind(typ: string, val: string): Matcher {
    if typ == "geoip" then GeoIP(val)
    else if typ == "geosite" then Geosite(val)
    else if typ == "domain" then Domain(val)
    else if typ == "domain_suffix" then DomainSuffix(val)
    else if typ == "ip_cidr" then IPCidr(val)
    else Unsupported
  }

  /** Only the first colon separates, so each of the five kinds of matcher carries every
      value, also one with colons of its own as in an IPv6 block; no other kind is
      understood. */
  lemma ParseKeepsValue(typ: string, val: string)
    requires ':' !in typ
    ensures typ == "geoip" ==> Parse(typ + ":" + val) == GeoIP(val)
    ensures typ == "geosite" ==> Parse(typ + ":" + val) == Geosite(val)
    ensures typ == "domain" ==> Parse(typ + ":" + val) == Domain(val)
    ensures typ == "domain_suffix" ==> Parse(typ + ":" + val) == DomainSuffix(val)
    ensures typ == "ip_cidr" ==> Parse(typ + ":" + val) == IPCidr(val)
    ensures typ !in ["geoip", "geosite", "domain", "domain_suffix", "ip_cidr"] ==>
              Parse(typ + ":" + val) == Unsupported
  {
    CutConcat(typ, ':', val);
    assert (typ + ":" + val)[|typ|] == ':';
  }

  /** Of the texts without a colon only `default` is understood. */
  lemma ParseWithoutColon(s: string)
    requires ':' !in s
    ensures Parse(s) == if s == "default" then Default else Unsupported
  {
  }

  datatype RoutingRule = RoutingRule(matcher: Matcher, outbound: string)

  function Parsed(texts: seq<RuleText>): (rules: seq<RoutingRule>)
    ensures |rules| == |texts|
  {
    seq(|texts|, i requires 0 <= i < |texts| => RoutingRule(Parse(texts[i].matcher), texts[i].outbound))
  }

  // ----- meaning -----

  /** Everything outside the configuration that routing asks about: addresses,
      names, geo data, and what sniffing and resolving bring to light. */
  datatype Net = Net(
    isPrivate: string -> bool,                    // is the address private?
    underSuffix: (string, string) -> bool,        // does the suffix cover the domain?
    inCidr: (string, string) -> bool,             // is the address in the block?
    srs: (string, Flow) -> bool,                  // does the rule set in this file match?
    datGeoip: (string, string) -> bool,           // geoip.dat: country, address
    datGeosite: (string, string) -> bool,         // geosite.dat: tag, domain
    datExt: (string, string) -> bool,             // another geo data file: file and tag, address
    sniff: Flow -> Option<string>,
    resolve: (string, string) -> Option<string>)  // DNS server, domain

  /** An engine, with the geo data it finds: sing-box looks for one rule set file
      for each country or tag, xray for geosite.dat. */
  datatype Engine = SingBox(net: Net, geoFiles: set<string>) | Xray(net: Net, geositeDat: bool)

  function GeoipTag(country: string): string { "geoip-" + country }

  function GeositeTag(tag: string): string { "geosite-" + tag }

  function SrsFile(tag: string): string { tag + ".srs" }

  const PRIVATE_BLOCKS: seq<string> :=
    ["10.0.0.0/8", "172.16.0.0/12", "192.168.0.0/16", "127.0.0.0/8", "fc00::/7", "::1/128"]

  predicate Private(e: Engine, f: Flow) {
    f.ip.Some? &&
    match e
    case SingBox(net, _) => net.isPrivate(f.ip.value)
    case Xray(net, _) =>
      InSomeBlock(net, ["10.0.0.0/8", "172.16.0.0/12", "192.168.0.0/16", "127.0.0.0/8", "fc00::/7", "::1/128"],
                  f.ip.value)
  }

  predicate InSomeBlock(net: Net, blocks: seq<string>, ip: string) {
    exists i :: 0 <= i < |blocks| && net.inCidr(blocks[i], ip)
  }

  predicate UnderSuffix(e: Engine, suffix: string, f: Flow) {
    f.domain.Some? && e.net.underSuffix(suffix, f.domain.value)
  }

  predicate InCidr(e: Engine, cidr: string, f: Flow) {
    f.ip.Some? && e.net.inCidr(cidr, f.ip.value)
  }

  predicate HasGeoip(e: Engine, country: string) {
    e.SingBox? ==> "geoip-" + country + ".srs" in e.geoFiles
  }

  predicate InGeoip(e: Engine, country: string, f: Flow) {
    match e
    case SingBox(net, _) => net.srs("geoip-" + country + ".srs", f)
    case Xray(net, _) => f.ip.Some? && net.datGeoip(country, f.ip.value)
  }

  predicate HasGeosite(e: Engine, tag: string) {
    match e
    case SingBox(_, files) => "geosite-" + tag + ".srs" in files
    case Xray(_, dat) => dat
  }

  predicate InGeosite(e: Engine, tag: string, f: Flow) {
    match e
    case SingBox(net, _) => net.srs("geosite-" + tag + ".srs", f)
    case Xray(net, _) => f.domain.Some? && net.datGeosite(tag, f.domain.value)
  }

  /** Whether a rule can be carried out; `default` is not a rule in this sense. */
  ghost predicate Supported(e: Engine, r: RoutingRule) {
    match r.matcher
    case Default => false
    case GeoIP(country) => HasGeoip(e, country)
    case Geosite(tag) => HasGeosite(e, tag)
    case Unsupported => false
    case _ => true
  }

  ghost predicate Matches(e: Engine, m: Matcher, f: Flow) {
    match m
    case GeoIP(country) => InGeoip(e, country, f)
    case Geosite(tag) => InGeosite(e, tag, f)
    case Domain(name) => f.domain == Some(name)
    case DomainSuffix(suffix) => UnderSuffix(e, suffix, f)
    case IPCidr(cidr) => InCidr(e, cidr, f)
    case _ => false
  }

  ghost predicate Hits(e: Engine, r: RoutingRule, f: Flow) {
    Supported(e, r) && Matches(e, r.matcher, f)
  }

  ghost predicate FirstHit(e: Engine, rules: seq<RoutingRule>, f: Flow, i: int) {
    0 <= i < |rules| && Hits(e, rules[i], f) && forall j :: 0 <= j < i ==> !Hits(e, rules[j], f)
  }

  ghost predicate LocalHit(e: Engine, local: LocalDNSRule, f: Flow) {
    exists i :: 0 <= i < |local.domains| && UnderSuffix(e, local.domains[i], f)
  }

  /** The entry at i is the last `default`. */
  predicate LastDefault(rules: seq<RoutingRule>, i: int) {
    0 <= i < |rules| && rules[i].matcher.Default?
    && forall j :: i < j < |rules| ==> !rules[j].matcher.Default?
  }

  ghost predicate FallsTo(rules: seq<RoutingRule>, outbound: string) {
    if exists i :: LastDefault(rules, i) then
      exists i :: LastDefault(rules, i) && rules[i].outbound == outbound
    else outbound == "proxy"
  }

  /** The outbound that the rules mean for a flow. */
  ghost predicate Means(e: Engine, locals: seq<LocalDNSRule>, rules: seq<RoutingRule>, f: Flow, outbound: string) {
    if Private(e, f) then outbound == "direct"
    else if exists i :: 0 <= i < |locals| && LocalHit(e, locals[i], f) then outbound == "direct"
    else if exists i :: FirstHit(e, rules, f, i) then
      exists i :: FirstHit(e, rules, f, i) && rules[i].outbound == outbound
    else FallsTo(rules, outbound)
  }

  lemma MeansOne(e: Engine, locals: seq<LocalDNSRule>, rules: seq<RoutingRule>, f: Flow, a: string, b: string)
    requires Means(e, locals, rules, f, a) && Means(e, locals, rules, f, b)
    ensures a == b
  {
  }

  /** Two engines with the same knowledge of what a rule list asks about a flow. */
  ghost predicate AgreeOn(a: Engine, b: Engine, rules: seq<RoutingRule>, f: Flow) {
    && Private(a, f) == Private(b, f)
    && (forall s: string :: UnderSuffix(a, s, f) == UnderSuffix(b, s, f))
    && (forall s: string :: InCidr(a, s, f) == InCidr(b, s, f))
    && (forall i :: 0 <= i < |rules| && rules[i].matcher.GeoIP? ==>
          SameGeoip(a, b, rules[i].matcher.country, f))
    && (forall i :: 0 <= i < |rules| && rules[i].matcher.Geosite? ==>
          SameGeosite(a, b, rules[i].matcher.tag, f))
  }

  ghost predicate SameGeoip(a: Engine, b: Engine, country: string, f: Flow) {
    HasGeoip(a, country) == HasGeoip(b, country) && InGeoip(a, country, f) == InGeoip(b, country, f)
  }

  ghost predicate SameGeosite(a: Engine, b: Engine, tag: string, f: Flow) {
    HasGeosite(a, tag) == HasGeosite(b, tag) && InGeosite(a, tag, f) == InGeosite(b, tag, f)
  }

  lemma SameHits(a: Engine, b: Engine, rules: seq<RoutingRule>, f: Flow)
    requires AgreeOn(a, b, rules, f)
    ensures forall i :: 0 <= i < |rules| ==> Hits(a, rules[i], f) == Hits(b, rules[i], f)
    ensures forall i :: FirstHit(a, rules, f, i) == FirstHit(b, rules, f, i)
  {
  }

  lemma SameLocalHits(a: Engine, b: Engine, locals: seq<LocalDNSRule>, rules: seq<RoutingRule>, f: Flow)
    requires AgreeOn(a, b, rules, f)
    ensures forall i :: 0 <= i < |locals| ==> LocalHit(a, locals[i], f) == LocalHit(b, locals[i], f)
  {
  }

  lemma AgreementCarriesMeaning(a: Engine, b: Engine, locals: seq<LocalDNSRule>,
                                rules: seq<RoutingRule>, f: Flow, outbound: string)
    requires AgreeOn(a, b, rules, f)
    requires Means(a, locals, rules, f, outbound)
    ensures Means(b, locals, rules, f, outbound)
  {
    SameHits(a, b, rules, f);
    SameLocalHits(a, b, locals, rules, f);
  }

  // ----- the last default and the first hit, rule by rule -----

  /** What the loops hold after the first n rules. */
  function FinalOutbound(rules: seq<RoutingRule>, n: nat): string
    requires n <= |rules|
  {
    if n == 0 then PROXY
    else if rules[n - 1].matcher.Default? then rules[n - 1].outbound
    else FinalOutbound(rules, n - 1)
  }

  lemma {:induction false} FinalOutboundIsLast(rules: seq<RoutingRule>, n: nat)
    requires n <= |rules| && forall j :: n <= j < |rules| ==> !rules[j].matcher.Default?
    ensures FallsTo(rules, FinalOutbound(rules, n))
  {
    if n > 0 {
      if rules[n - 1].matcher.Default? {
        assert LastDefault(rules, n - 1);
      } else {
        FinalOutboundIsLast(rules, n - 1);
      }
    }
  }

  /** Going through the first n rules from the last to the first, keeping the
      outbound of each one that hits. */
  ghost function FirstPick(e: Engine, rules: seq<RoutingRule>, n: nat, f: Flow, other: string): string
    requires n <= |rules|
  {
    if n == 0 then other
    else FirstPick(e, rules, n - 1, f, if Hits(e, rules[n - 1], f) then rules[n - 1].outbound else other)
  }

  /** The first of the first n rules that hits, or n. */
  ghost function FirstHitIndex(e: Engine, rules: seq<RoutingRule>, n: nat, f: Flow): (i: nat)
    requires n <= |rules|
    ensures i <= n
    ensures i < n ==> FirstHit(e, rules, f, i)
    ensures i == n ==> forall j :: 0 <= j < n ==> !Hits(e, rules[j], f)
  {
    if n == 0 then 0
    else
      var i := FirstHitIndex(e, rules, n - 1, f);
      if i < n - 1 || Hits(e, rules[n - 1], f) then i else n
  }

  lemma {:induction false} FirstPickIsFirst(e: Engine, rules: seq<RoutingRule>, n: nat, f: Flow, other: string)
    requires n <= |rules|
    ensures FirstPick(e, rules, n, f, other)
         == var i := FirstHitIndex(e, rules, n, f); if i < n then rules[i].outbound else other
  {
    if n > 0 {
      FirstPickIsFirst(e, rules, n - 1, f, if Hits(e, rules[n - 1], f) then rules[n - 1].outbound else other);
    }
  }

  /** The first rule that hits, or else the last default, is what is meant. */
  lemma FirstHitMeans(e: Engine, locals: seq<LocalDNSRule>, rules: seq<RoutingRule>, f: Flow, i: nat)
    requires !Private(e, f) && !exists k :: 0 <= k < |locals| && LocalHit(e, locals[k], f)
    requires i <= |rules| && (forall j :: 0 <= j < i ==> !Hits(e, rules[j], f))
    requires i < |rules| ==> Hits(e, rules[i], f)
    ensures Means(e, locals, rules, f, if i < |rules| then rules[i].outbound else FinalOutbound(rules, |rules|))
  {
    FinalOutboundIsLast(rules, |rules|);
    if i < |rules| {
      assert FirstHit(e, rules, f, i);
    }
  }

  /** Rules that pick from the top, then the last default, mean what they should. */
  lemma PickMeans(e: Engine, locals: seq<LocalDNSRule>, rules: seq<RoutingRule>, f: Flow)
    requires !Private(e, f) && !exists i :: 0 <= i < |locals| && LocalHit(e, locals[i], f)
    ensures Means(e, locals, rules, f, FirstPick(e, rules, |rules|, f, FinalOutbound(rules, |rules|)))
  {
    FirstPickIsFirst(e, rules, |rules|, f, FinalOutbound(rules, |rules|));
    FirstHitMeans(e, locals, rules, f, FirstHitIndex(e, rules, |rules|, f));
  }
}
