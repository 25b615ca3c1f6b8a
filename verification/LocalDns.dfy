/** The built-in DNS forwarder's choice of a server (internal/gateway/gateway.go,
    startBuiltinDNS): names under a local suffix go to the local server, compared
    as strings; that this is the comparison of labels is proved here. */
module LocalDns {
  import opened Text
  import opened Routing
  import opened SplitDns

  /** The test of the forwarder, on strings. */
  predicate UnderString(name: string, suffix: string) {
    name == suffix || HasSuffix(name, "." + suffix)
  }

  /** What it is for: the labels of the suffix are the last labels of the name. */
  predicate UnderLabels(name: string, suffix: string) {
    var n, s := Split(name, '.'), Split(suffix, '.');
    |s| <= |n| && n[|n| - |s|..] == s
  }

  lemma {:induction false} JoinConcat(a: seq<string>, b: seq<string>, sep: char)
    requires a != [] && b != []
    ensures Join(a + b, sep) == Join(a, sep) + [sep] + Join(b, sep)
  {
    assert (a + b)[1..] == a[1..] + b;
    if |a| > 1 {
      JoinConcat(a[1..], b, sep);
    }
  }

  lemma LabelsOfTail(head: string, suffix: string)
    ensures UnderLabels(head + "." + suffix, suffix)
  {
    SplitConcat(head, '.', suffix);
    var h, s := Split(head, '.'), Split(suffix, '.');
    assert (h + s)[|h + s| - |s|..] == s;
  }

  lemma LabelsGiveTail(name: string, suffix: string)
    requires UnderLabels(name, suffix)
    ensures UnderString(name, suffix)
  {
    var n, s := Split(name, '.'), Split(suffix, '.');
    JoinSplit(name, '.');
    JoinSplit(suffix, '.');
    var head := n[..|n| - |s|];
    assert n == head + s;
    if head != [] {
      JoinConcat(head, s, '.');
      assert name[|Join(head, '.')|..] == "." + suffix;
    }
  }

  /** For all strings, empty labels and trailing dots included, the two tests agree. */
  lemma StringTestIsLabelTest(name: string, suffix: string)
    ensures UnderString(name, suffix) <==> UnderLabels(name, suffix)
  {
    if UnderLabels(name, suffix) {
      LabelsGiveTail(name, suffix);
    }
    if HasSuffix(name, "." + suffix) {
      var head := name[..|name| - |suffix| - 1];
      assert name == head + "." + suffix;
      LabelsOfTail(head, suffix);
    }
  }

  function TrimDot(name: string): string {
    if HasSuffix(name, ".") then name[..|name| - 1] else name
  }

  /** At most one dot is taken off. */
  lemma TrimDotMeans(q: string)
    ensures TrimDot(q) == if q != "" && q[|q| - 1] == '.' then q[..|q| - 1] else q
  {
    if q != "" {
      assert q[|q| - 1..] == [q[|q| - 1]];
    }
  }

  ghost predicate AnyAbove(suffixes: seq<string>, name: string, lower: string -> string) {
    exists k :: 0 <= k < |suffixes| && UnderLabels(name, lower(suffixes[k]))
  }

  /** The entry has a server and one of its suffixes covers the name, by labels. */
  ghost predicate Serves(local: LocalDNSRule, name: string, lower: string -> string) {
    local.server != "" && AnyAbove(local.domains, name, lower)
  }

  // ----- the first of several entries -----

  ghost predicate FirstServing(locals: seq<LocalDNSRule>, serves: LocalDNSRule -> bool, i: int) {
    0 <= i < |locals| && serves(locals[i]) && forall j :: 0 <= j < i ==> !serves(locals[j])
  }

  function FirstServer(locals: seq<LocalDNSRule>, serves: LocalDNSRule -> bool): Option<string> {
    if locals == [] then None
    else if serves(locals[0]) then Some(locals[0].server)
    else FirstServer(locals[1..], serves)
  }

  lemma {:induction false} FirstServerIsFirst(locals: seq<LocalDNSRule>, serves: LocalDNSRule -> bool)
    ensures FirstServer(locals, serves).None? ==> forall i :: 0 <= i < |locals| ==> !serves(locals[i])
    ensures FirstServer(locals, serves).Some? ==>
              exists i :: FirstServing(locals, serves, i) && FirstServer(locals, serves).value == locals[i].server
  {
    if locals != [] {
      if serves(locals[0]) {
        assert FirstServing(locals, serves, 0);
      } else {
        FirstServerIsFirst(locals[1..], serves);
        assert forall i :: 1 <= i < |locals| ==> locals[i] == locals[1..][i - 1];
        if FirstServer(locals[1..], serves).Some? {
          var i :| FirstServing(locals[1..], serves, i)
                   && FirstServer(locals[1..], serves).value == locals[1..][i].server;
          assert FirstServing(locals, serves, i + 1);
        }
      }
    }
  }

  function Kept(configured: seq<LocalDNSRule>): seq<LocalDNSRule> {
    if configured == [] then []
    else (if Active(configured[0]) then [configured[0]] else []) + Kept(configured[1..])
  }

  /** Leaving out inactive entries, which serve nothing, changes no answer. */
  lemma {:induction false} KeptAnswersTheSame(configured: seq<LocalDNSRule>, serves: LocalDNSRule -> bool)
    requires forall l :: serves(l) ==> Active(l)
    ensures FirstServer(Kept(configured), serves) == FirstServer(configured, serves)
    ensures forall i :: 0 <= i < |Kept(configured)| ==> Active(Kept(configured)[i])
  {
    if configured != [] {
      KeptAnswersTheSame(configured[1..], serves);
      if Active(configured[0]) {
        assert ([configured[0]] + Kept(configured[1..]))[1..] == Kept(configured[1..]);
      } else {
        assert Kept(configured) == Kept(configured[1..]);
      }
    }
  }

  // ----- the forwarder -----

  class Forwarder {
    var localDNS: seq<LocalDNSRule>

    /** Only entries with a server and with domains are kept. */
    constructor (configured: seq<LocalDNSRule>)
      ensures localDNS == Kept(configured)
    {
      var kept: seq<LocalDNSRule> := [];
      for i := 0 to |configured|
        invariant Kept(configured) == kept + Kept(configured[i..])
      {
        if configured[i].server != "" && |configured[i].domains| > 0 {
          Assoc(kept, [configured[i]], Kept(configured[i + 1..]));
          kept := kept + [configured[i]];
        }
      }
      localDNS := kept;
    }

    /** The inner loop of queryFn, over the suffixes of one entry. */
    static method AnyMatches(suffixes: seq<string>, qname: string, lower: string -> string) returns (yes: bool)
      ensures yes <==> AnyAbove(suffixes, qname, lower)
    {
      for k := 0 to |suffixes|
        invariant forall j :: 0 <= j < k ==> !UnderLabels(qname, lower(suffixes[j]))
      {
        var sfx := lower(suffixes[k]);
        StringTestIsLabelTest(qname, sfx);
        if qname == sfx || HasSuffix(qname, "." + sfx) {
          return true;
        }
      }
      return false;
    }

    /** The loops at the start of queryFn: the server of the first entry with a
        matching suffix, or None for the upstream path. `lower` is the
        lower-casing of strings. */
    method ServerFor(question: string, lower: string -> string, ghost serves: LocalDNSRule -> bool)
      returns (server: Option<string>)
      requires forall l :: serves(l) <==> Serves(l, TrimDot(lower(question)), lower)
      requires forall i :: 0 <= i < |localDNS| ==> Active(localDNS[i])
      ensures server == FirstServer(localDNS, serves)
    {
      var qname := TrimDot(lower(question));
      for i := 0 to |localDNS|
        invariant FirstServer(localDNS, serves) == FirstServer(localDNS[i..], serves)
      {
        assert localDNS[i..][0] == localDNS[i] && localDNS[i..][1..] == localDNS[i + 1..];
        var matches := AnyMatches(localDNS[i].domains, qname, lower);
        if matches {
          return Some(localDNS[i].server);
        }
      }
      return None;
    }
  }

  /** None of the first n entries that have a server has a suffix whose labels end the
      name. */
  ghost predicate NoneServes(locals: seq<LocalDNSRule>, name: string, lower: string -> string, n: nat)
    requires n <= |locals|
  {
    forall j, k :: 0 <= j < n && locals[j].server != "" && 0 <= k < |locals[j].domains| ==>
      !UnderLabels(name, lower(locals[j].domains[k]))
  }

  /** For every configuration and every question: a query goes to the server of
      the first entry with a server that has a suffix whose labels end the lower-cased
      name, taken without the dot at its end, and to the upstream path when there is
      none. */
  method Dispatch(configured: seq<LocalDNSRule>, question: string, lower: string -> string)
    returns (server: Option<string>)
    ensures var q := lower(question);
            var name := if q != "" && q[|q| - 1] == '.' then q[..|q| - 1] else q;
            && (server.None? ==> NoneServes(configured, name, lower, |configured|))
            && (server.Some? ==>
                  exists i, k ::
                    && 0 <= i < |configured| && configured[i].server == server.value && server.value != ""
                    && 0 <= k < |configured[i].domains| && UnderLabels(name, lower(configured[i].domains[k]))
                    && NoneServes(configured, name, lower, i))
  {
    var forwarder := new Forwarder(configured);
    ghost var name := TrimDot(lower(question));
    ghost var serves := (l: LocalDNSRule) => Serves(l, name, lower);
    KeptAnswersTheSame(configured, serves);
    FirstServerIsFirst(configured, serves);
    server := forwarder.ServerFor(question, lower, serves);
    TrimDotMeans(lower(question));
    if server.Some? {
      ghost var i :| FirstServing(configured, serves, i) && server.value == configured[i].server;
      ghost var k :| 0 <= k < |configured[i].domains| && UnderLabels(name, lower(configured[i].domains[k]));
      assert forall j :: 0 <= j < i ==> !Serves(configured[j], name, lower);
      assert NoneServes(configured, name, lower, i);
    }
  }
}
