/** What each operation on profile groups has to do (internal/profile/profile.go and
    subscription.go), said element by element, and that it does. */
module Effects {
  import opened Text
  import opened Links
  import opened Groups

  /** r is s with x after it. */
  ghost predicate Appended<T>(r: seq<T>, s: seq<T>, x: T) {
    |r| == |s| + 1 && r[|s|] == x && forall k :: 0 <= k < |s| ==> r[k] == s[k]
  }

  /** r is s without the element at i: those before it stay, those after it move down by
      one place. */
  ghost predicate Removed<T>(r: seq<T>, s: seq<T>, i: int) {
    && 0 <= i < |s| && |r| == |s| - 1
    && (forall k :: 0 <= k < i ==> r[k] == s[k])
    && forall k :: i <= k < |r| ==> r[k] == s[k + 1]
  }

  /** The links of the first n answers that did not fail, one answer after the other:
      those of answer i are the ones from starts[i] up to starts[i + 1]. */
  ghost predicate Gathered(links: seq<LinkData>, answers: seq<Fetched>, n: nat, starts: seq<nat>) {
    && |starts| == n + 1 && starts[0] == 0 && starts[n] == |links|
    && (forall i :: 0 <= i < n && i < |answers| && answers[i].Some? ==>
          Holds(links, starts[i], answers[i].value) && starts[i + 1] == starts[i] + |answers[i].value|)
    && (forall i :: 0 <= i < n && (i >= |answers| || answers[i].None?) ==> starts[i + 1] == starts[i])
  }

  /** The links from the place `start` on are these. */
  ghost predicate Holds(links: seq<LinkData>, start: nat, found: seq<LinkData>) {
    start + |found| <= |links| && forall k :: 0 <= k < |found| ==> links[start + k] == found[k]
  }

  ghost predicate OthersSame(before: Store, after: Store, name: string) {
    forall n :: n != name ==> (n in after <==> n in before) && (n in before ==> after[n] == before[n])
  }

  /** The link at i is the first with the remark. */
  ghost predicate First(links: seq<LinkData>, remark: string, i: int) {
    0 <= i < |links| && links[i].remark == remark && forall j :: 0 <= j < i ==> links[j].remark != remark
  }

  /** Whether an operation is not refused. */
  ghost predicate Accepts(op: Op, before: Store) {
    && (op.CreateGroup? ==> op.name !in before)
    && (!op.CreateGroup? && !op.AddLink? ==> op.name in before)
    && (op.RemoveLink? ==> exists i :: First(before[op.name].links, op.remark, i))
    && (op.AddSubscription? ==> op.url !in before[op.name].subscriptions)
    && (op.RemoveSubscription? ==> 0 <= op.index < |before[op.name].subscriptions|)
    && (op.UpdateSubscriptions? ==>
          exists i :: 0 <= i < |before[op.name].subscriptions| && i < |op.answers|
                      && op.answers[i].Some? && op.answers[i].value != [])
  }

  /** What it does to the group that it names: g becomes h. */
  ghost predicate Changes(op: Op, g: GroupValue, h: GroupValue) {
    && (op.AddLink? || op.RemoveLink? || op.UpdateSubscriptions? ==>
          h.kind == g.kind && h.subscriptions == g.subscriptions)
    && (op.AddSubscription? || op.RemoveSubscription? ==> h.kind == g.kind && h.links == g.links)
    && (op.AddLink? ==> Appended(h.links, g.links, op.link))
    && (op.RemoveLink? ==> exists i :: First(g.links, op.remark, i) && Removed(h.links, g.links, i))
    && (op.AddSubscription? ==> Appended(h.subscriptions, g.subscriptions, op.url))
    && (op.RemoveSubscription? ==> Removed(h.subscriptions, g.subscriptions, op.index))
    && (op.UpdateSubscriptions? ==> exists starts :: Gathered(h.links, op.answers, |g.subscriptions|, starts))
    && (op.SaveGroup? ==> h == g)
  }

  /** What the named group is before and after: one that is created begins empty. */
  ghost predicate Affects(op: Op, before: Store, after: Store) {
    if op.DeleteGroup? then op.name !in after
    else if op.CreateGroup? then op.name in after && after[op.name] == GroupValue(op.kind, [], [])
    else
      && op.name in after
      && Changes(op, if op.name in before then before[op.name] else GroupValue("basic", [], []), after[op.name])
  }

  /** An operation that is refused changes nothing; any other changes the group that it
      names, as said above, and no other. */
  ghost predicate Effect(op: Op, before: Store, after: Store, ok: bool) {
    && (ok <==> Accepts(op, before))
    && (ok ==> Affects(op, before, after) && OthersSame(before, after, op.name))
    && (!ok ==> after == before)
  }

  lemma GatheredMore(links: seq<LinkData>, answers: seq<Fetched>, n: nat, starts: seq<nat>, more: seq<LinkData>)
    requires Gathered(links, answers, n, starts)
    requires more == if n < |answers| && answers[n].Some? then answers[n].value else []
    ensures Gathered(links + more, answers, n + 1, starts + [|links + more|])
  {
    var all, next := links + more, starts + [|links + more|];
    forall i | 0 <= i < n + 1 && i < |answers| && answers[i].Some?
      ensures Holds(all, next[i], answers[i].value) && next[i + 1] == next[i] + |answers[i].value|
    {
      if i < n {
        HoldsInMore(links, more, starts[i], answers[i].value);
      }
    }
  }

  lemma HoldsInMore(links: seq<LinkData>, more: seq<LinkData>, start: nat, found: seq<LinkData>)
    requires Holds(links, start, found)
    ensures Holds(links + more, start, found)
  {
  }

  lemma {:induction false} FetchedGathered(answers: seq<Fetched>, n: nat) returns (starts: seq<nat>)
    ensures Gathered(AllFetched(answers, n), answers, n, starts)
  {
    if n == 0 {
      starts := [0];
    } else {
      var before := FetchedGathered(answers, n - 1);
      var links := AllFetched(answers, n - 1);
      var more := if n - 1 < |answers| && answers[n - 1].Some? then answers[n - 1].value else [];
      GatheredMore(links, answers, n - 1, before, more);
      starts := before + [|links + more|];
    }
  }

  lemma {:induction false} SomeFetched(answers: seq<Fetched>, n: nat)
    ensures AllFetched(answers, n) != [] <==>
              exists i :: 0 <= i < n && i < |answers| && answers[i].Some? && answers[i].value != []
  {
    if n > 0 {
      SomeFetched(answers, n - 1);
    }
  }

  lemma FirstIs(links: seq<LinkData>, remark: string)
    ensures (exists i :: 0 <= i < |links| && links[i].remark == remark) <==> exists i :: First(links, remark, i)
    ensures FirstNamed(links, remark) < |links| ==> First(links, remark, FirstNamed(links, remark))
  {
    var i := FirstNamed(links, remark);
    if i < |links| {
      assert First(links, remark, i);
    }
  }

  lemma SucceedsIff(op: Op, store: Store)
    ensures Succeeds(op, store) <==> Accepts(op, store)
  {
    match op
    case RemoveLink(name, remark) =>
      if name in store {
        FirstIs(store[name].links, remark);
      }
    case UpdateSubscriptions(name, answers) =>
      if name in store {
        SomeFetched(answers, |store[name].subscriptions|);
      }
    case _ =>
  }

  lemma ApplyAffects(op: Op, store: Store)
    requires Succeeds(op, store)
    ensures Affects(op, store, Apply(op, store)) && OthersSame(store, Apply(op, store), op.name)
  {
    match op
    case RemoveLink(name, remark) =>
      FirstIs(store[name].links, remark);
      var i := FirstNamed(store[name].links, remark);
      assert Removed(Apply(op, store)[name].links, store[name].links, i);
    case UpdateSubscriptions(name, answers) =>
      var starts := FetchedGathered(answers, |store[name].subscriptions|);
    case _ =>
  }

  /** For every operation on every store. */
  lemma ApplyHasEffect(op: Op, store: Store)
    ensures Effect(op, store, Apply(op, store), Succeeds(op, store))
  {
    SucceedsIff(op, store);
    if Succeeds(op, store) {
      ApplyAffects(op, store);
    }
  }

  /** Operations take effect from the first to the last. */
  lemma {:induction false} ApplyAllInTurn(first: Op, rest: seq<Op>, store: Store)
    ensures ApplyAll([first] + rest, store) == ApplyAll(rest, Apply(first, store))
  {
    var all := [first] + rest;
    if rest == [] {
      assert all == [first] && [first][..0] == [];
    } else {
      assert all[..|all| - 1] == [first] + rest[..|rest| - 1];
      ApplyAllInTurn(first, rest[..|rest| - 1], store);
    }
  }
}
