/** Profile groups as values (internal/profile): what the files of a profile
    directory say, what each operation does to the groups, and the `.active` file
    that names the active link. */
module Groups {
  import opened Text
  import opened Links

  /** A group name becomes a file name, so it holds no path separator. */
  type GroupName = s: string | '/' !in s

  datatype GroupValue = GroupValue(kind: string, links: seq<LinkData>, subscriptions: seq<string>)

  /** All groups by name. */
  type Store = map<string, GroupValue>

  // ----- files -----

  datatype FileLink = FileLink(data: LinkData, group: string)

  datatype GroupFile = GroupFile(name: string, kind: string, links: seq<FileLink>, subscriptions: seq<string>)

  /** A file that parses as a group, or any other file. */
  datatype File = GroupJson(group: GroupFile) | Plain(text: string)

  const EXT: string := ".json"

  function FileName(name: string): string {
    name + EXT
  }

  function FileOf(name: string, v: GroupValue): GroupFile {
    GroupFile(name, v.kind, seq(|v.links|, i requires 0 <= i < |v.links| => FileLink(v.links[i], name)),
              v.subscriptions)
  }

  function DatasOf(links: seq<FileLink>): seq<LinkData> {
    seq(|links|, i requires 0 <= i < |links| => links[i].data)
  }

  /** What loading keeps of a file; the group stored with each link is dropped. */
  function ValueOf(f: GroupFile): GroupValue {
    GroupValue(f.kind, DatasOf(f.links), f.subscriptions)
  }

  /** The group files are the groups, field by field, and nothing else ends in ".json". */
  ghost predicate Mirrors(files: map<string, File>, store: Store) {
    && (forall n :: n in store ==> FileName(n) in files && files[FileName(n)] == GroupJson(FileOf(n, store[n])))
    && OnlyGroups(files, store)
  }

  ghost predicate OnlyGroups(files: map<string, File>, store: Store) {
    forall e :: e in files && HasSuffix(e, EXT) ==> exists n :: n in store && e == FileName(n)
  }

  /** The files give the groups when they are loaded. */
  ghost predicate LoadsAs(files: map<string, File>, store: Store) {
    && (forall n :: n in store ==> FileGives(files, FileName(n), n, store[n]))
    && OnlyGroups(files, store)
  }

  predicate FileGives(files: map<string, File>, e: string, name: string, v: GroupValue) {
    e in files && files[e].GroupJson? && files[e].group.name == name && ValueOf(files[e].group) == v
  }

  lemma FileNameInjective(a: string, b: string)
    requires FileName(a) == FileName(b)
    ensures a == b
  {
    assert a == FileName(a)[..|FileName(a)| - |EXT|];
    assert b == FileName(b)[..|FileName(b)| - |EXT|];
  }

  lemma MirrorsLoad(files: map<string, File>, store: Store)
    requires Mirrors(files, store)
    ensures LoadsAs(files, store)
  {
  }

  /** What it means for one group: its file has its name with ".json" and holds its name,
      kind and subscriptions, and its links in order, each with the group's name. */
  lemma MirrorsMean(files: map<string, File>, store: Store, name: string)
    requires Mirrors(files, store)
    ensures name in store ==>
              && name + ".json" in files && files[name + ".json"].GroupJson?
              && var f := files[name + ".json"].group;
                 && f.name == name && f.kind == store[name].kind && f.subscriptions == store[name].subscriptions
                 && |f.links| == |store[name].links|
                 && forall i :: 0 <= i < |f.links| ==>
                      f.links[i].data == store[name].links[i] && f.links[i].group == name
    ensures name !in store ==> name + ".json" !in files
  {
    assert HasSuffix(FileName(name), EXT);
    forall n | n in store && FileName(n) == FileName(name) ensures n == name {
      FileNameInjective(n, name);
    }
  }

  /** Saving one group keeps the mirror. */
  lemma MirrorsSave(files: map<string, File>, store: Store, name: string, v: GroupValue)
    requires Mirrors(files, store)
    ensures Mirrors(files[FileName(name) := GroupJson(FileOf(name, v))], store[name := v])
  {
    var files', store' := files[FileName(name) := GroupJson(FileOf(name, v))], store[name := v];
    forall n | n in store'
      ensures FileName(n) in files' && files'[FileName(n)] == GroupJson(FileOf(n, store'[n]))
    {
      if FileName(n) == FileName(name) {
        FileNameInjective(n, name);
      }
    }
    forall e | e in files' && HasSuffix(e, EXT) ensures exists n :: n in store' && e == FileName(n) {
      if e == FileName(name) {
        assert name in store';
      } else {
        var n :| n in store && e == FileName(n);
        assert n in store';
      }
    }
  }

  lemma MirrorsDelete(files: map<string, File>, store: Store, name: string)
    requires Mirrors(files, store)
    ensures Mirrors(files - {FileName(name)}, store - {name})
  {
  }

  // ----- operations -----

  /** A fetched subscription is a list of links, or a failure. */
  type Fetched = Option<seq<LinkData>>

  datatype Op =
    | CreateGroup(name: GroupName, kind: string)
    | DeleteGroup(name: GroupName)
    | AddLink(name: GroupName, link: LinkData)
    | RemoveLink(name: GroupName, remark: string)
    | AddSubscription(name: GroupName, url: string)
    | RemoveSubscription(name: GroupName, index: int)
    | UpdateSubscriptions(name: GroupName, answers: seq<Fetched>)  // one answer for each subscription
    | SaveGroup(name: GroupName)

  /** The first link with the remark, or the number of links. */
  function FirstNamed(links: seq<LinkData>, remark: string): (i: nat)
    ensures i <= |links|
    ensures i < |links| ==> links[i].remark == remark
    ensures forall j :: 0 <= j < i ==> links[j].remark != remark
  {
    if links == [] || links[0].remark == remark then 0 else 1 + FirstNamed(links[1..], remark)
  }

  function LinkCut(g: GroupValue, i: nat): GroupValue
    requires i < |g.links|
  {
    g.(links := g.links[..i] + g.links[i + 1..])
  }

  /** The links of the first n answers that did not fail, in order. */
  function AllFetched(answers: seq<Fetched>, n: nat): seq<LinkData> {
    if n == 0 then []
    else AllFetched(answers, n - 1)
         + if n - 1 < |answers| && answers[n - 1].Some? then answers[n - 1].value else []
  }

  predicate Succeeds(op: Op, store: Store) {
    match op
    case CreateGroup(name, _) => name !in store
    case DeleteGroup(name) => name in store
    case AddLink(_, _) => true
    case RemoveLink(name, remark) =>
      name in store && exists i :: 0 <= i < |store[name].links| && store[name].links[i].remark == remark
    case AddSubscription(name, url) => name in store && url !in store[name].subscriptions
    case RemoveSubscription(name, index) => name in store && 0 <= index < |store[name].subscriptions|
    case UpdateSubscriptions(name, answers) => name in store && AllFetched(answers, |store[name].subscriptions|) != []
    case SaveGroup(name) => name in store
  }

  /** What an operation does to the groups. One that fails changes nothing. */
  function Apply(op: Op, store: Store): Store {
    if !Succeeds(op, store) then store
    else
      match op
      case CreateGroup(name, kind) => store[name := GroupValue(kind, [], [])]
      case DeleteGroup(name) => store - {name}
      case AddLink(name, link) =>
        var g := if name in store then store[name] else GroupValue("basic", [], []);
        store[name := g.(links := g.links + [link])]
      case RemoveLink(name, remark) =>
        store[name := LinkCut(store[name], FirstNamed(store[name].links, remark))]
      case AddSubscription(name, url) =>
        var g := store[name];
        store[name := g.(subscriptions := g.subscriptions + [url])]
      case RemoveSubscription(name, index) =>
        var g := store[name];
        store[name := g.(subscriptions := g.subscriptions[..index] + g.subscriptions[index + 1..])]
      case UpdateSubscriptions(name, answers) =>
        var g := store[name];
        store[name := g.(links := AllFetched(answers, |g.subscriptions|))]
      case SaveGroup(_) => store
  }

  lemma RemoveLinkApplies(name: GroupName, remark: string, store: Store)
    requires name in store
    ensures var i := FirstNamed(store[name].links, remark);
            var op := RemoveLink(name, remark);
            if i < |store[name].links| then
              Succeeds(op, store) && Apply(op, store) == store[name := LinkCut(store[name], i)]
            else !Succeeds(op, store)
  {
  }

  function ApplyAll(ops: seq<Op>, store: Store): Store {
    if ops == [] then store else Apply(ops[|ops| - 1], ApplyAll(ops[..|ops| - 1], store))
  }

  // ----- the active link -----

  const ACTIVE: string := ".active"

  /** A link's place: its group and its position there. */
  datatype Place = Place(group: string, index: nat)

  function ActiveText(group: string, remark: string): string {
    group + "\n" + remark
  }

  /** The first link whose remark, without outer white space, is the given one,
      or the number of links. */
  function FirstTrimmed(links: seq<LinkData>, remark: string): (i: nat)
    ensures i <= |links|
    ensures i < |links| ==> TrimSpace(links[i].remark) == remark
    ensures forall j :: 0 <= j < i ==> TrimSpace(links[j].remark) != remark
  {
    FirstTrimmedOf(links, |links|, remark)
  }

  function FirstTrimmedOf(links: seq<LinkData>, n: nat, remark: string): (i: nat)
    requires n <= |links|
    ensures i <= n
    ensures i < n ==> TrimSpace(links[i].remark) == remark
    ensures forall j :: 0 <= j < i ==> TrimSpace(links[j].remark) != remark
  {
    if n == 0 then 0
    else
      var i := FirstTrimmedOf(links, n - 1, remark);
      if i < n - 1 || TrimSpace(links[n - 1].remark) == remark then i else n
  }

  /** What GetActiveLink makes of the `.active` file. */
  function Lookup(store: Store, text: string): Option<Place> {
    var lines := Split(text, '\n');
    if |lines| < 2 then None
    else
      var group, remark := TrimSpace(lines[0]), TrimSpace(lines[1]);
      if group !in store then None
      else
        var i := FirstTrimmed(store[group].links, remark);
        if i < |store[group].links| then Some(Place(group, i)) else None
  }

  /** Spelled out: the group named in the first line, and its first link that has the
      second line for its remark, all without outer white space. */
  lemma LookupMeans(store: Store, text: string, place: Place)
    ensures Lookup(store, text) == Some(place)
       <==> var lines := Split(text, '\n');
            && |lines| >= 2 && place.group == TrimSpace(lines[0]) && place.group in store
            && place.index < |store[place.group].links|
            && TrimSpace(store[place.group].links[place.index].remark) == TrimSpace(lines[1])
            && forall j :: 0 <= j < place.index ==> TrimSpace(store[place.group].links[j].remark) != TrimSpace(lines[1])
  {
  }

  /** A group name that is one line without outer white space. */
  predicate Stable(name: string) {
    '\n' !in name && TrimSpace(name) == name
  }

  lemma ActiveLines(group: string, remark: string)
    requires '\n' !in group && '\n' !in remark
    ensures Split(ActiveText(group, remark), '\n') == [group, remark]
  {
    SplitConcat(group, '\n', remark);
    SplitFree(group, '\n');
    SplitFree(remark, '\n');
  }

  /** A text whose outer white space is not lost by looking at its first line only. */
  predicate OnFirstLine(remark: string) {
    TrimSpace(Split(remark, '\n')[0]) == TrimSpace(remark)
  }

  /** The file can be followed back to the link it was written for. */
  predicate Followable(group: string, remark: string) {
    Stable(group) && OnFirstLine(remark)
  }

  /** A group name found in the first line has no line break and no outer white space. */
  lemma FirstLineStable(group: string, remark: string)
    ensures TrimSpace(Split(ActiveText(group, remark), '\n')[0]) == group <==> Stable(group)
    ensures |Split(ActiveText(group, remark), '\n')| >= 2
    ensures '\n' !in group ==> Split(ActiveText(group, remark), '\n')[1] == Split(remark, '\n')[0]
  {
    SplitConcat(group, '\n', remark);
    SplitPartsFree(group, '\n');
    if '\n' in group {
      TrimIsShorter(Split(group, '\n')[0]);
    } else {
      SplitFree(group, '\n');
    }
  }

  /** What SetActiveLink writes for a link, whatever its group and its remark are,
      leads to the first link of the same group with the same trimmed remark, exactly
      when the group's name is one line without outer white space and the remark has
      nothing after its first line. */
  lemma ActiveLinkIsFoundIff(store: Store, group: string, k: nat)
    requires group in store && k < |store[group].links|
    ensures var remark := store[group].links[k].remark;
            && FirstTrimmed(store[group].links, TrimSpace(remark)) <= k
            && (Lookup(store, ActiveText(group, remark))
                == Some(Place(group, FirstTrimmed(store[group].links, TrimSpace(remark))))
                <==> Followable(group, remark))
  {
    FirstLineStable(group, store[group].links[k].remark);
  }

  // ----- renaming a group -----

  /** What renaming makes of the `.active` file. */
  function RenamedText(text: string, oldName: string, newName: string): string {
    var lines := Split(TrimSpace(text), '\n');
    if |lines| >= 2 && TrimSpace(lines[0]) == oldName then newName + "\n" + lines[1] else text
  }

  function RenamedStore(store: Store, oldName: string, newName: string): Store
    requires oldName in store
  {
    (store - {oldName})[newName := store[oldName]]
  }

  /** The group goes by its new name, with all that it holds; the others are as before. */
  lemma RenamedStoreMeans(store: Store, oldName: string, newName: string)
    requires oldName in store && newName !in store
    ensures var renamed := RenamedStore(store, oldName, newName);
            && newName in renamed && renamed[newName] == store[oldName] && oldName !in renamed
            && forall n :: n != oldName && n != newName ==>
                 (n in renamed <==> n in store) && (n in store ==> renamed[n] == store[n])
  {
  }

  predicate Blank(s: string) {
    TrimSpace(s) == ""
  }

  lemma {:induction false} TrimRightIdempotent(s: string)
    ensures TrimRight(TrimRight(s)) == TrimRight(s)
  {
    if s != [] && IsSpace(s[|s| - 1]) {
      TrimRightIdempotent(s[..|s| - 1]);
    }
  }

  lemma {:induction false} TrimRightAfter(a: string, b: string)
    ensures TrimRight(b) != "" ==> TrimRight(a + b) == a + TrimRight(b)
    ensures TrimRight(b) == "" ==> TrimRight(a + b) == TrimRight(a)
  {
    if b == [] {
      assert a + b == a;
    } else if IsSpace(b[|b| - 1]) {
      TrimRightAfter(a, b[..|b| - 1]);
      assert (a + b)[..|a + b| - 1] == a + b[..|b| - 1];
    }
  }

  /** What is left of a string when its left end is trimmed is its end. */
  lemma {:induction false} TrimLeftIsEnd(s: string)
    ensures exists i :: 0 <= i <= |s| && TrimLeft(s) == s[i..] && (i < |s| ==> !IsSpace(s[i]))
                        && forall j :: 0 <= j < i ==> IsSpace(s[j])
  {
    if s != [] && IsSpace(s[0]) {
      TrimLeftIsEnd(s[1..]);
      var i :| 0 <= i <= |s[1..]| && TrimLeft(s[1..]) == s[1..][i..] && (i < |s[1..]| ==> !IsSpace(s[1..][i]))
               && forall j :: 0 <= j < i ==> IsSpace(s[1..][j]);
      assert s[1..][i..] == s[i + 1..];
      assert forall j :: 1 <= j < i + 1 ==> s[j] == s[1..][j - 1];
    } else {
      assert s[0..] == s;
    }
  }

  lemma {:induction false} TrimRightOfSpaces(s: string)
    requires forall j :: 0 <= j < |s| ==> IsSpace(s[j])
    ensures TrimRight(s) == ""
  {
    if s != [] {
      TrimRightOfSpaces(s[..|s| - 1]);
    }
  }

  lemma BlankFromRight(s: string)
    ensures Blank(s) <==> TrimRight(s) == ""
    ensures TrimSpace(TrimRight(s)) == TrimSpace(s)
  {
    TrimLeftIsEnd(s);
    var i :| 0 <= i <= |s| && TrimLeft(s) == s[i..] && (i < |s| ==> !IsSpace(s[i]))
             && forall j :: 0 <= j < i ==> IsSpace(s[j]);
    assert s == s[..i] + s[i..];
    TrimRightAfter(s[..i], s[i..]);
    TrimRightOfSpaces(s[..i]);
    if i < |s| {
      NonSpaceStays(s[i..]);
      SpacesGo(s[..i], TrimRight(s[i..]));
      TrimRightIdempotent(s[i..]);
    }
  }

  lemma {:induction false} NonSpaceStays(s: string)
    requires s != [] && !IsSpace(s[0])
    ensures TrimRight(s) != "" && TrimRight(s)[0] == s[0]
  {
    if IsSpace(s[|s| - 1]) {
      NonSpaceStays(s[..|s| - 1]);
    }
  }

  lemma {:induction false} SpacesGo(a: string, b: string)
    requires forall j :: 0 <= j < |a| ==> IsSpace(a[j])
    requires b != [] && !IsSpace(b[0])
    ensures TrimLeft(a + b) == b
  {
    if a == [] {
      assert a + b == b;
    } else {
      assert (a + b)[1..] == a[1..] + b;
      SpacesGo(a[1..], b);
    }
  }

  lemma {:induction false} TrimRightIsPrefix(s: string)
    ensures TrimRight(s) <= s
  {
    if s != [] && IsSpace(s[|s| - 1]) {
      TrimRightIsPrefix(s[..|s| - 1]);
    }
  }

  lemma TrimIsShorter(s: string)
    ensures |TrimRight(s)| <= |s| && |TrimLeft(s)| <= |s|
    ensures forall c :: c in TrimSpace(s) ==> c in s
  {
    TrimRightIsPrefix(s);
    TrimLeftIsEnd(s);
    TrimRightIsPrefix(TrimLeft(s));
  }

  lemma StableEnds(name: string)
    requires Stable(name)
    ensures TrimLeft(name) == name && TrimRight(name) == name
    ensures name != "" ==> !IsSpace(name[0])
  {
    TrimIsShorter(TrimLeft(name));
    if name != "" && IsSpace(name[0]) {
      TrimIsShorter(name[1..]);
    }
  }

  lemma TrimLeftBefore(a: string, b: string)
    requires !Blank(a)
    ensures TrimLeft(a + b) == TrimLeft(a) + b && TrimLeft(a) != ""
  {
    TrimLeftIsEnd(a);
    var i :| 0 <= i <= |a| && TrimLeft(a) == a[i..] && (i < |a| ==> !IsSpace(a[i]))
             && forall j :: 0 <= j < i ==> IsSpace(a[j]);
    if i < |a| {
      SpacesGo(a[..i], a[i..] + b);
      assert a + b == a[..i] + (a[i..] + b);
    }
  }

  lemma LaterLineShows(first: string, rest: string)
    requires !Blank(first) && rest != "" && rest[0] == '\n' && TrimRight(rest) != ""
    ensures '\n' in TrimSpace(first + rest)
  {
    TrimLeftBefore(first, rest);
    TrimRightAfter(TrimLeft(first), rest);
    TrimRightIsPrefix(rest);
    assert TrimRight(rest)[0] == '\n';
  }

  lemma NothingAfterFirst(first: string, rest: string)
    requires rest != "" && rest[0] == '\n' && '\n' !in first
    requires TrimSpace(first + rest) == TrimSpace(first)
    ensures TrimRight(rest) == ""
  {
    if TrimRight(rest) != "" {
      TrimIsShorter(first);
      if Blank(first) {
        BlankFromRight(first + rest);
        TrimRightAfter(first, rest);
      } else {
        LaterLineShows(first, rest);
      }
    }
  }

  /** A remark that has nothing after its first line ends there when it is trimmed. */
  lemma EndsOnFirstLine(remark: string)
    requires OnFirstLine(remark)
    ensures TrimRight(remark) == TrimRight(Split(remark, '\n')[0]) && '\n' !in TrimRight(remark)
  {
    var parts := Split(remark, '\n');
    SplitPartsFree(remark, '\n');
    JoinSplit(remark, '\n');
    TrimRightIsPrefix(parts[0]);
    if |parts| > 1 {
      var rest := "\n" + Join(parts[1..], '\n');
      assert remark == parts[0] + rest;
      NothingAfterFirst(parts[0], rest);
      TrimRightAfter(parts[0], rest);
    }
  }

  /** The lines that renaming sees of an `.active` file: both only when neither the group
      name nor the remark is blank. */
  lemma TrimmedActive(group: string, remark: string)
    requires Followable(group, remark)
    ensures var lines := Split(TrimSpace(ActiveText(group, remark)), '\n');
            if group != "" && !Blank(remark) then lines == [group, TrimRight(remark)] else |lines| == 1
  {
    var t := ActiveText(group, remark);
    EndsOnFirstLine(remark);
    BlankFromRight(remark);
    TrimIsShorter(TrimRight(remark));
    StableEnds(group);
    if group == "" {
      assert t[1..] == remark;
      SplitFree(TrimSpace(remark), '\n');
    } else {
      TrimRightAfter(group + "\n", remark);
      if Blank(remark) {
        TrimRightAfter(group, "\n");
        assert "\n"[..0] == "";
        SplitFree(group, '\n');
      } else {
        TrimRightIsPrefix(remark);
        ActiveLines(group, TrimRight(remark));
      }
    }
  }

  /** The file leads to no link of this group. */
  predicate LeadsElsewhere(store: Store, text: string, group: string) {
    var place := Lookup(store, text);
    place.Some? ==> place.value.group != group
  }

  /** Renaming a group leads to the same link as before exactly when the `.active` file
      does not name that group, or names it and all of the old name, the trimmed
      remark and the new name are fit to be found again: the first two not empty,
      the new one a single line without outer white space. */
  lemma RenameKeepsActiveIff(store: Store, group: string, remark: string, j: nat, oldName: string, newName: string)
    requires oldName in store && newName !in store && Followable(group, remark)
    requires Lookup(store, ActiveText(group, remark)) == Some(Place(group, j))
    ensures Lookup(RenamedStore(store, oldName, newName), RenamedText(ActiveText(group, remark), oldName, newName))
            == Some(Place(if group == oldName then newName else group, j))
       <==> (group == oldName ==> oldName != "" && !Blank(remark) && Stable(newName))
    ensures !(group == oldName ==> oldName != "" && !Blank(remark) && Stable(newName)) ==>
              LeadsElsewhere(RenamedStore(store, oldName, newName),
                             RenamedText(ActiveText(group, remark), oldName, newName), newName)
  {
    FirstLineStable(group, remark);
    EndsOnFirstLine(remark);
    TrimmedActive(group, remark);
    if group == oldName && oldName != "" && !Blank(remark) {
      RenamedActive(store, remark, oldName, newName);
    }
  }

  lemma RenamedActive(store: Store, remark: string, oldName: string, newName: string)
    requires oldName in store && newName !in store && '\n' !in TrimRight(remark) && !Blank(remark)
    requires FirstTrimmed(store[oldName].links, TrimSpace(remark)) < |store[oldName].links|
    ensures Lookup(RenamedStore(store, oldName, newName), newName + "\n" + TrimRight(remark))
            == Some(Place(newName, FirstTrimmed(store[oldName].links, TrimSpace(remark))))
       <==> Stable(newName)
    ensures !Stable(newName) ==>
              LeadsElsewhere(RenamedStore(store, oldName, newName), newName + "\n" + TrimRight(remark), newName)
  {
    var text := newName + "\n" + TrimRight(remark);
    BlankFromRight(remark);
    TrimRightIsPrefix(remark);
    if '\n' !in newName {
      ActiveLines(newName, TrimRight(remark));
    } else {
      SplitPartsFree(text, '\n');
      TrimIsShorter(Split(text, '\n')[0]);
      assert TrimSpace(Split(text, '\n')[0]) != newName;
    }
  }

  /** The files after a group was renamed: the file under the new name is written
      with nothing but the name changed, the old one removed, and the `.active` file
      updated if it names the old group. */
  function RenamedFiles(files: map<string, File>, oldName: string, newName: string): map<string, File>
    requires FileName(oldName) in files && files[FileName(oldName)].GroupJson?
  {
    var renamed := files[FileName(oldName)].group.(name := newName);
    RenamedActiveFile(files[FileName(newName) := GroupJson(renamed)] - {FileName(oldName)}, oldName, newName)
  }

  function RenamedActiveFile(files: map<string, File>, oldName: string, newName: string): map<string, File> {
    if ACTIVE in files && files[ACTIVE].Plain? then
      files[ACTIVE := Plain(RenamedText(files[ACTIVE].text, oldName, newName))]
    else files
  }

  lemma ActiveFileIsNoGroup()
    ensures !HasSuffix(ACTIVE, EXT)
    ensures forall n :: FileName(n) != ACTIVE
  {
  }

  lemma ActiveFileLoads(files: map<string, File>, store: Store, text: string)
    ensures LoadsAs(files, store) ==> LoadsAs(files[ACTIVE := Plain(text)], store)
    ensures Mirrors(files, store) ==> Mirrors(files[ACTIVE := Plain(text)], store)
  {
  }

  /** After renaming, the files load as the same groups under the new name, with
      all their links and subscriptions. */
  lemma RenameLoads(files: map<string, File>, store: Store, oldName: string, newName: string)
    requires LoadsAs(files, store) && oldName in store && FileName(newName) !in files
    ensures newName !in store
    ensures LoadsAs(RenamedFiles(files, oldName, newName), RenamedStore(store, oldName, newName))
  {
  }

}
