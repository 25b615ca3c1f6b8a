/** The profile manager (internal/profile/profile.go and subscription.go): groups
    in memory, mirrored in the files of a directory, and the renaming of a group
    behind its back (internal/tui/tui.go). Writes succeed. */
module Profiles {
  import opened Text
  import opened Links
  import opened Groups
  import opened Effects

  class Directory {
    var files: map<string, File>

    constructor ()
      ensures files == map[]
    {
      files := map[];
    }
  }

  datatype Group = Group(name: string, kind: string, links: seq<Link>, subscriptions: seq<string>)

  function Datas(links: seq<Link>): seq<LinkData> {
    seq(|links|, i requires 0 <= i < |links| => links[i].data)
  }

  function Value(g: Group): GroupValue {
    GroupValue(g.kind, Datas(g.links), g.subscriptions)
  }

  /** Every link carries the name of its group. */
  ghost predicate Owns(g: Group)
    reads g.links`group
  {
    forall i :: 0 <= i < |g.links| ==> g.links[i].group == g.name
  }

  function FileLinks(links: seq<Link>): (r: seq<FileLink>)
    reads links`group
    ensures |r| == |links| && forall i :: 0 <= i < |r| ==> r[i] == FileLink(links[i].data, links[i].group)
  {
    if links == [] then []
    else FileLinks(links[..|links| - 1]) + [FileLink(links[|links| - 1].data, links[|links| - 1].group)]
  }

  /** What is written to a group's file. */
  function Serialised(g: Group): GroupFile
    reads g.links`group
  {
    GroupFile(g.name, g.kind, FileLinks(g.links), g.subscriptions)
  }

  lemma SerialisedIsFile(g: Group)
    requires Owns(g)
    ensures Serialised(g) == FileOf(g.name, Value(g))
  {
  }

  predicate IsGroupFile(files: map<string, File>, e: string) {
    e in files && HasSuffix(e, EXT) && files[e].GroupJson?
  }

  class Manager {
    const dir: Directory
    const activeGroup: string
    var groups: map<string, Group>
    var activeLink: Option<Link>

    ghost function View(): Store
      reads `groups
    {
      map n | n in groups :: Value(groups[n])
    }

    ghost function LinksHeld(): set<Link>
      reads `groups
    {
      set n, i | n in groups && 0 <= i < |groups[n].links| :: groups[n].links[i]
    }

    /** Groups are filed under their own names and own their links. */
    ghost predicate Named()
      reads `groups, LinksHeld()`group
    {
      forall n :: n in groups ==> groups[n].name == n && Owns(groups[n])
    }

    /** And the files are the groups. */
    ghost predicate Valid()
      reads `groups, LinksHeld()`group, dir
    {
      Named() && Mirrors(dir.files, View())
    }

    /** NewManager: whatever group files the directory holds are loaded. */
    constructor (dir: Directory, activeGroup: string)
      ensures this.dir == dir && this.activeGroup == activeGroup && activeLink == None
      ensures Named()
      ensures forall n, i :: n in groups && 0 <= i < |groups[n].links| ==> fresh(groups[n].links[i])
      ensures Loaded(groups, dir.files)
    {
      this.dir, this.activeGroup, groups, activeLink := dir, activeGroup, map[], None;
      new;
      LoadAll();
    }

    /** loadAll, over the entries of the directory in any order. */
    method LoadAll()
      requires groups == map[]
      modifies `groups
      ensures Named()
      ensures forall n, i :: n in groups && 0 <= i < |groups[n].links| ==> fresh(groups[n].links[i])
      ensures Loaded(groups, dir.files)
    {
      var files := dir.files;
      var entries := files.Keys;
      while entries != {}
        invariant entries <= files.Keys
        invariant forall n :: n in groups ==> groups[n].name == n && Owns(groups[n])
        invariant forall n, i :: n in groups && 0 <= i < |groups[n].links| ==> fresh(groups[n].links[i])
        invariant forall n :: n in groups ==> FromFile(files, n, groups[n])
        invariant forall e :: IsGroupFile(files, e) && e !in entries ==> files[e].group.name in groups
        decreases entries
      {
        var entry :| entry in entries;
        entries := entries - {entry};
        if HasSuffix(entry, ".json") && files[entry].GroupJson? {
          var g := Load(files[entry].group);
          assert FileGives(files, entry, g.name, Value(g));
          groups := groups[g.name := g];
        }
      }
    }

    static method Load(f: GroupFile) returns (g: Group)
      ensures forall i :: 0 <= i < |g.links| ==> fresh(g.links[i])
      ensures g.name == f.name && Owns(g) && Value(g) == ValueOf(f)
    {
      var links: seq<Link> := [];
      for i := 0 to |f.links|
        invariant |links| == i
        invariant forall k :: 0 <= k < i ==>
                    fresh(links[k]) && links[k].group == f.name && links[k].data == f.links[k].data
      {
        var link := new Link(f.links[i].data, f.name);
        links := links + [link];
      }
      g := Group(f.name, f.kind, links, f.subscriptions);
    }

    /** saveGroup. */
    method Save(g: Group)
      modifies dir
      ensures dir.files == old(dir.files)[FileName(g.name) := GroupJson(Serialised(g))]
    {
      dir.files := dir.files[g.name + ".json" := GroupJson(Serialised(g))];
    }

    /** Putting a changed group in its place and saving it. */
    method Put(g: Group)
      requires Mirrors(dir.files, View()) && Owns(g)
      modifies `groups, dir
      ensures groups == old(groups)[g.name := g]
      ensures old(Named()) ==> Named()
      ensures Mirrors(dir.files, View()) && View() == old(View())[g.name := Value(g)]
    {
      ghost var before := View();
      groups := groups[g.name := g];
      assert View() == before[g.name := Value(g)];
      SerialisedIsFile(g);
      MirrorsSave(dir.files, before, g.name, Value(g));
      Save(g);
    }

    method CreateGroup(name: GroupName, kind: string) returns (ok: bool)
      requires Valid()
      modifies `groups, dir
      ensures ok == Succeeds(Op.CreateGroup(name, kind), old(View()))
      ensures Valid() && View() == Apply(Op.CreateGroup(name, kind), old(View()))
      ensures Effect(Op.CreateGroup(name, kind), old(View()), View(), ok)
    {
      ApplyHasEffect(Op.CreateGroup(name, kind), View());
      if name in groups {
        return false;
      }
      Put(Group(name, kind, [], []));
      return true;
    }

    method DeleteGroup(name: GroupName) returns (ok: bool)
      requires Valid()
      modifies `groups, dir
      ensures ok == Succeeds(Op.DeleteGroup(name), old(View()))
      ensures Valid() && View() == Apply(Op.DeleteGroup(name), old(View()))
      ensures Effect(Op.DeleteGroup(name), old(View()), View(), ok)
    {
      ApplyHasEffect(Op.DeleteGroup(name), View());
      if name !in groups {
        return false;
      }
      ghost var before := View();
      groups := groups - {name};
      assert View() == before - {name};
      MirrorsDelete(dir.files, before, name);
      dir.files := dir.files - {name + ".json"};
      return true;
    }

    /** The link is also in a group of another name. */
    ghost predicate HeldElsewhere(link: Link, name: string)
      reads `groups
    {
      exists n, i :: n in groups && n != name && 0 <= i < |groups[n].links| && groups[n].links[i] == link
    }

    /** Appending a link that already carries the name of the group, which is
        created if there is none. */
    method Append(name: GroupName, link: Link)
      requires Mirrors(dir.files, View()) && link.group == name
      requires name in groups ==> groups[name].name == name && Owns(groups[name])
      modifies `groups, dir
      ensures groups == old(groups)[name := Extended(old(groups), name, link)]
      ensures Mirrors(dir.files, View()) && View() == Apply(Op.AddLink(name, link.data), old(View()))
    {
      var g := Group(name, "basic", [], []);
      if name in groups {
        g := groups[name];
      }
      g := g.(links := g.links + [link]);
      assert Datas(g.links) == Datas(g.links[..|g.links| - 1]) + [link.data];
      Put(g);
    }

    /** A link can be added to any group, but only one that is in no other group
        leaves every group owning its links; the files mirror the groups in any case. */
    method AddLink(name: GroupName, link: Link)
      requires Valid()
      modifies `groups, dir, link`group
      ensures Mirrors(dir.files, View()) && View() == Apply(Op.AddLink(name, link.data), old(View()))
      ensures Effect(Op.AddLink(name, link.data), old(View()), View(), true)
      ensures Named() <==> !old(HeldElsewhere(link, name))
    {
      ApplyHasEffect(Op.AddLink(name, link.data), View());
      link.group := name;
      Append(name, link);
      if n, i :| n in old(groups) && n != name && 0 <= i < |old(groups)[n].links| && old(groups)[n].links[i] == link {
        assert !Owns(groups[n]);
      } else {
        forall n | n in groups ensures groups[n].name == n && Owns(groups[n]) {
        }
      }
    }

    /** The loop that looks for the first link with a remark. */
    static method Position(links: seq<Link>, remark: string) returns (i: nat)
      ensures i == FirstNamed(Datas(links), remark)
    {
      i := 0;
      while i < |links|
        invariant i <= |links|
        invariant forall j :: 0 <= j < i ==> Datas(links)[j].remark != remark
      {
        if links[i].data.remark == remark {
          assert Datas(links)[i].remark == remark;
          return;
        }
        i := i + 1;
      }
    }

    method RemoveLink(name: GroupName, remark: string) returns (ok: bool)
      requires Valid()
      modifies `groups, dir
      ensures ok == Succeeds(Op.RemoveLink(name, remark), old(View()))
      ensures Valid() && View() == Apply(Op.RemoveLink(name, remark), old(View()))
      ensures Effect(Op.RemoveLink(name, remark), old(View()), View(), ok)
    {
      ApplyHasEffect(Op.RemoveLink(name, remark), View());
      if name !in groups {
        return false;
      }
      var i := Position(groups[name].links, remark);
      RemoveLinkApplies(name, remark, View());
      if i == |groups[name].links| {
        return false;
      }
      CutLink(name, i);
      return true;
    }

    method CutLink(name: GroupName, i: nat)
      requires Valid() && name in groups && i < |groups[name].links|
      modifies `groups, dir
      ensures Valid() && View() == old(View()[name := LinkCut(View()[name], i)])
    {
      var g := groups[name];
      var shorter := g.links[..i] + g.links[i + 1..];
      assert Datas(shorter) == Datas(g.links)[..i] + Datas(g.links)[i + 1..];
      assert Value(g.(links := shorter)) == LinkCut(Value(g), i);
      Put(g.(links := shorter));
    }

    method AddSubscription(name: GroupName, url: string) returns (ok: bool)
      requires Valid()
      modifies `groups, dir
      ensures ok == Succeeds(Op.AddSubscription(name, url), old(View()))
      ensures Valid() && View() == Apply(Op.AddSubscription(name, url), old(View()))
      ensures Effect(Op.AddSubscription(name, url), old(View()), View(), ok)
    {
      ApplyHasEffect(Op.AddSubscription(name, url), View());
      if name !in groups {
        return false;
      }
      var g := groups[name];
      for i := 0 to |g.subscriptions|
        invariant url !in g.subscriptions[..i]
      {
        if g.subscriptions[i] == url {
          return false;
        }
      }
      Put(g.(subscriptions := g.subscriptions + [url]));
      return true;
    }

    method RemoveSubscription(name: GroupName, index: int) returns (ok: bool)
      requires Valid()
      modifies `groups, dir
      ensures ok == Succeeds(Op.RemoveSubscription(name, index), old(View()))
      ensures Valid() && View() == Apply(Op.RemoveSubscription(name, index), old(View()))
      ensures Effect(Op.RemoveSubscription(name, index), old(View()), View(), ok)
    {
      ApplyHasEffect(Op.RemoveSubscription(name, index), View());
      if name !in groups {
        return false;
      }
      var g := groups[name];
      if index < 0 || index >= |g.subscriptions| {
        return false;
      }
      Put(g.(subscriptions := g.subscriptions[..index] + g.subscriptions[index + 1..]));
      return true;
    }

    /** The links that the subscriptions of a group give, as new links of the group. */
    static method Fetch(name: string, subscriptions: seq<string>, answers: seq<Fetched>) returns (links: seq<Link>)
      ensures Datas(links) == AllFetched(answers, |subscriptions|)
      ensures forall i :: 0 <= i < |links| ==> fresh(links[i]) && links[i].group == name
    {
      links := [];
      for i := 0 to |subscriptions|
        invariant Datas(links) == AllFetched(answers, i)
        invariant forall k :: 0 <= k < |links| ==> fresh(links[k]) && links[k].group == name
      {
        if i < |answers| && answers[i].Some? {
          var fetched := FetchOne(name, answers[i].value);
          assert Datas(links + fetched) == Datas(links) + Datas(fetched);
          links := links + fetched;
        }
      }
    }

    static method FetchOne(name: string, found: seq<LinkData>) returns (links: seq<Link>)
      ensures Datas(links) == found
      ensures forall i :: 0 <= i < |links| ==> fresh(links[i]) && links[i].group == name
    {
      links := [];
      for i := 0 to |found|
        invariant |links| == i
        invariant forall k :: 0 <= k < i ==> fresh(links[k]) && links[k].group == name && links[k].data == found[k]
      {
        var link := new Link(found[i], name);
        links := links + [link];
      }
    }

    /** The fetches that fail are skipped; only when nothing at all was fetched do
        the old links stay. */
    method UpdateSubscriptions(name: GroupName, answers: seq<Fetched>) returns (count: Option<nat>)
      requires Valid()
      modifies `groups, dir
      ensures count.Some? == Succeeds(Op.UpdateSubscriptions(name, answers), old(View()))
      ensures Valid() && View() == Apply(Op.UpdateSubscriptions(name, answers), old(View()))
      ensures Effect(Op.UpdateSubscriptions(name, answers), old(View()), View(), count.Some?)
      ensures count.Some? ==> name in View() && count.value == |View()[name].links|
    {
      ApplyHasEffect(Op.UpdateSubscriptions(name, answers), View());
      if name !in groups {
        return None;
      }
      var g := groups[name];
      if |g.subscriptions| == 0 {
        return None;
      }
      var all := Fetch(name, g.subscriptions, answers);
      assert |all| == |Datas(all)|;
      if |all| == 0 {
        return None;
      }
      Refill(name, all);
      return Some(|all|);
    }

    /** New links take the place of all links of a group. */
    method Refill(name: GroupName, links: seq<Link>)
      requires Valid() && name in groups && forall i :: 0 <= i < |links| ==> links[i].group == name
      modifies `groups, dir
      ensures Valid() && View() == old(View()[name := View()[name].(links := Datas(links))])
    {
      var g := groups[name];
      assert Value(g.(links := links)) == Value(g).(links := Datas(links));
      Put(g.(links := links));
    }

    method SaveGroup(name: GroupName) returns (ok: bool)
      requires Valid()
      modifies dir
      ensures ok == Succeeds(Op.SaveGroup(name), old(View()))
      ensures Valid() && View() == Apply(Op.SaveGroup(name), old(View()))
      ensures Effect(Op.SaveGroup(name), old(View()), View(), ok)
    {
      ApplyHasEffect(Op.SaveGroup(name), View());
      if name !in groups {
        return false;
      }
      ghost var v := Value(groups[name]);
      SerialisedIsFile(groups[name]);
      MirrorsSave(dir.files, View(), name, v);
      assert View()[name := v] == View();
      Save(groups[name]);
      return true;
    }

    /** One operation; a link to be added is new. */
    method Perform(op: Op)
      requires Valid()
      modifies `groups, dir
      ensures Valid() && View() == Apply(op, old(View()))
    {
      match op
      case CreateGroup(name, kind) => var _ := CreateGroup(name, kind);
      case DeleteGroup(name) => var _ := DeleteGroup(name);
      case AddLink(name, data) =>
        var link := new Link(data, "");
        AddLink(name, link);
      case RemoveLink(name, remark) => var _ := RemoveLink(name, remark);
      case AddSubscription(name, url) => var _ := AddSubscription(name, url);
      case RemoveSubscription(name, index) => var _ := RemoveSubscription(name, index);
      case UpdateSubscriptions(name, answers) => var _ := UpdateSubscriptions(name, answers);
      case SaveGroup(name) => var _ := SaveGroup(name);
    }

    /** Any sequence of operations. */
    method PerformAll(ops: seq<Op>)
      requires Valid()
      modifies `groups, dir
      ensures Valid() && View() == ApplyAll(ops, old(View()))
    {
      for i := 0 to |ops|
        invariant Valid() && View() == ApplyAll(ops[..i], old(View()))
      {
        assert ops[..i + 1][..i] == ops[..i];
        Perform(ops[i]);
      }
      assert ops[..|ops|] == ops;
    }

    lemma LoadedIs(store: Store)
      requires Loaded(groups, dir.files) && LoadsAs(dir.files, store)
      ensures View() == store
    {
    }

    /** GetLink: the active group comes first, then the others in any order. */
    method GetLink(remark: string) returns (r: Option<Link>)
      ensures r.None? ==> forall n :: n in groups ==> Lacks(groups[n].links, remark)
      ensures r.Some? ==> r.value in LinksHeld() && r.value.data.remark == remark
      ensures activeGroup in groups && !Lacks(groups[activeGroup].links, remark) ==>
                r == FirstWith(groups[activeGroup].links, remark)
    {
      if activeGroup in groups {
        r := FirstIn(activeGroup, remark);
        if r.Some? {
          return;
        }
      }
      var names := groups.Keys;
      while names != {}
        invariant names <= groups.Keys
        invariant forall n :: n in groups && n !in names ==> Lacks(groups[n].links, remark)
        decreases names
      {
        var n :| n in names;
        names := names - {n};
        r := FirstIn(n, remark);
        if r.Some? {
          return;
        }
      }
      return None;
    }

    method FirstIn(n: string, remark: string) returns (r: Option<Link>)
      requires n in groups
      ensures r.None? <==> Lacks(groups[n].links, remark)
      ensures r.Some? ==>
                r.value in LinksHeld() && r.value.data.remark == remark && r == FirstWith(groups[n].links, remark)
    {
      var links := groups[n].links;
      var i := Position(links, remark);
      if i == |links| {
        forall k | 0 <= k < |links| ensures links[k].data.remark != remark {
          assert Datas(links)[k] == links[k].data;
        }
        return None;
      }
      assert Datas(links)[i] == links[i].data;
      return Some(links[i]);
    }

    /** SetActiveLink: remembered, and written to the `.active` file. */
    method SetActiveLink(link: Link)
      requires Valid()
      modifies `activeLink, dir
      ensures activeLink == Some(link)
      ensures dir.files == old(dir.files)[ACTIVE := Plain(ActiveText(link.group, link.data.remark))]
      ensures dir.files == old(dir.files)[".active" := Plain(link.group + "\n" + link.data.remark)]
      ensures Valid()
    {
      activeLink := Some(link);
      ActiveFileLoads(dir.files, View(), link.group + "\n" + link.data.remark);
      dir.files := dir.files[".active" := Plain(link.group + "\n" + link.data.remark)];
    }

    /** GetActiveLink: the link remembered, else the one that the `.active` file names. */
    method GetActiveLink() returns (r: Option<Link>)
      requires Named()
      ensures activeLink.Some? ==> r == activeLink
      ensures activeLink.None? && !HasActiveFile(dir.files) ==> r == None
      ensures activeLink.None? && HasActiveFile(dir.files) ==>
                r == LinkAt(groups, Lookup(View(), dir.files[ACTIVE].text))
    {
      if activeLink.Some? {
        return activeLink;
      }
      if ".active" !in dir.files || !dir.files[".active"].Plain? {
        return None;
      }
      var lines := Split(dir.files[".active"].text, '\n');
      if |lines| < 2 {
        return None;
      }
      var group, remark := TrimSpace(lines[0]), TrimSpace(lines[1]);
      if group !in groups {
        return None;
      }
      var links := groups[group].links;
      for i := 0 to |links|
        invariant forall j :: 0 <= j < i ==> TrimSpace(Datas(links)[j].remark) != remark
      {
        if TrimSpace(links[i].data.remark) == remark {
          assert TrimSpace(Datas(links)[i].remark) == remark;
          return Some(links[i]);
        }
      }
      return None;
    }
  }

  function Extended(groups: map<string, Group>, name: string, link: Link): Group {
    var g := if name in groups then groups[name] else Group(name, "basic", [], []);
    g.(links := g.links + [link])
  }

  ghost predicate Lacks(links: seq<Link>, remark: string) {
    forall i :: 0 <= i < |links| ==> links[i].data.remark != remark
  }

  function FirstWith(links: seq<Link>, remark: string): Option<Link> {
    var i := FirstNamed(Datas(links), remark);
    if i < |links| then Some(links[i]) else None
  }

  predicate HasActiveFile(files: map<string, File>) {
    ACTIVE in files && files[ACTIVE].Plain?
  }

  function LinkAt(groups: map<string, Group>, place: Option<Place>): Option<Link> {
    if place.Some? && place.value.group in groups && place.value.index < |groups[place.value.group].links| then
      Some(groups[place.value.group].links[place.value.index])
    else None
  }

  /** The group is what some group file gives. */
  ghost predicate FromFile(files: map<string, File>, n: string, g: Group) {
    exists e :: IsGroupFile(files, e) && FileGives(files, e, n, Value(g))
  }

  /** Every group comes from some group file, and every group file gives a group. */
  ghost predicate Loaded(groups: map<string, Group>, files: map<string, File>) {
    && (forall n :: n in groups ==> FromFile(files, n, groups[n]))
    && (forall e :: IsGroupFile(files, e) ==> files[e].group.name in groups)
  }

  // ----- renaming a group, and finding the active link again -----

  /** renameGroup, file by file. */
  method RenameGroup(dir: Directory, oldName: GroupName, newName: GroupName) returns (ok: bool)
    modifies dir
    ensures ok <==> && FileName(oldName) in old(dir.files) && old(dir.files)[FileName(oldName)].GroupJson?
                    && FileName(newName) !in old(dir.files)
    ensures dir.files == if ok then RenamedFiles(old(dir.files), oldName, newName) else old(dir.files)
    ensures ok ==>
              && oldName + ".json" !in dir.files
              && newName + ".json" in dir.files && dir.files[newName + ".json"].GroupJson?
              && dir.files[newName + ".json"].group
                 == old(dir.files)[oldName + ".json"].group.(name := newName)
    ensures forall e :: e !in [oldName + ".json", newName + ".json", ".active"] ==>
              (e in dir.files <==> e in old(dir.files)) && (e in dir.files ==> dir.files[e] == old(dir.files)[e])
  {
    if oldName + ".json" !in dir.files {
      return false;
    }
    if newName + ".json" in dir.files {
      return false;
    }
    var data := dir.files[oldName + ".json"];
    if !data.GroupJson? {
      return false;
    }
    dir.files := dir.files[newName + ".json" := GroupJson(data.group.(name := newName))];
    dir.files := dir.files - {oldName + ".json"};
    if ".active" in dir.files && dir.files[".active"].Plain? {
      var lines := Split(TrimSpace(dir.files[".active"].text), '\n');
      if |lines| >= 2 && TrimSpace(lines[0]) == oldName {
        dir.files := dir.files[".active" := Plain(newName + "\n" + lines[1])];
      }
    }
    return true;
  }

  /** Any operations, then a restart: the groups come back as they were. */
  method Reopen(ops: seq<Op>, activeGroup: string) returns (m: Manager)
    ensures m.View() == ApplyAll(ops, map[]) && m.Named()
  {
    var dir := new Directory();
    var first := new Manager(dir, activeGroup);
    assert first.View() == map[];
    assert Mirrors(dir.files, first.View());
    first.PerformAll(ops);
    MirrorsLoad(dir.files, first.View());
    m := new Manager(dir, activeGroup);
    m.LoadedIs(first.View());
  }

  lemma ActiveFileRenamed(files: map<string, File>, text: string, oldName: string, newName: string)
    requires FileName(oldName) in files && files[FileName(oldName)].GroupJson?
    requires ACTIVE in files && files[ACTIVE] == Plain(text)
    ensures ACTIVE in RenamedFiles(files, oldName, newName)
    ensures RenamedFiles(files, oldName, newName)[ACTIVE] == Plain(RenamedText(text, oldName, newName))
  {
    ActiveFileIsNoGroup();
  }

  /** A link of a group is made active and the program is started again. The new
      manager has the same groups, and gives the same link, the first of the group
      with the same trimmed remark, exactly when the `.active` file can be followed. */
  method SetAndRestart(first: Manager, group: string, k: nat, activeGroup: string)
    returns (again: Manager, r: Option<Link>)
    requires first.Valid() && group in first.groups && k < |first.groups[group].links|
    modifies first`activeLink, first.dir
    ensures again.View() == first.View() && group in again.groups
    ensures var remark := first.groups[group].links[k].data.remark;
            var j := FirstTrimmed(first.View()[group].links, TrimSpace(remark));
            j < |again.groups[group].links| && (r == Some(again.groups[group].links[j]) <==> Followable(group, remark))
  {
    var link := first.groups[group].links[k];
    ghost var store := first.View();
    ActiveLinkIsFoundIff(store, group, k);
    first.SetActiveLink(link);
    MirrorsLoad(first.dir.files, store);
    again := new Manager(first.dir, activeGroup);
    again.LoadedIs(store);
    r := again.GetActiveLink();
    SameLinkSamePlace(again, group, FirstTrimmed(store[group].links, TrimSpace(link.data.remark)),
                      Lookup(store, first.dir.files[ACTIVE].text));
  }

  /** Different places hold different links, when their groups or remarks differ. */
  lemma SameLinkSamePlace(m: Manager, group: string, j: nat, place: Option<Place>)
    requires m.Named() && group in m.groups && j < |m.groups[group].links|
    requires place.Some? ==> place.value.group in m.groups && place.value.index < |m.groups[place.value.group].links|
    requires place.Some? && place.value.group == group && place.value.index != j ==>
               m.groups[group].links[place.value.index].data != m.groups[group].links[j].data
    ensures LinkAt(m.groups, place) == Some(m.groups[group].links[j]) <==> place == Some(Place(group, j))
  {
  }

  /** A link of a group is made active, a group is renamed, and the program is
      started again. The new manager has all groups with all links under the new
      name, and gives the same link, the first of the group with the same trimmed
      remark, exactly when the `.active` file is fit to be followed to the new name. */
  method RenameAndRestart(first: Manager, group: string, k: nat, oldName: GroupName, newName: GroupName,
                          activeGroup: string)
    returns (again: Manager, r: Option<Link>)
    requires first.Valid() && group in first.groups && k < |first.groups[group].links|
    requires Followable(group, first.groups[group].links[k].data.remark)
    requires oldName in first.groups && FileName(newName) !in first.dir.files
    modifies first`activeLink, first.dir
    ensures again.View() == RenamedStore(first.View(), oldName, newName)
    ensures var remark := first.groups[group].links[k].data.remark;
            var j := FirstTrimmed(first.View()[group].links, TrimSpace(remark));
            var now := if group == oldName then newName else group;
            && now in again.groups && j < |again.groups[now].links|
            && (r == Some(again.groups[now].links[j])
                <==> (group == oldName ==> oldName != "" && !Blank(remark) && Stable(newName)))
  {
    var link := first.groups[group].links[k];
    ghost var store, remark := first.View(), link.data.remark;
    ghost var j := FirstTrimmed(store[group].links, TrimSpace(remark));
    ActiveLinkIsFoundIff(store, group, k);
    first.SetActiveLink(link);
    ActiveFileIsNoGroup();
    MirrorsLoad(first.dir.files, store);
    RenameLoads(first.dir.files, store, oldName, newName);
    ActiveFileRenamed(first.dir.files, ActiveText(group, remark), oldName, newName);
    RenameKeepsActiveIff(store, group, remark, j, oldName, newName);
    again, r := RenameReopened(first.dir, store, oldName, newName, activeGroup);
    SameLinkSamePlace(again, if group == oldName then newName else group, j,
                      Lookup(again.View(), first.dir.files[ACTIVE].text));
  }

  method RenameReopened(dir: Directory, ghost store: Store, oldName: GroupName, newName: GroupName, activeGroup: string)
    returns (again: Manager, r: Option<Link>)
    requires FileName(oldName) in dir.files && dir.files[FileName(oldName)].GroupJson?
    requires FileName(newName) !in dir.files && oldName in store
    requires LoadsAs(RenamedFiles(dir.files, oldName, newName), RenamedStore(store, oldName, newName))
    requires HasActiveFile(RenamedFiles(dir.files, oldName, newName))
    modifies dir
    ensures dir.files == RenamedFiles(old(dir.files), oldName, newName)
    ensures again.View() == RenamedStore(store, oldName, newName) && again.Named()
    ensures r == LinkAt(again.groups, Lookup(again.View(), dir.files[ACTIVE].text))
  {
    var ok := RenameGroup(dir, oldName, newName);
    again := new Manager(dir, activeGroup);
    again.LoadedIs(RenamedStore(store, oldName, newName));
    r := again.GetActiveLink();
  }
}
