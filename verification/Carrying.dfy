/** Whether a chain of processes carries connections once it is started
    (internal/tunnel/chain.go, tunnel.go and configgen.go). Nothing waits for a hop
    to have read its config, and configs of the same engine are written to the same
    file, so a process runs what the file holds when it reads it. Of several
    processes with the same port only one can listen, and the ports are the same
    for all chains. */
module Carrying {
  import opened Text
  import opened Links
  import opened Outbounds
  import opened HopPath

  // ----- where a process has its config from -----

  datatype Source = InFile(file: string) | InArgs

  predicate Keeps(c: char) {
    'a' <= c <= 'z' || 'A' <= c <= 'Z' || '0' <= c <= '9' || c == '-' || c == '_'
  }

  function Kept(name: string): string {
    if name == [] then []
    else Kept(name[..|name| - 1]) + if Keeps(name[|name| - 1]) then [name[|name| - 1]] else []
  }

  lemma {:induction false} KeptPlaces(name: string) returns (at: seq<nat>)
    ensures PicksAt(Kept(name), name, at)
    ensures forall i :: 0 <= i < |name| ==>
              (i in at <==> 'a' <= name[i] <= 'z' || 'A' <= name[i] <= 'Z' || '0' <= name[i] <= '9' || name[i] in "-_")
  {
    at := [];
    if name != [] {
      var n := |name| - 1;
      at := KeptPlaces(name[..n]);
      assert name == name[..n] + [name[n]];
      PicksMore(Kept(name[..n]), name[..n], at, name[n]);
      if Keeps(name[n]) {
        at := at + [n];
      }
    }
  }

  /** The letters, digits, hyphens and underscores of a name stay, in order, and
      something is put in their place when there are none. */
  lemma SanitizedMeans(name: string) returns (at: seq<nat>)
    ensures forall i :: 0 <= i < |name| ==>
              (i in at <==> 'a' <= name[i] <= 'z' || 'A' <= name[i] <= 'Z' || '0' <= name[i] <= '9' || name[i] in "-_")
    ensures if at == [] then Sanitized(name) == "unnamed" else PicksAt(Sanitized(name), name, at)
  {
    at := KeptPlaces(name);
  }

  /** sanitizeName. */
  function Sanitized(name: string): string {
    if Kept(name) == "" then "unnamed" else Kept(name)
  }

  /** The file that the generator writes the config of an engine to; ssh takes
      arguments only. */
  function SourceFor(engine: string, link: LinkData): Source {
    if engine == "sing-box" then InFile("singbox-config.json")
    else if engine == "xray" then InFile("xray-config.json")
    else if engine == "wireguard-go" then InFile("wg-" + Sanitized(link.remark) + ".conf")
    else if engine == "openvpn" then InFile("ovpn-" + Sanitized(link.remark) + ".conf")
    else InArgs
  }

  /** Where each engine reads its config: the same file for all links, or one for each
      sanitized remark, or none. */
  lemma SourceForMeans(a: LinkData, b: LinkData)
    ensures SourceFor("sing-box", a) == SourceFor("sing-box", b) == InFile("singbox-config.json")
    ensures SourceFor("xray", a) == SourceFor("xray", b) == InFile("xray-config.json")
    ensures SourceFor("wireguard-go", a) == SourceFor("wireguard-go", b)
       <==> Sanitized(a.remark) == Sanitized(b.remark)
    ensures SourceFor("openvpn", a) == SourceFor("openvpn", b) <==> Sanitized(a.remark) == Sanitized(b.remark)
    ensures SourceFor("wireguard-go", a).InFile? && SourceFor("openvpn", b).InFile?
    ensures SourceFor("wireguard-go", a) != SourceFor("openvpn", b)
    ensures SourceFor("ssh", a) == InArgs
  {
    Between("wg-", ".conf", Sanitized(a.remark), Sanitized(b.remark));
    Between("ovpn-", ".conf", Sanitized(a.remark), Sanitized(b.remark));
    assert SourceFor("wireguard-go", a).file[0] == 'w' && SourceFor("openvpn", b).file[0] == 'o';
  }

  lemma Between(head: string, tail: string, x: string, y: string)
    ensures head + x + tail == head + y + tail <==> x == y
  {
    assert (head + x + tail)[|head|..][..|x|] == x && (head + y + tail)[|head|..][..|y|] == y;
  }

  /** Files of chains in one process are told apart by the sanitized names, and none is
      a file that all links of an engine share. */
  lemma ChainFileApart(a: string, b: string)
    ensures ChainFile(a) == ChainFile(b) <==> Sanitized(a) == Sanitized(b)
    ensures ChainFile(a) !in ["singbox-config.json", "xray-config.json"]
  {
    Between("chain-", "-config.json", Sanitized(a), Sanitized(b));
    assert ChainFile(a)[0] == 'c';
  }

  /** The start of a process; a config in a file is written right before. */
  datatype Launch = Launch(source: Source, config: HopConfig)

  type Files = map<string, HopConfig>

  function Written(files: Files, l: Launch): Files {
    if l.source.InFile? then files[l.source.file := l.config] else files
  }

  /** The files after the first n of some launches. */
  function FilesAfter(files: Files, ls: seq<Launch>, n: nat): Files
    requires n <= |ls|
  {
    if n == 0 then files else Written(FilesAfter(files, ls, n - 1), ls[n - 1])
  }

  lemma {:induction false} FilesAfterMore(files: Files, ls: seq<Launch>, l: Launch, n: nat)
    requires n <= |ls|
    ensures FilesAfter(files, ls + [l], n) == FilesAfter(files, ls, n)
  {
    if n > 0 {
      FilesAfterMore(files, ls, l, n - 1);
    }
  }

  function LaunchesOf(hops: seq<Hop>, leftover: string, socksPort: int, pinnedHosts: map<string, string>): seq<Launch>
  {
    var configs := HopConfigs(hops, leftover, socksPort, pinnedHosts);
    seq(|hops|, i requires 0 <= i < |hops| => Launch(SourceFor(hops[i].engine, hops[i].link), configs[i]))
  }

  /** The file of a chain in one process. */
  function ChainFile(name: string): string {
    "chain-" + Sanitized(name) + "-config.json"
  }

  // ----- what runs then -----

  /** Another process at the time of the start: one that listens already, or one
      that has still to read its config. */
  datatype Other = Runs(config: HopConfig) | Reading(file: string)

  function Config(source: Source, given: HopConfig, files: Files): Option<HopConfig> {
    match source
    case InArgs => Some(given)
    case InFile(file) => if file in files then Some(files[file]) else None
  }

  /** For each process, how many of the launches have been made when it reads its
      config: its own at least, and for other processes any number. */
  predicate ReadTimes(ls: seq<Launch>, others: seq<Other>, seen: seq<nat>) {
    && |seen| == |ls| + |others|
    && forall j :: 0 <= j < |seen| ==> seen[j] <= |ls| && (j < |ls| ==> j < seen[j])
  }

  /** What process j runs, counting the launched ones first; None when it finds no
      config. */
  function Runner(files: Files, ls: seq<Launch>, others: seq<Other>, seen: seq<nat>, j: nat): Option<HopConfig>
    requires ReadTimes(ls, others, seen) && j < |seen|
  {
    var found := FilesAfter(files, ls, seen[j]);
    if j < |ls| then Config(ls[j].source, ls[j].config, found)
    else
      match others[j - |ls|]
      case Runs(config) => Some(config)
      case Reading(file) => if file in found then Some(found[file]) else None
  }

  function Runners(files: Files, ls: seq<Launch>, others: seq<Other>, seen: seq<nat>): seq<Option<HopConfig>>
    requires ReadTimes(ls, others, seen)
  {
    seq(|seen|, j requires 0 <= j < |seen| => Runner(files, ls, others, seen, j))
  }

  /** Both want the same port. */
  predicate Clash(a: Option<HopConfig>, b: Option<HopConfig>) {
    a.Some? && b.Some? && ListensOn(a.value).Some? && ListensOn(a.value) == ListensOn(b.value)
  }

  ghost predicate NoClash(s: seq<Option<HopConfig>>, up: set<nat>) {
    && (forall a :: a in up ==> a < |s| && s[a].Some?)
    && (forall a, b :: a in up && b in up && a != b ==> !Clash(s[a], s[b]))
  }

  ghost predicate Blocked(s: seq<Option<HopConfig>>, up: set<nat>, a: nat)
    requires NoClash(s, up) && a < |s|
  {
    exists b :: b in up && Clash(s[a], s[b])
  }

  /** Who is up in the end, when those in `early` were up from the start: nobody who
      would want a port that is taken, and everybody else. */
  ghost predicate Settled(s: seq<Option<HopConfig>>, early: set<nat>, up: set<nat>) {
    && early <= up && NoClash(s, up)
    && forall a: nat :: a < |s| && s[a].Some? && a !in up ==> Blocked(s, up, a)
  }

  function Early(others: seq<Other>, n: nat): set<nat> {
    set k | 0 <= k < |others| && others[k].Runs? :: n + k
  }

  /** No two of the processes that listen already have the same port. */
  predicate PortsHeldOnce(others: seq<Other>) {
    forall i, k :: 0 <= i < k < |others| && others[i].Runs? && others[k].Runs? ==>
      !Clash(Some(others[i].config), Some(others[k].config))
  }

  // ----- connections -----

  predicate DialsRunner(s: seq<Option<HopConfig>>, a: nat, b: nat) {
    && a < |s| && b < |s| && s[a].Some? && s[b].Some?
    && Dials(s[a].value, s[b].value)
  }

  /** A connection to a port passes these processes, of those that are up, and leaves
      at the last one. */
  ghost predicate PassesUp(s: seq<Option<HopConfig>>, up: set<nat>, port: int, path: seq<nat>) {
    && path != []
    && (forall k :: 0 <= k < |path| ==> path[k] in up)
    && path[0] < |s| && s[path[0]].Some? && ListensOn(s[path[0]].value) == Some(port)
    && (forall k :: 0 <= k < |path| - 1 ==> DialsRunner(s, path[k], path[k + 1]))
    && (forall b :: b in up ==> !DialsRunner(s, path[|path| - 1], b))
  }

  /** Connections to the last launched process's port pass exactly the launched
      processes, from the last to the first. */
  ghost predicate Carried(s: seq<Option<HopConfig>>, up: set<nat>, n: nat) {
    forall path :: GoesDownOnly(s, up, n, path)
  }

  ghost predicate GoesDownOnly(s: seq<Option<HopConfig>>, up: set<nat>, n: nat, path: seq<nat>) {
    PassesUp(s, up, FIRST_PORT + n - 1, path) <==> path == Down(n)
  }

  /** So it is whenever the processes read their configs and whoever comes first to
      a port. */
  ghost predicate Carries(ls: seq<Launch>, files: Files, others: seq<Other>) {
    forall seen: seq<nat>, up: set<nat> ::
      ReadTimes(ls, others, seen) && Settled(Runners(files, ls, others, seen), Early(others, |ls|), up) ==>
        Carried(Runners(files, ls, others, seen), up, |ls|)
  }

  // ----- the condition -----

  /** No two hops have their config in the same file. */
  predicate FilesApart(hops: seq<Hop>) {
    forall i, j :: 0 <= i < j < |hops| && SourceFor(hops[i].engine, hops[i].link).InFile? ==>
      SourceFor(hops[i].engine, hops[i].link) != SourceFor(hops[j].engine, hops[j].link)
  }

  /** The port is none of the chain's, and the first hop does not dial it. */
  predicate Quiet(hops: seq<Hop>, leftover: string, config: HopConfig) {
    ListensOn(config).Some? ==>
      var port := ListensOn(config).value;
      && !(FIRST_PORT <= port < FIRST_PORT + |hops|)
      && !(hops != [] && hops[0].engine == "sing-box" && leftover != "" && ExtractedPort(leftover) == port)
  }

  /** Another process that listens already is quiet; one that has still to read its
      config reads a file that no hop writes, and finds a quiet config there. */
  predicate OutOfTheWay(hops: seq<Hop>, leftover: string, files: Files, other: Other) {
    match other
    case Runs(config) => Quiet(hops, leftover, config)
    case Reading(file) =>
      && (forall i :: 0 <= i < |hops| ==> SourceFor(hops[i].engine, hops[i].link) != InFile(file))
      && (file in files ==> Quiet(hops, leftover, files[file]))
  }

  /** The whole condition on a chain of processes among others. */
  predicate Sound(hops: seq<Hop>, leftover: string, files: Files, others: seq<Other>) {
    Joined(hops, leftover) && FilesApart(hops) && AllOutOfTheWay(hops, leftover, files, others)
  }

  predicate AllOutOfTheWay(hops: seq<Hop>, leftover: string, files: Files, others: seq<Other>) {
    forall k :: 0 <= k < |others| ==> OutOfTheWay(hops, leftover, files, others[k])
  }

  // ----- what the files hold -----

  /** Without a later launch to the same file, its content stays. */
  lemma {:induction false} FileStays(files: Files, ls: seq<Launch>, from: nat, n: nat, file: string)
    requires from <= n <= |ls| && forall i :: from <= i < n ==> ls[i].source != InFile(file)
    ensures file in FilesAfter(files, ls, n) <==> file in FilesAfter(files, ls, from)
    ensures file in FilesAfter(files, ls, n) ==> FilesAfter(files, ls, n)[file] == FilesAfter(files, ls, from)[file]
  {
    if from < n {
      FileStays(files, ls, from, n - 1, file);
    }
  }

  /** A process that reads before the next launch to its file has its own config. */
  lemma OwnConfig(files: Files, ls: seq<Launch>, j: nat, n: nat)
    requires j < n <= |ls|
    requires ls[j].source.InFile? ==> forall i :: j < i < n ==> ls[i].source != ls[j].source
    ensures Config(ls[j].source, ls[j].config, FilesAfter(files, ls, n)) == Some(ls[j].config)
  {
    if ls[j].source.InFile? {
      FileStays(files, ls, j + 1, n, ls[j].source.file);
    }
  }

  // ----- who is up -----

  /** Whoever was up from the start, there is a way to settle. */
  lemma SettledExists(s: seq<Option<HopConfig>>, early: set<nat>) returns (up: set<nat>)
    requires NoClash(s, early)
    ensures Settled(s, early, up)
  {
    up := early;
    var i := 0;
    while i < |s|
      invariant i <= |s| && early <= up && NoClash(s, up)
      invariant forall a: nat :: a < i && s[a].Some? && a !in up ==> Blocked(s, up, a)
    {
      if s[i].Some? && i !in up && !Blocked(s, up, i) {
        OneMoreUp(s, up, i);
        up := up + {i};
      }
      i := i + 1;
    }
  }

  lemma OneMoreUp(s: seq<Option<HopConfig>>, up: set<nat>, i: nat)
    requires NoClash(s, up) && i < |s| && s[i].Some? && !Blocked(s, up, i)
    ensures NoClash(s, up + {i})
    ensures forall a: nat :: a < |s| && Blocked(s, up, a) ==> Blocked(s, up + {i}, a)
  {
    forall a: nat | a < |s| && Blocked(s, up, a) ensures Blocked(s, up + {i}, a) {
      var b :| b in up && Clash(s[a], s[b]);
      assert b in up + {i};
    }
  }

  lemma EarlyApart(files: Files, ls: seq<Launch>, others: seq<Other>, seen: seq<nat>)
    requires ReadTimes(ls, others, seen) && PortsHeldOnce(others)
    ensures NoClash(Runners(files, ls, others, seen), Early(others, |ls|))
  {
  }

  // ----- the condition suffices -----

  /** The launched processes run their own configs. */
  predicate OwnConfigs(s: seq<Option<HopConfig>>, configs: seq<HopConfig>) {
    |configs| <= |s| && forall j :: 0 <= j < |configs| ==> s[j] == Some(configs[j])
  }

  predicate OthersQuiet(s: seq<Option<HopConfig>>, hops: seq<Hop>, leftover: string) {
    forall a :: |hops| <= a < |s| && s[a].Some? ==> Quiet(hops, leftover, s[a].value)
  }

  lemma QuietNotDialled(hops: seq<Hop>, leftover: string, socksPort: int, pinnedHosts: map<string, string>, i: nat,
                        c: HopConfig)
    requires i < |hops| && Quiet(hops, leftover, c)
    ensures !Dials(HopConfigs(hops, leftover, socksPort, pinnedHosts)[i], c)
  {
    HopPorts(hops, leftover, socksPort, pinnedHosts, i);
  }

  lemma NoneWantsPort(s: seq<Option<HopConfig>>, hops: seq<Hop>, leftover: string, socksPort: int,
                      pinnedHosts: map<string, string>, j: nat, b: nat)
    requires j < |hops| && b < |s| && b != j && OthersQuiet(s, hops, leftover)
    requires OwnConfigs(s, HopConfigs(hops, leftover, socksPort, pinnedHosts))
    ensures !Clash(s[j], s[b])
  {
    HopPorts(hops, leftover, socksPort, pinnedHosts, j);
    if b < |hops| {
      HopPorts(hops, leftover, socksPort, pinnedHosts, b);
    }
  }

  lemma OwnAllUp(s: seq<Option<HopConfig>>, early: set<nat>, up: set<nat>, hops: seq<Hop>, leftover: string,
                 socksPort: int, pinnedHosts: map<string, string>)
    requires OthersQuiet(s, hops, leftover) && Settled(s, early, up)
    requires OwnConfigs(s, HopConfigs(hops, leftover, socksPort, pinnedHosts))
    ensures forall j: nat :: j < |hops| ==> j in up
  {
    forall j: nat | j < |hops| ensures j in up {
      if j !in up {
        var b := Blocker(s, early, up, j);
        NoneWantsPort(s, hops, leftover, socksPort, pinnedHosts, j, b);
      }
    }
  }

  lemma Blocker(s: seq<Option<HopConfig>>, early: set<nat>, up: set<nat>, a: nat) returns (b: nat)
    requires Settled(s, early, up) && a < |s| && s[a].Some? && a !in up
    ensures b in up && b < |s| && b != a && Clash(s[a], s[b])
  {
    assert Blocked(s, up, a);
    b :| b in up && Clash(s[a], s[b]);
  }

  /** Nobody else has the port, and nobody else is dialled by the launched processes. */
  ghost predicate Apart(s: seq<Option<HopConfig>>, n: nat, port: int) {
    && (forall b: nat :: n <= b < |s| && s[b].Some? ==> ListensOn(s[b].value) != Some(port))
    && (forall a: nat, b: nat :: a < n <= b ==> !DialsRunner(s, a, b))
  }

  lemma QuietIsApart(s: seq<Option<HopConfig>>, hops: seq<Hop>, leftover: string, socksPort: int,
                     pinnedHosts: map<string, string>)
    requires hops != [] && OthersQuiet(s, hops, leftover)
    requires OwnConfigs(s, HopConfigs(hops, leftover, socksPort, pinnedHosts))
    ensures Apart(s, |hops|, FIRST_PORT + |hops| - 1)
  {
    forall a: nat, b: nat | a < |hops| <= b ensures !DialsRunner(s, a, b) {
      if b < |s| && s[b].Some? {
        QuietNotDialled(hops, leftover, socksPort, pinnedHosts, a, s[b].value);
      }
    }
  }

  lemma PathStays(s: seq<Option<HopConfig>>, up: set<nat>, n: nat, port: int, path: seq<nat>, m: nat)
    requires Apart(s, n, port) && PassesUp(s, up, port, path) && m < |path|
    ensures path[m] < n
  {
    if m > 0 {
      PathStays(s, up, n, port, path, m - 1);
      assert DialsRunner(s, path[m - 1], path[m - 1 + 1]);
    }
  }

  /** Connections stay among the launched processes then. */
  lemma PassesAmongOwn(s: seq<Option<HopConfig>>, up: set<nat>, configs: seq<HopConfig>, port: int, path: seq<nat>)
    requires OwnConfigs(s, configs) && Apart(s, |configs|, port)
    requires forall j: nat :: j < |configs| ==> j in up
    requires PassesUp(s, up, port, path)
    ensures Passes(configs, port, path)
  {
    forall k | 0 <= k < |path| ensures path[k] < |configs| {
      PathStays(s, up, |configs|, port, path, k);
    }
    forall k | 0 <= k < |path| - 1 ensures Dials(configs[path[k]], configs[path[k + 1]]) {
      assert DialsRunner(s, path[k], path[k + 1]);
    }
    var last := path[|path| - 1];
    forall i: nat | i < |configs| ensures !Dials(configs[last], configs[i]) {
      assert i in up && !DialsRunner(s, last, i);
    }
  }

  lemma OwnPassesAmongAll(s: seq<Option<HopConfig>>, up: set<nat>, configs: seq<HopConfig>, port: int, path: seq<nat>)
    requires OwnConfigs(s, configs) && Apart(s, |configs|, port)
    requires forall j: nat :: j < |configs| ==> j in up
    requires Passes(configs, port, path)
    ensures PassesUp(s, up, port, path)
  {
    forall k | 0 <= k < |path| - 1 ensures DialsRunner(s, path[k], path[k + 1]) {
      assert Dials(configs[path[k]], configs[path[k + 1]]);
    }
    var last := path[|path| - 1];
    forall b | b in up ensures !DialsRunner(s, last, b) {
      if b < |configs| {
        assert !Dials(configs[last], configs[b]);
      }
    }
  }

  lemma QuietCarried(s: seq<Option<HopConfig>>, early: set<nat>, up: set<nat>, hops: seq<Hop>, leftover: string,
                     socksPort: int, pinnedHosts: map<string, string>)
    requires hops != [] && Joined(hops, leftover) && OthersQuiet(s, hops, leftover) && Settled(s, early, up)
    requires OwnConfigs(s, HopConfigs(hops, leftover, socksPort, pinnedHosts))
    ensures Carried(s, up, |hops|)
  {
    var configs, port := HopConfigs(hops, leftover, socksPort, pinnedHosts), FIRST_PORT + |hops| - 1;
    OwnAllUp(s, early, up, hops, leftover, socksPort, pinnedHosts);
    QuietIsApart(s, hops, leftover, socksPort, pinnedHosts);
    ConnectionPassesAllIff(hops, leftover, socksPort, pinnedHosts);
    forall path ensures GoesDownOnly(s, up, |hops|, path) {
      assert GoesDown(hops, leftover, socksPort, pinnedHosts, path);
      if PassesUp(s, up, port, path) {
        PassesAmongOwn(s, up, configs, port, path);
      } else if path == Down(|hops|) {
        OwnPassesAmongAll(s, up, configs, port, path);
      }
    }
  }

  // ----- the condition is needed -----

  /** Every launched process reads its config before the next launch, others at some
      given time. */
  function Promptly(ls: seq<Launch>, others: seq<Other>, time: nat): (seen: seq<nat>)
    requires time <= |ls|
    ensures ReadTimes(ls, others, seen)
  {
    seq(|ls| + |others|, j => if j < |ls| then j + 1 else time)
  }

  lemma PromptOwn(files: Files, ls: seq<Launch>, others: seq<Other>, time: nat, configs: seq<HopConfig>)
    requires time <= |ls| == |configs| && forall j :: 0 <= j < |ls| ==> ls[j].config == configs[j]
    ensures OwnConfigs(Runners(files, ls, others, Promptly(ls, others, time)), configs)
  {
    forall j | 0 <= j < |ls| ensures Runner(files, ls, others, Promptly(ls, others, time), j) == Some(configs[j]) {
      OwnConfig(files, ls, j, j + 1);
    }
  }

  lemma DownAmongOwn(s: seq<Option<HopConfig>>, up: set<nat>, configs: seq<HopConfig>, port: int)
    requires configs != [] && OwnConfigs(s, configs) && PassesUp(s, up, port, Down(|configs|))
    ensures Passes(configs, port, Down(|configs|)) && forall j: nat :: j < |configs| ==> j in up
  {
    var n, path := |configs|, Down(|configs|);
    forall j: nat | j < n ensures j in up {
      assert path[n - 1 - j] == j;
    }
    forall k | 0 <= k < n - 1 ensures Dials(configs[path[k]], configs[path[k + 1]]) {
      assert DialsRunner(s, path[k], path[k + 1]);
    }
    forall i: nat | i < n ensures !Dials(configs[path[n - 1]], configs[i]) {
      assert i in up && !DialsRunner(s, path[n - 1], i);
    }
  }

  /** When the way down is open among all processes, the hops are joined. */
  lemma DownNeedsJoined(s: seq<Option<HopConfig>>, up: set<nat>, hops: seq<Hop>, leftover: string, socksPort: int,
                        pinnedHosts: map<string, string>)
    requires hops != [] && OwnConfigs(s, HopConfigs(hops, leftover, socksPort, pinnedHosts))
    requires PassesUp(s, up, FIRST_PORT + |hops| - 1, Down(|hops|))
    ensures Joined(hops, leftover) && forall j: nat :: j < |hops| ==> j in up
  {
    var configs := HopConfigs(hops, leftover, socksPort, pinnedHosts);
    DownAmongOwn(s, up, configs, FIRST_PORT + |hops| - 1);
    ConfigsWired(hops, leftover, socksPort, pinnedHosts);
    PassesIffLeads(configs, hops, leftover, Down(|hops|));
    DownLeadsIff(hops, leftover);
  }

  /** A process that is not quiet either wants the port of a hop or is dialled by the
      first one. */
  lemma NotQuiet(s: seq<Option<HopConfig>>, hops: seq<Hop>, leftover: string, socksPort: int,
                 pinnedHosts: map<string, string>, b: nat, c: HopConfig) returns (j: nat)
    requires hops != [] && Joined(hops, leftover) && |hops| <= b < |s| && s[b] == Some(c)
    requires OwnConfigs(s, HopConfigs(hops, leftover, socksPort, pinnedHosts)) && !Quiet(hops, leftover, c)
    ensures j < |hops| && (Clash(s[j], s[b]) || (j == 0 && DialsRunner(s, 0, b)))
  {
    var port := ListensOn(c).value;
    j := if FIRST_PORT <= port < FIRST_PORT + |hops| then port - FIRST_PORT else 0;
    HopPorts(hops, leftover, socksPort, pinnedHosts, j);
    assert s[j] == Some(HopConfigs(hops, leftover, socksPort, pinnedHosts)[j]);
  }

  /** Such a process, when it is up, closes the way down. */
  lemma InTheWay(s: seq<Option<HopConfig>>, up: set<nat>, hops: seq<Hop>, leftover: string, socksPort: int,
                 pinnedHosts: map<string, string>, b: nat, c: HopConfig)
    requires hops != [] && NoClash(s, up) && OwnConfigs(s, HopConfigs(hops, leftover, socksPort, pinnedHosts))
    requires b in up && b >= |hops| && s[b] == Some(c) && !Quiet(hops, leftover, c)
    ensures !Carried(s, up, |hops|)
  {
    var path, port := Down(|hops|), FIRST_PORT + |hops| - 1;
    if PassesUp(s, up, port, path) {
      DownNeedsJoined(s, up, hops, leftover, socksPort, pinnedHosts);
      var j := NotQuiet(s, hops, leftover, socksPort, pinnedHosts, b, c);
      DownShut(s, up, port, |hops|, j, b);
    }
    assert !GoesDownOnly(s, up, |hops|, path);
  }

  lemma DownShut(s: seq<Option<HopConfig>>, up: set<nat>, port: int, n: nat, j: nat, b: nat)
    requires NoClash(s, up) && j in up && j < n <= b && b in up
    requires Clash(s[j], s[b]) || (j == 0 && DialsRunner(s, 0, b))
    ensures !PassesUp(s, up, port, Down(n))
  {
    assert Down(n)[n - 1] == 0;
  }

  lemma PromptInTheWay(hops: seq<Hop>, leftover: string, socksPort: int, pinnedHosts: map<string, string>,
                       files: Files, others: seq<Other>, time: nat, up: set<nat>, b: nat, c: HopConfig)
    requires hops != [] && time <= |hops| && b >= |hops| && !Quiet(hops, leftover, c)
    requires var ls := LaunchesOf(hops, leftover, socksPort, pinnedHosts);
             var s := Runners(files, ls, others, Promptly(ls, others, time));
             Settled(s, Early(others, |hops|), up) && b in up && s[b] == Some(c)
    ensures var ls := LaunchesOf(hops, leftover, socksPort, pinnedHosts);
            !Carried(Runners(files, ls, others, Promptly(ls, others, time)), up, |hops|)
  {
    var ls := LaunchesOf(hops, leftover, socksPort, pinnedHosts);
    PromptOwn(files, ls, others, time, HopConfigs(hops, leftover, socksPort, pinnedHosts));
    InTheWay(Runners(files, ls, others, Promptly(ls, others, time)), up, hops, leftover, socksPort, pinnedHosts, b, c);
  }

  lemma JoinedNeeded(hops: seq<Hop>, leftover: string, socksPort: int, pinnedHosts: map<string, string>, files: Files,
                     others: seq<Other>)
    requires hops != [] && PortsHeldOnce(others)
    requires Carries(LaunchesOf(hops, leftover, socksPort, pinnedHosts), files, others)
    ensures Joined(hops, leftover)
  {
    var ls := LaunchesOf(hops, leftover, socksPort, pinnedHosts);
    var seen := Promptly(ls, others, 0);
    var s := Runners(files, ls, others, seen);
    PromptOwn(files, ls, others, 0, HopConfigs(hops, leftover, socksPort, pinnedHosts));
    EarlyApart(files, ls, others, seen);
    var up := SettledExists(s, Early(others, |ls|));
    assert Carried(s, up, |hops|);
    assert GoesDownOnly(s, up, |hops|, Down(|hops|));
    DownNeedsJoined(s, up, hops, leftover, socksPort, pinnedHosts);
  }

  /** Process i reads what was written for process j. */
  lemma ReadsNext(files: Files, ls: seq<Launch>, others: seq<Other>, i: nat, j: nat)
    requires i < j < |ls| && ls[i].source.InFile? && ls[i].source == ls[j].source
    ensures var seen := Promptly(ls, others, 0)[i := j + 1];
            && ReadTimes(ls, others, seen)
            && Runner(files, ls, others, seen, i) == Some(ls[j].config)
            && Runner(files, ls, others, seen, i + 1) == Some(ls[i + 1].config)
  {
    OwnConfig(files, ls, i + 1, i + 2);
  }

  /** With the config of hop j, hop i is not where the hop after it looks for it. */
  lemma WrongConfig(s: seq<Option<HopConfig>>, up: set<nat>, hops: seq<Hop>, leftover: string, socksPort: int,
                    pinnedHosts: map<string, string>, i: nat, j: nat)
    requires i < j < |hops| <= |s|
    requires s[i] == Some(HopConfigs(hops, leftover, socksPort, pinnedHosts)[j])
    requires s[i + 1] == Some(HopConfigs(hops, leftover, socksPort, pinnedHosts)[i + 1])
    ensures !Carried(s, up, |hops|)
  {
    HopPorts(hops, leftover, socksPort, pinnedHosts, i + 1);
    HopPorts(hops, leftover, socksPort, pinnedHosts, j);
    BrokenLink(s, up, |hops|, i);
  }

  lemma BrokenLink(s: seq<Option<HopConfig>>, up: set<nat>, n: nat, i: nat)
    requires i + 1 < n && !DialsRunner(s, i + 1, i)
    ensures !Carried(s, up, n)
  {
    var path := Down(n);
    assert path[n - 2 - i] == i + 1 && path[n - 2 - i + 1] == i;
    assert !GoesDownOnly(s, up, n, path);
  }

  /** Hop i reads after hop j has written the same file. */
  lemma FilesNeeded(hops: seq<Hop>, leftover: string, socksPort: int, pinnedHosts: map<string, string>, files: Files,
                    others: seq<Other>, i: nat, j: nat)
    requires i < j < |hops| && PortsHeldOnce(others)
    requires SourceFor(hops[i].engine, hops[i].link).InFile?
    requires SourceFor(hops[i].engine, hops[i].link) == SourceFor(hops[j].engine, hops[j].link)
    ensures !Carries(LaunchesOf(hops, leftover, socksPort, pinnedHosts), files, others)
  {
    var ls := LaunchesOf(hops, leftover, socksPort, pinnedHosts);
    var seen := Promptly(ls, others, 0)[i := j + 1];
    var s := Runners(files, ls, others, seen);
    EarlyApart(files, ls, others, seen);
    var up := SettledExists(s, Early(others, |ls|));
    ReadsNext(files, ls, others, i, j);
    WrongConfig(s, up, hops, leftover, socksPort, pinnedHosts, i, j);
  }

  /** Another process that listens already is in the way. */
  lemma QuietNeeded(hops: seq<Hop>, leftover: string, socksPort: int, pinnedHosts: map<string, string>, files: Files,
                    others: seq<Other>, k: nat)
    requires hops != [] && PortsHeldOnce(others)
    requires k < |others| && others[k].Runs? && !Quiet(hops, leftover, others[k].config)
    ensures !Carries(LaunchesOf(hops, leftover, socksPort, pinnedHosts), files, others)
  {
    var ls := LaunchesOf(hops, leftover, socksPort, pinnedHosts);
    var seen := Promptly(ls, others, 0);
    var s := Runners(files, ls, others, seen);
    EarlyApart(files, ls, others, seen);
    var up := SettledExists(s, Early(others, |ls|));
    assert |ls| + k in Early(others, |ls|);
    PromptInTheWay(hops, leftover, socksPort, pinnedHosts, files, others, 0, up, |ls| + k, others[k].config);
  }

  ghost predicate AllQuiet(s: seq<Option<HopConfig>>, up: set<nat>, hops: seq<Hop>, leftover: string) {
    forall b :: b in up ==> b < |s| && s[b].Some? && Quiet(hops, leftover, s[b].value)
  }

  lemma EarlyQuiet(files: Files, ls: seq<Launch>, others: seq<Other>, seen: seq<nat>, hops: seq<Hop>, leftover: string)
    requires ReadTimes(ls, others, seen) && PortsHeldOnce(others)
    requires forall i :: 0 <= i < |others| && others[i].Runs? ==> Quiet(hops, leftover, others[i].config)
    ensures NoClash(Runners(files, ls, others, seen), Early(others, |ls|))
    ensures AllQuiet(Runners(files, ls, others, seen), Early(others, |ls|), hops, leftover)
  {
    EarlyApart(files, ls, others, seen);
  }

  lemma ReaderFirst(s: seq<Option<HopConfig>>, early: set<nat>, hops: seq<Hop>, leftover: string, a: nat, c: HopConfig)
    returns (up: set<nat>)
    requires NoClash(s, early) && AllQuiet(s, early, hops, leftover)
    requires a < |s| && s[a] == Some(c) && !Quiet(hops, leftover, c)
    ensures Settled(s, early, up) && a in up
  {
    OneMoreUp(s, early, a);
    up := SettledExists(s, early + {a});
  }

  lemma LateReaderUp(hops: seq<Hop>, leftover: string, files: Files, ls: seq<Launch>, others: seq<Other>, k: nat,
                     time: nat, config: HopConfig)
    returns (up: set<nat>)
    requires PortsHeldOnce(others) && k < |others| && others[k].Reading? && time <= |ls|
    requires forall i :: 0 <= i < |others| && others[i].Runs? ==> Quiet(hops, leftover, others[i].config)
    requires others[k].file in FilesAfter(files, ls, time) && FilesAfter(files, ls, time)[others[k].file] == config
    requires !Quiet(hops, leftover, config)
    ensures var s := Runners(files, ls, others, Promptly(ls, others, time));
            Settled(s, Early(others, |ls|), up) && |ls| + k in up && s[|ls| + k] == Some(config)
  {
    var seen := Promptly(ls, others, time);
    EarlyQuiet(files, ls, others, seen, hops, leftover);
    assert Runner(files, ls, others, seen, |ls| + k) == Some(config);
    up := ReaderFirst(Runners(files, ls, others, seen), Early(others, |ls|), hops, leftover, |ls| + k, config);
  }

  /** Another process reads a config that is not quiet, and is the first to its port. */
  lemma LateReaderNeeded(hops: seq<Hop>, leftover: string, socksPort: int, pinnedHosts: map<string, string>,
                         files: Files, others: seq<Other>, k: nat, time: nat)
    requires hops != [] && PortsHeldOnce(others) && time <= |hops|
    requires forall i :: 0 <= i < |others| && others[i].Runs? ==> Quiet(hops, leftover, others[i].config)
    requires k < |others| && others[k].Reading?
    requires var found := FilesAfter(files, LaunchesOf(hops, leftover, socksPort, pinnedHosts), time);
             others[k].file in found && !Quiet(hops, leftover, found[others[k].file])
    ensures !Carries(LaunchesOf(hops, leftover, socksPort, pinnedHosts), files, others)
  {
    var ls := LaunchesOf(hops, leftover, socksPort, pinnedHosts);
    var config := FilesAfter(files, ls, time)[others[k].file];
    var up := LateReaderUp(hops, leftover, files, ls, others, k, time, config);
    PromptInTheWay(hops, leftover, socksPort, pinnedHosts, files, others, time, up, |ls| + k, config);
  }

  lemma OthersNeeded(hops: seq<Hop>, leftover: string, socksPort: int, pinnedHosts: map<string, string>, files: Files,
                     others: seq<Other>, k: nat)
    requires hops != [] && PortsHeldOnce(others) && Joined(hops, leftover)
    requires k < |others| && !OutOfTheWay(hops, leftover, files, others[k])
    ensures !Carries(LaunchesOf(hops, leftover, socksPort, pinnedHosts), files, others)
  {
    if i: nat :| i < |others| && others[i].Runs? && !Quiet(hops, leftover, others[i].config) {
      QuietNeeded(hops, leftover, socksPort, pinnedHosts, files, others, i);
    } else if i: nat :| i < |hops| && SourceFor(hops[i].engine, hops[i].link) == InFile(others[k].file) {
      HopPorts(hops, leftover, socksPort, pinnedHosts, i);
      LateReaderNeeded(hops, leftover, socksPort, pinnedHosts, files, others, k, i + 1);
    } else {
      LateReaderNeeded(hops, leftover, socksPort, pinnedHosts, files, others, k, 0);
    }
  }

  // ----- main result -----

  lemma OtherRunsQuiet(hops: seq<Hop>, leftover: string, files: Files, ls: seq<Launch>, other: Other, n: nat)
    requires |ls| == |hops| && n <= |ls| && OutOfTheWay(hops, leftover, files, other) && other.Reading?
    requires forall i :: 0 <= i < |hops| ==> ls[i].source == SourceFor(hops[i].engine, hops[i].link)
    ensures other.file in FilesAfter(files, ls, n) ==> Quiet(hops, leftover, FilesAfter(files, ls, n)[other.file])
  {
    FileStays(files, ls, 0, n, other.file);
  }

  lemma AllRunOwn(hops: seq<Hop>, leftover: string, configs: seq<HopConfig>, files: Files, ls: seq<Launch>,
                  others: seq<Other>, seen: seq<nat>)
    requires FilesApart(hops) && AllOutOfTheWay(hops, leftover, files, others)
    requires |ls| == |hops| == |configs| && ReadTimes(ls, others, seen)
    requires forall i :: 0 <= i < |hops| ==>
               ls[i].source == SourceFor(hops[i].engine, hops[i].link) && ls[i].config == configs[i]
    ensures var s := Runners(files, ls, others, seen);
            OwnConfigs(s, configs) && OthersQuiet(s, hops, leftover)
  {
    forall j | 0 <= j < |hops| ensures Runner(files, ls, others, seen, j) == Some(configs[j]) {
      OwnConfig(files, ls, j, seen[j]);
    }
    forall a | |ls| <= a < |seen| && Runner(files, ls, others, seen, a).Some?
      ensures Quiet(hops, leftover, Runner(files, ls, others, seen, a).value)
    {
      var other := others[a - |ls|];
      assert OutOfTheWay(hops, leftover, files, other);
      if other.Reading? {
        OtherRunsQuiet(hops, leftover, files, ls, other, seen[a]);
      }
    }
  }

  /** A chain of processes, just started among others, carries every connection to its
      last port through all hops from the last to the first, and in no other way,
      whenever the processes read their configs and whoever comes first to a port,
      exactly when the hops are joined, no two of them have their configs in the same
      file, and no other process is or may get in the way. */
  lemma CarriesIff(hops: seq<Hop>, leftover: string, socksPort: int, pinnedHosts: map<string, string>, files: Files,
                   others: seq<Other>)
    requires hops != [] && PortsHeldOnce(others)
    ensures Carries(LaunchesOf(hops, leftover, socksPort, pinnedHosts), files, others)
       <==> Sound(hops, leftover, files, others)
  {
    var ls := LaunchesOf(hops, leftover, socksPort, pinnedHosts);
    if Carries(ls, files, others) {
      JoinedNeeded(hops, leftover, socksPort, pinnedHosts, files, others);
      if i: nat, j: nat :| i < j < |hops| && SourceFor(hops[i].engine, hops[i].link).InFile?
                           && SourceFor(hops[i].engine, hops[i].link) == SourceFor(hops[j].engine, hops[j].link) {
        FilesNeeded(hops, leftover, socksPort, pinnedHosts, files, others, i, j);
      }
      if k: nat :| k < |others| && !OutOfTheWay(hops, leftover, files, others[k]) {
        OthersNeeded(hops, leftover, socksPort, pinnedHosts, files, others, k);
      }
    } else if Sound(hops, leftover, files, others) {
      var seen: seq<nat>, up: set<nat> :| ReadTimes(ls, others, seen)
        && Settled(Runners(files, ls, others, seen), Early(others, |ls|), up)
        && !Carried(Runners(files, ls, others, seen), up, |ls|);
      AllRunOwn(hops, leftover, HopConfigs(hops, leftover, socksPort, pinnedHosts), files, ls, others, seen);
      QuietCarried(Runners(files, ls, others, seen), Early(others, |ls|), up, hops, leftover, socksPort, pinnedHosts);
    }
  }

  // ----- what that comes to -----

  /** Only chains of one hop, or of an xray or ssh hop and a sing-box hop, can meet the
      condition: all sing-box hops have the same file. */
  lemma ShortChainsOnly(hops: seq<Hop>, leftover: string)
    requires hops != []
    ensures Joined(hops, leftover) && FilesApart(hops)
       <==> || (|hops| == 1 && Joined(hops, leftover))
            || (|hops| == 2 && hops[1].engine == "sing-box" && (hops[0].engine == "xray" || hops[0].engine == "ssh"))
  {
    if |hops| > 2 {
      var a, b := SourceFor(hops[1].engine, hops[1].link), SourceFor(hops[2].engine, hops[2].link);
    } else if |hops| == 2 {
      var a, b := SourceFor(hops[0].engine, hops[0].link), SourceFor(hops[1].engine, hops[1].link);
    }
  }

  /** A chain of hops that runs from the first port on, or a whole chain in one process,
      keeps every other chain from working. */
  lemma OneChainAtATime(hops: seq<Hop>, leftover: string, socksPort: int, pinnedHosts: map<string, string>,
                        files: Files, others: seq<Other>, k: nat)
    requires hops != [] && PortsHeldOnce(others)
    requires k < |others| && others[k].Runs? && ListensOn(others[k].config) == Some(FIRST_PORT)
    ensures !Carries(LaunchesOf(hops, leftover, socksPort, pinnedHosts), files, others)
  {
    CarriesIff(hops, leftover, socksPort, pinnedHosts, files, others);
    assert !OutOfTheWay(hops, leftover, files, others[k]);
  }

  // ----- a whole chain in one process -----

  /** Another process neither has the first port nor may get it, nor will it read the
      config of this one. */
  predicate LeavesFirstPort(file: string, files: Files, other: Other) {
    match other
    case Runs(config) => ListensOn(config) != Some(FIRST_PORT)
    case Reading(f) => f != file && (f in files ==> ListensOn(files[f]) != Some(FIRST_PORT))
  }

  lemma AloneCarried(s: seq<Option<HopConfig>>, early: set<nat>, up: set<nat>, c: HopConfig)
    requires |s| > 0 && s[0] == Some(c) && ListensOn(c) == Some(FIRST_PORT) && DialsVia(c) == None
    requires forall a: nat :: 0 < a < |s| && s[a].Some? ==> ListensOn(s[a].value) != Some(FIRST_PORT)
    requires Settled(s, early, up)
    ensures Carried(s, up, 1)
  {
    if 0 !in up {
      var b := Blocker(s, early, up, 0);
    }
    forall path ensures GoesDownOnly(s, up, 1, path) {
      if PassesUp(s, up, FIRST_PORT, path) {
        assert path[0] == 0;
        if |path| > 1 {
          var dialled := DialsRunner(s, path[0], path[0 + 1]);
        }
      }
    }
  }

  lemma FirstPortTaken(s: seq<Option<HopConfig>>, up: set<nat>, c: HopConfig, b: nat)
    requires |s| > 0 && s[0] == Some(c) && ListensOn(c) == Some(FIRST_PORT) && NoClash(s, up)
    requires b in up && b > 0 && ListensOn(s[b].value) == Some(FIRST_PORT)
    ensures !Carried(s, up, 1)
  {
    assert Clash(s[0], s[b]);
    assert Down(1)[0] == 0;
    assert !GoesDownOnly(s, up, 1, Down(1));
  }

  lemma SingleNeeds(l: Launch, files: Files, others: seq<Other>, k: nat, time: nat, c: HopConfig)
    requires PortsHeldOnce(others) && ListensOn(l.config) == Some(FIRST_PORT) && time <= 1 && k < |others|
    requires Runner(files, [l], others, Promptly([l], others, time), 1 + k) == Some(c)
    requires ListensOn(c) == Some(FIRST_PORT)
    requires others[k].Runs? || forall i :: 0 <= i < |others| && others[i].Runs? ==>
               ListensOn(others[i].config) != Some(FIRST_PORT)
    ensures !Carries([l], files, others)
  {
    var seen := Promptly([l], others, time);
    var s, early := Runners(files, [l], others, seen), Early(others, 1);
    EarlyApart(files, [l], others, seen);
    OwnConfig(files, [l], 0, 1);
    assert s[0] == Some(l.config) && s[1 + k] == Some(c);
    var seeds := early + {1 + k};
    assert NoClash(s, seeds) by {
      if 1 + k !in early {
        assert !Blocked(s, early, 1 + k);
        OneMoreUp(s, early, 1 + k);
      } else {
        assert seeds == early;
      }
    }
    var up := SettledExists(s, seeds);
    assert Settled(s, early, up);
    FirstPortTaken(s, up, l.config, 1 + k);
  }

  /** A chain in one process carries every connection to the first port, exactly when
      no other process has that port, may get it, or has still to read the same file. */
  lemma SingleCarriesIff(l: Launch, files: Files, others: seq<Other>)
    requires PortsHeldOnce(others) && l.source.InFile?
    requires ListensOn(l.config) == Some(FIRST_PORT) && DialsVia(l.config) == None
    ensures Carries([l], files, others)
       <==> forall k :: 0 <= k < |others| ==> LeavesFirstPort(l.source.file, files, others[k])
  {
    if k: nat :| k < |others| && !LeavesFirstPort(l.source.file, files, others[k]) {
      if i: nat :| i < |others| && others[i].Runs? && ListensOn(others[i].config) == Some(FIRST_PORT) {
        SingleNeeds(l, files, others, i, 0, others[i].config);
      } else if others[k].file == l.source.file {
        SingleNeeds(l, files, others, k, 1, l.config);
      } else {
        SingleNeeds(l, files, others, k, 0, files[others[k].file]);
      }
    } else {
      forall seen: seq<nat>, up: set<nat> | ReadTimes([l], others, seen)
                                            && Settled(Runners(files, [l], others, seen), Early(others, 1), up)
        ensures Carried(Runners(files, [l], others, seen), up, 1)
      {
        SingleOthers(l, files, others, seen);
        AloneCarried(Runners(files, [l], others, seen), Early(others, 1), up, l.config);
      }
    }
  }

  lemma SingleOthers(l: Launch, files: Files, others: seq<Other>, seen: seq<nat>)
    requires ReadTimes([l], others, seen) && l.source.InFile?
    requires forall k :: 0 <= k < |others| ==> LeavesFirstPort(l.source.file, files, others[k])
    ensures var s := Runners(files, [l], others, seen);
            && s[0] == Some(l.config)
            && forall a: nat :: 0 < a < |s| && s[a].Some? ==> ListensOn(s[a].value) != Some(FIRST_PORT)
  {
    OwnConfig(files, [l], 0, 1);
    forall a | 1 <= a < |seen| && Runner(files, [l], others, seen, a).Some?
      ensures ListensOn(Runner(files, [l], others, seen, a).value) != Some(FIRST_PORT)
    {
      var other := others[a - 1];
      assert LeavesFirstPort(l.source.file, files, other);
      if other.Reading? {
        FileStays(files, [l], 0, seen[a], other.file);
      }
    }
  }
}
