/** The takeover of /etc/resolv.conf (internal/gateway/gateway.go): a legacy
    start saves the original in a backup file and puts a stub in its place, stop
    and the clean-up of the next start put it back. A process may be killed
    between any two file operations, also inside a write, which first empties
    the file and then fills it. */
module ResolvConf {
  import opened Text

  const LOOPBACK: string := "127.0.0.1"
  const STUB: string := "nameserver 127.0.0.1\n"
  const STUB_LINE: string := "nameserver 127.0.0.1"
  const FALLBACK: string := "nameserver 8.8.8.8\nnameserver 1.1.1.1\n"

  /** The two files; a missing backup is None. */
  datatype Files = Files(live: string, backup: Option<string>)

  /** The file operations, one per system call. */
  datatype FileOp =
    | EmptyLive | FillLive(text: string)
    | EmptyBackup | FillBackup(text: string) | RemoveBackup

  function Apply(f: Files, op: FileOp): Files {
    match op
    case EmptyLive => f.(live := "")
    case FillLive(text) => f.(live := text)
    case EmptyBackup => f.(backup := Some(""))
    case FillBackup(text) => f.(backup := Some(text))
    case RemoveBackup => f.(backup := None)
  }

  function Run(f: Files, ops: seq<FileOp>): Files
    decreases ops
  {
    if ops == [] then f else Run(Apply(f, ops[0]), ops[1..])
  }

  /** Unfolds a run of at most four operations. */
  lemma {:induction false} RunAll(f: Files, ops: seq<FileOp>)
    ensures |ops| == 0 ==> Run(f, ops) == f
    ensures |ops| == 1 ==> Run(f, ops) == Apply(f, ops[0])
    ensures |ops| == 2 ==> Run(f, ops) == Apply(Apply(f, ops[0]), ops[1])
    ensures |ops| == 3 ==> Run(f, ops) == Apply(Apply(Apply(f, ops[0]), ops[1]), ops[2])
    ensures |ops| == 4 ==> Run(f, ops) == Apply(Apply(Apply(Apply(f, ops[0]), ops[1]), ops[2]), ops[3])
    decreases ops
  {
    if ops != [] {
      RunAll(Apply(f, ops[0]), ops[1..]);
    }
  }

  // ----- the three procedures, as the file operations they carry out -----

  predicate HasBackup(f: Files) {
    f.backup.Some? && f.backup.value != ""
  }

  function SetOps(f: Files): seq<FileOp> {
    (if Contains(f.live, LOOPBACK) then [] else [EmptyBackup, FillBackup(f.live)])
    + [EmptyLive, FillLive(STUB)]
  }

  function RestoreOps(f: Files): seq<FileOp> {
    if HasBackup(f) then [EmptyLive, FillLive(f.backup.value), RemoveBackup]
    else [EmptyLive, FillLive(FALLBACK)]
  }

  function CleanupOps(f: Files): seq<FileOp> {
    if HasBackup(f) then [EmptyLive, FillLive(f.backup.value), RemoveBackup]
    else if TrimSpace(f.live) == STUB_LINE then [EmptyLive, FillLive(FALLBACK)]
    else []
  }

  /** The file system seen by one process. The journal holds every file
      operation that the process has carried out so far. */
  class ResolvFiles {
    var live: string
    var backup: Option<string>
    ghost var journal: seq<FileOp>

    constructor (f: Files)
      ensures Now() == f && journal == []
    {
      live, backup, journal := f.live, f.backup, [];
    }

    function Now(): Files
      reads `live, `backup
    {
      Files(live, backup)
    }

    method WriteLive(text: string)
      modifies this
      ensures journal == old(journal) + [EmptyLive, FillLive(text)]
      ensures Now() == old(Now()).(live := text)
    {
      live := "";
      live := text;
      journal := journal + [EmptyLive, FillLive(text)];
    }

    method WriteBackup(text: string)
      modifies this
      ensures journal == old(journal) + [EmptyBackup, FillBackup(text)]
      ensures Now() == old(Now()).(backup := Some(text))
    {
      backup := Some("");
      backup := Some(text);
      journal := journal + [EmptyBackup, FillBackup(text)];
    }

    method DropBackup()
      modifies this
      ensures journal == old(journal) + [RemoveBackup]
      ensures Now() == old(Now()).(backup := None)
    {
      backup := None;
      journal := journal + [RemoveBackup];
    }

    /** setResolvConf("127.0.0.1"). */
    method SetResolvConf()
      modifies this
      ensures journal == old(journal) + SetOps(old(Now()))
      ensures Now() == Run(old(Now()), SetOps(old(Now())))
      ensures live == "nameserver 127.0.0.1\n"
      ensures backup == if Contains(old(live), "127.0.0.1") then old(backup) else Some(old(live))
    {
      var orig := live;
      if !Contains(orig, LOOPBACK) {
        WriteBackup(orig);
      }
      WriteLive(STUB);
      RunAll(old(Now()), SetOps(old(Now())));
    }

    /** restoreResolvConf. */
    method RestoreResolvConf()
      modifies this
      ensures journal == old(journal) + RestoreOps(old(Now()))
      ensures Now() == Run(old(Now()), RestoreOps(old(Now())))
      ensures if old(backup) == None || old(backup) == Some("")
              then live == "nameserver 8.8.8.8\nnameserver 1.1.1.1\n" && backup == old(backup)
              else Some(live) == old(backup) && backup == None
    {
      if backup.Some? && |backup.value| > 0 {
        WriteLive(backup.value);
        DropBackup();
      } else {
        WriteLive(FALLBACK);
      }
      RunAll(old(Now()), RestoreOps(old(Now())));
    }

    /** The resolv.conf part of cleanupPreviousRun. */
    method CleanupResolvConf()
      modifies this
      ensures journal == old(journal) + CleanupOps(old(Now()))
      ensures Now() == Run(old(Now()), CleanupOps(old(Now())))
      ensures if old(backup) != None && old(backup) != Some("") then Some(live) == old(backup) && backup == None
              else
                && backup == old(backup)
                && live == if TrimSpace(old(live)) == "nameserver 127.0.0.1"
                           then "nameserver 8.8.8.8\nnameserver 1.1.1.1\n" else old(live)
    {
      if backup.Some? && |backup.value| > 0 {
        WriteLive(backup.value);
        DropBackup();
      } else if TrimSpace(live) == STUB_LINE {
        WriteLive(FALLBACK);
      }
      RunAll(old(Now()), CleanupOps(old(Now())));
    }
  }

  // ----- runs: processes come, are killed anywhere, and go -----

  datatype Procedure = Cleanup | TakeOver | Stop

  function Ops(p: Procedure, f: Files): seq<FileOp> {
    match p
    case Cleanup => CleanupOps(f)
    case TakeOver => SetOps(f)
    case Stop => RestoreOps(f)
  }

  /** What the process now running has completed. */
  datatype Mode = Gone | Cleaned | Taken

  /** A procedure of which only the first `done` file operations were carried
      out: the process is killed then if that is not all of them. */
  datatype Event = Event(procedure: Procedure, done: nat)

  datatype World = World(mode: Mode, files: Files)

  predicate Complete(e: Event, f: Files) {
    e.done >= |Ops(e.procedure, f)|
  }

  function Step(w: World, e: Event): World {
    var ops := Ops(e.procedure, w.files);
    if !Complete(e, w.files) then World(Gone, Run(w.files, ops[..e.done]))
    else
      var mode := match e.procedure case Cleanup => Cleaned case TakeOver => Taken case Stop => Gone;
      World(mode, Run(w.files, ops))
  }

  /** Every start cleans up first; only a process that has cleaned up takes over or is
      stopped. It may be stopped without having taken over, as after a start with
      native TUN. */
  predicate Legal(mode: Mode, p: Procedure) {
    match p
    case Cleanup => true
    case TakeOver => mode == Cleaned
    case Stop => mode == Cleaned || mode == Taken
  }

  /** The world after the first n events. */
  function RunTo(w: World, events: seq<Event>, n: nat): World
    requires n <= |events|
  {
    if n == 0 then w else Step(RunTo(w, events, n - 1), events[n - 1])
  }

  predicate LegalRun(w: World, events: seq<Event>) {
    forall k :: 0 <= k < |events| ==> Legal(RunTo(w, events, k).mode, events[k].procedure)
  }

  /** A stop without a takeover that came as far as the live file. */
  predicate BareStop(w: World, e: Event) {
    e.procedure == Stop && w.mode == Cleaned && e.done > 0
  }

  /** It loses the original, unless it is completed and writes that very text. */
  predicate Loses(w: World, e: Event, orig: string) {
    BareStop(w, e) && !(Complete(e, w.files) && orig == FALLBACK)
  }

  /** One of the first n events loses the original. */
  predicate LosesBy(start: World, events: seq<Event>, n: nat, orig: string)
    requires n <= |events|
  {
    n > 0 && (LosesBy(start, events, n - 1, orig) || Loses(RunTo(start, events, n - 1), events[n - 1], orig))
  }

  lemma {:induction false} LosesAt(start: World, events: seq<Event>, n: nat, orig: string, k: nat)
    requires k < n <= |events| && Loses(RunTo(start, events, k), events[k], orig)
    ensures LosesBy(start, events, n, orig)
  {
    if k < n - 1 {
      LosesAt(start, events, n - 1, orig, k);
    }
  }

  lemma {:induction false} LosesSome(start: World, events: seq<Event>, n: nat, orig: string) returns (k: nat)
    requires n <= |events| && LosesBy(start, events, n, orig)
    ensures k < n && Loses(RunTo(start, events, k), events[k], orig)
  {
    if LosesBy(start, events, n - 1, orig) {
      k := LosesSome(start, events, n - 1, orig);
    } else {
      k := n - 1;
    }
  }

  lemma LosesByMeans(start: World, events: seq<Event>, n: nat, orig: string)
    requires n <= |events|
    ensures LosesBy(start, events, n, orig)
       <==> exists k :: 0 <= k < n && Loses(RunTo(start, events, k), events[k], orig)
  {
    if LosesBy(start, events, n, orig) {
      var k := LosesSome(start, events, n, orig);
    } else if k :| 0 <= k < n && Loses(RunTo(start, events, k), events[k], orig) {
      LosesAt(start, events, n, orig, k);
    }
  }

  /** An original that the takeover can preserve. */
  predicate Preservable(orig: string) {
    orig != "" && !Contains(orig, LOOPBACK)
  }

  /** The original is in the live file or in the backup, and no other text
      could be taken for the backup. */
  predicate Held(f: Files, orig: string) {
    f.backup == Some(orig) || (f.live == orig && !HasBackup(f))
  }

  predicate Consistent(w: World, orig: string) {
    && Held(w.files, orig)
    && (w.mode == Cleaned ==> w.files.live == orig && !HasBackup(w.files))
    && (w.mode == Taken ==> w.files == Files(STUB, Some(orig)))
  }

  lemma {:induction false} TrimKeepsOut(s: string, sub: string)
    requires !Contains(s, sub)
    ensures !Contains(TrimSpace(s), sub)
  {
    TrimLeftKeepsOut(s, sub);
    TrimRightKeepsOut(TrimLeft(s), sub);
  }

  lemma {:induction false} TrimLeftKeepsOut(s: string, sub: string)
    requires !Contains(s, sub)
    ensures !Contains(TrimLeft(s), sub)
  {
    if s != [] && IsSpace(s[0]) {
      forall i | 0 <= i <= |s[1..]| - |sub| ensures !OccursAt(s[1..], sub, i) {
        assert s[1..][i..i + |sub|] == s[i + 1..i + 1 + |sub|];
        assert !OccursAt(s, sub, i + 1);
      }
      TrimLeftKeepsOut(s[1..], sub);
    }
  }

  lemma {:induction false} TrimRightKeepsOut(s: string, sub: string)
    requires !Contains(s, sub)
    ensures !Contains(TrimRight(s), sub)
  {
    if s != [] && IsSpace(s[|s| - 1]) {
      var shorter := s[..|s| - 1];
      forall i | 0 <= i <= |shorter| - |sub| ensures !OccursAt(shorter, sub, i) {
        assert shorter[i..i + |sub|] == s[i..i + |sub|];
        assert !OccursAt(s, sub, i);
      }
      TrimRightKeepsOut(shorter, sub);
    }
  }

  lemma StubNamesLoopback()
    ensures Contains(STUB_LINE, LOOPBACK) && Contains(STUB, LOOPBACK)
    ensures !Contains(FALLBACK, LOOPBACK)
  {
    assert OccursAt(STUB_LINE, LOOPBACK, 11);
    assert OccursAt(STUB, LOOPBACK, 11);
    assert LOOPBACK[1] == '2';
    forall i | 0 <= i <= |FALLBACK| - |LOOPBACK| ensures !OccursAt(FALLBACK, LOOPBACK, i) {
      assert FALLBACK[i..i + |LOOPBACK|][1] == FALLBACK[i + 1];
      assert '2' !in FALLBACK;
    }
  }

  /** An original that can be preserved is not mistaken for the stub. */
  lemma NotTheStub(orig: string)
    requires !Contains(orig, LOOPBACK)
    ensures TrimSpace(orig) != STUB_LINE
  {
    TrimKeepsOut(orig, LOOPBACK);
    StubNamesLoopback();
  }

  /** One procedure, carried out wholly or in part, keeps the original. */
  lemma StepKeeps(w: World, e: Event, orig: string)
    requires Preservable(orig) && Consistent(w, orig) && Legal(w.mode, e.procedure) && !Loses(w, e, orig)
    ensures Consistent(Step(w, e), orig)
    ensures Complete(e, w.files) && e.procedure != TakeOver ==> Step(w, e).files.live == orig
  {
    NotTheStub(orig);
    var ops := Ops(e.procedure, w.files);
    var part := if Complete(e, w.files) then ops else ops[..e.done];
    RunAll(w.files, part);
  }

  lemma {:induction false} KeptTo(start: World, events: seq<Event>, n: nat, orig: string)
    requires Preservable(orig) && start.mode == Gone && Held(start.files, orig)
    requires LegalRun(start, events) && n <= |events| && !LosesBy(start, events, n, orig)
    ensures Consistent(RunTo(start, events, n), orig)
  {
    if n > 0 {
      KeptTo(start, events, n - 1, orig);
      StepKeeps(RunTo(start, events, n - 1), events[n - 1], orig);
    }
  }

  /** Neither file holds the original, nor anything it could come back from. */
  predicate Lost(f: Files) {
    && (f.live == "" || f.live == FALLBACK || f.live == STUB)
    && (f.backup == None || f.backup == Some("") || f.backup == Some(FALLBACK))
  }

  lemma LossStays(w: World, e: Event)
    requires Lost(w.files)
    ensures Lost(Step(w, e).files)
  {
    StubNamesLoopback();
    var ops := Ops(e.procedure, w.files);
    var part := if Complete(e, w.files) then ops else ops[..e.done];
    match e.procedure
    case Cleanup => RunAll(w.files, part);
    case TakeOver => RunAll(w.files, part);
    case Stop => RunAll(w.files, part);
  }

  lemma LostIsNotHeld(f: Files, orig: string)
    requires Preservable(orig) && Lost(f) && Held(f, orig)
    ensures orig == FALLBACK
  {
    StubNamesLoopback();
  }

  lemma BareStopLoses(w: World, e: Event, orig: string)
    requires Preservable(orig) && Consistent(w, orig) && Loses(w, e, orig)
    ensures Lost(Step(w, e).files) && !Held(Step(w, e).files, orig)
  {
    StubNamesLoopback();
    var ops := Ops(e.procedure, w.files);
    RunAll(w.files, if Complete(e, w.files) then ops else ops[..e.done]);
  }

  /** Right after the first event that loses the original, it is lost. */
  lemma {:induction false} FirstLoss(start: World, events: seq<Event>, orig: string, n: nat) returns (m: nat)
    requires Preservable(orig) && start.mode == Gone && Held(start.files, orig) && LegalRun(start, events)
    requires n <= |events| && LosesBy(start, events, n, orig)
    ensures m <= n && Lost(RunTo(start, events, m).files) && !Held(RunTo(start, events, m).files, orig)
  {
    if LosesBy(start, events, n - 1, orig) {
      m := FirstLoss(start, events, orig, n - 1);
    } else {
      KeptTo(start, events, n - 1, orig);
      BareStopLoses(RunTo(start, events, n - 1), events[n - 1], orig);
      m := n;
    }
  }

  /** Over every run, the original is at every moment in the live file or in the
      backup, exactly when no stop without a takeover comes as far as the live file,
      unless it writes the original itself. (A run may end in the middle of a
      procedure, so every moment of a run is the end of a run.) */
  lemma NeverLostIff(start: World, events: seq<Event>, orig: string)
    requires Preservable(orig) && start.mode == Gone && Held(start.files, orig)
    requires LegalRun(start, events)
    ensures (forall n :: 0 <= n <= |events| ==> Held(RunTo(start, events, n).files, orig))
       <==> forall k :: 0 <= k < |events| ==> !Loses(RunTo(start, events, k), events[k], orig)
  {
    LosesByMeans(start, events, |events|, orig);
    if LosesBy(start, events, |events|, orig) {
      var m := FirstLoss(start, events, orig, |events|);
    } else {
      forall n | 0 <= n <= |events| ensures Held(RunTo(start, events, n).files, orig) {
        LosesByMeans(start, events, n, orig);
        KeptTo(start, events, n, orig);
      }
    }
  }

  lemma {:induction false} LostTo(start: World, events: seq<Event>, from: nat, n: nat)
    requires from <= n <= |events| && Lost(RunTo(start, events, from).files)
    ensures Lost(RunTo(start, events, n).files)
  {
    if from < n {
      LostTo(start, events, from, n - 1);
      LossStays(RunTo(start, events, n - 1), events[n - 1]);
    }
  }

  /** What is lost stays lost: at the end of a run an original other than the fallback
      text is still there exactly when no such stop happened on the way. */
  lemma SurvivesIff(start: World, events: seq<Event>, orig: string)
    requires Preservable(orig) && start.mode == Gone && Held(start.files, orig)
    requires LegalRun(start, events) && orig != FALLBACK
    ensures Held(RunTo(start, events, |events|).files, orig)
       <==> forall k :: 0 <= k < |events| ==> !BareStop(RunTo(start, events, k), events[k])
  {
    LosesByMeans(start, events, |events|, orig);
    if LosesBy(start, events, |events|, orig) {
      var m := FirstLoss(start, events, orig, |events|);
      LostTo(start, events, m, |events|);
      if Held(RunTo(start, events, |events|).files, orig) {
        LostIsNotHeld(RunTo(start, events, |events|).files, orig);
      }
    } else {
      KeptTo(start, events, |events|, orig);
    }
  }

  /** As long as nothing is lost, the live file is the original, byte for byte, after
      every completed stop and every completed clean-up. */
  lemma PutBack(start: World, events: seq<Event>, orig: string, n: nat)
    requires Preservable(orig) && start.mode == Gone && Held(start.files, orig)
    requires LegalRun(start, events) && n < |events|
    requires forall k :: 0 <= k <= n ==> !Loses(RunTo(start, events, k), events[k], orig)
    requires Complete(events[n], RunTo(start, events, n).files) && events[n].procedure != TakeOver
    ensures RunTo(start, events, n + 1).files.live == orig
  {
    LosesByMeans(start, events, n, orig);
    KeptTo(start, events, n, orig);
    StepKeeps(RunTo(start, events, n), events[n], orig);
  }

  // ----- what the conditions are for -----

  function WholeCycle(f: Files): Files {
    var cleaned := Run(f, CleanupOps(f));
    var taken := Run(cleaned, SetOps(cleaned));
    Run(taken, RestoreOps(taken))
  }

  /** An uninterrupted start and stop gives back exactly the originals that are
      not empty and do not name 127.0.0.1. */
  lemma CycleRestoresIff(orig: string)
    ensures WholeCycle(Files(orig, None)).live == orig <==> orig != "" && !Contains(orig, "127.0.0.1")
  {
    StubNamesLoopback();
    var f := Files(orig, None);
    if Preservable(orig) {
      NotTheStub(orig);
    }
    RunAll(f, CleanupOps(f));
    var cleaned := Run(f, CleanupOps(f));
    RunAll(cleaned, SetOps(cleaned));
    var taken := Run(cleaned, SetOps(cleaned));
    RunAll(taken, RestoreOps(taken));
  }

  /** Stop also runs when nothing was taken over, as after a native-TUN start;
      the original then survives only if it happens to be the fallback text. */
  lemma StopWithoutTakeOver(orig: string)
    ensures Run(Files(orig, None), RestoreOps(Files(orig, None))).live == orig
       <==> orig == "nameserver 8.8.8.8\nnameserver 1.1.1.1\n"
  {
    RunAll(Files(orig, None), RestoreOps(Files(orig, None)));
  }

  /** Cleaning up first is needed: taking over right after a process was killed
      while it filled the live file would overwrite the only copy. */
  lemma TakeOverWithoutCleanup(orig: string)
    requires Preservable(orig)
    ensures Held(Files("", Some(orig)), orig)
    ensures !Held(Run(Files("", Some(orig)), SetOps(Files("", Some(orig)))), orig)
  {
    var f := Files("", Some(orig));
    StubNamesLoopback();
    RunAll(f, SetOps(f));
  }
}
