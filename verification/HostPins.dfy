/** The pins in /etc/hosts (internal/gateway/gateway.go): the tunnel server's
    address is written there before the resolver is switched, and every pin is
    taken out again when the gateway stops or the next start cleans up. */
module HostPins {
  import opened Text
  import opened HostNames

  const MARKER: string := "# bypath-pin"

  function PinLine(host: string, ip: string): string {
    ip + " " + host + " " + MARKER
  }

  predicate IsPin(line: string) {
    Contains(line, MARKER)
  }

  predicate IsPinOf(line: string, host: string) {
    Contains(line, MARKER) && Contains(line, host)
  }

  // ----- specification -----

  function WithoutPinsOf(lines: seq<string>, host: string): seq<string> {
    if lines == [] then []
    else WithoutPinsOf(lines[..|lines| - 1], host)
         + if IsPinOf(lines[|lines| - 1], host) then [] else [lines[|lines| - 1]]
  }

  function WithoutPins(lines: seq<string>): seq<string> {
    if lines == [] then []
    else WithoutPins(lines[..|lines| - 1])
         + if IsPin(lines[|lines| - 1]) then [] else [lines[|lines| - 1]]
  }

  predicate NewlineFree(lines: seq<string>) {
    forall i :: 0 <= i < |lines| ==> '\n' !in lines[i]
  }

  predicate NoPinOf(lines: seq<string>, host: string) {
    forall i :: 0 <= i < |lines| ==> !IsPinOf(lines[i], host)
  }

  function Lines(text: string): seq<string> {
    Split(text, '\n')
  }

  function Unlines(lines: seq<string>): string {
    Join(lines, '\n')
  }

  function Pinned(text: string, host: string, ip: string): string {
    var kept := Unlines(WithoutPinsOf(Lines(text), host));
    (if HasSuffix(kept, "\n") then kept else kept + "\n") + PinLine(host, ip) + "\n"
  }

  function Unpinned(text: string): string {
    Unlines(WithoutPins(Lines(text)))
  }

  datatype Pin = Pin(host: string, ip: string)

  predicate OneLine(p: Pin) {
    '\n' !in p.host && '\n' !in p.ip
  }

  predicate AllOneLine(pins: seq<Pin>) {
    forall i :: 0 <= i < |pins| ==> OneLine(pins[i])
  }

  function PinnedAll(text: string, pins: seq<Pin>): string {
    if pins == [] then text
    else
      var last := pins[|pins| - 1];
      Pinned(PinnedAll(text, pins[..|pins| - 1]), last.host, last.ip)
  }

  // ----- the file -----

  /** What an upstream resolver says about a host; an address in a loopback or
      private range is taken for an interception. */
  datatype Answer = NoAnswer | Address(ip: string, intercepted: bool)

  class HostsFile {
    var text: string

    constructor (text: string)
      ensures this.text == text
    {
      this.text := text;
    }

    /** The address of the first upstream whose answer is believable. */
    static method Resolve(answers: seq<Answer>) returns (ip: string)
      ensures ip == "" ==>
                forall i :: 0 <= i < |answers| ==>
                  answers[i].NoAnswer? || answers[i].intercepted || answers[i].ip == ""
      ensures ip != "" ==>
                exists i :: 0 <= i < |answers| && answers[i] == Address(ip, false)
                            && forall j :: 0 <= j < i ==>
                                 answers[j].NoAnswer? || answers[j].intercepted || answers[j].ip == ""
    {
      for i := 0 to |answers|
        invariant forall j :: 0 <= j < i ==>
                    answers[j].NoAnswer? || answers[j].intercepted || answers[j].ip == ""
      {
        if answers[i].Address? && !answers[i].intercepted && answers[i].ip != "" {
          return answers[i].ip;
        }
      }
      return "";
    }

    /** pinHostToEtcHosts. */
    method PinHost(host: string, isAddress: bool, answers: seq<Answer>) returns (ip: string)
      modifies this
      ensures ip == "" ==> text == old(text)
      ensures ip != "" ==> !isAddress && text == Pinned(old(text), host, ip)
      ensures ip == "" <==>
                isAddress || forall i :: 0 <= i < |answers| ==>
                               answers[i].NoAnswer? || answers[i].intercepted || answers[i].ip == ""
      ensures ip != "" && IsWord(host) && IsWord(ip) ==> Resolves(old(text), text, host, ip)
    {
      if isAddress {
        return "";
      }
      ip := Resolve(answers);
      if ip == "" {
        return "";
      }
      var lines := Split(text, '\n');
      var filtered: seq<string> := [];
      for i := 0 to |lines|
        invariant filtered == WithoutPinsOf(lines[..i], host)
      {
        assert lines[..i + 1][..i] == lines[..i];
        if Contains(lines[i], MARKER) && Contains(lines[i], host) {
          continue;
        }
        filtered := filtered + [lines[i]];
      }
      assert lines[..|lines|] == lines;
      var newContent := Join(filtered, '\n');
      if !HasSuffix(newContent, "\n") {
        newContent := newContent + "\n";
      }
      newContent := newContent + (ip + " " + host + " " + MARKER) + "\n";
      text := newContent;
      if IsWord(host) && IsWord(ip) {
        PinnedResolves(old(text), host, ip);
      }
    }

    /** unpinHostsFromEtcHosts. */
    method UnpinHosts()
      modifies this
      ensures text == Unpinned(old(text))
    {
      var lines := Split(text, '\n');
      var filtered: seq<string> := [];
      for i := 0 to |lines|
        invariant filtered == WithoutPins(lines[..i])
        invariant text == old(text)
      {
        assert lines[..i + 1][..i] == lines[..i];
        if Contains(lines[i], MARKER) {
          continue;
        }
        filtered := filtered + [lines[i]];
      }
      assert lines[..|lines|] == lines;
      text := Join(filtered, '\n');
    }
  }

  // ----- what a resolver makes of it -----

  /** A line that is dropped when the host is pinned. */
  ghost predicate Dropped(line: string, host: string) {
    Contains(line, "# bypath-pin") && Contains(line, host)
  }

  /** Line i is the first of those that are not dropped to have the name. */
  ghost predicate FirstNamed(lines: seq<string>, host: string, name: string, i: int) {
    && 0 <= i < |lines| && Names(lines[i], name) && !Dropped(lines[i], host)
    && forall j :: 0 <= j < i ==> !Names(lines[j], name) || Dropped(lines[j], host)
  }

  /** No line has the name but for those that are dropped. */
  ghost predicate NoneNamed(lines: seq<string>, host: string, name: string) {
    forall j :: 0 <= j < |lines| ==> !Names(lines[j], name) || Dropped(lines[j], host)
  }

  /** What a pin does to look-ups. A line that has a name and stays goes on to answer
      for it, also for the host itself; without one, the host has its new address, and
      another name has none any more. */
  ghost predicate Resolves(was: string, now: string, host: string, ip: string) {
    forall name :: Answers(Split(was, '\n'), Split(now, '\n'), host, ip, name)
  }

  ghost predicate Answers(was: seq<string>, now: seq<string>, host: string, ip: string, name: string) {
    && (forall i :: FirstNamed(was, host, name, i) ==> AddressOf(now, name) == Some(Read(was[i]).address))
    && (NoneNamed(was, host, name) ==> AddressOf(now, name) == if name == host then Some(ip) else None)
  }

  lemma {:induction false} KeptPlaces(lines: seq<string>, host: string) returns (at: seq<nat>)
    ensures PicksAt(WithoutPinsOf(lines, host), lines, at)
    ensures forall i :: 0 <= i < |lines| ==> (i in at <==> !Dropped(lines[i], host))
  {
    at := [];
    if lines != [] {
      var n := |lines| - 1;
      at := KeptPlaces(lines[..n], host);
      assert lines == lines[..n] + [lines[n]];
      PicksMore(WithoutPinsOf(lines[..n], host), lines[..n], at, lines[n]);
      if !IsPinOf(lines[n], host) {
        at := at + [n];
      }
    }
  }

  /** All lines that are not dropped stay, in order, but for an empty one after all
      others; if all are dropped, there is an empty line. */
  ghost predicate Stays(stay: seq<string>, was: seq<string>, at: seq<nat>, host: string) {
    || (stay == [""] && forall i :: 0 <= i < |was| ==> Dropped(was[i], host))
    || (PicksAt(stay, was, at) && forall i :: 0 <= i < |was| ==> StaysAt(was, at, host, i))
  }

  ghost predicate StaysAt(was: seq<string>, at: seq<nat>, host: string, i: nat)
    requires i < |was|
  {
    if i in at then !Dropped(was[i], host)
    else Dropped(was[i], host) || (was[i] == "" && forall j :: i < j < |was| ==> Dropped(was[j], host))
  }

  /** Right after a pin the file ends in a line for the host, which reads as the address
      for just that name, and in a line break; before it are the lines that stay. */
  lemma PinnedMeans(text: string, host: string, ip: string)
    returns (stay: seq<string>, at: seq<nat>, line: string)
    requires IsWord(host) && IsWord(ip)
    ensures Split(Pinned(text, host, ip), '\n') == stay + [line, ""]
    ensures Read(line) == Entry(ip, [host]) && Contains(line, "# bypath-pin")
    ensures Stays(stay, Split(text, '\n'), at, host)
  {
    stay, line := Stay(text, host), PinLine(host, ip);
    at := StayPlaces(text, host);
    WordsAreLine(host, ip);
    PinnedLines(text, host, ip);
    PinLineReads(host, ip);
  }

  lemma PinLineReads(host: string, ip: string)
    requires IsWord(host) && IsWord(ip)
    ensures Read(PinLine(host, ip)) == Entry(ip, [host]) && Contains(PinLine(host, ip), "# bypath-pin")
  {
    PinLineIsPin(host, ip);
    assert PinLine(host, ip) == ip + (" " + (host + (" " + ("#" + " bypath-pin"))));
    ReadPair(ip, host, " bypath-pin");
  }

  lemma WordsAreLine(host: string, ip: string)
    requires IsWord(host) && IsWord(ip)
    ensures OneLine(Pin(host, ip))
  {
    assert IsBlank('\n');
  }

  lemma StayPlaces(text: string, host: string) returns (at: seq<nat>)
    ensures Stays(Stay(text, host), Split(text, '\n'), at, host)
  {
    var was, kept := Lines(text), WithoutPinsOf(Lines(text), host);
    at := KeptPlaces(was, host);
    StayFacts(text, host);
    if HasSuffix(Unlines(kept), "\n") {
      DropLastPlace(kept, was, at, host);
      at := at[..|at| - 1];
    } else if kept == [] {
      assert forall i :: 0 <= i < |was| ==> i !in at;
    } else {
      assert forall i :: 0 <= i < |was| ==> StaysAt(was, at, host, i);
    }
  }

  lemma DropLastPlace(kept: seq<string>, was: seq<string>, at: seq<nat>, host: string)
    requires PicksAt(kept, was, at) && kept != [] && kept[|kept| - 1] == ""
    requires forall i :: 0 <= i < |was| ==> (i in at <==> !Dropped(was[i], host))
    ensures Stays(kept[..|kept| - 1], was, at[..|at| - 1], host)
  {
    var rest, last := at[..|at| - 1], at[|at| - 1];
    assert at == rest + [last];
    forall i | 0 <= i < |was| ensures StaysAt(was, rest, host, i) {
      if i > last {
        assert i !in at;
      } else if i == last {
        assert last !in rest;
        assert forall j :: last < j < |was| ==> j !in at;
      }
    }
  }

  /** For every file, host and address that are single words. */
  lemma PinnedResolves(text: string, host: string, ip: string)
    requires IsWord(host) && IsWord(ip)
    ensures Resolves(text, Pinned(text, host, ip), host, ip)
  {
    var stay, at, line := PinnedMeans(text, host, ip);
    forall name ensures Answers(Split(text, '\n'), stay + [line, ""], host, ip, name) {
      StayAnswers(stay, Split(text, '\n'), at, host, name);
      EndAnswers(line, host, ip, name);
      AddressOfConcat(stay, [line, ""], name);
    }
  }

  /** The look-up of a name in the lines that stay. */
  lemma StayAnswers(stay: seq<string>, was: seq<string>, at: seq<nat>, host: string, name: string)
    requires Stays(stay, was, at, host)
    ensures forall i :: FirstNamed(was, host, name, i) ==> AddressOf(stay, name) == Some(Read(was[i]).address)
    ensures NoneNamed(was, host, name) ==>
              AddressOf(stay, name) == None && forall k :: 0 <= k < |stay| ==> !Names(stay[k], name)
  {
    EmptyNamesNothing(name);
    forall i | FirstNamed(was, host, name, i)
      ensures AddressOf(stay, name) == Some(Read(was[i]).address)
    {
      assert StaysAt(was, at, host, i);
      var k :| 0 <= k < |at| && at[k] == i;
      forall l | 0 <= l < k ensures !Names(stay[l], name) {
        assert StaysAt(was, at, host, at[l]);
      }
      AddressOfFirst(stay, k, name);
    }
    if NoneNamed(was, host, name) {
      forall k | 0 <= k < |stay| ensures !Names(stay[k], name) {
        if stay != [""] {
          assert StaysAt(was, at, host, at[k]);
        }
      }
      AddressOfNone(stay, name);
    }
  }

  lemma EndAnswers(line: string, host: string, ip: string, name: string)
    requires Read(line) == Entry(ip, [host])
    ensures AddressOf([line, ""], name) == if name == host then Some(ip) else None
  {
    EmptyNamesNothing(name);
    assert [line, ""][1..] == [""] && [""][1..] == [];
    assert AddressOf([""], name) == None;
  }

  /** Two pins, one after the other, in a file that has no other line for the first
      host: its pin is still there exactly when its line does not contain the name of
      the second host, be it as a part of its own name. */
  lemma FirstPinStaysIff(text: string, a: Pin, b: Pin)
    requires IsWord(a.host) && IsWord(a.ip) && IsWord(b.host) && IsWord(b.ip) && a.host != b.host
    requires NoneNamed(Split(text, '\n'), a.host, a.host)
    ensures AddressOf(Split(Pinned(Pinned(text, a.host, a.ip), b.host, b.ip), '\n'), a.host)
         == if Contains(a.ip + " " + a.host + " " + "# bypath-pin", b.host) then None else Some(a.ip)
  {
    var once := Pinned(text, a.host, a.ip);
    var stay, line := Stay(text, a.host), PinLine(a.host, a.ip);
    var at := StayPlaces(text, a.host);
    StayAnswers(stay, Split(text, '\n'), at, a.host, a.host);
    WordsAreLine(a.host, a.ip);
    PinnedLines(text, a.host, a.ip);
    PinLineReads(a.host, a.ip);
    OnlyLast(stay, line, a.host, b.host);
    PinnedResolves(once, b.host, b.ip);
    assert Answers(Split(once, '\n'), Split(Pinned(once, b.host, b.ip), '\n'), b.host, b.ip, a.host);
  }

  lemma OnlyLast(stay: seq<string>, line: string, name: string, host: string)
    requires forall k :: 0 <= k < |stay| ==> !Names(stay[k], name)
    requires Names(line, name)
    ensures Dropped(line, host) ==> NoneNamed(stay + [line, ""], host, name)
    ensures !Dropped(line, host) ==>
              FirstNamed(stay + [line, ""], host, name, |stay|) && (stay + [line, ""])[|stay|] == line
  {
    EmptyNamesNothing(name);
  }

  /** Unpinning keeps exactly the lines without the marker, in order. */
  lemma {:induction false} UnpinnedMeans(text: string) returns (kept: seq<string>, at: seq<nat>)
    ensures Unpinned(text) == Join(kept, '\n') && PicksAt(kept, Split(text, '\n'), at)
    ensures forall i :: 0 <= i < |Split(text, '\n')| ==>
              (i in at <==> !Contains(Split(text, '\n')[i], "# bypath-pin"))
  {
    kept := WithoutPins(Lines(text));
    at := UnpinnedPlaces(Lines(text));
  }

  lemma {:induction false} UnpinnedPlaces(lines: seq<string>) returns (at: seq<nat>)
    ensures PicksAt(WithoutPins(lines), lines, at)
    ensures forall i :: 0 <= i < |lines| ==> (i in at <==> !Contains(lines[i], "# bypath-pin"))
  {
    at := [];
    if lines != [] {
      var n := |lines| - 1;
      at := UnpinnedPlaces(lines[..n]);
      assert lines == lines[..n] + [lines[n]];
      PicksMore(WithoutPins(lines[..n]), lines[..n], at, lines[n]);
      if !IsPin(lines[n]) {
        at := at + [n];
      }
    }
  }

  // ----- filtering lines -----

  lemma {:induction false} WithoutPinsConcat(a: seq<string>, b: seq<string>)
    ensures WithoutPins(a + b) == WithoutPins(a) + WithoutPins(b)
  {
    if b == [] {
      assert a + b == a;
    } else {
      assert (a + b)[..|a + b| - 1] == a + b[..|b| - 1];
      WithoutPinsConcat(a, b[..|b| - 1]);
    }
  }

  /** Dropping the pins of one host first makes no difference to dropping all pins. */
  lemma {:induction false} DropsOnlyPins(lines: seq<string>, host: string)
    ensures WithoutPins(WithoutPinsOf(lines, host)) == WithoutPins(lines)
  {
    if lines != [] {
      var init, last := lines[..|lines| - 1], lines[|lines| - 1];
      DropsOnlyPins(init, host);
      var kept := if IsPinOf(last, host) then [] else [last];
      WithoutPinsConcat(WithoutPinsOf(init, host), kept);
      if !IsPinOf(last, host) {
        assert [last][..0] == [];
        assert WithoutPins([last]) == if IsPin(last) then [] else [last];
      }
    }
  }

  lemma {:induction false} KeptLines(lines: seq<string>, host: string)
    ensures forall x :: x in WithoutPinsOf(lines, host) ==> x in lines && !IsPinOf(x, host)
    ensures forall x :: x in lines && !IsPinOf(x, host) ==> x in WithoutPinsOf(lines, host)
  {
    if lines != [] {
      KeptLines(lines[..|lines| - 1], host);
      assert lines == lines[..|lines| - 1] + [lines[|lines| - 1]];
    }
  }

  lemma PinLineIsPin(host: string, ip: string)
    ensures IsPinOf(PinLine(host, ip), host)
  {
    ContainsMiddle(ip + " " + host + " ", MARKER, "");
    assert ip + " " + host + " " + MARKER + "" == PinLine(host, ip);
    ContainsMiddle(ip + " ", host, " " + MARKER);
    assert ip + " " + host + (" " + MARKER) == PinLine(host, ip);
  }

  lemma OneLineFile(line: string)
    ensures WithoutPins([line]) == if IsPin(line) then [] else [line]
  {
  }

  lemma EmptyIsNoPin(host: string)
    ensures !IsPin("") && !IsPinOf("", host)
  {
  }

  // ----- the lines of a pinned file -----

  /** The lines that stay when a host is pinned, without the empty one that
      stands for a final line break. */
  function Stay(text: string, host: string): seq<string> {
    var kept := WithoutPinsOf(Lines(text), host);
    if HasSuffix(Unlines(kept), "\n") then kept[..|kept| - 1]
    else if kept == [] then [""] else kept
  }

  lemma {:induction false} JoinSnoc(lines: seq<string>, x: string)
    requires lines != []
    ensures Unlines(lines + [x]) == Unlines(lines) + "\n" + x
  {
    if |lines| == 1 {
      assert (lines + [x])[1..] == [x];
      assert Unlines([x]) == x && Unlines(lines) == lines[0];
    } else {
      assert (lines + [x])[1..] == lines[1..] + [x];
      JoinSnoc(lines[1..], x);
    }
  }

  lemma NewlineAtEnd(lines: seq<string>)
    requires lines != [] && NewlineFree(lines)
    ensures HasSuffix(Unlines(lines), "\n") <==> |lines| >= 2 && lines[|lines| - 1] == ""
  {
    var last := lines[|lines| - 1];
    if |lines| >= 2 {
      JoinSnoc(lines[..|lines| - 1], last);
      assert lines == lines[..|lines| - 1] + [last];
      var joined := Unlines(lines[..|lines| - 1]) + "\n" + last;
      assert Unlines(lines) == joined;
      if last != "" {
        assert joined[|joined| - 1] == last[|last| - 1];
        assert last[|last| - 1] in last;
      } else {
        assert joined[|joined| - 1..] == "\n";
      }
    } else if last != "" {
      assert last[|last| - 1] in last;
    }
  }

  lemma KeptFree(text: string, host: string)
    ensures NewlineFree(WithoutPinsOf(Lines(text), host))
    ensures NoPinOf(WithoutPinsOf(Lines(text), host), host)
  {
    var kept := WithoutPinsOf(Lines(text), host);
    SplitPartsFree(text, '\n');
    KeptLines(Lines(text), host);
    forall i | 0 <= i < |kept| ensures '\n' !in kept[i] && !IsPinOf(kept[i], host) {
      assert kept[i] in Lines(text);
    }
  }

  lemma StayFacts(text: string, host: string)
    ensures Stay(text, host) != []
    ensures NewlineFree(Stay(text, host)) && NoPinOf(Stay(text, host), host)
    ensures HasSuffix(Unlines(WithoutPinsOf(Lines(text), host)), "\n") ==>
              WithoutPinsOf(Lines(text), host) == Stay(text, host) + [""]
  {
    var kept := WithoutPinsOf(Lines(text), host);
    KeptFree(text, host);
    EmptyIsNoPin(host);
    if kept != [] {
      NewlineAtEnd(kept);
    }
  }

  lemma PinnedText(text: string, host: string, ip: string)
    ensures Pinned(text, host, ip) == Unlines(Stay(text, host)) + "\n" + (PinLine(host, ip) + "\n" + "")
  {
    var kept := WithoutPinsOf(Lines(text), host);
    StayFacts(text, host);
    if HasSuffix(Unlines(kept), "\n") {
      JoinSnoc(Stay(text, host), "");
    }
  }

  /** The lines of a file right after a pin. */
  lemma PinnedLines(text: string, host: string, ip: string)
    requires OneLine(Pin(host, ip))
    ensures HasSuffix(Pinned(text, host, ip), "\n")
    ensures Lines(Pinned(text, host, ip)) == Stay(text, host) + [PinLine(host, ip), ""]
  {
    var stay, line := Stay(text, host), PinLine(host, ip);
    PinnedText(text, host, ip);
    StayFacts(text, host);
    LineIsOne(host, ip);
    LinesOf(stay, line);
  }

  lemma LinesOf(stay: seq<string>, line: string)
    requires stay != [] && NewlineFree(stay) && Split(line, '\n') == [line]
    ensures Lines(Unlines(stay) + "\n" + (line + "\n" + "")) == stay + [line, ""]
  {
    SplitConcat(Unlines(stay), '\n', line + ['\n'] + "");
    SplitConcat(line, '\n', "");
    SplitJoin(stay, '\n');
  }

  lemma LineIsOne(host: string, ip: string)
    requires OneLine(Pin(host, ip))
    ensures Split(PinLine(host, ip), '\n') == [PinLine(host, ip)]
  {
    SplitFree(PinLine(host, ip), '\n');
  }

  /** Whether pinning a host leaves behind a line break of its own: the file
      did not end in one, or nothing but pins of that host was in it. */
  predicate LeavesNewline(text: string, host: string) {
    var kept := WithoutPinsOf(Lines(text), host);
    && !HasSuffix(Unlines(kept), "\n")
    && (kept == [] || WithoutPins(Lines(text)) != [])
  }

  lemma UnpinnedLines(text: string, host: string, ip: string)
    requires OneLine(Pin(host, ip))
    ensures Unpinned(Pinned(text, host, ip)) == Unlines(WithoutPins(Stay(text, host)) + [""])
  {
    var stay, line := Stay(text, host), PinLine(host, ip);
    PinnedLines(text, host, ip);
    PinLineIsPin(host, ip);
    EmptyIsNoPin(host);
    OneLineFile(line);
    OneLineFile("");
    assert [line, ""] == [line] + [""];
    WithoutPinsConcat([line], [""]);
    WithoutPinsConcat(stay, [line, ""]);
  }

  /** What pinning and unpinning come to, for every file whatsoever. */
  lemma UnpinPinned(text: string, host: string, ip: string)
    requires OneLine(Pin(host, ip))
    ensures Unpinned(Pinned(text, host, ip))
         == Unpinned(text) + if LeavesNewline(text, host) then "\n" else ""
  {
    var kept, stay := WithoutPinsOf(Lines(text), host), Stay(text, host);
    UnpinnedLines(text, host, ip);
    StayFacts(text, host);
    DropsOnlyPins(Lines(text), host);
    EmptyIsNoPin(host);
    OneLineFile("");
    if HasSuffix(Unlines(kept), "\n") {
      WithoutPinsConcat(stay, [""]);
    } else if WithoutPins(stay) != [] {
      JoinSnoc(WithoutPins(stay), "");
    }
  }

  // ----- any sequence of pins -----

  lemma LastLineEmpty(text: string)
    requires HasSuffix(text, "\n")
    ensures Lines(text) == Lines(text[..|text| - 1]) + [""]
  {
    assert text == text[..|text| - 1] + ['\n'] + "";
    SplitConcat(text[..|text| - 1], '\n', "");
  }

  lemma PinKeepsTheRest(text: string, host: string, ip: string)
    requires OneLine(Pin(host, ip))
    requires HasSuffix(text, "\n") && Unpinned(text) != ""
    ensures Unpinned(Pinned(text, host, ip)) == Unpinned(text)
  {
    KeptOfTerminated(text, host);
    var kept := WithoutPinsOf(Lines(text), host);
    DropsOnlyPins(Lines(text), host);
    OneLineFile("");
    EmptyIsNoPin(host);
    assert kept != [""];
    UnpinPinned(text, host, ip);
  }

  /** In a file that ends in a line break the empty last line always stays. */
  lemma KeptOfTerminated(text: string, host: string)
    requires HasSuffix(text, "\n")
    ensures var kept := WithoutPinsOf(Lines(text), host);
            && kept == WithoutPinsOf(Lines(text[..|text| - 1]), host) + [""]
            && (HasSuffix(Unlines(kept), "\n") <==> kept != [""])
  {
    var init, kept := Lines(text[..|text| - 1]), WithoutPinsOf(Lines(text), host);
    LastLineEmpty(text);
    EmptyIsNoPin(host);
    assert Lines(text)[..|Lines(text)| - 1] == init;
    KeptFree(text, host);
    NewlineAtEnd(kept);
  }

  lemma {:induction false} PinsComeOff(text: string, pins: seq<Pin>)
    requires HasSuffix(text, "\n") && Unpinned(text) != ""
    requires AllOneLine(pins)
    ensures HasSuffix(PinnedAll(text, pins), "\n")
    ensures Unpinned(PinnedAll(text, pins)) == Unpinned(text)
  {
    if pins != [] {
      var before, last := pins[..|pins| - 1], pins[|pins| - 1];
      PinsComeOff(text, before);
      PinKeepsTheRest(PinnedAll(text, before), last.host, last.ip);
      PinnedLines(PinnedAll(text, before), last.host, last.ip);
    }
  }

  /** Like every pin that is written: with an address. */
  predicate AllAddressed(pins: seq<Pin>) {
    forall i :: 0 <= i < |pins| ==> pins[i].ip != ""
  }

  ghost predicate PinsAlwaysComeOff(text: string) {
    forall pins: seq<Pin> ::
      AllOneLine(pins) && AllAddressed(pins) ==> Unpinned(PinnedAll(text, pins)) == Unpinned(text)
  }

  /** For a file that ends in a line break, every sequence of pins comes off
      without a trace exactly when the file has something besides pins: from
      one that holds pins only, pinning the host `pin`, whose name is in every
      pin line, leaves a line break behind. */
  lemma PinsComeOffIff(text: string)
    requires HasSuffix(text, "\n")
    ensures PinsAlwaysComeOff(text) <==> Unpinned(text) != ""
  {
    if Unpinned(text) != "" {
      forall pins: seq<Pin> | AllOneLine(pins) && AllAddressed(pins)
        ensures Unpinned(PinnedAll(text, pins)) == Unpinned(text)
      {
        PinsComeOff(text, pins);
      }
    } else {
      var pin := Pin("pin", "1.1.1.1");
      OnePinStays(text, pin);
      assert AllOneLine([pin]) && AllAddressed([pin]);
    }
  }

  lemma PinOnce(text: string, pin: Pin)
    ensures PinnedAll(text, [pin]) == Pinned(text, pin.host, pin.ip)
  {
  }

  lemma OnePinStays(text: string, pin: Pin)
    requires HasSuffix(text, "\n") && Unpinned(text) == ""
    requires pin.host == "pin" && OneLine(pin)
    ensures Unpinned(PinnedAll(text, [pin])) != Unpinned(text)
  {
    OnlyPins(text);
    PinOnce(text, pin);
    UnpinPinned(text, pin.host, pin.ip);
  }

  lemma OnlyPins(text: string)
    requires HasSuffix(text, "\n") && Unpinned(text) == ""
    ensures LeavesNewline(text, "pin")
  {
    var init := Lines(text[..|text| - 1]);
    LastLineEmpty(text);
    EmptyIsNoPin("pin");
    WithoutPinsConcat(init, [""]);
    OneLineFile("");
    if WithoutPins(init) != [] {
      JoinSnoc(WithoutPins(init), "");
    }
    NoneLeft(init);
    assert Lines(text)[..|Lines(text)| - 1] == init;
    assert WithoutPinsOf(Lines(text), "pin") == [""];
  }

  lemma {:induction false} NoneLeft(lines: seq<string>)
    requires WithoutPins(lines) == []
    ensures WithoutPinsOf(lines, "pin") == []
  {
    if lines != [] {
      var last := lines[|lines| - 1];
      assert IsPin(last);
      var i :| 0 <= i <= |last| - |MARKER| && OccursAt(last, MARKER, i);
      assert MARKER[9..12] == "pin";
      assert last[i + 9..i + 12] == last[i..i + |MARKER|][9..12];
      assert OccursAt(last, "pin", i + 9);
      NoneLeft(lines[..|lines| - 1]);
    }
  }

  /** A hosts file without pins comes back byte for byte. */
  lemma UnpinnedFileComesBack(text: string, pins: seq<Pin>)
    requires HasSuffix(text, "\n")
    requires forall i :: 0 <= i < |Lines(text)| ==> !IsPin(Lines(text)[i])
    requires AllOneLine(pins)
    ensures Unpinned(PinnedAll(text, pins)) == text
  {
    NoPinsNoChange(Lines(text));
    JoinSplit(text, '\n');
    PinsComeOff(text, pins);
  }

  lemma {:induction false} NoPinsNoChange(lines: seq<string>)
    requires forall i :: 0 <= i < |lines| ==> !IsPin(lines[i])
    ensures WithoutPins(lines) == lines
  {
    if lines != [] {
      NoPinsNoChange(lines[..|lines| - 1]);
    }
  }

  // ----- one pin per host -----

  function Mentions(lines: seq<string>, host: string): nat {
    if lines == [] then 0
    else Mentions(lines[..|lines| - 1], host) + if IsPinOf(lines[|lines| - 1], host) then 1 else 0
  }

  lemma {:induction false} NoMentions(lines: seq<string>, host: string)
    requires NoPinOf(lines, host)
    ensures Mentions(lines, host) == 0
  {
    if lines != [] {
      NoMentions(lines[..|lines| - 1], host);
    }
  }

  lemma MentionsSnoc(lines: seq<string>, last: string, host: string)
    ensures Mentions(lines + [last], host) == Mentions(lines, host) + if IsPinOf(last, host) then 1 else 0
  {
  }

  lemma OneMention(stay: seq<string>, line: string, host: string)
    requires NoPinOf(stay, host) && IsPinOf(line, host)
    ensures Mentions(stay + [line, ""], host) == 1
  {
    NoMentions(stay, host);
    EmptyIsNoPin(host);
    MentionsSnoc(stay, line, host);
    MentionsSnoc(stay + [line], "", host);
    assert stay + [line, ""] == stay + [line] + [""];
  }

  /** Right after a pin exactly one pin line mentions the host: the new one. */
  lemma OnePinLine(text: string, host: string, ip: string)
    requires OneLine(Pin(host, ip))
    ensures Mentions(Lines(Pinned(text, host, ip)), host) == 1
    ensures PinLine(host, ip) in Lines(Pinned(text, host, ip))
  {
    PinnedLines(text, host, ip);
    StayFacts(text, host);
    PinLineIsPin(host, ip);
    OneMention(Stay(text, host), PinLine(host, ip), host);
  }
}
