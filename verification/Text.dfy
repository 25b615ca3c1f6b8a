/** Common types, and strings as the Go standard library handles them: splitting
    and joining on a separator, substring tests, trimming, decimal printing and
    parsing. */
module Text {

  datatype Option<+T> = None | Some(value: T)

  /** What happened so far, entry by entry. */
  datatype Record<T> = Nothing | Then(before: Record<T>, last: T) {
    function Size(): nat {
      match this
      case Nothing => 0
      case Then(before, _) => before.Size() + 1
    }

    function ToSeq(): (s: seq<T>)
      ensures |s| == Size()
    {
      match this
      case Nothing => []
      case Then(before, last) => before.ToSeq() + [last]
    }
  }

  predicate HasPrefix(s: string, p: string) {
    p <= s
  }

  predicate HasSuffix(s: string, t: string) {
    |t| <= |s| && s[|s| - |t|..] == t
  }

  predicate OccursAt(s: string, sub: string, i: nat)
    requires i <= |s| - |sub|
  {
    s[i..i + |sub|] == sub
  }

  predicate Contains(s: string, sub: string) {
    exists i | 0 <= i <= |s| - |sub| :: OccursAt(s, sub, i)
  }

  lemma ContainsMiddle(a: string, sub: string, b: string)
    ensures Contains(a + sub + b, sub)
  {
    var s := a + sub + b;
    assert s[|a|..|a| + |sub|] == sub;
    assert OccursAt(s, sub, |a|);
  }

  lemma Assoc<T>(a: seq<T>, b: seq<T>, c: seq<T>)
    ensures a + b + c == a + (b + c)
  {
  }

  /** r holds the elements of s at the places `at`, which go upwards: what is left of
      s when everything at the other places is dropped. */
  ghost predicate PicksAt<T>(r: seq<T>, s: seq<T>, at: seq<nat>) {
    && |r| == |at|
    && (forall k :: 0 <= k < |at| ==> at[k] < |s| && r[k] == s[at[k]])
    && forall k, l :: 0 <= k < l < |at| ==> at[k] < at[l]
  }

  /** One more element at the end of s, kept or dropped. */
  lemma PicksMore<T>(r: seq<T>, s: seq<T>, at: seq<nat>, x: T)
    requires PicksAt(r, s, at)
    ensures PicksAt(r, s + [x], at)
    ensures PicksAt(r + [x], s + [x], at + [|s|])
  {
  }

  // ----- splitting and joining -----

  function Split(s: string, sep: char): (parts: seq<string>)
    ensures |parts| >= 1
  {
    if s == [] then [[]]
    else
      var rest := Split(s[1..], sep);
      if s[0] == sep then [[]] + rest else [[s[0]] + rest[0]] + rest[1..]
  }

  function Join(parts: seq<string>, sep: char): string {
    if |parts| == 0 then []
    else if |parts| == 1 then parts[0]
    else parts[0] + [sep] + Join(parts[1..], sep)
  }

  lemma {:induction false} JoinSplit(s: string, sep: char)
    ensures Join(Split(s, sep), sep) == s
  {
    if s != [] {
      JoinSplit(s[1..], sep);
      var rest := Split(s[1..], sep);
      if s[0] == sep {
        assert ([[]] + rest)[1..] == rest;
      } else {
        var whole := [[s[0]] + rest[0]] + rest[1..];
        assert whole[1..] == rest[1..];
        if |rest| > 1 {
          assert Join(whole, sep) == [s[0]] + (rest[0] + [sep] + Join(rest[1..], sep));
        }
      }
    }
  }

  lemma {:induction false} SplitPartsFree(s: string, sep: char)
    ensures forall i :: 0 <= i < |Split(s, sep)| ==> sep !in Split(s, sep)[i]
  {
    if s != [] {
      SplitPartsFree(s[1..], sep);
    }
  }

  lemma {:induction false} SplitFree(s: string, sep: char)
    requires sep !in s
    ensures Split(s, sep) == [s]
  {
    if s != [] {
      SplitFree(s[1..], sep);
      assert [s[0]] + s[1..] == s;
    }
  }

  lemma {:induction false} SplitConcat(a: string, sep: char, b: string)
    ensures Split(a + [sep] + b, sep) == Split(a, sep) + Split(b, sep)
  {
    var s := a + [sep] + b;
    if a == [] {
      assert s[1..] == b;
    } else {
      assert s[1..] == a[1..] + [sep] + b;
      SplitConcat(a[1..], sep, b);
    }
  }

  lemma {:induction false} SplitJoin(parts: seq<string>, sep: char)
    requires |parts| >= 1
    requires forall i :: 0 <= i < |parts| ==> sep !in parts[i]
    ensures Split(Join(parts, sep), sep) == parts
  {
    SplitFree(parts[0], sep);
    if |parts| > 1 {
      SplitJoin(parts[1..], sep);
      SplitConcat(parts[0], sep, Join(parts[1..], sep));
      assert [parts[0]] + parts[1..] == parts;
    } else {
      assert parts == [parts[0]];
    }
  }

  // ----- trimming white space -----

  /** The characters that strings.TrimSpace removes. */
  predicate IsSpace(c: char) {
    c in "\t\n\r " || c == '\U{000B}' || c == '\U{000C}' || c == '\U{0085}' || c == '\U{00A0}'
    || c == '\U{1680}' || '\U{2000}' <= c <= '\U{200A}' || c == '\U{2028}' || c == '\U{2029}'
    || c == '\U{202F}' || c == '\U{205F}' || c == '\U{3000}'
  }

  function TrimLeft(s: string): string {
    if s != [] && IsSpace(s[0]) then TrimLeft(s[1..]) else s
  }

  function TrimRight(s: string): string {
    if s != [] && IsSpace(s[|s| - 1]) then TrimRight(s[..|s| - 1]) else s
  }

  function TrimSpace(s: string): string {
    TrimRight(TrimLeft(s))
  }

  /** What is left after i characters of white space in front and as many after the
      place j: no white space begins or ends it. */
  ghost predicate Trimmed(r: string, s: string, i: nat, j: nat) {
    && i <= j <= |s| && r == s[i..j]
    && (forall k :: 0 <= k < i || j <= k < |s| ==> IsSpace(s[k]))
    && (r != [] ==> !IsSpace(r[0]) && !IsSpace(r[|r| - 1]))
  }

  lemma {:induction false} TrimLeftMeans(s: string) returns (i: nat)
    ensures i <= |s| && TrimLeft(s) == s[i..]
    ensures forall k :: 0 <= k < i ==> IsSpace(s[k])
    ensures i < |s| ==> !IsSpace(s[i])
  {
    i := 0;
    if s != [] && IsSpace(s[0]) {
      var n := TrimLeftMeans(s[1..]);
      i := n + 1;
      assert forall k :: 0 < k < i ==> s[k] == s[1..][k - 1];
    }
  }

  lemma {:induction false} TrimRightMeans(s: string) returns (j: nat)
    ensures j <= |s| && TrimRight(s) == s[..j]
    ensures forall k :: j <= k < |s| ==> IsSpace(s[k])
    ensures j > 0 ==> !IsSpace(s[j - 1])
  {
    j := |s|;
    if s != [] && IsSpace(s[|s| - 1]) {
      j := TrimRightMeans(s[..|s| - 1]);
      assert forall k :: j <= k < |s| - 1 ==> s[k] == s[..|s| - 1][k];
    }
  }

  /** TrimSpace takes off all the white space at both ends and nothing else. */
  lemma TrimSpaceMeans(s: string) returns (i: nat, j: nat)
    ensures Trimmed(TrimSpace(s), s, i, j)
  {
    i := TrimLeftMeans(s);
    var n := TrimRightMeans(s[i..]);
    j := i + n;
    assert forall k :: j <= k < |s| ==> s[k] == s[i..][k - i];
  }

  // ----- decimal numbers -----

  predicate IsDigit(c: char) {
    '0' <= c <= '9'
  }

  function DigitChar(d: nat): (c: char)
    requires d < 10
    ensures IsDigit(c) && c as int - '0' as int == d
  {
    ('0' as int + d) as char
  }

  function Itoa(n: nat): (s: string)
    ensures |s| >= 1
    ensures forall i :: 0 <= i < |s| ==> IsDigit(s[i])
    ensures n > 0 ==> s[0] != '0'
  {
    if n < 10 then [DigitChar(n)] else Itoa(n / 10) + [DigitChar(n % 10)]
  }

  /** Reads the digits of s, skipping every other character. */
  function Digits(s: string): nat {
    if s == [] then 0
    else
      var n := Digits(s[..|s| - 1]);
      var c := s[|s| - 1];
      if IsDigit(c) then n * 10 + (c as int - '0' as int) else n
  }

  lemma {:induction false} DigitsItoa(n: nat)
    ensures Digits(Itoa(n)) == n
  {
    if n < 10 {
      assert Itoa(n)[..0] == [];
    } else {
      DigitsItoa(n / 10);
      assert Itoa(n)[..|Itoa(n)| - 1] == Itoa(n / 10);
    }
  }

  lemma ItoaInjective(m: nat, n: nat)
    requires Itoa(m) == Itoa(n)
    ensures m == n
  {
    DigitsItoa(m);
    DigitsItoa(n);
  }
}
