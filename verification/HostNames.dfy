/** How a resolver reads a hosts file: what comes after a # is a comment, the fields
    of a line are separated by white space, the first one is an address and the others
    are its names; the first line that has a name gives its address. */
module HostNames {
  import opened Text

  datatype Entry = NoEntry | Entry(address: string, names: seq<string>)

  predicate IsBlank(c: char) {
    c in " \t\r\n" || c == '\U{000B}' || c == '\U{000C}'
  }

  /** One field: nothing in it separates fields or begins a comment. */
  predicate IsWord(s: string) {
    s != "" && forall i :: 0 <= i < |s| ==> !IsBlank(s[i]) && s[i] != '#'
  }

  function BeforeHash(line: string): string {
    if line == [] || line[0] == '#' then [] else [line[0]] + BeforeHash(line[1..])
  }

  function Fields(s: string): (fields: seq<string>)
    ensures s != [] && !IsBlank(s[0]) ==> fields != []
  {
    if s == [] then []
    else if IsBlank(s[0]) then Fields(s[1..])
    else if |s| == 1 || IsBlank(s[1]) then [[s[0]]] + Fields(s[1..])
    else
      var rest := Fields(s[1..]);
      [[s[0]] + rest[0]] + rest[1..]
  }

  function Read(line: string): Entry {
    var fields := Fields(BeforeHash(line));
    if |fields| < 2 then NoEntry else Entry(fields[0], fields[1..])
  }

  predicate Names(line: string, name: string) {
    Read(line).Entry? && name in Read(line).names
  }

  function AddressOf(lines: seq<string>, name: string): Option<string> {
    if lines == [] then None
    else if Names(lines[0], name) then Some(Read(lines[0]).address)
    else AddressOf(lines[1..], name)
  }

  lemma {:induction false} BeforeHashOf(a: string, b: string)
    requires '#' !in a
    ensures BeforeHash(a + ("#" + b)) == a
  {
    var line := a + ("#" + b);
    if a != [] {
      BeforeHashOf(a[1..], b);
      assert line[1..] == a[1..] + ("#" + b);
      assert a == [a[0]] + a[1..];
    }
  }

  lemma {:induction false} FieldsOfWord(word: string, rest: string)
    requires IsWord(word)
    ensures Fields(word + (" " + rest)) == [word] + Fields(rest)
  {
    var s := word + (" " + rest);
    if |word| == 1 {
      assert s[1..] == " " + rest && s[1..][1..] == rest;
      assert word == [s[0]];
    } else {
      assert s[1..] == word[1..] + (" " + rest);
      FieldsOfWord(word[1..], rest);
      assert !IsBlank(word[1]) && s[1] == word[1];
      assert word == [word[0]] + word[1..];
    }
  }

  /** A line made of an address, a name and a comment reads as just that. */
  lemma ReadPair(address: string, name: string, comment: string)
    requires IsWord(address) && IsWord(name)
    ensures Read(address + (" " + (name + (" " + ("#" + comment))))) == Entry(address, [name])
  {
    var front := address + (" " + (name + (" " + "")));
    assert address + (" " + (name + (" " + ("#" + comment)))) == front + ("#" + comment);
    BeforeHashOf(front, comment);
    FieldsOfWord(address, name + (" " + ""));
    FieldsOfWord(name, "");
  }

  /** An empty line names nothing. */
  lemma EmptyNamesNothing(name: string)
    ensures !Names("", name)
  {
  }

  lemma {:induction false} AddressOfConcat(a: seq<string>, b: seq<string>, name: string)
    ensures AddressOf(a + b, name) == if AddressOf(a, name).Some? then AddressOf(a, name) else AddressOf(b, name)
  {
    if a == [] {
      assert a + b == b;
    } else {
      assert (a + b)[1..] == a[1..] + b;
      AddressOfConcat(a[1..], b, name);
    }
  }

  lemma {:induction false} AddressOfNone(lines: seq<string>, name: string)
    requires forall i :: 0 <= i < |lines| ==> !Names(lines[i], name)
    ensures AddressOf(lines, name) == None
  {
    if lines != [] {
      AddressOfNone(lines[1..], name);
    }
  }

  lemma {:induction false} AddressOfFirst(lines: seq<string>, i: nat, name: string)
    requires i < |lines| && Names(lines[i], name)
    requires forall j :: 0 <= j < i ==> !Names(lines[j], name)
    ensures AddressOf(lines, name) == Some(Read(lines[i]).address)
  {
    if i > 0 {
      assert forall j :: 0 <= j < i - 1 ==> lines[1..][j] == lines[j + 1];
      AddressOfFirst(lines[1..], i - 1, name);
    }
  }
}
