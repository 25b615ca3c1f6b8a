/** What a reload reports as changed (internal/gateway/gateway.go, Reload and
    localDNSChanged). Lists are compared by joining them with commas, which does not
    tell every two lists apart. */
module Reload {
  import opened Text

  datatype LocalDnsEntry = LocalDnsEntry(server: string, domains: seq<string>)

  /** All that lies between commas in a list of entries. */
  function Pieces(entries: seq<string>): seq<string> {
    if |entries| == 0 then [""]
    else Split(entries[0], ',') + if |entries| == 1 then [] else Pieces(entries[1..])
  }

  lemma {:induction false} PiecesOfJoined(entries: seq<string>)
    ensures Split(Join(entries, ','), ',') == Pieces(entries)
  {
    if |entries| > 1 {
      SplitConcat(entries[0], ',', Join(entries[1..], ','));
      PiecesOfJoined(entries[1..]);
    }
  }

  /** The joined texts are equal exactly when the lists have the same pieces. */
  lemma JoinedEqualIff(a: seq<string>, b: seq<string>)
    ensures Join(a, ',') == Join(b, ',') <==> Pieces(a) == Pieces(b)
  {
    PiecesOfJoined(a);
    PiecesOfJoined(b);
    JoinSplit(Join(a, ','), ',');
    JoinSplit(Join(b, ','), ',');
  }

  predicate CommaFree(entries: seq<string>) {
    forall i :: 0 <= i < |entries| ==> ',' !in entries[i]
  }

  lemma {:induction false} PiecesOfCommaFree(entries: seq<string>)
    requires CommaFree(entries)
    ensures Pieces(entries) == if entries == [] then [""] else entries
  {
    if entries != [] {
      SplitFree(entries[0], ',');
      if |entries| > 1 {
        PiecesOfCommaFree(entries[1..]);
      }
      assert entries == [entries[0]] + entries[1..];
    }
  }

  /** Among lists without commas only the empty one is mistaken, for the one that
      holds just an empty entry. */
  lemma MistakenIff(a: seq<string>, b: seq<string>)
    requires CommaFree(a) && CommaFree(b) && a != b
    ensures Join(a, ',') == Join(b, ',') <==> (a == [] && b == [""]) || (a == [""] && b == [])
  {
    JoinedEqualIff(a, b);
    PiecesOfCommaFree(a);
    PiecesOfCommaFree(b);
  }

  predicate SameLocalDns(a: seq<LocalDnsEntry>, b: seq<LocalDnsEntry>) {
    |a| == |b| && forall i :: 0 <= i < |a| ==> SameEntry(a[i], b[i])
  }

  predicate SameEntry(a: LocalDnsEntry, b: LocalDnsEntry) {
    a.server == b.server && Pieces(a.domains) == Pieces(b.domains)
  }

  /** localDNSChanged. */
  method LocalDnsChanged(a: seq<LocalDnsEntry>, b: seq<LocalDnsEntry>) returns (changed: bool)
    ensures changed <==> !SameLocalDns(a, b)
    ensures changed <==>
              || |a| != |b|
              || exists i ::
                   0 <= i < |a| && (a[i].server != b[i].server || Pieces(a[i].domains) != Pieces(b[i].domains))
  {
    if |a| != |b| {
      return true;
    }
    for i := 0 to |a|
      invariant forall j :: 0 <= j < i ==> SameEntry(a[j], b[j])
    {
      JoinedEqualIff(a[i].domains, b[i].domains);
      if a[i].server != b[i].server {
        return true;
      }
      if Join(a[i].domains, ',') != Join(b[i].domains, ',') {
        return true;
      }
    }
    return false;
  }
}
