/** Generic sequence and string helpers shared by the dashboard model:
    an optional value, duplicate-freedom, insertion-ordered de-duplication
    (the behaviour of spreading a JavaScript `Set`), and list joining with
    its inverse. */
module Seqs {

  /** A value that may be absent (JavaScript `null` / `undefined`). */
  datatype Option<T> = None | Some(value: T)

  /** No element occurs twice. */
  predicate NoDuplicates<T(==)>(s: seq<T>) {
    forall i, j :: 0 <= i < j < |s| ==> s[i] != s[j]
  }

  /** Index of the first occurrence of `x` in `s`. */
  function FirstIndex<T(==)>(s: seq<T>, x: T): (k: nat)
    requires x in s
    ensures k < |s| && s[k] == x
    ensures forall j :: 0 <= j < k ==> s[j] != x
  {
    if s[0] == x then 0 else 1 + FirstIndex(s[1..], x)
  }

  /** The first occurrence of an element of a prefix is the same in the whole sequence. */
  lemma FirstIndexPrefix<T>(s: seq<T>, n: nat, x: T)
    requires n <= |s| && x in s[..n]
    ensures x in s && FirstIndex(s, x) == FirstIndex(s[..n], x)
  {
    var k := FirstIndex(s[..n], x);
    assert s[k] == x;
    assert forall j :: 0 <= j < n ==> s[..n][j] == s[j];
  }

  /** An element absent from the rest of the sequence first occurs at the end. */
  lemma FirstIndexOfNewLast<T>(s: seq<T>)
    requires |s| > 0 && s[|s| - 1] !in s[..|s| - 1]
    ensures FirstIndex(s, s[|s| - 1]) == |s| - 1
  {
    assert forall j :: 0 <= j < |s| - 1 ==> s[..|s| - 1][j] == s[j];
  }

  /** The distinct elements of `s`, each at the position of its first
      occurrence: what `[...new Set(s)]` yields, since a `Set` keeps
      insertion order and ignores re-insertion. */
  function Dedup<T(==)>(s: seq<T>): (r: seq<T>)
    ensures |r| <= |s|
    ensures forall i :: 0 <= i < |r| ==> r[i] in s
    ensures forall i :: 0 <= i < |s| ==> s[i] in r
    ensures NoDuplicates(r)
  {
    if |s| == 0 then []
    else
      var d := Dedup(s[..|s| - 1]);
      var last := s[|s| - 1];
      assert s == s[..|s| - 1] + [last];
      if last in d then d else d + [last]
  }

  /** Every element of `r` occurs in `s`, and `r` lists them in the order
      of their first occurrences in `s`. */
  predicate InFirstOccurrenceOrder<T(==)>(s: seq<T>, r: seq<T>) {
    && (forall i :: 0 <= i < |r| ==> r[i] in s)
    && (forall i, j :: 0 <= i < j < |r| ==> FirstIndex(s, r[i]) < FirstIndex(s, r[j]))
  }

  /** De-duplication keeps elements in the order of their first occurrence. */
  lemma {:induction false} DedupKeepsFirstOccurrenceOrder<T>(s: seq<T>)
    ensures InFirstOccurrenceOrder(s, Dedup(s))
  {
    if |s| > 0 {
      var p := s[..|s| - 1];
      var last := s[|s| - 1];
      var d := Dedup(p);
      DedupKeepsFirstOccurrenceOrder(p);
      var r := Dedup(s);
      assert r == if last in d then d else d + [last];
      forall i | 0 <= i < |d|
        ensures d[i] in s && FirstIndex(s, d[i]) == FirstIndex(p, d[i]) < |p|
      {
        FirstIndexPrefix(s, |s| - 1, d[i]);
      }
      if last !in d {
        FirstIndexOfNewLast(s);
        assert FirstIndex(s, last) == |p|;
        forall i, j | 0 <= i < j < |r|
          ensures FirstIndex(s, r[i]) < FirstIndex(s, r[j])
        {
          if j == |d| {
            assert r[i] == d[i] && r[j] == last;
          } else {
            assert r[i] == d[i] && r[j] == d[j];
          }
        }
      } else {
        assert r == d;
        forall i, j | 0 <= i < j < |r|
          ensures FirstIndex(s, r[i]) < FirstIndex(s, r[j])
        {
          assert FirstIndex(p, d[i]) < FirstIndex(p, d[j]);
        }
      }
    }
  }

  /** De-duplicating a sequence that has no duplicates changes nothing. */
  lemma {:induction false} DedupOfDistinct<T>(s: seq<T>)
    requires NoDuplicates(s)
    ensures Dedup(s) == s
  {
    if |s| > 0 {
      var p := s[..|s| - 1];
      assert NoDuplicates(p);
      DedupOfDistinct(p);
      assert s[|s| - 1] !in p;
      assert s == p + [s[|s| - 1]];
    }
  }

  /** Concatenation of `parts` with `sep` between neighbours, as
      JavaScript's `Array.prototype.join(sep)`: the empty list gives "". */
  function Join(parts: seq<string>, sep: string): (r: string)
    ensures |parts| == 1 ==> r == parts[0]
    ensures |parts| == 0 ==> r == ""
  {
    if |parts| == 0 then ""
    else if |parts| == 1 then parts[0]
    else parts[0] + sep + Join(parts[1..], sep)
  }

  const ListSeparator: string := ", "

  /** Position of the first comma in `s`. */
  function CommaIndex(s: string): (k: nat)
    requires ',' in s
    ensures k < |s| && s[k] == ','
    ensures forall j :: 0 <= j < k ==> s[j] != ','
  {
    FirstIndex(s, ',')
  }

  /** Splits a list rendered with `ListSeparator`: each comma ends an item
      and the character after it (the space) is skipped. */
  function Split(s: string): (parts: seq<string>)
    ensures |parts| >= 1
    decreases |s|
  {
    if ',' !in s then [s]
    else
      var k := CommaIndex(s);
      var next := if k + |ListSeparator| <= |s| then k + |ListSeparator| else |s|;
      [s[..k]] + Split(s[next..])
  }

  /** No item contains a comma. */
  predicate CommaFree(parts: seq<string>) {
    forall i :: 0 <= i < |parts| ==> ',' !in parts[i]
  }

  /** Joining two or more items puts a comma into the text. */
  lemma JoinManyHasComma(parts: seq<string>)
    requires |parts| >= 2
    ensures ',' in Join(parts, ListSeparator)
  {
    var r := Join(parts, ListSeparator);
    assert r == parts[0] + ListSeparator + Join(parts[1..], ListSeparator);
    assert r[|parts[0]|] == ',';
  }

  /** Splitting undoes joining whenever no item contains a comma. */
  lemma {:induction false} SplitJoin(parts: seq<string>)
    requires |parts| >= 1 && CommaFree(parts)
    ensures Split(Join(parts, ListSeparator)) == parts
  {
    if |parts| == 1 {
      assert ',' !in parts[0];
    } else {
      var head := parts[0];
      var rest := Join(parts[1..], ListSeparator);
      var s := Join(parts, ListSeparator);
      assert s == head + ListSeparator + rest;
      assert s[|head|] == ',';
      assert CommaIndex(s) == |head| by {
        assert forall j :: 0 <= j < |head| ==> s[j] == head[j];
      }
      assert s[..|head|] == head;
      assert s[|head| + |ListSeparator|..] == rest;
      assert CommaFree(parts[1..]) by {
        forall i | 0 <= i < |parts[1..]| ensures ',' !in parts[1..][i] {
          assert parts[1..][i] == parts[i + 1];
        }
      }
      SplitJoin(parts[1..]);
    }
  }
}
