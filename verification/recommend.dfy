/** The recommendation rule: the rooms of a floor whose mean and standard
    deviation for a variable both lie inside that variable's comfort
    rectangle, rendered as a comma-separated list or "None". */
module Recommend {
  import opened Seqs
  import opened Data

  /** Both values lie inside the rectangle, all four bounds inclusive. */
  predicate InBand(b: Band, avg: real, sd: real) {
    avg >= b.x0 && avg <= b.x1 && sd >= b.y0 && sd <= b.y1
  }

  /** Room `i` qualifies. A missing mean or deviation reads as `undefined`
      in the source, and every comparison with `undefined` is false, so a
      room without both values never qualifies. */
  predicate Qualifies(s: Stats, b: Band, i: nat) {
    i < |s.mean| && i < |s.std| && InBand(b, s.mean[i], s.std[i])
  }

  /** The rooms among the first `n` that qualify, in room order: the
      running result of `zones.filter(...)`. */
  function FilterPrefix(zones: seq<string>, s: Stats, b: Band, n: nat): (r: seq<string>)
    requires n <= |zones|
    ensures |r| <= n
    ensures forall k :: 0 <= k < |r| ==> r[k] in zones[..n]
  {
    if n == 0 then []
    else
      var r0 := FilterPrefix(zones, s, b, n - 1);
      assert zones[..n] == zones[..n - 1] + [zones[n - 1]];
      if Qualifies(s, b, n - 1) then r0 + [zones[n - 1]] else r0
  }

  /** The recommended rooms of a floor for one rectangle. */
  function Recommended(zones: seq<string>, s: Stats, b: Band): (r: seq<string>)
    ensures |r| <= |zones|
    ensures forall k :: 0 <= k < |r| ==> r[k] in zones
  {
    assert zones[..|zones|] == zones;
    FilterPrefix(zones, s, b, |zones|)
  }

  /** The recommended rooms of `data` for variable `v`: a room is listed
      iff one of its positions has both statistics of `v` inside the
      variable's rectangle, and the list is empty iff no position does. */
  function RecommendedZones(data: FloorRecord, v: Variable): (r: seq<string>)
    ensures forall z :: z in r <==>
      exists i :: 0 <= i < |data.zones| && data.zones[i] == z && Qualifies(data.Series(v), GreenZone(v), i)
    ensures r == [] <==> forall i :: 0 <= i < |data.zones| ==> !Qualifies(data.Series(v), GreenZone(v), i)
  {
    var s := data.Series(v);
    var b := GreenZone(v);
    assert forall z :: z in Recommended(data.zones, s, b) <==>
      exists i :: 0 <= i < |data.zones| && data.zones[i] == z && Qualifies(s, b, i) by {
      forall z ensures z in Recommended(data.zones, s, b) <==>
        exists i :: 0 <= i < |data.zones| && data.zones[i] == z && Qualifies(s, b, i) {
        RecommendedMembership(data.zones, s, b, z);
      }
    }
    RecommendedEmptyIff(data.zones, s, b);
    Recommended(data.zones, s, b)
  }

  /** `s` is strictly increasing. */
  predicate StrictlyIncreasing(s: seq<nat>) {
    forall i, j :: 0 <= i < j < |s| ==> s[i] < s[j]
  }

  /** The indices below `n` of the rooms that qualify, ascending; an
      independent description of which rooms the filter keeps. */
  function KeptIndices(s: Stats, b: Band, n: nat): (idx: seq<nat>)
    ensures StrictlyIncreasing(idx)
    ensures forall k :: 0 <= k < |idx| ==> idx[k] < n
    ensures forall i :: 0 <= i < n ==> (i in idx <==> Qualifies(s, b, i))
  {
    if n == 0 then []
    else
      var idx0 := KeptIndices(s, b, n - 1);
      if Qualifies(s, b, n - 1) then idx0 + [n - 1] else idx0
  }

  /** The `k`-th survivor of the filter is the room at the `k`-th kept index. */
  lemma {:induction false} FilterPrefixSelects(zones: seq<string>, s: Stats, b: Band, n: nat)
    requires n <= |zones|
    ensures var r := FilterPrefix(zones, s, b, n);
      var idx := KeptIndices(s, b, n);
      |r| == |idx| && forall k :: 0 <= k < |idx| ==> r[k] == zones[idx[k]]
  {
    if n > 0 {
      FilterPrefixSelects(zones, s, b, n - 1);
    }
  }

  /** The recommendation is exactly the qualifying rooms, in their original
      order: it lists `zones[idx[0]], zones[idx[1]], ...` for a strictly
      increasing `idx` holding precisely the qualifying indices. So it is
      a subsequence of the room list and never adds or repeats a room. */
  lemma RecommendedIsOrderedSelection(zones: seq<string>, s: Stats, b: Band)
    ensures var r := Recommended(zones, s, b);
      var idx := KeptIndices(s, b, |zones|);
      && |r| == |idx|
      && StrictlyIncreasing(idx)
      && (forall k :: 0 <= k < |idx| ==> idx[k] < |zones| && r[k] == zones[idx[k]])
      && (forall i :: 0 <= i < |zones| ==> (i in idx <==> Qualifies(s, b, i)))
  {
    FilterPrefixSelects(zones, s, b, |zones|);
  }

  /** A room is recommended iff some position holding it qualifies. */
  lemma RecommendedMembership(zones: seq<string>, s: Stats, b: Band, z: string)
    ensures z in Recommended(zones, s, b) <==>
      exists i :: 0 <= i < |zones| && zones[i] == z && Qualifies(s, b, i)
  {
    var r := Recommended(zones, s, b);
    var idx := KeptIndices(s, b, |zones|);
    RecommendedIsOrderedSelection(zones, s, b);
    if z in r {
      var k :| 0 <= k < |r| && r[k] == z;
      assert idx[k] in idx;
      assert zones[idx[k]] == z && Qualifies(s, b, idx[k]);
    }
    if exists i :: 0 <= i < |zones| && zones[i] == z && Qualifies(s, b, i) {
      var i :| 0 <= i < |zones| && zones[i] == z && Qualifies(s, b, i);
      assert i in idx;
      var k :| 0 <= k < |idx| && idx[k] == i;
      assert r[k] == z;
    }
  }

  /** A room list without repeats yields a recommendation without repeats. */
  lemma RecommendedNoDuplicates(zones: seq<string>, s: Stats, b: Band)
    requires NoDuplicates(zones)
    ensures NoDuplicates(Recommended(zones, s, b))
  {
    RecommendedIsOrderedSelection(zones, s, b);
  }

  /** Nothing is recommended iff no room qualifies. */
  lemma RecommendedEmptyIff(zones: seq<string>, s: Stats, b: Band)
    ensures Recommended(zones, s, b) == [] <==>
      forall i :: 0 <= i < |zones| ==> !Qualifies(s, b, i)
  {
    RecommendedIsOrderedSelection(zones, s, b);
    var idx := KeptIndices(s, b, |zones|);
    if idx != [] {
      assert idx[0] in idx;
    }
  }

  /** Widening the rectangle never drops a room from the recommendation. */
  lemma RecommendedMonotone(zones: seq<string>, s: Stats, b: Band, wide: Band, z: string)
    requires wide.x0 <= b.x0 && b.x1 <= wide.x1 && wide.y0 <= b.y0 && b.y1 <= wide.y1
    requires z in Recommended(zones, s, b)
    ensures z in Recommended(zones, s, wide)
  {
    RecommendedMembership(zones, s, b, z);
    RecommendedMembership(zones, s, wide, z);
  }

  /** The text shown for a recommendation: the rooms joined with ", ",
      or "None" when there are none. */
  function Render(rooms: seq<string>): (text: string)
    ensures rooms == [] ==> text == "None"
    ensures |rooms| == 1 ==> text == rooms[0]
  {
    if |rooms| > 0 then Join(rooms, ListSeparator) else "None"
  }

  /** Two rooms are shown with the separator between them. */
  lemma RenderTwo(r: seq<string>)
    requires |r| == 2
    ensures Render(r) == r[0] + ListSeparator + r[1]
  {
    assert r[1..] == [r[1]];
  }

  /** Three rooms are shown with the separator between neighbours. */
  lemma RenderThree(r: seq<string>)
    requires |r| == 3
    ensures Render(r) == r[0] + ListSeparator + r[1] + ListSeparator + r[2]
  {
    var sep := ListSeparator;
    assert r[1..][1..] == [r[2]];
    assert Join(r, sep) == r[0] + sep + (r[1] + sep + r[2]);
    assert r[0] + sep + (r[1] + sep + r[2]) == r[0] + sep + r[1] + sep + r[2];
  }

  /** Four rooms are shown with the separator between neighbours. */
  lemma RenderFour(r: seq<string>)
    requires |r| == 4
    ensures Render(r) == r[0] + ListSeparator + r[1] + ListSeparator + r[2] + ListSeparator + r[3]
  {
    var sep := ListSeparator;
    assert r[1..][1..][1..] == [r[3]];
    assert Join(r[2..], sep) == r[2] + sep + r[3];
    assert Join(r[1..], sep) == r[1] + sep + (r[2] + sep + r[3]);
    assert Join(r, sep) == r[0] + sep + (r[1] + sep + (r[2] + sep + r[3]));
    assert r[0] + sep + (r[1] + sep + (r[2] + sep + r[3])) == r[0] + sep + r[1] + sep + r[2] + sep + r[3];
  }

  /** Reads a rendered recommendation back into its room list. */
  function Parse(text: string): seq<string> {
    if text == "None" then [] else Split(text)
  }

  /** Parsing undoes rendering, provided no room name contains a comma and
      the list is not the single room "None". */
  lemma ParseRender(rooms: seq<string>)
    requires CommaFree(rooms) && rooms != ["None"]
    ensures Parse(Render(rooms)) == rooms
  {
    if |rooms| >= 2 {
      JoinManyHasComma(rooms);
      SplitJoin(rooms);
    } else if |rooms| == 1 {
      SplitJoin(rooms);
    }
  }

  /** The rendered text cannot tell "no room qualifies" from "only a room
      named None qualifies". */
  lemma RenderConflatesNone()
    ensures Render([]) == Render(["None"])
  {
  }

  /** The text is "None" iff no room qualifies, as long as no room is
      itself named "None". */
  lemma RenderNoneIff(zones: seq<string>, s: Stats, b: Band)
    requires "None" !in zones
    ensures Render(Recommended(zones, s, b)) == "None" <==>
      forall i :: 0 <= i < |zones| ==> !Qualifies(s, b, i)
  {
    var r := Recommended(zones, s, b);
    RecommendedEmptyIff(zones, s, b);
    if |r| >= 2 {
      JoinManyHasComma(r);
    }
  }

  /** `getRecommendedZone(data, variable)`: filters the rooms in one pass
      and renders the survivors. */
  method GetRecommendedZone(data: FloorRecord, v: Variable) returns (text: string)
    ensures text == Render(RecommendedZones(data, v))
  {
    var s := data.Series(v);
    var b := GreenZone(v);
    var zones := data.zones;
    var recommended: seq<string> := [];
    var i := 0;
    while i < |zones|
      invariant 0 <= i <= |zones|
      invariant recommended == FilterPrefix(zones, s, b, i)
    {
      var avg := if i < |s.mean| then Some(s.mean[i]) else None;
      var sd := if i < |s.std| then Some(s.std[i]) else None;
      if avg.Some? && sd.Some? && InBand(b, avg.value, sd.value) {
        recommended := recommended + [zones[i]];
      }
      i := i + 1;
    }
    assert zones[..|zones|] == zones;
    text := if |recommended| > 0 then Join(recommended, ListSeparator) else "None";
  }
}
