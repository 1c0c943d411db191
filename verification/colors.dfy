/** The colour assignment: every room of every floor, de-duplicated in floor
    order, receives the palette colour at its position modulo the palette
    size, once at start-up. */
module Colors {
  import opened Seqs
  import opened Data

  /** The ten-colour palette. */
  const Palette: seq<string> := [
    "#1f77b4", "#ff7f0e", "#2ca02c", "#d62728",
    "#9467bd", "#8c564b", "#e377c2", "#7f7f7f",
    "#bcbd22", "#17becf"
  ]

  /** The rooms of all floors, floor after floor: `flatMap(f => f.zones)`. */
  function FlattenZones(floors: seq<FloorRecord>): (all: seq<string>)
    ensures forall i, z :: 0 <= i < |floors| && z in floors[i].zones ==> z in all
    ensures forall z :: z in all ==> exists i :: 0 <= i < |floors| && z in floors[i].zones
  {
    if |floors| == 0 then []
    else
      var rest := FlattenZones(floors[1..]);
      assert forall i :: 1 <= i < |floors| ==> floors[i] == floors[1..][i - 1];
      floors[0].zones + rest
  }

  /** `allZones` for the floors `floors` (the table's values in key
      order): each room once, in the order of first appearance. */
  function AllZones(floors: seq<FloorRecord>): seq<string> {
    Dedup(FlattenZones(floors))
  }

  /** The map built by assigning, for each `i` in turn, the colour
      `palette[i % |palette|]` to `zones[i]`; a later assignment to the same
      room overwrites an earlier one. */
  function AssignColors(zones: seq<string>, palette: seq<string>): (m: map<string, string>)
    requires |palette| > 0
    ensures forall z :: z in m <==> z in zones
    ensures forall z :: z in m ==> m[z] in palette
  {
    if |zones| == 0 then map[]
    else
      var init := zones[..|zones| - 1];
      assert zones == init + [zones[|zones| - 1]];
      AssignColors(init, palette)[zones[|zones| - 1] := palette[(|zones| - 1) % |palette|]]
  }

  /** `zoneColorMap` for the floors `floors`: its keys are exactly the
      rooms of `allZones`, and each has a palette colour. */
  function ZoneColorMap(floors: seq<FloorRecord>): (m: map<string, string>)
    ensures forall z :: z in m <==> z in AllZones(floors)
    ensures forall z :: z in m ==> m[z] in Palette
  {
    AssignColors(AllZones(floors), Palette)
  }

  /** The room at position `i` of `allZones` has the palette colour at `i`
      modulo the palette size. */
  lemma ZoneColorByPosition(floors: seq<FloorRecord>, i: nat)
    requires i < |AllZones(floors)|
    ensures AllZones(floors)[i] in ZoneColorMap(floors)
    ensures ZoneColorMap(floors)[AllZones(floors)[i]] == Palette[i % |Palette|]
  {
    ColorOfIndex(AllZones(floors), Palette, i);
  }

  /** `[...new Set(all)]`: walks the rooms once, remembering the rooms seen
      so far in a set and appending each room not yet seen. */
  method DistinctZones(all: seq<string>) returns (zones: seq<string>)
    ensures zones == Dedup(all)
  {
    var seen: set<string> := {};
    zones := [];
    var i := 0;
    while i < |all|
      invariant 0 <= i <= |all|
      invariant zones == Dedup(all[..i])
      invariant forall z :: z in seen <==> z in zones
    {
      assert all[..i + 1][..i] == all[..i];
      if all[i] !in seen {
        seen := seen + {all[i]};
        zones := zones + [all[i]];
      }
      i := i + 1;
    }
    assert all[..|all|] == all;
  }

  /** The start-up loop over `allZones`: assigns, position by position,
      the palette colour at the position modulo the palette size. */
  method BuildColorMap(zones: seq<string>, palette: seq<string>) returns (colorMap: map<string, string>)
    requires |palette| > 0
    ensures colorMap == AssignColors(zones, palette)
  {
    colorMap := map[];
    var i := 0;
    while i < |zones|
      invariant 0 <= i <= |zones|
      invariant colorMap == AssignColors(zones[..i], palette)
    {
      assert zones[..i + 1][..i] == zones[..i];
      colorMap := colorMap[zones[i] := palette[i % |palette|]];
      i := i + 1;
    }
    assert zones[..|zones|] == zones;
  }

  /** In a list without repeats, the room at position `i` gets the palette
      colour at `i` modulo the palette size. */
  lemma {:induction false} ColorOfIndex(zones: seq<string>, palette: seq<string>, i: nat)
    requires |palette| > 0 && NoDuplicates(zones) && i < |zones|
    ensures AssignColors(zones, palette)[zones[i]] == palette[i % |palette|]
  {
    var n := |zones| - 1;
    if i < n {
      var init := zones[..n];
      assert NoDuplicates(init);
      assert init[i] == zones[i];
      ColorOfIndex(init, palette, i);
      assert zones[n] != zones[i];
    }
  }

  /** With a palette of distinct colours, two rooms of a repeat-free list
      share a colour iff their positions agree modulo the palette size. */
  lemma ColorsCollideIff(zones: seq<string>, palette: seq<string>, i: nat, j: nat)
    requires |palette| > 0 && NoDuplicates(zones) && NoDuplicates(palette)
    requires i < |zones| && j < |zones|
    ensures AssignColors(zones, palette)[zones[i]] == AssignColors(zones, palette)[zones[j]]
      <==> i % |palette| == j % |palette|
  {
    ColorOfIndex(zones, palette, i);
    ColorOfIndex(zones, palette, j);
  }

  /** The expected `allZones` of the static table. */
  const RoomOrder: seq<string> := [
    "room26", "room27", "room28",
    "room47", "room48", "room49", "room50",
    "room30", "room31", "room46", "room8"]

  /** No room is listed twice in the expected order. The list is a
      parameter pinned by `requires`, so callers get the fact without the
      literal being compared pairwise in their own proofs. */
  lemma RoomOrderDistinct(rooms: seq<string>)
    requires rooms == RoomOrder
    ensures NoDuplicates(rooms)
  {
  }

  /** The ten palette colours are distinct (the list is passed as a
      parameter, as in `RoomOrderDistinct`). */
  lemma PaletteDistinct(palette: seq<string>)
    requires palette == Palette
    ensures NoDuplicates(palette)
  {
  }

  /** A position below the palette size is its own remainder. */
  lemma ModSmall(i: nat, n: nat)
    requires i < n
    ensures i % n == i
  {
  }

  /** For the static table, `allZones` is floor 25's rooms, then floor 28's,
      then floor 30's, with no room repeated. */
  lemma AllZonesValue(floors: seq<FloorRecord>)
    requires floors == FloorValues()
    ensures AllZones(floors) == RoomOrder
  {
    assert FlattenZones(floors) == RoomOrder by {
      assert FlattenZones(floors[3..]) == [];
      assert FlattenZones(floors[2..]) == Floor30.zones;
      assert FlattenZones(floors[1..]) == Floor28.zones + Floor30.zones;
    }
    RoomOrderDistinct(RoomOrder);
    DedupOfDistinct(RoomOrder);
  }

  /** A room is in the de-duplicated concatenation iff some floor has it. */
  lemma AllZonesMembership(floors: seq<FloorRecord>, z: string)
    ensures z in AllZones(floors) <==> exists i :: 0 <= i < |floors| && z in floors[i].zones
  {
    var flat := FlattenZones(floors);
    var r := Dedup(flat);
    if z in r {
      var k :| 0 <= k < |r| && r[k] == z;
      assert z in flat;
    }
    if z in flat {
      var k :| 0 <= k < |flat| && flat[k] == z;
      assert flat[k] in r;
    }
  }

  /** Every room of every floor of the table appears in `allZones` exactly
      once, and nothing else does. */
  lemma AllZonesCoversFloors(floors: seq<FloorRecord>)
    requires floors == FloorValues()
    ensures NoDuplicates(AllZones(floors))
    ensures forall z :: z in AllZones(floors) <==> exists k :: k in DataByFloor && z in DataByFloor[k].zones
  {
    forall z
      ensures z in AllZones(floors) <==> exists k :: k in DataByFloor && z in DataByFloor[k].zones
    {
      AllZonesMembership(floors, z);
      if z in AllZones(floors) {
        var i :| 0 <= i < |floors| && z in floors[i].zones;
        assert FloorKeys[i] in DataByFloor && z in DataByFloor[FloorKeys[i]].zones;
      }
      if exists k :: k in DataByFloor && z in DataByFloor[k].zones {
        var k :| k in DataByFloor && z in DataByFloor[k].zones;
        FloorKeysEnumerateTable();
        var i :| 0 <= i < |FloorKeys| && FloorKeys[i] == k;
        assert z in floors[i].zones;
      }
    }
  }

  /** Every room of every floor has a colour, taken from the palette. */
  lemma EveryRoomColored(floors: seq<FloorRecord>, k: int, z: string)
    requires floors == FloorValues()
    requires k in DataByFloor && z in DataByFloor[k].zones
    ensures z in ZoneColorMap(floors) && ZoneColorMap(floors)[z] in Palette
  {
    AllZonesCoversFloors(floors);
  }

  /** With a palette of distinct colours, the first `|palette|` rooms of a
      repeat-free list all get different colours. */
  lemma FirstRoundDistinct(zones: seq<string>, palette: seq<string>)
    requires |palette| > 0 && NoDuplicates(zones) && NoDuplicates(palette)
    ensures forall i, j :: 0 <= i < j < |palette| && j < |zones| ==>
      AssignColors(zones, palette)[zones[i]] != AssignColors(zones, palette)[zones[j]]
  {
    forall i, j | 0 <= i < j < |palette| && j < |zones|
      ensures AssignColors(zones, palette)[zones[i]] != AssignColors(zones, palette)[zones[j]]
    {
      ColorOfIndex(zones, palette, i);
      ColorOfIndex(zones, palette, j);
      ModSmall(i, |palette|);
      ModSmall(j, |palette|);
    }
  }

  /** In the concrete room order, room26 (position 0) and room8 (position
      10) both get the first palette colour. */
  lemma RoomEightWraps(all: seq<string>, palette: seq<string>)
    requires all == RoomOrder && palette == Palette
    ensures "room8" in AssignColors(all, palette) && "room26" in AssignColors(all, palette)
    ensures AssignColors(all, palette)["room8"] == AssignColors(all, palette)["room26"] == palette[0]
  {
    RoomOrderDistinct(all);
    ColorOfIndex(all, palette, 0);
    ColorOfIndex(all, palette, 10);
  }

  /** Eleven rooms share ten colours: the eleventh room, room8, wraps round
      to the first colour, the one room26 has; the first ten rooms all have
      different colours. */
  lemma PaletteWrapsAround(floors: seq<FloorRecord>)
    requires floors == FloorValues()
    ensures |AllZones(floors)| == |Palette| + 1
    ensures "room8" in ZoneColorMap(floors) && "room26" in ZoneColorMap(floors)
    ensures ZoneColorMap(floors)["room8"] == ZoneColorMap(floors)["room26"] == Palette[0]
    ensures forall i, j :: 0 <= i < j < |Palette| ==>
      ZoneColorMap(floors)[AllZones(floors)[i]] != ZoneColorMap(floors)[AllZones(floors)[j]]
  {
    AllZonesValue(floors);
    var all := AllZones(floors);
    RoomEightWraps(all, Palette);
    RoomOrderDistinct(all);
    PaletteDistinct(Palette);
    FirstRoundDistinct(all, Palette);
  }
}
