/** The per-point marker styling and the default x-axis range that the
    scatter plot of one variable is drawn with. */
module Markers {
  import opened Seqs
  import opened Data
  import opened Colors

  const Highlight: string := "red"
  const Diamond: string := "diamond"
  const Circle: string := "circle"

  /** `colorMap[z]`: a key reads as its colour, an absent key as
      `undefined`. */
  function Lookup(colorMap: map<string, string>, z: string): (c: Option<string>)
    ensures c.Some? <==> z in colorMap
    ensures c.Some? ==> c.value in colorMap.Values
  {
    if z in colorMap then Some(colorMap[z]) else None
  }

  /** The marker colour of each point: red for the highlighted room, the
      room's own colour otherwise. No room matches an absent highlight. */
  function MarkerColors(zones: seq<string>, highlight: Option<string>, colorMap: map<string, string>): (r: seq<Option<string>>)
    ensures |r| == |zones|
    ensures forall k :: 0 <= k < |zones| && highlight == Some(zones[k]) ==> r[k] == Some(Highlight)
    ensures forall k :: 0 <= k < |zones| && highlight != Some(zones[k]) ==> r[k] == Lookup(colorMap, zones[k])
  {
    if |zones| == 0 then []
    else
      var head := if highlight == Some(zones[0]) then Some(Highlight) else Lookup(colorMap, zones[0]);
      var rest := MarkerColors(zones[1..], highlight, colorMap);
      assert forall k :: 1 <= k < |zones| ==> zones[k] == zones[1..][k - 1];
      [head] + rest
  }

  /** The marker symbol of each point: a diamond for the highlighted room,
      a circle otherwise. */
  function MarkerSymbols(zones: seq<string>, highlight: Option<string>): (r: seq<string>)
    ensures |r| == |zones|
    ensures forall k :: 0 <= k < |zones| ==> (r[k] == Diamond <==> highlight == Some(zones[k]))
    ensures forall k :: 0 <= k < |zones| ==> (r[k] == Circle <==> highlight != Some(zones[k]))
  {
    if |zones| == 0 then []
    else
      var head := if highlight == Some(zones[0]) then Diamond else Circle;
      var rest := MarkerSymbols(zones[1..], highlight);
      assert forall k :: 1 <= k < |zones| ==> zones[k] == zones[1..][k - 1];
      [head] + rest
  }

  /** The x-axis range: the fixed range when one is given, otherwise the
      comfort rectangle widened by 2 on each side. */
  function XAxisRange(band: Band, fixedXRange: Option<Range>): (r: Range)
    ensures fixedXRange.Some? ==> r == fixedXRange.value
  {
    match fixedXRange
    case Some(fixed) => fixed
    case None => Range(band.x0 - 2.0, band.x1 + 2.0)
  }

  /** Without a fixed range the axis shows the rectangle's mean interval
      with a margin of exactly 2 on each side. */
  lemma DefaultRangeFramesBand(band: Band)
    ensures var r := XAxisRange(band, None);
      r.lo < band.x0 && band.x1 < r.hi
      && band.x0 - r.lo == 2.0 && r.hi - band.x1 == 2.0
  {
  }

  /** For every variable, the axis of the first draw (the fixed range)
      takes in the whole axis a redraw falls back to. */
  lemma FixedRangeCoversDefault(v: Variable)
    ensures var first := XAxisRange(GreenZone(v), Some(GreenZone(v).xFixed));
      var redraw := XAxisRange(GreenZone(v), None);
      first.lo <= redraw.lo && redraw.hi <= first.hi
  {
  }

  /** The colour map never uses the highlight colour. */
  predicate AvoidsHighlight(colorMap: map<string, string>) {
    forall z :: z in colorMap ==> colorMap[z] != Highlight
  }

  /** When no room's own colour is red, a point is drawn red exactly when
      it is drawn as a diamond, and both happen exactly for the highlighted
      room. */
  lemma RedIffDiamond(zones: seq<string>, highlight: Option<string>, colorMap: map<string, string>, k: nat)
    requires AvoidsHighlight(colorMap) && k < |zones|
    ensures MarkerColors(zones, highlight, colorMap)[k] == Some(Highlight)
      <==> MarkerSymbols(zones, highlight)[k] == Diamond
    ensures MarkerSymbols(zones, highlight)[k] == Diamond <==> highlight == Some(zones[k])
  {
  }

  /** Without a highlight every point is a circle in its room's own colour. */
  lemma NoHighlightPlain(zones: seq<string>, colorMap: map<string, string>)
    ensures MarkerSymbols(zones, None) == seq(|zones|, k => Circle)
    ensures forall k :: 0 <= k < |zones| ==> MarkerColors(zones, None, colorMap)[k] == Lookup(colorMap, zones[k])
  {
  }

  /** In a room list without repeats at most one point is a diamond. */
  lemma AtMostOneDiamond(zones: seq<string>, highlight: Option<string>, k: nat, l: nat)
    requires NoDuplicates(zones) && k < |zones| && l < |zones|
    requires MarkerSymbols(zones, highlight)[k] == Diamond
    requires MarkerSymbols(zones, highlight)[l] == Diamond
    ensures k == l
  {
  }

  /** A room's marker colour depends on the room alone, never on which
      floor's list it is drawn from or where in that list it stands. */
  lemma ColorStableAcrossFloors(zones1: seq<string>, zones2: seq<string>, highlight: Option<string>,
                                colorMap: map<string, string>, i: nat, j: nat)
    requires i < |zones1| && j < |zones2| && zones1[i] == zones2[j]
    ensures MarkerColors(zones1, highlight, colorMap)[i] == MarkerColors(zones2, highlight, colorMap)[j]
  {
  }

  /** A point whose room has a palette colour is drawn red iff it is the
      highlighted room, and in its palette colour otherwise. */
  lemma PaletteMarker(zones: seq<string>, highlight: Option<string>, colorMap: map<string, string>, k: nat)
    requires k < |zones| && zones[k] in colorMap && colorMap[zones[k]] in Palette
    ensures var c := MarkerColors(zones, highlight, colorMap)[k];
      && c.Some?
      && (c.value == Highlight <==> highlight == Some(zones[k]))
      && (highlight != Some(zones[k]) ==> c.value in Palette)
  {
    PaletteHasNoHighlight(Palette);
  }

  /** Red is not a palette colour. */
  lemma PaletteHasNoHighlight(palette: seq<string>)
    requires palette == Palette
    ensures Highlight !in palette
  {
  }

  /** On the static table every point of every floor is drawn in red (the
      highlighted room) or in its palette colour, never `undefined`. */
  lemma StaticMarkers(floors: seq<FloorRecord>, key: int, highlight: Option<string>, k: nat)
    requires floors == FloorValues()
    requires key in DataByFloor && k < |DataByFloor[key].zones|
    ensures var zones := DataByFloor[key].zones;
      var c := MarkerColors(zones, highlight, ZoneColorMap(floors))[k];
      && c.Some?
      && (c.value == Highlight <==> highlight == Some(zones[k]))
      && (highlight != Some(zones[k]) ==> c.value in Palette)
  {
    var zones := DataByFloor[key].zones;
    EveryRoomColored(floors, key, zones[k]);
    PaletteMarker(zones, highlight, ZoneColorMap(floors), k);
  }

  /** The first draw of a floor passes each variable's fixed range; a
      redraw after a click passes none and falls back to the default. For
      temperature the two agree, [20, 28]; for light ([8, 202] instead of
      [0, 300]) and noise ([38, 57] instead of [30, 60]) a click changes
      the x-axis. */
  lemma RedrawRanges()
    ensures XAxisRange(GreenZone(Ta), None) == GreenZone(Ta).xFixed == Range(20.0, 28.0)
    ensures XAxisRange(GreenZone(Lux), None) == Range(8.0, 202.0) != GreenZone(Lux).xFixed
    ensures XAxisRange(GreenZone(Spl), None) == Range(38.0, 57.0) != GreenZone(Spl).xFixed
  {
  }
}
