# Office comfort matching — a Dafny model

The dashboard shows, for each floor of an office building, the mean and
standard deviation of three room measurements: air temperature (`ta`),
illuminance (`lux`) and sound pressure level (`spl`). Each variable has a
comfort rectangle (the "green zone") of acceptable means and deviations. The
dashboard also lists the rooms that fall inside it as a "GOOD:" tip.

This project models the logic of `script.js` that does not depend on the
charting library:

- the static floor table and the three comfort rectangles (`Data`);
- `getRecommendedZone`, the filter that keeps the rooms whose mean lies in
  `[x0, x1]` and whose deviation lies in `[y0, y1]`, with all four bounds
  inclusive. It renders them joined with `", "`, or `"None"` (`Recommend`);
- the colour assignment. `allZones` is every room of every floor,
  de-duplicated in floor order. `zoneColorMap` gives the room at position
  `i` the palette colour `i % 10` (`Colors`);
- the per-point marker colour and symbol arrays, and the default x-axis
  range used inside `plotScatter` (`Markers`);
- the concrete outcomes on the static table (`Scenarios`);
- the generic helpers: `Set` de-duplication, `join` and its inverse (`Seqs`).

Decimal literals are Dafny `real`s. The model compares them and shifts the
default x-axis bounds by 2; on the table's bounds, which are whole numbers,
both are exact, so binary floating point plays no part.

Modelling decisions:

- The filter does not require the `mean`/`std` arrays to be as long as the
  room list. When a value is missing, the source reads `undefined`, every
  comparison with it is false, and the room is dropped. `Qualifies` says
  exactly that. `Data.StaticDataWellFormed` proves that the static table is
  aligned anyway.
- Floor order for `Object.values(dataByFloor)` is the ascending order of
  the integer keys 25, 28, 30. Section 10.1.11.1 of ECMA-262
  (OrdinaryOwnPropertyKeys) fixes that order.
- A highlight of `null` is `Option.None`, which matches no room. The source
  builds `zoneColorMap` as a plain object; the model uses a Dafny `map`, so
  a room that is not a key gets the marker colour `None` (`undefined`).
  The two agree for every room name that is not also the name of an
  `Object.prototype` property (see "Left out").
- `getRecommendedZone` is a pure function, so calling it twice on the same
  input gives the same text. No lemma is needed for that.

One consequence is worth knowing. The first drawing of a floor passes each
variable's fixed x-range. The redraw after a click passes none, so it falls
back to `[x0 - 2, x1 + 2]`. That agrees with the fixed range for temperature
but not for light or noise, so a click rescales those two axes
(`Markers.RedrawRanges`).

## Model

| member | source | states |
|---|---|---|
| Data.FloorValues | script.js:2-21 | `Object.values` of the floor table lists floors 25, 28, 30 in ascending key order, each the record stored under its key |
| Data.FloorKeysEnumerateTable | script.js:2-21 | the key order is strictly ascending and covers exactly the table's keys |
| Data.StaticDataWellFormed | script.js:2-28 | every floor's mean and std arrays match its room list in length; every rectangle and fixed range is non-empty |
| Data.GreenZone | script.js:23-28 | each variable's comfort rectangle: all three share the deviation interval [0.4, 1.2], and each fixed x-range contains the mean interval widened by 2 on either side |
| Recommend.InBand | script.js:107 | defines the four inclusive comparisons of a mean and a deviation against the rectangle (a definition; no contract) |
| Recommend.Qualifies | script.js:104-107 | defines when room i passes: both its mean and its deviation exist and lie in the rectangle; a missing (`undefined`) value fails every comparison (a definition; no contract) |
| Recommend.FilterPrefix | script.js:104-108 | the running filter result over the first n rooms has at most n entries, all drawn from those rooms |
| Recommend.Recommended | script.js:104-108 | the recommendation is no longer than the room list and holds only rooms of the floor |
| Recommend.RecommendedZones | script.js:98-108 | for a floor and a variable, a room is recommended iff one of its positions has both statistics inside the variable's rectangle, and the result is empty iff no position qualifies |
| Recommend.KeptIndices | script.js:104-108 | the kept indices are strictly increasing and below n; index i is kept iff room i's mean and deviation are both inside the rectangle |
| Recommend.FilterPrefixSelects | script.js:104-108 | the k-th survivor of the filter is the room at the k-th kept index |
| Recommend.RecommendedIsOrderedSelection | script.js:104-108 | the result is exactly the rooms at the qualifying indices, in increasing index order: a subsequence of the room list with no new or repeated entries |
| Recommend.RecommendedMembership | script.js:107 | a room is recommended iff some position holding it has mean in [x0, x1] and deviation in [y0, y1], all bounds inclusive |
| Recommend.RecommendedNoDuplicates | script.js:104-108 | a room list without repeats gives a recommendation without repeats |
| Recommend.RecommendedEmptyIff | script.js:104-110 | nothing is recommended iff no room qualifies |
| Recommend.RecommendedMonotone | script.js:107 | widening the rectangle never drops a recommended room |
| Recommend.Render | script.js:110 | the empty list renders as "None"; a single room renders as its own name |
| Recommend.RenderTwo | script.js:110 | two rooms are shown as the first, ", ", the second |
| Recommend.RenderThree | script.js:110 | three rooms are shown with ", " between neighbours |
| Recommend.RenderFour | script.js:110 | four rooms are shown with ", " between neighbours |
| Recommend.ParseRender | script.js:110 | reading the rendered text back gives the room list again, provided no name contains a comma and the list is not ["None"] |
| Recommend.RenderConflatesNone | script.js:110 | the text cannot tell the empty result from the one-room result ["None"] |
| Recommend.RenderNoneIff | script.js:104-110 | if no room is named "None", the text is "None" iff no room qualifies |
| Recommend.GetRecommendedZone | script.js:98-111 | the one-pass filter loop produces the rendered recommendation for the floor's series of the variable and the variable's rectangle |
| Seqs.Join | script.js:110 | joining one item gives the item; joining none gives the empty string |
| Seqs.SplitJoin | script.js:110 | splitting at each ", " undoes the join of comma-free items |
| Seqs.Dedup | script.js:32 | the de-duplicated list has no repeats and holds exactly the elements of the input |
| Seqs.DedupKeepsFirstOccurrenceOrder | script.js:32 | the de-duplicated list is ordered by each element's first occurrence in the input |
| Seqs.DedupOfDistinct | script.js:32 | de-duplicating a repeat-free list returns it unchanged |
| Scenarios.Floor25Temperature | script.js:4-5 | floor 25, temperature: ["room28"], shown as "room28"; the other rooms' std 1.3 and 1.4 exceed 1.2 |
| Scenarios.Floor25Light | script.js:4-6 | floor 25, light: "room26, room27"; room28's std 1.22 exceeds 1.2 |
| Scenarios.Floor25Noise | script.js:4-7 | floor 25, noise: "room26, room27"; room28's std 1.35 exceeds 1.2 |
| Scenarios.Floor28Temperature | script.js:10-11 | floor 28, temperature: "room48, room49, room50"; room47's mean 27.3 exceeds 26 |
| Scenarios.Floor28Light | script.js:10-12 | floor 28, light: empty, shown as "None" |
| Scenarios.Floor28Noise | script.js:10-13 | floor 28, noise: empty, shown as "None" |
| Scenarios.Floor30Temperature | script.js:16-17 | floor 30, temperature: "room30, room31, room46"; room8's std 1.45 exceeds 1.2 |
| Scenarios.Floor30Light | script.js:16-18 | floor 30, light: "room46, room8" |
| Scenarios.Floor30Noise | script.js:16-19 | floor 30, noise: all four rooms, "room30, room31, room46, room8", including room31 on the inclusive std bound 1.2 |
| Scenarios.StaticTextsParse | script.js:110 | on every floor and variable of the table, the rendered text reads back as the recommended list |
| Colors.FlattenZones | script.js:32 | a room is in the concatenation iff some floor lists it |
| Colors.AllZones | script.js:32 | defines `allZones` as the de-duplicated concatenation of the floors' rooms; its properties are stated by `Colors.AllZonesMembership` and `Colors.AllZonesCoversFloors` (a definition; no contract) |
| Colors.DistinctZones | script.js:32 | the loop with a seen-set builds exactly the de-duplicated list, as `[...new Set(...)]` does |
| Colors.AssignColors | script.js:38-40 | the colour map has exactly the listed rooms as keys, and every colour comes from the palette |
| Colors.ZoneColorMap | script.js:31-40 | the colour map's keys are exactly the rooms of `allZones`, each with a palette colour |
| Colors.ZoneColorByPosition | script.js:33-40 | the room at position i of `allZones` has the colour palette[i mod 10] |
| Colors.BuildColorMap | script.js:38-40 | the forEach loop builds the same map as the position-by-position assignment |
| Colors.ColorOfIndex | script.js:38-40 | in a repeat-free list, the room at position i gets palette[i mod palette size] |
| Colors.ColorsCollideIff | script.js:33-40 | with distinct palette colours, two rooms share a colour iff their positions agree modulo the palette size |
| Colors.AllZonesValue | script.js:32 | for the static table, allZones is room26, room27, room28, room47, room48, room49, room50, room30, room31, room46, room8 |
| Colors.AllZonesMembership | script.js:32 | a room is in allZones iff some floor lists it |
| Colors.AllZonesCoversFloors | script.js:32 | allZones has no repeats and holds exactly the rooms of the table's floors |
| Colors.EveryRoomColored | script.js:32-40 | every room of every floor has a colour in the map, taken from the palette |
| Colors.FirstRoundDistinct | script.js:33-40 | the first palette-size rooms of a repeat-free list all get different colours |
| Colors.RoomEightWraps | script.js:33-40 | in the static order, room8 (position 10) and room26 (position 0) both get the first palette colour |
| Colors.PaletteWrapsAround | script.js:32-40 | the table has 11 rooms for 10 colours; room8 wraps to room26's colour #1f77b4, and the first ten rooms all differ |
| Markers.MarkerColors | script.js:56 | one colour per room: red for the highlighted room, otherwise the room's entry in the colour map (undefined if absent) |
| Markers.MarkerSymbols | script.js:57 | one symbol per room: "diamond" iff it is the highlighted room, "circle" otherwise |
| Markers.Lookup | script.js:56 | reading the colour map gives a value exactly for a key, and that value is one of the map's colours; a non-key reads as undefined |
| Markers.XAxisRange | script.js:65 | a given fixed range is used unchanged |
| Markers.DefaultRangeFramesBand | script.js:65 | without a fixed range the axis is [x0 - 2, x1 + 2]: exactly 2 below x0 and 2 above x1 |
| Markers.FixedRangeCoversDefault | script.js:24-27 | for every variable the first draw's fixed x-range contains the fallback range [x0 - 2, x1 + 2] a redraw uses |
| Markers.RedIffDiamond | script.js:56-57 | if no room colour is red, a point is red iff it is a diamond iff it is the highlighted room |
| Markers.NoHighlightPlain | script.js:46-57 | with no highlight every point is a circle in its room's own colour |
| Markers.AtMostOneDiamond | script.js:57 | in a repeat-free room list at most one point is a diamond |
| Markers.ColorStableAcrossFloors | script.js:56 | a room's marker colour depends only on the room, not on the floor list it is drawn from |
| Markers.PaletteMarker | script.js:56 | a room with a palette colour is red iff highlighted, and otherwise keeps its palette colour |
| Markers.StaticMarkers | script.js:32-57 | on the static table every point is red (the highlighted room) or its palette colour, never undefined |
| Markers.RedrawRanges | script.js:65 | the default ranges are [20, 28], [8, 202] and [38, 57]; only temperature's equals its fixed range |

## Left out

- Plotly rendering (`Plotly.newPlot`, the layout, the rectangle and threshold-line shapes, the annotations, the fixed y-range `[0, 2]`): a foreign library whose behaviour is not visible here.
- `updateTips` (including the "GOOD: " prefix), `updateLegend` and `handleDropdownChange`: DOM writes only.
- `filterFloor` and `highlightZoneAcrossCharts`: they only pass the modelled pieces to `plotScatter`. They also write the global `currentFloorData`/`plotRefs` view state, which is not modelled.
- `attachClickEvents` and `setTimeout(attachClickEvents, 300)`: event and timing glue.
- Lookup of a floor number that is not in the table: the source does not guard it, so it has no defined outcome to model.
- A `variable` other than `ta`, `lux` or `spl`: the `Variable` datatype closes the set, as the source's callers always do.
- IEEE floating point: values are `real`s; the table's literals are compared, and its whole-number bounds shifted by 2, exactly.
- Markers.XAxisRange: its contract states only the fixed-range case; `Markers.DefaultRangeFramesBand` states the default case.
- Colors.AssignColors: the source's `zoneColorMap` is a plain object `{}`, and assigning to a room named `"__proto__"` goes through the inherited setter, which ignores a string, so no key is created; the model's `map` gets the key. The table has no such room.
- Colors.ZoneColorMap: the same plain-object difference as `Colors.AssignColors`.
- Markers.Lookup: reading `zoneColorMap[z]` for a room that is not a key but is named like an `Object.prototype` member (`"constructor"`, `"toString"`, `"__proto__"`) yields the inherited value in the source, not `undefined`; the model yields `None`. Every room of the table is a key, so this never arises there (`Markers.StaticMarkers`).
- Markers.MarkerColors: inherits the `Markers.Lookup` difference for rooms named like `Object.prototype` members.
