/** The dashboard's static configuration: per-floor room statistics and the
    comfort rectangle ("green zone") of each monitored variable. Decimal
    literals are `real`s; the model only ever compares them. */
module Data {

  /** The three monitored variables: air temperature, illuminance and
      sound pressure level. */
  datatype Variable = Ta | Lux | Spl

  /** Per-room mean and standard deviation of one variable, index-aligned
      with the floor's room list. */
  datatype Stats = Stats(mean: seq<real>, std: seq<real>)

  /** One floor: its rooms (zones) in display order and the statistics of
      every variable. */
  datatype FloorRecord = FloorRecord(zones: seq<string>, ta: Stats, lux: Stats, spl: Stats)
  {
    /** The statistics of `v`, as `data[variable]` selects them. */
    function Series(v: Variable): Stats {
      match v
      case Ta => ta
      case Lux => lux
      case Spl => spl
    }
  }

  /** A closed axis interval `[lo, hi]`. */
  datatype Range = Range(lo: real, hi: real)

  /** A comfort rectangle: means in `[x0, x1]`, standard deviations in
      `[y0, y1]`, plus the x-axis range used when the floor is first drawn. */
  datatype Band = Band(x0: real, x1: real, y0: real, y1: real, xFixed: Range)

  const Floor25 := FloorRecord(
    ["room26", "room27", "room28"],
    Stats([25.1, 25.3, 24.4], [1.3, 1.4, 0.85]),
    Stats([25.1, 50.2, 75.3], [0.52, 0.95, 1.22]),
    Stats([43.5, 44.1, 45.0], [1.0, 0.85, 1.35]))

  const Floor28 := FloorRecord(
    ["room47", "room48", "room49", "room50"],
    Stats([27.3, 24.1, 23.7, 25.2], [1.2, 0.52, 1.03, 1.06]),
    Stats([77.0, 375.0, 450.0, 1.0], [92.0, 476.0, 465.0, 8.1]),
    Stats([49.5, 46.6, 45.0, 49.6], [7.99, 4.5, 1.65, 7.98]))

  const Floor30 := FloorRecord(
    ["room30", "room31", "room46", "room8"],
    Stats([24.2, 24.1, 24.6, 23.8], [0.9, 1.12, 1.12, 1.45]),
    Stats([149.8, 344.1, 23.2, 56.5], [1.4, 1.46, 1.1, 1.0]),
    Stats([45.1, 43.6, 45.2, 45.6], [0.6, 1.2, 0.9, 1.1]))

  /** The floor table keyed by floor number. */
  const DataByFloor: map<int, FloorRecord> := map[25 := Floor25, 28 := Floor28, 30 := Floor30]

  /** The floor numbers in the order `Object.values` enumerates them:
      integer-like property keys come in ascending numeric order
      (section 10.1.11.1 of ECMA-262, OrdinaryOwnPropertyKeys). */
  const FloorKeys: seq<int> := [25, 28, 30]

  /** `Object.values(dataByFloor)`. */
  function FloorValues(): (floors: seq<FloorRecord>)
    ensures |floors| == |FloorKeys|
    ensures forall i :: 0 <= i < |FloorKeys| ==> FloorKeys[i] in DataByFloor && floors[i] == DataByFloor[FloorKeys[i]]
  {
    [Floor25, Floor28, Floor30]
  }

  /** The comfort rectangle of each variable. All three share the
      deviation interval [0.4, 1.2], and each fixed x-range takes in the
      rectangle's mean interval widened by 2 on either side. */
  function GreenZone(v: Variable): (b: Band)
    ensures b.y0 == 0.4 && b.y1 == 1.2
    ensures b.xFixed.lo <= b.x0 - 2.0 && b.x1 + 2.0 <= b.xFixed.hi
  {
    match v
    case Ta => Band(22.0, 26.0, 0.4, 1.2, Range(20.0, 28.0))
    case Lux => Band(10.0, 200.0, 0.4, 1.2, Range(0.0, 300.0))
    case Spl => Band(40.0, 55.0, 0.4, 1.2, Range(30.0, 60.0))
  }

  /** Every statistics array of the floor is as long as its room list. */
  predicate WellFormed(f: FloorRecord) {
    forall v: Variable ::
      |f.Series(v).mean| == |f.zones| && |f.Series(v).std| == |f.zones|
  }

  /** The key order is strictly ascending and covers exactly the table's keys. */
  lemma FloorKeysEnumerateTable()
    ensures forall i, j :: 0 <= i < j < |FloorKeys| ==> FloorKeys[i] < FloorKeys[j]
    ensures forall k :: k in DataByFloor <==> k in FloorKeys
  {
  }

  /** The static table is well formed: every floor's arrays are index-aligned,
      and every rectangle and fixed axis range is non-empty. */
  lemma StaticDataWellFormed()
    ensures forall k :: k in DataByFloor ==> WellFormed(DataByFloor[k])
    ensures forall v: Variable ::
      GreenZone(v).x0 <= GreenZone(v).x1 && GreenZone(v).y0 <= GreenZone(v).y1
      && GreenZone(v).xFixed.lo < GreenZone(v).xFixed.hi
  {
    forall k | k in DataByFloor ensures WellFormed(DataByFloor[k]) {
      var f := DataByFloor[k];
      forall v: Variable ensures |f.Series(v).mean| == |f.zones| && |f.Series(v).std| == |f.zones| {
      }
    }
  }
}
