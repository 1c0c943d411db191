/** The recommendations the static table produces, floor by floor and
    variable by variable. Each proof walks the filter room by room.

    The texts are proved by small lemmas that receive the room list as a
    parameter `r` pinned by `requires` and apply the generic
    `RenderTwo`/`RenderThree`/`RenderFour`. Each of them joins one concrete
    list on its own, apart from the evaluation of the filter over the
    literal table. */
module Scenarios {
  import opened Seqs
  import opened Data
  import opened Recommend

  /** The list ["room26", "room27"] is shown as "room26, room27". */
  lemma RendersRoom26Room27(r: seq<string>)
    requires r == ["room26", "room27"]
    ensures Render(r) == "room26, room27"
  {
    RenderTwo(r);
  }

  /** The list ["room48", "room49", "room50"] is shown as "room48, room49, room50". */
  lemma RendersRoom48Room49Room50(r: seq<string>)
    requires r == ["room48", "room49", "room50"]
    ensures Render(r) == "room48, room49, room50"
  {
    RenderThree(r);
  }

  /** The list ["room30", "room31", "room46"] is shown as "room30, room31, room46". */
  lemma RendersRoom30Room31Room46(r: seq<string>)
    requires r == ["room30", "room31", "room46"]
    ensures Render(r) == "room30, room31, room46"
  {
    RenderThree(r);
  }

  /** The list ["room46", "room8"] is shown as "room46, room8". */
  lemma RendersRoom46Room8(r: seq<string>)
    requires r == ["room46", "room8"]
    ensures Render(r) == "room46, room8"
  {
    RenderTwo(r);
  }

  /** The list ["room30", "room31", "room46", "room8"] is shown as "room30, room31, room46, room8". */
  lemma RendersRoom30Room31Room46Room8(r: seq<string>)
    requires r == ["room30", "room31", "room46", "room8"]
    ensures Render(r) == "room30, room31, room46, room8"
  {
    RenderFour(r);
  }

  /** Floor 25, temperature: only room28 (24.4, 0.85) is inside; room26 and
      room27 have deviations 1.3 and 1.4, above 1.2. */
  lemma Floor25Temperature()
    ensures RecommendedZones(Floor25, Ta) == ["room28"]
    ensures Render(RecommendedZones(Floor25, Ta)) == "room28"
  {
    var z := Floor25.zones;
    var s := Floor25.ta;
    var b := GreenZone(Ta);
    assert !Qualifies(s, b, 0) && !Qualifies(s, b, 1) && Qualifies(s, b, 2);
    assert FilterPrefix(z, s, b, 1) == [];
    assert FilterPrefix(z, s, b, 2) == [];
    assert FilterPrefix(z, s, b, 3) == ["room28"];
  }

  /** Floor 25, light: room28's deviation 1.22 is above 1.2. */
  lemma Floor25Light()
    ensures RecommendedZones(Floor25, Lux) == ["room26", "room27"]
    ensures Render(RecommendedZones(Floor25, Lux)) == "room26, room27"
  {
    var z := Floor25.zones;
    var s := Floor25.lux;
    var b := GreenZone(Lux);
    assert Qualifies(s, b, 0) && Qualifies(s, b, 1) && !Qualifies(s, b, 2);
    assert FilterPrefix(z, s, b, 1) == ["room26"];
    assert FilterPrefix(z, s, b, 2) == ["room26", "room27"];
    assert FilterPrefix(z, s, b, 3) == ["room26", "room27"];
    RendersRoom26Room27(RecommendedZones(Floor25, Lux));
  }

  /** Floor 25, noise: room28's deviation 1.35 is above 1.2. */
  lemma Floor25Noise()
    ensures RecommendedZones(Floor25, Spl) == ["room26", "room27"]
    ensures Render(RecommendedZones(Floor25, Spl)) == "room26, room27"
  {
    var z := Floor25.zones;
    var s := Floor25.spl;
    var b := GreenZone(Spl);
    assert Qualifies(s, b, 0) && Qualifies(s, b, 1) && !Qualifies(s, b, 2);
    assert FilterPrefix(z, s, b, 1) == ["room26"];
    assert FilterPrefix(z, s, b, 2) == ["room26", "room27"];
    assert FilterPrefix(z, s, b, 3) == ["room26", "room27"];
    RendersRoom26Room27(RecommendedZones(Floor25, Spl));
  }

  /** Floor 28, temperature: room47's mean 27.3 is above 26. */
  lemma Floor28Temperature()
    ensures RecommendedZones(Floor28, Ta) == ["room48", "room49", "room50"]
    ensures Render(RecommendedZones(Floor28, Ta)) == "room48, room49, room50"
  {
    var z := Floor28.zones;
    var s := Floor28.ta;
    var b := GreenZone(Ta);
    assert !Qualifies(s, b, 0) && Qualifies(s, b, 1) && Qualifies(s, b, 2) && Qualifies(s, b, 3);
    assert FilterPrefix(z, s, b, 1) == [];
    assert FilterPrefix(z, s, b, 2) == ["room48"];
    assert FilterPrefix(z, s, b, 3) == ["room48", "room49"];
    assert FilterPrefix(z, s, b, 4) == ["room48", "room49", "room50"];
    RendersRoom48Room49Room50(RecommendedZones(Floor28, Ta));
  }

  /** Floor 28, light: every deviation (92, 476, 465, 8.1) is above 1.2, so the
      text is "None". */
  lemma Floor28Light()
    ensures RecommendedZones(Floor28, Lux) == []
    ensures Render(RecommendedZones(Floor28, Lux)) == "None"
  {
    var z := Floor28.zones;
    var s := Floor28.lux;
    var b := GreenZone(Lux);
    assert !Qualifies(s, b, 0) && !Qualifies(s, b, 1) && !Qualifies(s, b, 2) && !Qualifies(s, b, 3);
    assert FilterPrefix(z, s, b, 1) == [];
    assert FilterPrefix(z, s, b, 2) == [];
    assert FilterPrefix(z, s, b, 3) == [];
    assert FilterPrefix(z, s, b, 4) == [];
  }

  /** Floor 28, noise: every deviation (7.99, 4.5, 1.65, 7.98) is above 1.2. */
  lemma Floor28Noise()
    ensures RecommendedZones(Floor28, Spl) == []
    ensures Render(RecommendedZones(Floor28, Spl)) == "None"
  {
    var z := Floor28.zones;
    var s := Floor28.spl;
    var b := GreenZone(Spl);
    assert !Qualifies(s, b, 0) && !Qualifies(s, b, 1) && !Qualifies(s, b, 2) && !Qualifies(s, b, 3);
    assert FilterPrefix(z, s, b, 1) == [];
    assert FilterPrefix(z, s, b, 2) == [];
    assert FilterPrefix(z, s, b, 3) == [];
    assert FilterPrefix(z, s, b, 4) == [];
  }

  /** Floor 30, temperature: room8's deviation 1.45 is above 1.2. */
  lemma Floor30Temperature()
    ensures RecommendedZones(Floor30, Ta) == ["room30", "room31", "room46"]
    ensures Render(RecommendedZones(Floor30, Ta)) == "room30, room31, room46"
  {
    var z := Floor30.zones;
    var s := Floor30.ta;
    var b := GreenZone(Ta);
    assert Qualifies(s, b, 0) && Qualifies(s, b, 1) && Qualifies(s, b, 2) && !Qualifies(s, b, 3);
    assert FilterPrefix(z, s, b, 1) == ["room30"];
    assert FilterPrefix(z, s, b, 2) == ["room30", "room31"];
    assert FilterPrefix(z, s, b, 3) == ["room30", "room31", "room46"];
    assert FilterPrefix(z, s, b, 4) == ["room30", "room31", "room46"];
    RendersRoom30Room31Room46(RecommendedZones(Floor30, Ta));
  }

  /** Floor 30, light: room30's deviation 1.4 is above 1.2 and room31's mean
      344.1 is above 200. */
  lemma Floor30Light()
    ensures RecommendedZones(Floor30, Lux) == ["room46", "room8"]
    ensures Render(RecommendedZones(Floor30, Lux)) == "room46, room8"
  {
    var z := Floor30.zones;
    var s := Floor30.lux;
    var b := GreenZone(Lux);
    assert !Qualifies(s, b, 0) && !Qualifies(s, b, 1) && Qualifies(s, b, 2) && Qualifies(s, b, 3);
    assert FilterPrefix(z, s, b, 1) == [];
    assert FilterPrefix(z, s, b, 2) == [];
    assert FilterPrefix(z, s, b, 3) == ["room46"];
    assert FilterPrefix(z, s, b, 4) == ["room46", "room8"];
    RendersRoom46Room8(RecommendedZones(Floor30, Lux));
  }

  /** Floor 30, noise: all four rooms are inside, room31 exactly on the
      inclusive deviation bound 1.2. */
  lemma Floor30Noise()
    ensures RecommendedZones(Floor30, Spl) == ["room30", "room31", "room46", "room8"]
    ensures Render(RecommendedZones(Floor30, Spl)) == "room30, room31, room46, room8"
  {
    var z := Floor30.zones;
    var s := Floor30.spl;
    var b := GreenZone(Spl);
    assert Qualifies(s, b, 0) && Qualifies(s, b, 1) && Qualifies(s, b, 2) && Qualifies(s, b, 3);
    assert FilterPrefix(z, s, b, 1) == ["room30"];
    assert FilterPrefix(z, s, b, 2) == ["room30", "room31"];
    assert FilterPrefix(z, s, b, 3) == ["room30", "room31", "room46"];
    assert FilterPrefix(z, s, b, 4) == ["room30", "room31", "room46", "room8"];
    RendersRoom30Room31Room46Room8(RecommendedZones(Floor30, Spl));
  }

  /** On the static table the rendered text reads back as the recommended
      list: no room name contains a comma or is "None". */
  lemma StaticTextsParse(k: int, v: Variable)
    requires k in DataByFloor
    ensures Parse(Render(RecommendedZones(DataByFloor[k], v))) == RecommendedZones(DataByFloor[k], v)
  {
    var f := DataByFloor[k];
    var r := RecommendedZones(f, v);
    assert CommaFree(f.zones) && "None" !in f.zones;
    assert CommaFree(r);
    if |r| == 1 {
      assert r[0] in f.zones;
    }
    ParseRender(r);
  }
}
