/**
 * What the generated profile promises, stated over the whole pipeline:
 * defaults, recommendations, rules and the consistency pass.
 */
module OrcaAIProperties {
  import opened Values
  import opened Inputs
  import opened OrcaAI

  /** The layer height follows quality against speed, and stays at the default when they tie. */
  lemma LayerHeightByImportance(printer: PrinterInfo, material: MaterialInfo, nozzle: real, req: Requirements)
    requires ChosenLayerHeight(nozzle, req) != 0.0
    ensures var h := Generated(printer, material, nozzle, req).quality.layerHeight;
      (req.Quality() > req.Speed() ==> h == Round2(RMax(nozzle * 0.25, 0.08))) &&
      (req.Speed() > req.Quality() ==> h == Round2(RMin(nozzle * 0.75, 0.3))) &&
      (req.Quality() == req.Speed() ==> h == Round2(nozzle * 0.4))
  {
  }

  /** A 0.4 mm nozzle with quality 4 against speed 2 prints 0.1 mm layers. */
  lemma FineLayersForQuality(printer: PrinterInfo, material: MaterialInfo, req: Requirements)
    requires req.Quality() == 4 && req.Speed() == 2
    ensures ChosenLayerHeight(0.4, req) == 0.1
    ensures Generated(printer, material, 0.4, req).quality.layerHeight == 0.1
  {
    assert RMax(0.4 * 0.25, 0.08) == 0.1;
    RoundOfInteger(10);
    assert Round2(0.1) == 0.1;
  }

  /** The recommendation stage's wall count, infill density and print temperature. */
  lemma RecommendedShellInfill(s: Settings, material: MaterialInfo, nozzle: real, req: Requirements)
    ensures var r := Recommended(s, material, nozzle, req);
      r.shell.wallLineCount == WallCount(s.shell.wallLineCount, req) &&
      r.infill.density == (if InfillChoice(req).Some? then InfillChoice(req).value.density else s.infill.density) &&
      r.material == RecTemperature(s, material, req).material
  {
    var l := RecLayers(s, nozzle, req);
    var w := RecWalls(l, req);
    var i := RecInfill(w, req);
    var p := RecSpeeds(i, req);
    assert p.material == s.material;
    var t := RecTemperature(p, material, req);
    assert RecPurposeFeatures(t, material, req) == Recommended(s, material, nozzle, req);
  }

  /** The rule stage leaves the wall count, the infill density and the temperatures alone. */
  lemma RuledKeepsShellInfill(s: Settings, printer: PrinterInfo, material: MaterialInfo, req: Requirements)
    ensures var r := Ruled(s, printer, material, req);
      r.shell.wallLineCount == s.shell.wallLineCount && r.infill.density == s.infill.density &&
      r.material == s.material
  {
    var m := MaterialAdjusted(s, material);
    var k := PrinterAdjusted(m, printer);
    assert k.shell == s.shell && k.infill == s.infill && k.material == s.material;
  }

  /** The wall count and infill density that survive the rules and the consistency pass. */
  lemma GeneratedShellAndInfill(printer: PrinterInfo, material: MaterialInfo, nozzle: real, req: Requirements)
    requires ChosenLayerHeight(nozzle, req) != 0.0
    ensures Generated(printer, material, nozzle, req).shell.wallLineCount == WallCount(3, req)
    ensures Generated(printer, material, nozzle, req).infill.density ==
      if InfillChoice(req).Some? then InfillChoice(req).value.density else 20
  {
    var d := DefaultSettings(printer, material, nozzle);
    RecommendedShellInfill(d, material, nozzle, req);
    RuledKeepsShellInfill(Recommended(d, material, nozzle, req), printer, material, req);
    GeneratedIsConstrainedRules(printer, material, nozzle, req);
  }

  /**
   * With every other requirement fixed, raising the strength importance
   * never lowers the wall count or the infill density.
   */
  lemma StrengthMonotone(printer: PrinterInfo, material: MaterialInfo, nozzle: real, r1: Requirements, r2: Requirements)
    requires r2 == r1.(strength := r2.strength)
    requires r1.Strength() <= r2.Strength()
    requires ChosenLayerHeight(nozzle, r1) != 0.0
    ensures ChosenLayerHeight(nozzle, r2) != 0.0
    ensures Generated(printer, material, nozzle, r1).shell.wallLineCount <=
            Generated(printer, material, nozzle, r2).shell.wallLineCount
    ensures Generated(printer, material, nozzle, r1).infill.density <=
            Generated(printer, material, nozzle, r2).infill.density
  {
    assert r1.Quality() == r2.Quality() && r1.Speed() == r2.Speed();
    assert r1.MaterialUsage() == r2.MaterialUsage();
    GeneratedShellAndInfill(printer, material, nozzle, r1);
    GeneratedShellAndInfill(printer, material, nozzle, r2);
  }

  /** The print temperature after all stages, by purpose. */
  lemma TemperatureByPurpose(printer: PrinterInfo, material: MaterialInfo, nozzle: real, req: Requirements)
    requires ChosenLayerHeight(nozzle, req) != 0.0
    ensures var t := Generated(printer, material, nozzle, req).material.printTemperature;
      (req.Purpose() == "functional" ==> t <= material.tempMax - 5) &&
      (req.Purpose() == "visual" ==> t >= material.tempMin + 5) &&
      (req.Purpose() != "functional" && req.Purpose() != "visual" ==>
         t == (material.tempMin + material.tempMax) / 2)
  {
    var d := DefaultSettings(printer, material, nozzle);
    RecommendedShellInfill(d, material, nozzle, req);
    RuledKeepsShellInfill(Recommended(d, material, nozzle, req), printer, material, req);
    GeneratedIsConstrainedRules(printer, material, nozzle, req);
    assert RecTemperature(d, material, req).material.printTemperature ==
           Generated(printer, material, nozzle, req).material.printTemperature;
  }

  /** The rule stage's result, before the consistency pass. */
  function RuledProfile(printer: PrinterInfo, material: MaterialInfo, nozzle: real, req: Requirements): Settings {
    Ruled(Recommended(DefaultSettings(printer, material, nozzle), material, nozzle, req), printer, material, req)
  }

  lemma GeneratedIsConstrainedRules(printer: PrinterInfo, material: MaterialInfo, nozzle: real, req: Requirements)
    requires ChosenLayerHeight(nozzle, req) != 0.0
    ensures RuledProfile(printer, material, nozzle, req).quality.layerHeight != 0.0
    ensures Generated(printer, material, nozzle, req) == Constraints(RuledProfile(printer, material, nozzle, req))
  {
    RecommendedKeepsLayer(DefaultSettings(printer, material, nozzle), material, nozzle, req);
  }

  /** PETG: retraction at most 8 mm, fan at most 60%, print speed at most 60 mm/s. */
  lemma PetgClamps(printer: PrinterInfo, material: MaterialInfo, nozzle: real, req: Requirements)
    requires ChosenLayerHeight(nozzle, req) != 0.0
    requires material.materialType == "PETG"
    ensures var g := Generated(printer, material, nozzle, req);
      g.travel.retractionDistance <= 8.0 && g.cooling.fanSpeed <= 60 && g.speed.printSpeed <= 60
  {
    var f := Recommended(DefaultSettings(printer, material, nozzle), material, nozzle, req);
    var m := MaterialAdjusted(f, material);
    assert m.travel.retractionDistance <= 8.0;
    var k := PrinterAdjusted(m, printer);
    assert k.travel.retractionDistance <= 8.0 && k.cooling == m.cooling && k.speed.printSpeed == m.speed.printSpeed;
    var u := PurposeAdjusted(k, req);
    assert u.travel.retractionDistance == k.travel.retractionDistance && u.cooling == k.cooling && u.speed == k.speed;
    GeneratedIsConstrainedRules(printer, material, nozzle, req);
  }

  /** ABS: fan at most 30%, no first-layer fan, and a brim of at least 8 mm. */
  lemma AbsClamps(printer: PrinterInfo, material: MaterialInfo, nozzle: real, req: Requirements)
    requires ChosenLayerHeight(nozzle, req) != 0.0
    requires material.materialType == "ABS"
    ensures var g := Generated(printer, material, nozzle, req);
      g.cooling.fanSpeed <= 30 && g.cooling.initialFanSpeed == 0 &&
      g.adhesion.adhesionType == "brim" && g.adhesion.brimWidth >= 8 && g.adhesion.skirtLineCount == 0
  {
    var f := Recommended(DefaultSettings(printer, material, nozzle), material, nozzle, req);
    var m := MaterialAdjusted(f, material);
    var k := PrinterAdjusted(m, printer);
    assert k.cooling == m.cooling && k.adhesion == m.adhesion;
    var u := PurposeAdjusted(k, req);
    assert u.cooling == k.cooling && u.adhesion == k.adhesion;
    GeneratedIsConstrainedRules(printer, material, nozzle, req);
  }

  /**
   * TPU: retraction is switched off, so the consistency pass also switches
   * the Z-hop off, even for a miniature whose purpose rule turned it on.
   */
  lemma TpuNoRetraction(printer: PrinterInfo, material: MaterialInfo, nozzle: real, req: Requirements)
    requires ChosenLayerHeight(nozzle, req) != 0.0
    requires material.materialType == "TPU"
    ensures var g := Generated(printer, material, nozzle, req);
      !g.travel.retractionEnable && !g.travel.zHopEnable &&
      g.speed.printSpeed <= 30 && g.speed.outerWallSpeed <= 15
    ensures req.Purpose() == "miniature" ==> RuledProfile(printer, material, nozzle, req).travel.zHopEnable
  {
    var f := Recommended(DefaultSettings(printer, material, nozzle), material, nozzle, req);
    var m := MaterialAdjusted(f, material);
    var k := PrinterAdjusted(m, printer);
    assert !k.travel.retractionEnable && k.speed.printSpeed == m.speed.printSpeed;
    var u := PurposeAdjusted(k, req);
    assert !u.travel.retractionEnable && u.speed == k.speed;
    GeneratedIsConstrainedRules(printer, material, nozzle, req);
  }

  /** A Bowden extruder retracts at least 5 mm, at no more than 45 mm/s. */
  lemma BowdenRetraction(printer: PrinterInfo, material: MaterialInfo, nozzle: real, req: Requirements)
    requires ChosenLayerHeight(nozzle, req) != 0.0
    requires !printer.directDrive
    ensures var g := Generated(printer, material, nozzle, req);
      g.travel.retractionDistance >= 5.0 && g.travel.retractionSpeed <= 45
  {
    var f := Recommended(DefaultSettings(printer, material, nozzle), material, nozzle, req);
    var k := PrinterAdjusted(MaterialAdjusted(f, material), printer);
    var u := PurposeAdjusted(k, req);
    assert u.travel.retractionDistance == k.travel.retractionDistance;
    assert u.travel.retractionSpeed == k.travel.retractionSpeed;
    GeneratedIsConstrainedRules(printer, material, nozzle, req);
  }

  /** A delta printer travels at least 200 mm/s with a first layer of at most 0.3 mm. */
  lemma DeltaKinematics(printer: PrinterInfo, material: MaterialInfo, nozzle: real, req: Requirements)
    requires ChosenLayerHeight(nozzle, req) != 0.0
    requires printer.printerType == "delta"
    ensures var g := Generated(printer, material, nozzle, req);
      g.speed.travelSpeed >= 200 && g.quality.initialLayerHeight <= 0.3
  {
    var f := Recommended(DefaultSettings(printer, material, nozzle), material, nozzle, req);
    var k := PrinterAdjusted(MaterialAdjusted(f, material), printer);
    var u := PurposeAdjusted(k, req);
    assert u.speed == k.speed && u.quality == k.quality;
    GeneratedIsConstrainedRules(printer, material, nozzle, req);
  }
}
