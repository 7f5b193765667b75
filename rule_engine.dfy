/**
 * The table-driven rule engine: seven stages applied in a fixed order
 * (material, nozzle, printer, purpose, quality, speed, strength), then a
 * dependency pass that re-derives dependent settings, all over a copy of
 * the caller's settings dictionary.  The rule tables are the engine's
 * built-in defaults.
 */
module RuleEngine {
  import opened Values
  import opened Inputs

  // ---------------------------------------------------------------------
  // Rule tables
  // ---------------------------------------------------------------------

  datatype Retraction = Retraction(distance: real, speed: int)

  /** The entries of a material rule the stages read. */
  datatype MaterialRule = MaterialRule(
    optimalTemperature: int, optimalBedTemperature: int,
    optimalCooling: int, minCooling: int,
    directDrive: Retraction, bowden: Retraction)

  function MaterialRules(materialType: string): Option<MaterialRule> {
    if materialType == "PLA" then Some(MaterialRule(205, 55, 100, 80, Retraction(0.8, 35), Retraction(5.0, 45)))
    else if materialType == "PETG" then Some(MaterialRule(235, 75, 50, 30, Retraction(1.0, 30), Retraction(6.0, 40)))
    else if materialType == "ABS" then Some(MaterialRule(245, 100, 20, 0, Retraction(0.8, 30), Retraction(5.0, 40)))
    else if materialType == "TPU" then Some(MaterialRule(235, 40, 80, 50, Retraction(0.5, 20), Retraction(2.0, 20)))
    else None
  }

  /** The printer kinematics' maximum speed, the one printer rule read. */
  function PrinterMaxSpeed(printerType: string): Option<int> {
    if printerType == "cartesian" then Some(150)
    else if printerType == "delta" then Some(200)
    else if printerType == "corexy" then Some(180)
    else None
  }

  datatype NozzleRule = NozzleRule(size: real, maxLayerHeight: real, optimalLayerHeight: real, lineWidth: real)

  /** The nozzle table, in its key order. */
  const NozzleRules: seq<NozzleRule> := [
    NozzleRule(0.2, 0.16, 0.12, 0.22),
    NozzleRule(0.3, 0.24, 0.16, 0.33),
    NozzleRule(0.4, 0.32, 0.2, 0.44),
    NozzleRule(0.5, 0.4, 0.25, 0.55),
    NozzleRule(0.6, 0.48, 0.3, 0.66),
    NozzleRule(0.8, 0.64, 0.4, 0.88),
    NozzleRule(1.0, 0.8, 0.5, 1.1)
  ]

  const FunctionalRule: seq<(Key, Value)> :=
    [(WallLineCount, I(3)), (InfillDensity, I(30)), (InfillPattern, S("cubic")), (TopLayers, I(5)), (BottomLayers, I(4))]
  const VisualRule: seq<(Key, Value)> :=
    [(WallLineCount, I(2)), (InfillDensity, I(15)), (InfillPattern, S("gyroid")), (TopLayers, I(4)), (BottomLayers, I(3))]
  const MiniatureRule: seq<(Key, Value)> :=
    [(WallLineCount, I(2)), (InfillDensity, I(10)), (InfillPattern, S("gyroid")), (TopLayers, I(4)), (BottomLayers, I(3)),
     (ZHopEnable, B(true)), (SupportEnable, B(true)), (SupportAngle, I(60))]
  const LargeRule: seq<(Key, Value)> :=
    [(WallLineCount, I(2)), (InfillDensity, I(10)), (InfillPattern, S("grid")), (TopLayers, I(3)), (BottomLayers, I(3)),
     (AdhesionType, S("brim")), (BrimWidth, I(8))]

  /** A purpose rule: the settings it copies, in their table order. */
  function PurposeRules(purpose: string): Option<seq<(Key, Value)>> {
    if purpose == "functional" then Some(FunctionalRule)
    else if purpose == "visual" then Some(VisualRule)
    else if purpose == "miniature" then Some(MiniatureRule)
    else if purpose == "large" then Some(LargeRule)
    else None
  }

  /**
   * The five levels of the quality, speed and strength tables, highest
   * first: ultra/high/standard/draft/ultra_draft for quality,
   * ultra_fast/fast/normal/slow/ultra_slow for speed and
   * ultra_strong/strong/normal/light/ultra_light for strength.
   */
  datatype Level = Top | Upper | Middle | Lower | Bottom

  datatype QualityRule = QualityRule(layerHeightFactor: real, speedFactor: real, outerWallSpeedFactor: real, ironing: bool)

  function QualityRules(l: Level): QualityRule {
    match l
    case Top => QualityRule(0.25, 0.7, 0.5, true)
    case Upper => QualityRule(0.3, 0.8, 0.6, false)
    case Middle => QualityRule(0.4, 1.0, 0.7, false)
    case Lower => QualityRule(0.6, 1.2, 0.8, false)
    case Bottom => QualityRule(0.75, 1.5, 0.9, false)
  }

  datatype SpeedRule = SpeedRule(printSpeed: int, outerWallFactor: real, innerWallFactor: real, infillFactor: real, travelFactor: real)

  function SpeedRules(l: Level): SpeedRule {
    match l
    case Top => SpeedRule(100, 0.6, 0.9, 1.3, 1.5)
    case Upper => SpeedRule(70, 0.5, 0.8, 1.2, 1.5)
    case Middle => SpeedRule(50, 0.5, 0.8, 1.2, 1.5)
    case Lower => SpeedRule(40, 0.5, 0.8, 1.2, 1.5)
    case Bottom => SpeedRule(30, 0.5, 0.8, 1.2, 1.5)
  }

  datatype StrengthRule = StrengthRule(wallLineCount: int, infillDensity: int, infillPattern: string, topFactor: real, bottomFactor: real)

  function StrengthRules(l: Level): StrengthRule {
    match l
    case Top => StrengthRule(4, 50, "cubic", 1.5, 1.5)
    case Upper => StrengthRule(3, 30, "cubic", 1.2, 1.2)
    case Middle => StrengthRule(3, 20, "gyroid", 1.0, 1.0)
    case Lower => StrengthRule(2, 15, "gyroid", 0.8, 0.8)
    case Bottom => StrengthRule(2, 10, "grid", 0.7, 0.7)
  }

  /** The dependency table: each driver with the settings it affects, in table order. */
  const Dependencies: seq<(Key, seq<Key>)> := [
    (LayerHeight, [InitialLayerHeight, TopLayers, BottomLayers]),
    (LineWidth, [WallThickness]),
    (WallLineCount, [WallThickness]),
    (PrintSpeed, [OuterWallSpeed, InnerWallSpeed, InfillSpeed]),
    (MaterialPrintTemperature, [Other("cooling")])
  ]

  // ---------------------------------------------------------------------
  // Lookups
  // ---------------------------------------------------------------------

  /**
   * Importance to level: 5 and up is the top level, 4 the upper, 2 and
   * below the lower, anything else the middle.  The `<= 1` test comes
   * after `<= 2`, so the bottom level is never chosen.
   */
  function LevelOf(importance: int): (l: Level)
    ensures l == Top <==> importance >= 5
    ensures l == Upper <==> importance == 4
    ensures l == Middle <==> importance == 3
    ensures l == Lower <==> importance <= 2
    ensures l != Bottom
  {
    if importance >= 5 then Top
    else if importance >= 4 then Upper
    else if importance <= 2 then Lower
    else if importance <= 1 then Bottom
    else Middle
  }

  function Distance(x: real, y: real): (d: real)
    ensures d >= 0.0 && (d == x - y || d == y - x)
  {
    if x >= y then x - y else y - x
  }

  /**
   * Python's `min(sizes, key=lambda x: abs(x - n))`: the index of the first
   * size nearest to `n`.
   */
  function Nearest(sizes: seq<real>, n: real): (i: nat)
    requires |sizes| > 0
    ensures i < |sizes|
    ensures forall j | 0 <= j < |sizes| :: Distance(sizes[i], n) <= Distance(sizes[j], n)
    ensures forall j | 0 <= j < i :: Distance(sizes[j], n) > Distance(sizes[i], n)
  {
    if |sizes| == 1 then 0
    else
      var j := Nearest(sizes[..|sizes| - 1], n);
      if Distance(sizes[|sizes| - 1], n) < Distance(sizes[j], n) then |sizes| - 1 else j
  }

  function NozzleSizes(): (sizes: seq<real>)
    ensures |sizes| == |NozzleRules|
    ensures forall i | 0 <= i < |sizes| :: sizes[i] == NozzleRules[i].size
  {
    [0.2, 0.3, 0.4, 0.5, 0.6, 0.8, 1.0]
  }

  /**
   * The nozzle rule used for `nozzle`: the table entry of that size when
   * there is one, else the nearest size.  The exact entry is always the
   * unique nearest one, so a single search covers both.
   */
  function NozzleRuleFor(nozzle: real): (rule: NozzleRule)
    ensures rule in NozzleRules
    ensures forall r | r in NozzleRules :: Distance(rule.size, nozzle) <= Distance(r.size, nozzle)
  {
    var i := Nearest(NozzleSizes(), nozzle);
    assert forall r | r in NozzleRules :: exists j | 0 <= j < |NozzleRules| :: r == NozzleRules[j];
    NozzleRules[i]
  }

  /** A listed nozzle size selects its own entry. */
  lemma ExactNozzle(i: nat)
    requires i < |NozzleRules|
    ensures NozzleRuleFor(NozzleRules[i].size) == NozzleRules[i]
  {
    var sizes := NozzleSizes();
    var j := Nearest(sizes, sizes[i]);
    assert Distance(sizes[j], sizes[i]) <= Distance(sizes[i], sizes[i]) == 0.0;
  }

  /** Among equally near sizes the first in table order wins: 0.25 picks 0.2, 0.7 picks 0.6. */
  lemma NozzleTies()
    ensures NozzleRuleFor(0.25) == NozzleRules[0]
    ensures NozzleRuleFor(0.7) == NozzleRules[4]
  {
    var sizes := NozzleSizes();
    var a := Nearest(sizes, 0.25);
    var b := Nearest(sizes, 0.7);
  }

  // ---------------------------------------------------------------------
  // Stages
  // ---------------------------------------------------------------------

  const MaterialKeys: set<Key> := {MaterialPrintTemperature, MaterialBedTemperature, CoolingEnable, FanSpeed,
                                   InitialFanSpeed, RetractionEnable, RetractionDistance, RetractionSpeed}

  /**
   * Material rules: the optimal nozzle and bed temperatures, cooling on at
   * the optimal fan speed with the minimum for the first layer, and the
   * extruder's retraction.  An unlisted material leaves the settings alone.
   */
  function MaterialStage(s: Profile, material: MaterialInfo, printer: PrinterInfo): (r: Profile)
    ensures MaterialRules(material.materialType).None? ==> r == s
    ensures Keeps(s, r, PrintSpeed)
  {
    match MaterialRules(material.materialType)
    case None => s
    case Some(m) =>
      var x := if printer.directDrive then m.directDrive else m.bowden;
      s[MaterialPrintTemperature := I(m.optimalTemperature)][MaterialBedTemperature := I(m.optimalBedTemperature)]
       [CoolingEnable := B(true)][FanSpeed := I(m.optimalCooling)][InitialFanSpeed := I(m.minCooling)]
       [RetractionEnable := B(true)][RetractionDistance := R(x.distance)][RetractionSpeed := I(x.speed)]
  }

  /** A listed material writes its eight settings and nothing else. */
  lemma MaterialStageSets(s: Profile, material: MaterialInfo, printer: PrinterInfo)
    requires MaterialRules(material.materialType).Some?
    ensures var r := MaterialStage(s, material, printer);
      var m := MaterialRules(material.materialType).value;
      var x := if printer.directDrive then m.directDrive else m.bowden;
      OnlyWrites(s, r, MaterialKeys) && (forall k | k in MaterialKeys :: k in r) &&
      r[MaterialPrintTemperature] == I(m.optimalTemperature) && r[MaterialBedTemperature] == I(m.optimalBedTemperature) &&
      r[CoolingEnable] == B(true) && r[FanSpeed] == I(m.optimalCooling) && r[InitialFanSpeed] == I(m.minCooling) &&
      r[RetractionEnable] == B(true) && r[RetractionDistance] == R(x.distance) && r[RetractionSpeed] == I(x.speed)
  {
  }

  /** Nozzle rules: the chosen entry's optimal layer height and line width. */
  function NozzleStage(s: Profile, nozzle: real): (r: Profile)
    ensures LayerHeight in r && r[LayerHeight] == R(NozzleRuleFor(nozzle).optimalLayerHeight)
    ensures LineWidth in r && r[LineWidth] == R(NozzleRuleFor(nozzle).lineWidth)
    ensures Keeps(s, r, PrintSpeed)
  {
    var rule := NozzleRuleFor(nozzle);
    s[LayerHeight := R(rule.optimalLayerHeight)][LineWidth := R(rule.lineWidth)]
  }

  lemma NozzleStageFrame(s: Profile, nozzle: real)
    ensures OnlyWrites(s, NozzleStage(s, nozzle), {LayerHeight, LineWidth})
  {
  }

  /** Printer rules: travel at the kinematics' maximum speed, and z-hop of 0.2 mm on a delta. */
  function PrinterStage(s: Profile, printer: PrinterInfo): (r: Profile)
    ensures PrinterMaxSpeed(printer.printerType).None? ==> r == s
    ensures Keeps(s, r, PrintSpeed) && Keeps(s, r, LayerHeight) && Keeps(s, r, LineWidth)
  {
    match PrinterMaxSpeed(printer.printerType)
    case None => s
    case Some(v) =>
      var t := s[TravelSpeed := I(v)];
      if printer.printerType == "delta" then t[ZHopEnable := B(true)][ZHopHeight := R(0.2)] else t
  }

  /** A listed printer sets the travel speed, and a delta also z-hop; nothing else is written. */
  lemma PrinterStageSets(s: Profile, printer: PrinterInfo)
    ensures var r := PrinterStage(s, printer);
      OnlyWrites(s, r, {TravelSpeed, ZHopEnable, ZHopHeight}) &&
      (printer.printerType != "delta" ==> OnlyWrites(s, r, {TravelSpeed})) &&
      (PrinterMaxSpeed(printer.printerType).Some? ==>
        TravelSpeed in r && r[TravelSpeed] == I(PrinterMaxSpeed(printer.printerType).value)) &&
      (printer.printerType == "delta" ==>
        ZHopEnable in r && ZHopHeight in r && r[ZHopEnable] == B(true) && r[ZHopHeight] == R(0.2))
  {
  }

  /** The keys of a list of entries. */
  function EntryKeys(entries: seq<(Key, Value)>): set<Key> {
    set e | e in entries :: e.0
  }

  predicate DistinctKeys(entries: seq<(Key, Value)>) {
    forall i, j | 0 <= i < j < |entries| :: entries[i].0 != entries[j].0
  }

  /** `s` with every entry written over it, first to last. */
  function WithEntries(s: Profile, entries: seq<(Key, Value)>): Profile {
    if entries == [] then s
    else
      var last := entries[|entries| - 1];
      WithEntries(s, entries[..|entries| - 1])[last.0 := last.1]
  }

  lemma EntryKeysSnoc(entries: seq<(Key, Value)>, e: (Key, Value))
    ensures EntryKeys(entries + [e]) == EntryKeys(entries) + {e.0}
  {
    assert forall x | x in entries + [e] :: x in entries || x == e;
  }

  /** Copying entries with distinct keys writes exactly those keys, each with its entry's value. */
  lemma {:induction false} WithEntriesCopies(s: Profile, entries: seq<(Key, Value)>)
    requires DistinctKeys(entries)
    ensures OnlyWrites(s, WithEntries(s, entries), EntryKeys(entries))
    ensures forall i | 0 <= i < |entries| ::
      entries[i].0 in WithEntries(s, entries) && WithEntries(s, entries)[entries[i].0] == entries[i].1
  {
    if entries != [] {
      var init := entries[..|entries| - 1];
      var last := entries[|entries| - 1];
      assert entries == init + [last];
      EntryKeysSnoc(init, last);
      WithEntriesCopies(s, init);
    }
  }

  /** A key no entry names keeps its value. */
  lemma {:induction false} WithEntriesKeeps(s: Profile, entries: seq<(Key, Value)>, k: Key)
    requires forall i | 0 <= i < |entries| :: entries[i].0 != k
    ensures Keeps(s, WithEntries(s, entries), k)
  {
    if entries != [] {
      WithEntriesKeeps(s, entries[..|entries| - 1], k);
    }
  }

  const PurposeKeys: set<Key> := {WallLineCount, InfillDensity, InfillPattern, TopLayers, BottomLayers,
                                  ZHopEnable, SupportEnable, SupportAngle, AdhesionType, BrimWidth}

  /** A rule names each setting once, and only settings of the purpose table. */
  predicate RuleShaped(entries: seq<(Key, Value)>) {
    DistinctKeys(entries) && forall i | 0 <= i < |entries| :: entries[i].0 in PurposeKeys
  }

  lemma PurposeRulesShape(purpose: string)
    requires PurposeRules(purpose).Some?
    ensures DistinctKeys(PurposeRules(purpose).value)
    ensures forall i | 0 <= i < |PurposeRules(purpose).value| :: PurposeRules(purpose).value[i].0 in PurposeKeys
  {
    var rule := PurposeRules(purpose).value;
    if rule == FunctionalRule {
      FunctionalShaped();
    } else if rule == VisualRule {
      VisualShaped();
    } else if rule == MiniatureRule {
      MiniatureShaped();
    } else {
      LargeShaped();
    }
    assert RuleShaped(rule);
  }

  lemma FunctionalShaped()
    ensures RuleShaped(FunctionalRule)
  {
  }

  lemma VisualShaped()
    ensures RuleShaped(VisualRule)
  {
  }

  lemma MiniatureShaped()
    ensures RuleShaped(MiniatureRule)
  {
  }

  lemma LargeShaped()
    ensures RuleShaped(LargeRule)
  {
  }

  /** Purpose rules: every entry of the purpose's rule copied verbatim; an unlisted purpose changes nothing. */
  function PurposeStage(s: Profile, req: Requirements): (r: Profile)
    ensures PurposeRules(req.Purpose()).None? ==> r == s
    ensures Keeps(s, r, PrintSpeed) && Keeps(s, r, LayerHeight) && Keeps(s, r, LineWidth)
  {
    match PurposeRules(req.Purpose())
    case None => s
    case Some(entries) =>
      PurposeRulesShape(req.Purpose());
      RuleKeepsDrivers(s, entries);
      WithEntries(s, entries)
  }

  /** A rule of the purpose table leaves the print speed, layer height and line width alone. */
  lemma RuleKeepsDrivers(s: Profile, entries: seq<(Key, Value)>)
    requires forall i | 0 <= i < |entries| :: entries[i].0 in PurposeKeys
    ensures Keeps(s, WithEntries(s, entries), PrintSpeed)
    ensures Keeps(s, WithEntries(s, entries), LayerHeight)
    ensures Keeps(s, WithEntries(s, entries), LineWidth)
  {
    WithEntriesKeeps(s, entries, PrintSpeed);
    WithEntriesKeeps(s, entries, LayerHeight);
    WithEntriesKeeps(s, entries, LineWidth);
  }

  /** The purpose stage copies each entry of the purpose's rule and writes nothing else. */
  lemma PurposeStageCopies(s: Profile, req: Requirements)
    requires PurposeRules(req.Purpose()).Some?
    ensures var entries := PurposeRules(req.Purpose()).value; var r := PurposeStage(s, req);
      OnlyWrites(s, r, EntryKeys(entries)) &&
      forall i | 0 <= i < |entries| :: entries[i].0 in r && r[entries[i].0] == entries[i].1
  {
    PurposeRulesShape(req.Purpose());
    WithEntriesCopies(s, PurposeRules(req.Purpose()).value);
  }

  /** The quality stage reads the print speed as a number. */
  predicate SpeedIsNumber(s: Profile) {
    PrintSpeed in s ==> IsNum(s[PrintSpeed])
  }

  /** The quality level's layer height for `nozzle`: its maximum times the level's factor, to two decimals. */
  function QualityLayerHeight(q: QualityRule, nozzle: real): real {
    Round2(NozzleRuleFor(nozzle).maxLayerHeight * q.layerHeightFactor)
  }

  /** `round(speed * factor)` for an integral speed. */
  function Scaled(speed: int, factor: real): int {
    RoundHalfEven(speed as real * factor)
  }

  /** `round(v * factor)` for a number. */
  function ScaledValue(v: Value, factor: real): int
    requires IsNum(v)
  {
    RoundHalfEven(Num(v) * factor)
  }

  /**
   * Quality rules, at the level of the quality importance: a present layer
   * height becomes the nozzle's maximum times the level's factor, rounded
   * to two decimals; a present print speed is scaled by the level's factor
   * and the outer wall speed derived from it; ironing is set.
   */
  function QualityStage(s: Profile, req: Requirements, nozzle: real): (r: Profile)
    requires SpeedIsNumber(s)
    ensures LayerHeight in s ==> LayerHeight in r && r[LayerHeight] == R(QualityLayerHeight(QualityRules(LevelOf(req.Quality())), nozzle))
    ensures Keeps(s, r, LineWidth)
  {
    var q := QualityRules(LevelOf(req.Quality()));
    var t := if LayerHeight in s then s[LayerHeight := R(QualityLayerHeight(q, nozzle))] else s;
    QualitySpeeds(t, q)[IroningEnabled := B(q.ironing)]
  }

  /** A present print speed scaled by the level's factor, then the outer wall speed derived from it. */
  function QualitySpeeds(t: Profile, q: QualityRule): (r: Profile)
    requires SpeedIsNumber(t)
    ensures PrintSpeed !in t ==> r == t
    ensures PrintSpeed in t ==>
      PrintSpeed in r && r[PrintSpeed] == I(ScaledValue(t[PrintSpeed], q.speedFactor)) &&
      OuterWallSpeed in r && r[OuterWallSpeed] == I(Scaled(r[PrintSpeed].i, q.outerWallSpeedFactor))
    ensures Keeps(t, r, LayerHeight) && Keeps(t, r, LineWidth)
  {
    if PrintSpeed in t then
      var ps := ScaledValue(t[PrintSpeed], q.speedFactor);
      t[PrintSpeed := I(ps)][OuterWallSpeed := I(Scaled(ps, q.outerWallSpeedFactor))]
    else t
  }

  /** The quality stage writes the layer height, the two speeds and ironing, and nothing else. */
  lemma QualityStageFrame(s: Profile, req: Requirements, nozzle: real)
    requires SpeedIsNumber(s)
    ensures OnlyWrites(s, QualityStage(s, req, nozzle), {LayerHeight, PrintSpeed, OuterWallSpeed, IroningEnabled})
    ensures PrintSpeed !in s ==> OnlyWrites(s, QualityStage(s, req, nozzle), {LayerHeight, IroningEnabled})
  {
  }

  /** The level's ironing flag, and the scaled print speed with the outer wall speed derived from it. */
  lemma QualityStageSets(s: Profile, req: Requirements, nozzle: real)
    requires SpeedIsNumber(s)
    ensures var r := QualityStage(s, req, nozzle); var q := QualityRules(LevelOf(req.Quality()));
      IroningEnabled in r && r[IroningEnabled] == B(q.ironing) &&
      (PrintSpeed in s ==>
        PrintSpeed in r && OuterWallSpeed in r &&
        r[PrintSpeed] == I(ScaledValue(s[PrintSpeed], q.speedFactor)) &&
        r[OuterWallSpeed] == I(Scaled(r[PrintSpeed].i, q.outerWallSpeedFactor)))
  {
  }

  /**
   * Speed rules, at the level of the speed importance: the level's print
   * speed, and the outer wall, inner wall, infill and travel speeds that
   * many times its factors, rounded.
   */
  function SpeedStage(s: Profile, req: Requirements): (r: Profile)
    ensures var v := SpeedRules(LevelOf(req.Speed()));
      PrintSpeed in r && r[PrintSpeed] == I(v.printSpeed) &&
      OuterWallSpeed in r && r[OuterWallSpeed] == I(Scaled(v.printSpeed, v.outerWallFactor)) &&
      InnerWallSpeed in r && r[InnerWallSpeed] == I(Scaled(v.printSpeed, v.innerWallFactor)) &&
      InfillSpeed in r && r[InfillSpeed] == I(Scaled(v.printSpeed, v.infillFactor)) &&
      TravelSpeed in r && r[TravelSpeed] == I(Scaled(v.printSpeed, v.travelFactor))
    ensures Keeps(s, r, LayerHeight) && Keeps(s, r, LineWidth)
  {
    var sp := SpeedRules(LevelOf(req.Speed()));
    s[PrintSpeed := I(sp.printSpeed)]
     [OuterWallSpeed := I(Scaled(sp.printSpeed, sp.outerWallFactor))]
     [InnerWallSpeed := I(Scaled(sp.printSpeed, sp.innerWallFactor))]
     [InfillSpeed := I(Scaled(sp.printSpeed, sp.infillFactor))]
     [TravelSpeed := I(Scaled(sp.printSpeed, sp.travelFactor))]
  }

  const SpeedKeys: set<Key> := {PrintSpeed, OuterWallSpeed, InnerWallSpeed, InfillSpeed, TravelSpeed}

  /** The speed stage writes the five speeds and nothing else. */
  lemma SpeedStageFrame(s: Profile, req: Requirements)
    ensures OnlyWrites(s, SpeedStage(s, req), SpeedKeys)
  {
  }

  /** The top and bottom layer counts of a strength level: 4 and 3 scaled by its factors, rounded. */
  function TopLayersOf(l: Level): int { RoundHalfEven(4.0 * StrengthRules(l).topFactor) }
  function BottomLayersOf(l: Level): int { RoundHalfEven(3.0 * StrengthRules(l).bottomFactor) }

  /** The layer counts of the reachable strength levels: 6/4, 5/4, 4/3, 3/2. */
  lemma LayerCountsOfLevels()
    ensures TopLayersOf(Top) == 6 && BottomLayersOf(Top) == 4
    ensures TopLayersOf(Upper) == 5 && BottomLayersOf(Upper) == 4
    ensures TopLayersOf(Middle) == 4 && BottomLayersOf(Middle) == 3
    ensures TopLayersOf(Lower) == 3 && BottomLayersOf(Lower) == 2
  {
    assert (6.0).Floor == 6 && (4.5).Floor == 4;
    assert (4.8).Floor == 4 && (3.6).Floor == 3;
    assert (3.2).Floor == 3 && (2.4).Floor == 2;
  }

  /** The strength stage reads the layer height as a number. */
  predicate LayerIsNumber(s: Profile) {
    LayerHeight in s ==> IsNum(s[LayerHeight])
  }

  /**
   * Strength rules, at the level of the strength importance: wall count,
   * infill density and pattern; when a layer height is present, the layer
   * counts and the thicknesses they span.
   */
  function StrengthStage(s: Profile, req: Requirements): (r: Profile)
    requires LayerIsNumber(s)
    ensures WallLineCount in r && r[WallLineCount] == I(StrengthRules(LevelOf(req.Strength())).wallLineCount)
    ensures LayerHeight in s ==>
      TopThickness in r && r[TopThickness] == Mul(I(TopLayersOf(LevelOf(req.Strength()))), s[LayerHeight]) &&
      BottomThickness in r && r[BottomThickness] == Mul(I(BottomLayersOf(LevelOf(req.Strength()))), s[LayerHeight])
    ensures Keeps(s, r, LayerHeight) && Keeps(s, r, LineWidth) && Keeps(s, r, PrintSpeed)
    ensures Keeps(s, r, OuterWallSpeed) && Keeps(s, r, InnerWallSpeed) && Keeps(s, r, InfillSpeed) && Keeps(s, r, TravelSpeed)
  {
    var l := LevelOf(req.Strength());
    var st := StrengthRules(l);
    var t := s[WallLineCount := I(st.wallLineCount)][InfillDensity := I(st.infillDensity)][InfillPattern := S(st.infillPattern)];
    if LayerHeight in s then
      t[TopLayers := I(TopLayersOf(l))][BottomLayers := I(BottomLayersOf(l))]
       [TopThickness := Mul(I(TopLayersOf(l)), s[LayerHeight])]
       [BottomThickness := Mul(I(BottomLayersOf(l)), s[LayerHeight])]
    else t
  }

  const StrengthKeys: set<Key> := {WallLineCount, InfillDensity, InfillPattern, TopLayers, BottomLayers, TopThickness, BottomThickness}

  /** The strength stage writes the level's walls, infill and, given a layer height, the layer counts. */
  lemma StrengthStageSets(s: Profile, req: Requirements)
    requires LayerIsNumber(s)
    ensures var r := StrengthStage(s, req); var l := LevelOf(req.Strength()); var st := StrengthRules(l);
      OnlyWrites(s, r, StrengthKeys) &&
      (LayerHeight !in s ==> OnlyWrites(s, r, {WallLineCount, InfillDensity, InfillPattern})) &&
      InfillDensity in r && r[InfillDensity] == I(st.infillDensity) &&
      InfillPattern in r && r[InfillPattern] == S(st.infillPattern) &&
      (LayerHeight in s ==> TopLayers in r && r[TopLayers] == I(TopLayersOf(l)) &&
                            BottomLayers in r && r[BottomLayers] == I(BottomLayersOf(l)))
  {
  }

  // ---------------------------------------------------------------------
  // Dependency pass
  // ---------------------------------------------------------------------

  /** What the dependency pass reads as numbers, and the layer height it divides by. */
  predicate DependencyReady(s: Profile) {
    (LayerHeight in s ==> IsNum(s[LayerHeight])) &&
    (LayerHeight in s && TopThickness in s ==> IsNum(s[TopThickness]) && Num(s[LayerHeight]) != 0.0) &&
    (LayerHeight in s && BottomThickness in s ==> IsNum(s[BottomThickness]) && Num(s[LayerHeight]) != 0.0) &&
    (LineWidth in s && WallLineCount in s ==> IsNum(s[LineWidth]) && IsNum(s[WallLineCount])) &&
    (PrintSpeed in s && (OuterWallSpeed !in s || InnerWallSpeed !in s || InfillSpeed !in s) ==> IsNum(s[PrintSpeed]))
  }

  /** The derived settings the dependency pass may write. */
  const DerivedKeys: set<Key> := {InitialLayerHeight, TopLayers, BottomLayers, WallThickness, OuterWallSpeed, InnerWallSpeed, InfillSpeed}

  /** `round(layer_height * 1.5, 2)`. */
  function InitialLayerOf(lh: Value): Value
    requires IsNum(lh)
  {
    R(Round2(Num(lh) * 1.5))
  }

  /** `round(thickness / layer_height)`. */
  function LayerCountOf(thickness: Value, lh: Value): Value
    requires IsNum(thickness) && IsNum(lh) && Num(lh) != 0.0
  {
    RoundV(Div(thickness, lh))
  }

  /** `round(print_speed * factor)`. */
  function SpeedFrom(ps: Value, factor: real): Value
    requires IsNum(ps)
  {
    RoundV(Scale(ps, factor))
  }

  /** One affected setting re-derived from its inputs, when they are present. */
  function Affect(s: Profile, affected: Key): (r: Profile)
    requires DependencyReady(s)
    ensures DependencyReady(r)
  {
    if affected == InitialLayerHeight && LayerHeight in s then
      s[InitialLayerHeight := InitialLayerOf(s[LayerHeight])]
    else if affected == TopLayers && LayerHeight in s then
      if TopThickness in s then s[TopLayers := LayerCountOf(s[TopThickness], s[LayerHeight])] else s
    else if affected == BottomLayers && LayerHeight in s then
      if BottomThickness in s then s[BottomLayers := LayerCountOf(s[BottomThickness], s[LayerHeight])] else s
    else if affected == WallThickness && LineWidth in s then
      if WallLineCount in s then s[WallThickness := Mul(s[WallLineCount], s[LineWidth])] else s
    else if affected == OuterWallSpeed && PrintSpeed in s then
      if OuterWallSpeed !in s then s[OuterWallSpeed := SpeedFrom(s[PrintSpeed], 0.5)] else s
    else if affected == InnerWallSpeed && PrintSpeed in s then
      if InnerWallSpeed !in s then s[InnerWallSpeed := SpeedFrom(s[PrintSpeed], 0.8)] else s
    else if affected == InfillSpeed && PrintSpeed in s then
      if InfillSpeed !in s then s[InfillSpeed := SpeedFrom(s[PrintSpeed], 1.2)] else s
    else s
  }

  /** The affected settings of one driver, first to last. */
  function AffectEach(s: Profile, affected: seq<Key>): (r: Profile)
    requires DependencyReady(s)
    ensures DependencyReady(r)
  {
    if affected == [] then s
    else Affect(AffectEach(s, affected[..|affected| - 1]), affected[|affected| - 1])
  }

  /** One driver of the table: its affected settings, or nothing when the driver is absent. */
  function DriverStep(s: Profile, d: (Key, seq<Key>)): (r: Profile)
    requires DependencyReady(s)
    ensures DependencyReady(r)
  {
    if d.0 in s then AffectEach(s, d.1) else s
  }

  /** The drivers of the table, first to last. */
  function AffectAll(s: Profile, deps: seq<(Key, seq<Key>)>): (r: Profile)
    requires DependencyReady(s)
    ensures DependencyReady(r)
  {
    if deps == [] then s
    else DriverStep(AffectAll(s, deps[..|deps| - 1]), deps[|deps| - 1])
  }

  /** The adhesion and support consistency rules that close the dependency pass. */
  function AdhesionAndSupport(s: Profile): Profile {
    var t :=
      if AdhesionType !in s then s
      else if s[AdhesionType] == S("skirt") then s[BrimWidth := I(0)]
      else if s[AdhesionType] == S("brim") then s[SkirtLineCount := I(0)]
      else if s[AdhesionType] == S("raft") then s[SkirtLineCount := I(0)][BrimWidth := I(0)]
      else s;
    if SupportEnable in s && !Truthy(s[SupportEnable]) then t[SupportType := S("none")] else t
  }

  /** The whole dependency pass. */
  function DependencyStage(s: Profile): Profile
    requires DependencyReady(s)
  {
    AdhesionAndSupport(AffectAll(s, Dependencies))
  }

  lemma AffectEachOne(s: Profile, a: Key)
    requires DependencyReady(s)
    ensures AffectEach(s, [a]) == Affect(s, a)
  {
    assert [a][..0] == [];
  }

  lemma AffectEachThree(s: Profile, a: Key, b: Key, c: Key)
    requires DependencyReady(s)
    ensures AffectEach(s, [a, b, c]) == Affect(Affect(Affect(s, a), b), c)
  {
    assert [a][..0] == [];
    assert AffectEach(s, [a]) == Affect(s, a);
    assert [a, b][..1] == [a];
    assert AffectEach(s, [a, b]) == Affect(Affect(s, a), b);
    assert [a, b, c][..2] == [a, b];
  }

  /** The drivers the dependency pass reads are never written by it. */
  predicate KeepsDrivers(s: Profile, r: Profile) {
    Keeps(s, r, LayerHeight) && Keeps(s, r, TopThickness) && Keeps(s, r, BottomThickness) &&
    Keeps(s, r, LineWidth) && Keeps(s, r, WallLineCount) && Keeps(s, r, PrintSpeed)
  }

  /** Every setting of `s` is in `r` with the same value. */
  predicate Extends(s: Profile, r: Profile) {
    forall k | k in s :: k in r && r[k] == s[k]
  }

  /** The layer settings the layer height drives. */
  predicate IsLayerDerived(a: Key) {
    a == InitialLayerHeight || a == TopLayers || a == BottomLayers
  }

  /** The thickness a layer count is derived from. */
  function ThicknessFor(a: Key): Key {
    if a == TopLayers then TopThickness else BottomThickness
  }

  /**
   * One layer step, given a layer height: the initial layer height is
   * always rewritten, a layer count whenever its thickness is present.
   */
  lemma AffectLayerStep(s: Profile, a: Key)
    requires DependencyReady(s) && IsLayerDerived(a) && LayerHeight in s
    ensures LayerStepped(s, Affect(s, a), a)
  {
  }

  /**
   * `r` is `s` with at most `a` written: the initial layer height from the
   * layer height, a layer count from its thickness when that is present.
   */
  predicate LayerStepped(s: Profile, r: Profile, a: Key)
    requires DependencyReady(s) && IsLayerDerived(a) && LayerHeight in s
  {
    OnlyWrites(s, r, {a}) &&
    (a == InitialLayerHeight ==> a in r && r[a] == InitialLayerOf(s[LayerHeight])) &&
    (a != InitialLayerHeight && ThicknessFor(a) in s ==> a in r && r[a] == LayerCountOf(s[ThicknessFor(a)], s[LayerHeight])) &&
    (a != InitialLayerHeight && ThicknessFor(a) !in s ==> Keeps(s, r, a))
  }

  /** The three layer steps in a row write the initial layer height and both counts, each from `s`. */
  lemma LayerSteps(s: Profile, r1: Profile, r2: Profile, r3: Profile)
    requires DependencyReady(s) && LayerHeight in s && LayerStepped(s, r1, InitialLayerHeight)
    requires DependencyReady(r1) && LayerHeight in r1 && LayerStepped(r1, r2, TopLayers)
    requires DependencyReady(r2) && LayerHeight in r2 && LayerStepped(r2, r3, BottomLayers)
    ensures OnlyWrites(s, r3, {InitialLayerHeight, TopLayers, BottomLayers})
    ensures InitialLayerHeight in r3 && r3[InitialLayerHeight] == InitialLayerOf(s[LayerHeight])
    ensures TopThickness in s ==> TopLayers in r3 && r3[TopLayers] == LayerCountOf(s[TopThickness], s[LayerHeight])
    ensures TopThickness !in s ==> Keeps(s, r3, TopLayers)
    ensures BottomThickness in s ==> BottomLayers in r3 && r3[BottomLayers] == LayerCountOf(s[BottomThickness], s[LayerHeight])
    ensures BottomThickness !in s ==> Keeps(s, r3, BottomLayers)
  {
    OnlyWritesTrans(s, r1, r2, {InitialLayerHeight}, {TopLayers}, {InitialLayerHeight, TopLayers});
    OnlyWritesTrans(s, r2, r3, {InitialLayerHeight, TopLayers}, {BottomLayers}, {InitialLayerHeight, TopLayers, BottomLayers});
    OnlyWritesKeeps(r1, r2, {TopLayers}, InitialLayerHeight);
    OnlyWritesKeeps(r2, r3, {BottomLayers}, InitialLayerHeight);
    OnlyWritesKeeps(r2, r3, {BottomLayers}, TopLayers);
    OnlyWritesKeeps(s, r1, {InitialLayerHeight}, TopLayers);
    OnlyWritesKeeps(s, r1, {InitialLayerHeight}, BottomLayers);
    OnlyWritesKeeps(r1, r2, {TopLayers}, BottomLayers);
    OnlyWritesKeeps(s, r1, {InitialLayerHeight}, LayerHeight);
    OnlyWritesKeeps(r1, r2, {TopLayers}, LayerHeight);
    OnlyWritesKeeps(s, r1, {InitialLayerHeight}, TopThickness);
    OnlyWritesKeeps(s, r1, {InitialLayerHeight}, BottomThickness);
    OnlyWritesKeeps(r1, r2, {TopLayers}, BottomThickness);
  }

  /** The wall step: the wall thickness is the wall count times the line width, when both are present. */
  lemma AffectWallStep(s: Profile)
    requires DependencyReady(s)
    ensures var r := Affect(s, WallThickness);
      OnlyWrites(s, r, {WallThickness}) &&
      (LineWidth in s && WallLineCount in s ==> WallThickness in r && r[WallThickness] == Mul(s[WallLineCount], s[LineWidth])) &&
      (!(LineWidth in s && WallLineCount in s) ==> r == s)
  {
  }

  /** The speeds the print speed fills in. */
  predicate IsSpeedFill(a: Key) {
    a == OuterWallSpeed || a == InnerWallSpeed || a == InfillSpeed
  }

  function FillFactor(a: Key): real {
    if a == OuterWallSpeed then 0.5 else if a == InnerWallSpeed then 0.8 else 1.2
  }

  /** One speed step fills in its speed from the print speed when it is absent, and changes nothing present. */
  lemma AffectSpeedStep(s: Profile, a: Key)
    requires DependencyReady(s) && IsSpeedFill(a)
    ensures SpeedStepped(s, Affect(s, a), a)
  {
  }

  /** `r` is `s` with at most `a` added, and with `a` filled in from the print speed when it was absent. */
  predicate SpeedStepped(s: Profile, r: Profile, a: Key) {
    OnlyWrites(s, r, {a}) && Extends(s, r) &&
    (PrintSpeed in s && a !in s && IsNum(s[PrintSpeed]) ==> a in r && r[a] == SpeedFrom(s[PrintSpeed], FillFactor(a)))
  }

  /** A step that writes only a derived setting keeps the drivers. */
  lemma OnlyWritesDerivedKeepsDrivers(s: Profile, r: Profile, ks: set<Key>)
    requires OnlyWrites(s, r, ks) && ks <= DerivedKeys
    ensures KeepsDrivers(s, r)
  {
  }

  /** The layer height driver: the initial layer height and both layer counts, from the layer height. */
  lemma LayerDriver(s: Profile)
    requires DependencyReady(s)
    ensures var r := DriverStep(s, Dependencies[0]);
      OnlyWrites(s, r, {InitialLayerHeight, TopLayers, BottomLayers}) &&
      (LayerHeight !in s ==> r == s) &&
      (LayerHeight in s ==>
        InitialLayerHeight in r && r[InitialLayerHeight] == InitialLayerOf(s[LayerHeight]) &&
        (TopThickness in s ==> TopLayers in r && r[TopLayers] == LayerCountOf(s[TopThickness], s[LayerHeight])) &&
        (TopThickness !in s ==> Keeps(s, r, TopLayers)) &&
        (BottomThickness in s ==> BottomLayers in r && r[BottomLayers] == LayerCountOf(s[BottomThickness], s[LayerHeight])) &&
        (BottomThickness !in s ==> Keeps(s, r, BottomLayers)))
  {
    if LayerHeight in s {
      AffectEachThree(s, InitialLayerHeight, TopLayers, BottomLayers);
      var r1 := Affect(s, InitialLayerHeight);
      AffectLayerStep(s, InitialLayerHeight);
      var r2 := Affect(r1, TopLayers);
      AffectLayerStep(r1, TopLayers);
      AffectLayerStep(r2, BottomLayers);
      LayerSteps(s, r1, r2, Affect(r2, BottomLayers));
    }
  }

  /** A wall driver (line width or wall count): the wall thickness from both. */
  lemma WallDriver(s: Profile, i: nat)
    requires DependencyReady(s) && (i == 1 || i == 2)
    ensures var r := DriverStep(s, Dependencies[i]);
      OnlyWrites(s, r, {WallThickness}) &&
      (LineWidth in s && WallLineCount in s ==> WallThickness in r && r[WallThickness] == Mul(s[WallLineCount], s[LineWidth])) &&
      (!(LineWidth in s && WallLineCount in s) ==> r == s)
  {
    if Dependencies[i].0 in s {
      AffectEachOne(s, WallThickness);
      AffectWallStep(s);
    }
  }

  /** The print speed driver fills in absent wall and infill speeds, and never overwrites a setting. */
  lemma SpeedDriver(s: Profile)
    requires DependencyReady(s)
    ensures var r := DriverStep(s, Dependencies[3]);
      OnlyWrites(s, r, {OuterWallSpeed, InnerWallSpeed, InfillSpeed}) && Extends(s, r) &&
      (PrintSpeed in s && OuterWallSpeed !in s ==> OuterWallSpeed in r && r[OuterWallSpeed] == SpeedFrom(s[PrintSpeed], 0.5)) &&
      (PrintSpeed in s && InnerWallSpeed !in s ==> InnerWallSpeed in r && r[InnerWallSpeed] == SpeedFrom(s[PrintSpeed], 0.8)) &&
      (PrintSpeed in s && InfillSpeed !in s ==> InfillSpeed in r && r[InfillSpeed] == SpeedFrom(s[PrintSpeed], 1.2))
  {
    if PrintSpeed in s {
      AffectEachThree(s, OuterWallSpeed, InnerWallSpeed, InfillSpeed);
      var r1 := Affect(s, OuterWallSpeed);
      AffectSpeedStep(s, OuterWallSpeed);
      var r2 := Affect(r1, InnerWallSpeed);
      AffectSpeedStep(r1, InnerWallSpeed);
      AffectSpeedStep(r2, InfillSpeed);
      SpeedSteps(s, r1, r2, Affect(r2, InfillSpeed), OuterWallSpeed, InnerWallSpeed, InfillSpeed);
    }
  }

  /** Three distinct speed steps in a row: each fills in its own speed, nothing present changes. */
  lemma SpeedSteps(s: Profile, r1: Profile, r2: Profile, r3: Profile, a: Key, b: Key, c: Key)
    requires DependencyReady(s) && PrintSpeed in s
    requires IsSpeedFill(a) && IsSpeedFill(b) && IsSpeedFill(c) && a != b && b != c && a != c
    requires SpeedStepped(s, r1, a) && SpeedStepped(r1, r2, b) && SpeedStepped(r2, r3, c)
    ensures OnlyWrites(s, r3, {a, b, c}) && Extends(s, r3)
    ensures a !in s ==> a in r3 && r3[a] == SpeedFrom(s[PrintSpeed], FillFactor(a))
    ensures b !in s ==> b in r3 && r3[b] == SpeedFrom(s[PrintSpeed], FillFactor(b))
    ensures c !in s ==> c in r3 && r3[c] == SpeedFrom(s[PrintSpeed], FillFactor(c))
  {
    OnlyWritesTrans(s, r1, r2, {a}, {b}, {a, b});
    OnlyWritesTrans(s, r2, r3, {a, b}, {c}, {a, b, c});
    OnlyWritesKeeps(r1, r2, {b}, a);
    OnlyWritesKeeps(r2, r3, {c}, a);
    OnlyWritesKeeps(r2, r3, {c}, b);
    OnlyWritesKeeps(s, r1, {a}, b);
    OnlyWritesKeeps(s, r1, {a}, c);
    OnlyWritesKeeps(r1, r2, {b}, c);
    OnlyWritesKeeps(s, r1, {a}, PrintSpeed);
    OnlyWritesKeeps(r1, r2, {b}, PrintSpeed);
  }


  /** The last driver names no setting the loop knows, so it changes nothing. */
  lemma TemperatureDriver(s: Profile)
    requires DependencyReady(s)
    ensures DriverStep(s, Dependencies[4]) == s
  {
    if MaterialPrintTemperature in s {
      AffectEachOne(s, Other("cooling"));
    }
  }

  /** A table of five drivers is run as five steps. */
  lemma AffectAllFive(s: Profile, d1: (Key, seq<Key>), d2: (Key, seq<Key>), d3: (Key, seq<Key>), d4: (Key, seq<Key>), d5: (Key, seq<Key>))
    requires DependencyReady(s)
    ensures AffectAll(s, [d1, d2, d3, d4, d5]) ==
      DriverStep(DriverStep(DriverStep(DriverStep(DriverStep(s, d1), d2), d3), d4), d5)
  {
    assert [d1][..0] == [];
    assert AffectAll(s, [d1]) == DriverStep(s, d1);
    assert [d1, d2][..1] == [d1];
    assert AffectAll(s, [d1, d2]) == DriverStep(DriverStep(s, d1), d2);
    assert [d1, d2, d3][..2] == [d1, d2];
    assert AffectAll(s, [d1, d2, d3]) == DriverStep(DriverStep(DriverStep(s, d1), d2), d3);
    assert [d1, d2, d3, d4][..3] == [d1, d2, d3];
    assert AffectAll(s, [d1, d2, d3, d4]) == DriverStep(DriverStep(DriverStep(DriverStep(s, d1), d2), d3), d4);
    assert [d1, d2, d3, d4, d5][..4] == [d1, d2, d3, d4];
  }

  /** The dependency loop is its first four drivers, one after another. */
  lemma DependencyChain(s: Profile)
    requires DependencyReady(s)
    ensures AffectAll(s, Dependencies) ==
      DriverStep(DriverStep(DriverStep(DriverStep(s, Dependencies[0]), Dependencies[1]), Dependencies[2]), Dependencies[3])
  {
    AffectAllFive(s, Dependencies[0], Dependencies[1], Dependencies[2], Dependencies[3], Dependencies[4]);
    assert Dependencies == [Dependencies[0], Dependencies[1], Dependencies[2], Dependencies[3], Dependencies[4]];
    TemperatureDriver(DriverStep(DriverStep(DriverStep(DriverStep(s, Dependencies[0]), Dependencies[1]), Dependencies[2]), Dependencies[3]));
  }

  /** The dependency loop writes only derived settings, so the drivers keep their values. */
  lemma DependenciesFrame(s: Profile)
    requires DependencyReady(s)
    ensures var r := AffectAll(s, Dependencies);
      OnlyWrites(s, r, DerivedKeys) && KeepsDrivers(s, r)
  {
    DependencyChain(s);
    var a1 := DriverStep(s, Dependencies[0]);
    LayerDriver(s);
    var a2 := DriverStep(a1, Dependencies[1]);
    WallDriver(a1, 1);
    OnlyWritesTrans(s, a1, a2, {InitialLayerHeight, TopLayers, BottomLayers}, {WallThickness}, DerivedKeys);
    var a3 := DriverStep(a2, Dependencies[2]);
    WallDriver(a2, 2);
    OnlyWritesTrans(s, a2, a3, DerivedKeys, {WallThickness}, DerivedKeys);
    var a4 := DriverStep(a3, Dependencies[3]);
    SpeedDriver(a3);
    OnlyWritesTrans(s, a3, a4, DerivedKeys, {OuterWallSpeed, InnerWallSpeed, InfillSpeed}, DerivedKeys);
    OnlyWritesDerivedKeepsDrivers(s, a4, DerivedKeys);
  }

  /**
   * The layer height drives the initial layer height, always, and each
   * layer count whose thickness is present; the other drivers do not touch them.
   */
  lemma DependenciesLayers(s: Profile)
    requires DependencyReady(s) && LayerHeight in s
    ensures var r := AffectAll(s, Dependencies);
      InitialLayerHeight in r && r[InitialLayerHeight] == InitialLayerOf(s[LayerHeight]) &&
      (TopThickness in s ==> TopLayers in r && r[TopLayers] == LayerCountOf(s[TopThickness], s[LayerHeight])) &&
      (TopThickness !in s ==> Keeps(s, r, TopLayers)) &&
      (BottomThickness in s ==> BottomLayers in r && r[BottomLayers] == LayerCountOf(s[BottomThickness], s[LayerHeight])) &&
      (BottomThickness !in s ==> Keeps(s, r, BottomLayers))
  {
    DependencyChain(s);
    var a1 := DriverStep(s, Dependencies[0]);
    LayerDriver(s);
    LaterDriversKeep(a1, InitialLayerHeight);
    LaterDriversKeep(a1, TopLayers);
    LaterDriversKeep(a1, BottomLayers);
  }

  /** The wall and speed drivers leave every layer setting as the layer driver left it. */
  lemma LaterDriversKeep(a1: Profile, k: Key)
    requires DependencyReady(a1) && IsLayerDerived(k)
    ensures Keeps(a1, DriverStep(DriverStep(DriverStep(a1, Dependencies[1]), Dependencies[2]), Dependencies[3]), k)
  {
    var a2 := DriverStep(a1, Dependencies[1]);
    WallDriver(a1, 1);
    OnlyWritesKeeps(a1, a2, {WallThickness}, k);
    var a3 := DriverStep(a2, Dependencies[2]);
    WallDriver(a2, 2);
    OnlyWritesKeeps(a2, a3, {WallThickness}, k);
    SpeedDriver(a3);
    OnlyWritesKeeps(a3, DriverStep(a3, Dependencies[3]), {OuterWallSpeed, InnerWallSpeed, InfillSpeed}, k);
  }

  /** The wall thickness is the wall count times the line width when both are present, and untouched otherwise. */
  lemma DependenciesWalls(s: Profile)
    requires DependencyReady(s)
    ensures var r := AffectAll(s, Dependencies);
      (LineWidth in s && WallLineCount in s ==> WallThickness in r && r[WallThickness] == Mul(s[WallLineCount], s[LineWidth])) &&
      (!(LineWidth in s && WallLineCount in s) ==> Keeps(s, r, WallThickness))
  {
    DependencyChain(s);
    var a1 := DriverStep(s, Dependencies[0]);
    LayerDriver(s);
    OnlyWritesDerivedKeepsDrivers(s, a1, {InitialLayerHeight, TopLayers, BottomLayers});
    OnlyWritesKeeps(s, a1, {InitialLayerHeight, TopLayers, BottomLayers}, WallThickness);
    var a2 := DriverStep(a1, Dependencies[1]);
    WallDriver(a1, 1);
    OnlyWritesDerivedKeepsDrivers(a1, a2, {WallThickness});
    var a3 := DriverStep(a2, Dependencies[2]);
    WallDriver(a2, 2);
    var a4 := DriverStep(a3, Dependencies[3]);
    SpeedDriver(a3);
    OnlyWritesKeeps(a3, a4, {OuterWallSpeed, InnerWallSpeed, InfillSpeed}, WallThickness);
  }

  /**
   * The print speed fills in each absent wall and infill speed, and a
   * speed already present keeps its value.
   */
  lemma DependenciesSpeeds(s: Profile)
    requires DependencyReady(s)
    ensures var r := AffectAll(s, Dependencies);
      Keeps(s, r, PrintSpeed) &&
      (OuterWallSpeed in s ==> Keeps(s, r, OuterWallSpeed)) &&
      (InnerWallSpeed in s ==> Keeps(s, r, InnerWallSpeed)) &&
      (InfillSpeed in s ==> Keeps(s, r, InfillSpeed)) &&
      (PrintSpeed in s && OuterWallSpeed !in s ==> OuterWallSpeed in r && r[OuterWallSpeed] == SpeedFrom(s[PrintSpeed], 0.5)) &&
      (PrintSpeed in s && InnerWallSpeed !in s ==> InnerWallSpeed in r && r[InnerWallSpeed] == SpeedFrom(s[PrintSpeed], 0.8)) &&
      (PrintSpeed in s && InfillSpeed !in s ==> InfillSpeed in r && r[InfillSpeed] == SpeedFrom(s[PrintSpeed], 1.2))
  {
    DependencyChain(s);
    var a1 := DriverStep(s, Dependencies[0]);
    LayerDriver(s);
    var a2 := DriverStep(a1, Dependencies[1]);
    WallDriver(a1, 1);
    OnlyWritesTrans(s, a1, a2, {InitialLayerHeight, TopLayers, BottomLayers}, {WallThickness}, {InitialLayerHeight, TopLayers, BottomLayers, WallThickness});
    var a3 := DriverStep(a2, Dependencies[2]);
    WallDriver(a2, 2);
    OnlyWritesTrans(s, a2, a3, {InitialLayerHeight, TopLayers, BottomLayers, WallThickness}, {WallThickness}, {InitialLayerHeight, TopLayers, BottomLayers, WallThickness});
    var ks := {InitialLayerHeight, TopLayers, BottomLayers, WallThickness};
    OnlyWritesKeeps(s, a3, ks, PrintSpeed);
    OnlyWritesKeeps(s, a3, ks, OuterWallSpeed);
    OnlyWritesKeeps(s, a3, ks, InnerWallSpeed);
    OnlyWritesKeeps(s, a3, ks, InfillSpeed);
    var a4 := DriverStep(a3, Dependencies[3]);
    SpeedDriver(a3);
  }

  /** A setting that is neither derived nor a driver passes through the dependency loop unchanged. */
  lemma DependenciesKeep(s: Profile, k: Key)
    requires DependencyReady(s) && k !in DerivedKeys
    ensures Keeps(s, AffectAll(s, Dependencies), k)
  {
    DependenciesFrame(s);
    OnlyWritesKeeps(s, AffectAll(s, Dependencies), DerivedKeys, k);
  }

  /** The adhesion type clears the other adhesion fields, and disabled supports get no support type. */
  lemma AdhesionAndSupportSets(s: Profile)
    ensures var r := AdhesionAndSupport(s);
      OnlyWrites(s, r, {BrimWidth, SkirtLineCount, SupportType}) &&
      (AdhesionType in s && s[AdhesionType] == S("skirt") ==> BrimWidth in r && r[BrimWidth] == I(0)) &&
      (AdhesionType in s && s[AdhesionType] == S("brim") ==> SkirtLineCount in r && r[SkirtLineCount] == I(0)) &&
      (AdhesionType in s && s[AdhesionType] == S("raft") ==>
        BrimWidth in r && r[BrimWidth] == I(0) && SkirtLineCount in r && r[SkirtLineCount] == I(0)) &&
      (!(AdhesionType in s && s[AdhesionType] in {S("skirt"), S("raft")}) ==> Keeps(s, r, BrimWidth)) &&
      (!(AdhesionType in s && s[AdhesionType] in {S("brim"), S("raft")}) ==> Keeps(s, r, SkirtLineCount)) &&
      (SupportEnable in s && !Truthy(s[SupportEnable]) ==> SupportType in r && r[SupportType] == S("none")) &&
      (!(SupportEnable in s && !Truthy(s[SupportEnable])) ==> Keeps(s, r, SupportType))
  {
  }

  // ---------------------------------------------------------------------
  // The stages as the engine runs them
  // ---------------------------------------------------------------------

  method ApplyMaterialRules(settings: Profile, material: MaterialInfo, printer: PrinterInfo) returns (r: Profile)
    ensures r == MaterialStage(settings, material, printer)
  {
    r := settings;
    var rules := MaterialRules(material.materialType);
    if rules.None? {
      return;
    }
    var m := rules.value;
    r := r[MaterialPrintTemperature := I(m.optimalTemperature)];
    r := r[MaterialBedTemperature := I(m.optimalBedTemperature)];
    r := r[CoolingEnable := B(true)];
    r := r[FanSpeed := I(m.optimalCooling)];
    r := r[InitialFanSpeed := I(m.minCooling)];
    var extruder := if printer.directDrive then m.directDrive else m.bowden;
    r := r[RetractionEnable := B(true)];
    r := r[RetractionDistance := R(extruder.distance)];
    r := r[RetractionSpeed := I(extruder.speed)];
  }

  method ApplyNozzleRules(settings: Profile, nozzle: real) returns (r: Profile)
    ensures r == NozzleStage(settings, nozzle)
  {
    var rule := NozzleRuleFor(nozzle);
    r := settings[LayerHeight := R(rule.optimalLayerHeight)];
    r := r[LineWidth := R(rule.lineWidth)];
  }

  method ApplyPrinterRules(settings: Profile, printer: PrinterInfo) returns (r: Profile)
    ensures r == PrinterStage(settings, printer)
  {
    r := settings;
    var maxSpeed := PrinterMaxSpeed(printer.printerType);
    if maxSpeed.None? {
      return;
    }
    r := r[TravelSpeed := I(maxSpeed.value)];
    if printer.printerType == "delta" {
      r := r[ZHopEnable := B(true)];
      r := r[ZHopHeight := R(0.2)];
    }
  }

  /** The copy loop over the purpose rule's entries. */
  method ApplyPurposeRules(settings: Profile, req: Requirements) returns (r: Profile)
    ensures r == PurposeStage(settings, req)
  {
    r := settings;
    var rules := PurposeRules(req.Purpose());
    if rules.None? {
      return;
    }
    var entries := rules.value;
    for i := 0 to |entries|
      invariant r == WithEntries(settings, entries[..i])
    {
      assert entries[..i + 1][..i] == entries[..i];
      r := r[entries[i].0 := entries[i].1];
    }
    assert entries[..|entries|] == entries;
  }

  method ApplyQualityRules(settings: Profile, req: Requirements, nozzle: real) returns (r: Profile)
    requires SpeedIsNumber(settings)
    ensures r == QualityStage(settings, req, nozzle)
  {
    var q := QualityRules(LevelOf(req.Quality()));
    r := settings;
    if LayerHeight in r {
      r := r[LayerHeight := R(QualityLayerHeight(q, nozzle))];
    }
    if PrintSpeed in r {
      r := r[PrintSpeed := I(ScaledValue(r[PrintSpeed], q.speedFactor))];
      r := r[OuterWallSpeed := I(Scaled(r[PrintSpeed].i, q.outerWallSpeedFactor))];
    }
    r := r[IroningEnabled := B(q.ironing)];
  }

  method ApplySpeedRules(settings: Profile, req: Requirements) returns (r: Profile)
    ensures r == SpeedStage(settings, req)
  {
    var sp := SpeedRules(LevelOf(req.Speed()));
    r := settings[PrintSpeed := I(sp.printSpeed)];
    r := r[OuterWallSpeed := I(Scaled(sp.printSpeed, sp.outerWallFactor))];
    r := r[InnerWallSpeed := I(Scaled(sp.printSpeed, sp.innerWallFactor))];
    r := r[InfillSpeed := I(Scaled(sp.printSpeed, sp.infillFactor))];
    r := r[TravelSpeed := I(Scaled(sp.printSpeed, sp.travelFactor))];
  }

  method ApplyStrengthRules(settings: Profile, req: Requirements) returns (r: Profile)
    requires LayerIsNumber(settings)
    ensures r == StrengthStage(settings, req)
  {
    var l := LevelOf(req.Strength());
    var st := StrengthRules(l);
    r := settings[WallLineCount := I(st.wallLineCount)];
    r := r[InfillDensity := I(st.infillDensity)];
    r := r[InfillPattern := S(st.infillPattern)];
    if LayerHeight in settings {
      var topLayers := TopLayersOf(l);
      var bottomLayers := BottomLayersOf(l);
      r := r[TopLayers := I(topLayers)];
      r := r[BottomLayers := I(bottomLayers)];
      r := r[TopThickness := Mul(I(topLayers), settings[LayerHeight])];
      r := r[BottomThickness := Mul(I(bottomLayers), settings[LayerHeight])];
    }
  }

  /** The branch of the dependency loop's inner body for one affected setting. */
  method AffectSetting(settings: Profile, affected: Key) returns (r: Profile)
    requires DependencyReady(settings)
    ensures r == Affect(settings, affected)
  {
    r := settings;
    if affected == InitialLayerHeight && LayerHeight in r {
      r := r[InitialLayerHeight := InitialLayerOf(r[LayerHeight])];
    } else if affected == TopLayers && LayerHeight in r {
      if TopThickness in r {
        r := r[TopLayers := LayerCountOf(r[TopThickness], r[LayerHeight])];
      }
    } else if affected == BottomLayers && LayerHeight in r {
      if BottomThickness in r {
        r := r[BottomLayers := LayerCountOf(r[BottomThickness], r[LayerHeight])];
      }
    } else if affected == WallThickness && LineWidth in r {
      if WallLineCount in r {
        r := r[WallThickness := Mul(r[WallLineCount], r[LineWidth])];
      }
    } else if affected == OuterWallSpeed && PrintSpeed in r {
      if OuterWallSpeed !in r {
        r := r[OuterWallSpeed := SpeedFrom(r[PrintSpeed], 0.5)];
      }
    } else if affected == InnerWallSpeed && PrintSpeed in r {
      if InnerWallSpeed !in r {
        r := r[InnerWallSpeed := SpeedFrom(r[PrintSpeed], 0.8)];
      }
    } else if affected == InfillSpeed && PrintSpeed in r {
      if InfillSpeed !in r {
        r := r[InfillSpeed := SpeedFrom(r[PrintSpeed], 1.2)];
      }
    }
  }

  /** The nested loop over the dependency table. */
  method RunDependencyLoop(settings: Profile) returns (r: Profile)
    requires DependencyReady(settings)
    ensures r == AffectAll(settings, Dependencies)
  {
    r := settings;
    for i := 0 to |Dependencies|
      invariant r == AffectAll(settings, Dependencies[..i])
    {
      assert Dependencies[..i + 1][..i] == Dependencies[..i];
      r := ApplyDriver(r, Dependencies[i]);
    }
    assert Dependencies[..|Dependencies|] == Dependencies;
  }

  /** One row of the dependency table: its affected settings in order, when the driver is present. */
  method ApplyDriver(s: Profile, d: (Key, seq<Key>)) returns (r: Profile)
    requires DependencyReady(s)
    ensures r == DriverStep(s, d)
  {
    r := s;
    var affects := d.1;
    if d.0 in r {
      for j := 0 to |affects|
        invariant r == AffectEach(s, affects[..j])
      {
        assert affects[..j + 1][..j] == affects[..j];
        r := AffectSetting(r, affects[j]);
      }
      assert affects[..|affects|] == affects;
    }
  }

  /** The dependency pass: the loop, then the adhesion and support rules. */
  method ApplyDependencies(settings: Profile) returns (r: Profile)
    requires DependencyReady(settings)
    ensures r == DependencyStage(settings)
  {
    r := RunDependencyLoop(settings);
    ghost var looped := r;
    if AdhesionType in r {
      if r[AdhesionType] == S("skirt") {
        r := r[BrimWidth := I(0)];
      } else if r[AdhesionType] == S("brim") {
        r := r[SkirtLineCount := I(0)];
      } else if r[AdhesionType] == S("raft") {
        r := r[SkirtLineCount := I(0)];
        r := r[BrimWidth := I(0)];
      }
    }
    if SupportEnable in r && !Truthy(r[SupportEnable]) {
      r := r[SupportType := S("none")];
    }
  }

  // ---------------------------------------------------------------------
  // The whole pipeline
  // ---------------------------------------------------------------------

  /** The layer height the quality stage sets is never zero, whatever the level and nozzle. */
  lemma QualityLayerHeightPositive(l: Level, nozzle: real)
    ensures QualityLayerHeight(QualityRules(l), nozzle) > 0.0
  {
    var rule := NozzleRuleFor(nozzle);
    assert rule.maxLayerHeight >= 0.16;
    assert QualityRules(l).layerHeightFactor >= 0.25;
  }

  /** The stages up to strength, in the engine's order. */
  function Staged(current: Profile, printer: PrinterInfo, material: MaterialInfo, nozzle: real, req: Requirements): (s: Profile)
    requires SpeedIsNumber(current)
    ensures DependencyReady(s)
  {
    var m := MaterialStage(current, material, printer);
    var n := NozzleStage(m, nozzle);
    var p := PrinterStage(n, printer);
    var u := PurposeStage(p, req);
    var q := QualityStage(u, req, nozzle);
    var sp := SpeedStage(q, req);
    QualityLayerHeightPositive(LevelOf(req.Quality()), nozzle);
    var st := StrengthStage(sp, req);
    st
  }

  /** `apply_rules`: the seven stages, then the dependency pass. */
  function Ruled(current: Profile, printer: PrinterInfo, material: MaterialInfo, nozzle: real, req: Requirements): Profile
    requires SpeedIsNumber(current)
  {
    DependencyStage(Staged(current, printer, material, nozzle, req))
  }

  // ---------------------------------------------------------------------
  // What the pipeline produces
  // ---------------------------------------------------------------------

  /** `a * b` gives the same value either way round. */
  lemma MulCommutes(a: Value, b: Value)
    requires IsNum(a) && IsNum(b)
    ensures Mul(a, b) == Mul(b, a)
  {
  }

  /** A thickness of `c` layers of height `lh`, divided back by `lh` and rounded, is `c` layers. */
  lemma LayerCountRoundTrip(c: int, lh: Value)
    requires IsNum(lh) && Num(lh) != 0.0
    ensures LayerCountOf(Mul(I(c), lh), lh) == I(c)
  {
    MulCommutes(I(c), lh);
    LayerCountOfThickness(lh, c);
  }

  /**
   * The layer and wall settings after the seven stages: the quality
   * level's layer height, the nozzle's line width, and the strength
   * level's wall count, layer counts and the thicknesses they span.
   */
  lemma StagedLayers(current: Profile, printer: PrinterInfo, material: MaterialInfo, nozzle: real, req: Requirements)
    requires SpeedIsNumber(current)
    ensures var s := Staged(current, printer, material, nozzle, req);
      var lh := QualityLayerHeight(QualityRules(LevelOf(req.Quality())), nozzle);
      var l := LevelOf(req.Strength());
      LayerHeight in s && s[LayerHeight] == R(lh) &&
      LineWidth in s && s[LineWidth] == R(NozzleRuleFor(nozzle).lineWidth) &&
      WallLineCount in s && s[WallLineCount] == I(StrengthRules(l).wallLineCount) &&
      TopLayers in s && s[TopLayers] == I(TopLayersOf(l)) &&
      BottomLayers in s && s[BottomLayers] == I(BottomLayersOf(l)) &&
      TopThickness in s && s[TopThickness] == Mul(I(TopLayersOf(l)), R(lh)) &&
      BottomThickness in s && s[BottomThickness] == Mul(I(BottomLayersOf(l)), R(lh))
  {
    var m := MaterialStage(current, material, printer);
    var n := NozzleStage(m, nozzle);
    var p := PrinterStage(n, printer);
    var u := PurposeStage(p, req);
    var q := QualityStage(u, req, nozzle);
    var sp := SpeedStage(q, req);
    StrengthStageSets(sp, req);
  }

  /** The five speeds after the seven stages are the speed level's: the quality stage's speeds are overwritten. */
  lemma StagedSpeeds(current: Profile, printer: PrinterInfo, material: MaterialInfo, nozzle: real, req: Requirements)
    requires SpeedIsNumber(current)
    ensures var s := Staged(current, printer, material, nozzle, req);
      var v := SpeedRules(LevelOf(req.Speed()));
      PrintSpeed in s && s[PrintSpeed] == I(v.printSpeed) &&
      OuterWallSpeed in s && s[OuterWallSpeed] == I(Scaled(v.printSpeed, v.outerWallFactor)) &&
      InnerWallSpeed in s && s[InnerWallSpeed] == I(Scaled(v.printSpeed, v.innerWallFactor)) &&
      InfillSpeed in s && s[InfillSpeed] == I(Scaled(v.printSpeed, v.infillFactor)) &&
      TravelSpeed in s && s[TravelSpeed] == I(Scaled(v.printSpeed, v.travelFactor))
  {
  }

  /** The adhesion and support rules write none of the derived settings or their drivers. */
  lemma AdhesionAndSupportKeeps(s: Profile, k: Key)
    requires k !in {BrimWidth, SkirtLineCount, SupportType}
    ensures Keeps(s, AdhesionAndSupport(s), k)
  {
    AdhesionAndSupportSets(s);
    OnlyWritesKeeps(s, AdhesionAndSupport(s), {BrimWidth, SkirtLineCount, SupportType}, k);
  }

  /** Speeds present before the dependency pass come out of it unchanged, with the travel speed. */
  lemma DependencyStageKeepsSpeeds(s: Profile)
    requires DependencyReady(s)
    requires PrintSpeed in s && OuterWallSpeed in s && InnerWallSpeed in s && InfillSpeed in s && TravelSpeed in s
    ensures var r := DependencyStage(s);
      Keeps(s, r, PrintSpeed) && Keeps(s, r, OuterWallSpeed) && Keeps(s, r, InnerWallSpeed) &&
      Keeps(s, r, InfillSpeed) && Keeps(s, r, TravelSpeed)
  {
    var a := AffectAll(s, Dependencies);
    DependenciesSpeeds(s);
    DependenciesKeep(s, TravelSpeed);
    AdhesionAndSupportKeeps(a, PrintSpeed);
    AdhesionAndSupportKeeps(a, OuterWallSpeed);
    AdhesionAndSupportKeeps(a, InnerWallSpeed);
    AdhesionAndSupportKeeps(a, InfillSpeed);
    AdhesionAndSupportKeeps(a, TravelSpeed);
  }

  /**
   * The final speeds are the speed level's: the dependency pass fills in
   * only absent speeds, and after the speed stage none is absent.
   */
  lemma RuledSpeeds(current: Profile, printer: PrinterInfo, material: MaterialInfo, nozzle: real, req: Requirements)
    requires SpeedIsNumber(current)
    ensures var r := Ruled(current, printer, material, nozzle, req);
      var v := SpeedRules(LevelOf(req.Speed()));
      PrintSpeed in r && r[PrintSpeed] == I(v.printSpeed) &&
      OuterWallSpeed in r && r[OuterWallSpeed] == I(Scaled(v.printSpeed, v.outerWallFactor)) &&
      InnerWallSpeed in r && r[InnerWallSpeed] == I(Scaled(v.printSpeed, v.innerWallFactor)) &&
      InfillSpeed in r && r[InfillSpeed] == I(Scaled(v.printSpeed, v.infillFactor)) &&
      TravelSpeed in r && r[TravelSpeed] == I(Scaled(v.printSpeed, v.travelFactor))
  {
    StagedSpeeds(current, printer, material, nozzle, req);
    DependencyStageKeepsSpeeds(Staged(current, printer, material, nozzle, req));
  }

  /**
   * The layer settings out of the dependency pass, given a layer height and
   * layer counts with their thicknesses: the initial layer one and a half
   * times as high, and the layer counts taken back from the thicknesses.
   */
  lemma DependencyStageLayers(s: Profile, lh: real, top: int, bottom: int)
    requires DependencyReady(s) && lh != 0.0
    requires LayerHeight in s && s[LayerHeight] == R(lh)
    requires TopThickness in s && s[TopThickness] == Mul(I(top), R(lh))
    requires BottomThickness in s && s[BottomThickness] == Mul(I(bottom), R(lh))
    ensures var r := DependencyStage(s);
      LayerHeight in r && r[LayerHeight] == R(lh) &&
      InitialLayerHeight in r && r[InitialLayerHeight] == InitialLayerOf(R(lh)) &&
      TopLayers in r && r[TopLayers] == I(top) &&
      BottomLayers in r && r[BottomLayers] == I(bottom)
  {
    var a := AffectAll(s, Dependencies);
    DependenciesLayers(s);
    DependenciesKeep(s, LayerHeight);
    LayerCountRoundTrip(top, R(lh));
    LayerCountRoundTrip(bottom, R(lh));
    AdhesionAndSupportKeeps(a, LayerHeight);
    AdhesionAndSupportKeeps(a, InitialLayerHeight);
    AdhesionAndSupportKeeps(a, TopLayers);
    AdhesionAndSupportKeeps(a, BottomLayers);
  }

  /**
   * The final layer settings: the quality level's layer height, an initial
   * layer one and a half times as high, and the strength level's layer
   * counts, which the dependency pass recomputes from their thicknesses
   * and gets back unchanged.  The purpose rule's layer counts never survive.
   */
  lemma RuledLayers(current: Profile, printer: PrinterInfo, material: MaterialInfo, nozzle: real, req: Requirements)
    requires SpeedIsNumber(current)
    ensures var r := Ruled(current, printer, material, nozzle, req);
      var lh := QualityLayerHeight(QualityRules(LevelOf(req.Quality())), nozzle);
      var l := LevelOf(req.Strength());
      LayerHeight in r && r[LayerHeight] == R(lh) &&
      InitialLayerHeight in r && r[InitialLayerHeight] == InitialLayerOf(r[LayerHeight]) &&
      TopLayers in r && r[TopLayers] == I(TopLayersOf(l)) &&
      BottomLayers in r && r[BottomLayers] == I(BottomLayersOf(l))
  {
    StagedLayers(current, printer, material, nozzle, req);
    var lh := QualityLayerHeight(QualityRules(LevelOf(req.Quality())), nozzle);
    QualityLayerHeightPositive(LevelOf(req.Quality()), nozzle);
    var l := LevelOf(req.Strength());
    DependencyStageLayers(Staged(current, printer, material, nozzle, req), lh, TopLayersOf(l), BottomLayersOf(l));
  }

  /** The walls out of the dependency pass: count and line width unchanged, the thickness their product. */
  lemma DependencyStageWalls(s: Profile, w: int, lw: real)
    requires DependencyReady(s)
    requires WallLineCount in s && s[WallLineCount] == I(w) && LineWidth in s && s[LineWidth] == R(lw)
    ensures var r := DependencyStage(s);
      WallLineCount in r && r[WallLineCount] == I(w) && LineWidth in r && r[LineWidth] == R(lw) &&
      WallThickness in r && r[WallThickness] == Mul(I(w), R(lw))
  {
    var a := AffectAll(s, Dependencies);
    DependenciesWalls(s);
    DependenciesKeep(s, WallLineCount);
    DependenciesKeep(s, LineWidth);
    AdhesionAndSupportKeeps(a, WallLineCount);
    AdhesionAndSupportKeeps(a, LineWidth);
    AdhesionAndSupportKeeps(a, WallThickness);
  }

  /**
   * The final walls: the strength level's count, the nozzle's line width,
   * and a wall thickness that is their product.
   */
  lemma RuledWalls(current: Profile, printer: PrinterInfo, material: MaterialInfo, nozzle: real, req: Requirements)
    requires SpeedIsNumber(current)
    ensures var r := Ruled(current, printer, material, nozzle, req);
      WallLineCount in r && r[WallLineCount] == I(StrengthRules(LevelOf(req.Strength())).wallLineCount) &&
      LineWidth in r && r[LineWidth] == R(NozzleRuleFor(nozzle).lineWidth) &&
      WallThickness in r && r[WallThickness] == Mul(r[WallLineCount], r[LineWidth])
  {
    StagedLayers(current, printer, material, nozzle, req);
    DependencyStageWalls(Staged(current, printer, material, nozzle, req),
      StrengthRules(LevelOf(req.Strength())).wallLineCount, NozzleRuleFor(nozzle).lineWidth);
  }

  /** The settings the quality, speed and strength stages may write. */
  const LateKeys: set<Key> := {LayerHeight, IroningEnabled} + SpeedKeys + StrengthKeys

  /** A setting none of the quality, speed and strength stages writes passes through them. */
  lemma LateStagesKeep(u: Profile, req: Requirements, nozzle: real, k: Key)
    requires SpeedIsNumber(u) && LayerHeight in u && k !in LateKeys
    ensures Keeps(u, StrengthStage(SpeedStage(QualityStage(u, req, nozzle), req), req), k)
  {
    var q := QualityStage(u, req, nozzle);
    QualityStageFrame(u, req, nozzle);
    OnlyWritesKeeps(u, q, {LayerHeight, PrintSpeed, OuterWallSpeed, IroningEnabled}, k);
    var sp := SpeedStage(q, req);
    SpeedStageFrame(q, req);
    OnlyWritesKeeps(q, sp, SpeedKeys, k);
    StrengthStageSets(sp, req);
    OnlyWritesKeeps(sp, StrengthStage(sp, req), StrengthKeys, k);
  }

  /**
   * An entry of the purpose rule whose setting no later stage writes
   * survives the seven stages with the rule's value.
   */
  lemma StagedPurpose(current: Profile, printer: PrinterInfo, material: MaterialInfo, nozzle: real, req: Requirements, i: nat)
    requires SpeedIsNumber(current)
    requires PurposeRules(req.Purpose()).Some? && i < |PurposeRules(req.Purpose()).value|
    requires PurposeRules(req.Purpose()).value[i].0 !in LateKeys
    ensures var e := PurposeRules(req.Purpose()).value[i]; var s := Staged(current, printer, material, nozzle, req);
      e.0 in s && s[e.0] == e.1
  {
    var m := MaterialStage(current, material, printer);
    var n := NozzleStage(m, nozzle);
    var p := PrinterStage(n, printer);
    var u := PurposeStage(p, req);
    PurposeStageCopies(p, req);
    LateStagesKeep(u, req, nozzle, PurposeRules(req.Purpose()).value[i].0);
  }

  /**
   * A large print: the purpose rule's brim of 8 survives to the end, and
   * the adhesion rule then clears the skirt.
   */
  lemma RuledLargePrint(current: Profile, printer: PrinterInfo, material: MaterialInfo, nozzle: real, req: Requirements)
    requires SpeedIsNumber(current) && req.Purpose() == "large"
    ensures var r := Ruled(current, printer, material, nozzle, req);
      AdhesionType in r && r[AdhesionType] == S("brim") &&
      BrimWidth in r && r[BrimWidth] == I(8) &&
      SkirtLineCount in r && r[SkirtLineCount] == I(0)
  {
    assert PurposeRules(req.Purpose()).value == LargeRule;
    assert LargeRule[5] == (AdhesionType, S("brim")) && LargeRule[6] == (BrimWidth, I(8));
    assert AdhesionType !in LateKeys && BrimWidth !in LateKeys;
    StagedPurpose(current, printer, material, nozzle, req, 5);
    StagedPurpose(current, printer, material, nozzle, req, 6);
    var s := Staged(current, printer, material, nozzle, req);
    DependencyStageAdhesion(s);
  }

  /** A brim set before the dependency pass is kept, and the skirt is cleared. */
  lemma DependencyStageAdhesion(s: Profile)
    requires DependencyReady(s)
    requires AdhesionType in s && s[AdhesionType] == S("brim") && BrimWidth in s
    ensures var r := DependencyStage(s);
      AdhesionType in r && r[AdhesionType] == S("brim") &&
      Keeps(s, r, BrimWidth) && SkirtLineCount in r && r[SkirtLineCount] == I(0)
  {
    var a := AffectAll(s, Dependencies);
    DependenciesKeep(s, AdhesionType);
    DependenciesKeep(s, BrimWidth);
    AdhesionAndSupportSets(a);
    AdhesionAndSupportKeeps(a, AdhesionType);
  }

  /** The material, nozzle, printer and purpose stages leave alone every setting their rules do not name. */
  lemma EarlyStagesKeep(current: Profile, printer: PrinterInfo, material: MaterialInfo, nozzle: real, req: Requirements, k: Key)
    requires k !in MaterialKeys + {LayerHeight, LineWidth, TravelSpeed, ZHopEnable, ZHopHeight} + PurposeKeys
    ensures Keeps(current, PurposeStage(PrinterStage(NozzleStage(MaterialStage(current, material, printer), nozzle), printer), req), k)
  {
    var m := MaterialStage(current, material, printer);
    if MaterialRules(material.materialType).Some? {
      MaterialStageSets(current, material, printer);
      OnlyWritesKeeps(current, m, MaterialKeys, k);
    }
    var n := NozzleStage(m, nozzle);
    NozzleStageFrame(m, nozzle);
    OnlyWritesKeeps(m, n, {LayerHeight, LineWidth}, k);
    var p := PrinterStage(n, printer);
    PrinterStageSets(n, printer);
    OnlyWritesKeeps(n, p, {TravelSpeed, ZHopEnable, ZHopHeight}, k);
    if PurposeRules(req.Purpose()).Some? {
      PurposeRulesShape(req.Purpose());
      WithEntriesKeeps(p, PurposeRules(req.Purpose()).value, k);
    }
  }

  /** Every setting some stage or the dependency pass may write. */
  const WrittenKeys: set<Key> :=
    MaterialKeys + {LayerHeight, LineWidth, TravelSpeed, ZHopEnable, ZHopHeight} + PurposeKeys + LateKeys +
    DerivedKeys + {BrimWidth, SkirtLineCount, SupportType}

  /** A setting of the caller's that no rule names comes back as it was, present or absent. */
  lemma RuledKeeps(current: Profile, printer: PrinterInfo, material: MaterialInfo, nozzle: real, req: Requirements, k: Key)
    requires SpeedIsNumber(current) && k !in WrittenKeys
    ensures Keeps(current, Ruled(current, printer, material, nozzle, req), k)
  {
    EarlyStagesKeep(current, printer, material, nozzle, req, k);
    var u := PurposeStage(PrinterStage(NozzleStage(MaterialStage(current, material, printer), nozzle), printer), req);
    LateStagesKeep(u, req, nozzle, k);
    var s := Staged(current, printer, material, nozzle, req);
    DependenciesKeep(s, k);
    AdhesionAndSupportKeeps(AffectAll(s, Dependencies), k);
  }

  /** The seven stages as the engine runs them, one after another. */
  method ApplyStages(printer: PrinterInfo, material: MaterialInfo, nozzle: real, req: Requirements, current: Profile)
    returns (settings: Profile)
    requires SpeedIsNumber(current)
    ensures settings == Staged(current, printer, material, nozzle, req)
  {
    settings := ApplyMaterialRules(current, material, printer);
    settings := ApplyNozzleRules(settings, nozzle);
    settings := ApplyPrinterRules(settings, printer);
    settings := ApplyPurposeRules(settings, req);
    settings := ApplyQualityRules(settings, req, nozzle);
    settings := ApplySpeedRules(settings, req);
    QualityLayerHeightPositive(LevelOf(req.Quality()), nozzle);
    settings := ApplyStrengthRules(settings, req);
  }

  /**
   * The engine as it runs: the stages over a copy of the caller's settings
   * (a map is a value here, so the caller's is untouched), then the
   * dependency pass.
   */
  method ApplyRules(printer: PrinterInfo, material: MaterialInfo, nozzle: real, req: Requirements, current: Profile)
    returns (settings: Profile)
    requires SpeedIsNumber(current)
    ensures settings == Ruled(current, printer, material, nozzle, req)
  {
    settings := ApplyStages(printer, material, nozzle, req, current);
    settings := ApplyDependencies(settings);
  }
}
