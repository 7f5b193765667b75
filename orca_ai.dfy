/**
 * The profile-generation pipeline of the AI engine: defaults derived from
 * the nozzle and the filament, importance-driven adjustments, material /
 * extruder / kinematics / purpose rules and a final consistency pass.
 *
 * The pipeline always starts from its own defaults, so the keys of its
 * profile and the Python type of every value are fixed: the profile is a
 * record of the sections the defaults are written in, each with one typed
 * field per setting (the three settings the purpose rules may add are
 * optional).  `ToProfile` gives the dictionary the other components see.
 *
 * Each stage is a specification function on settings; the stages that
 * update the profile dictionary in place are also methods that perform the
 * same updates one at a time and are proved equal to their function.
 */
module OrcaAI {
  import opened Values
  import opened Inputs

  datatype Quality = Quality(layerHeight: real, initialLayerHeight: real, lineWidth: real)
  datatype Shell = Shell(
    wallThickness: real, wallLineCount: int,
    topThickness: real, topLayers: int, bottomThickness: real, bottomLayers: int,
    minimumWallFlow: Option<int>, zSeamType: Option<string>)
  datatype Infill = Infill(density: int, pattern: string)
  datatype Material = Material(printTemperature: int, bedTemperature: int, flow: int)
  datatype Speed = Speed(printSpeed: int, infillSpeed: int, outerWallSpeed: int, innerWallSpeed: int, travelSpeed: int)
  datatype Travel = Travel(
    retractionEnable: bool, retractionDistance: real, retractionSpeed: int,
    zHopEnable: bool, zHopHeight: Option<real>)
  datatype Cooling = Cooling(enable: bool, fanSpeed: int, initialFanSpeed: int)
  datatype Support = Support(enable: bool, supportType: string, angle: int)
  datatype Adhesion = Adhesion(adhesionType: string, skirtLineCount: int, brimWidth: int)
  datatype Experimental = Experimental(ironing: bool, adaptiveLayers: bool)

  /** A generated profile, section by section. */
  datatype Settings = Settings(
    quality: Quality, shell: Shell, infill: Infill, material: Material, speed: Speed,
    travel: Travel, cooling: Cooling, support: Support, adhesion: Adhesion,
    experimental: Experimental)

  /** Python `max` / `min` on two numbers: the first unless the second is strictly beyond it. */
  function RMax(a: real, b: real): (m: real)
    ensures m >= a && m >= b && (m == a || m == b)
  {
    if b > a then b else a
  }

  function RMin(a: real, b: real): (m: real)
    ensures m <= a && m <= b && (m == a || m == b)
  {
    if b < a then b else a
  }

  function IMax(a: int, b: int): (m: int)
    ensures m >= a && m >= b && (m == a || m == b)
  {
    if b > a then b else a
  }

  function IMin(a: int, b: int): (m: int)
    ensures m <= a && m <= b && (m == a || m == b)
  {
    if b < a then b else a
  }

  // ---------------------------------------------------------------------
  // Consistency of a profile
  // ---------------------------------------------------------------------

  /** The shell thicknesses agree with the wall count and the layer counts. */
  predicate ShellConsistent(s: Settings) {
    s.shell.wallThickness == s.shell.wallLineCount as real * s.quality.lineWidth &&
    s.quality.layerHeight != 0.0 &&
    s.shell.topLayers == RoundHalfEven(s.shell.topThickness / s.quality.layerHeight) &&
    s.shell.bottomLayers == RoundHalfEven(s.shell.bottomThickness / s.quality.layerHeight)
  }

  /** Disabled supports have no support type. */
  predicate SupportConsistent(s: Support) {
    !s.enable ==> s.supportType == "none"
  }

  /** A skirt has no brim, a brim no skirt, and a raft neither. */
  predicate AdhesionConsistent(a: Adhesion) {
    (a.adhesionType == "skirt" ==> a.brimWidth == 0) &&
    (a.adhesionType == "brim" ==> a.skirtLineCount == 0) &&
    (a.adhesionType == "raft" ==> a.skirtLineCount == 0 && a.brimWidth == 0)
  }

  /** Without retraction there is no Z-hop. */
  predicate RetractionConsistent(t: Travel) {
    !t.retractionEnable ==> !t.zHopEnable
  }

  predicate Consistent(s: Settings) {
    ShellConsistent(s) && SupportConsistent(s.support) &&
    AdhesionConsistent(s.adhesion) && RetractionConsistent(s.travel)
  }

  /** `round(h * c / h) == c` for a layer height `h` that is not zero. */
  lemma LayerCount(h: real, c: int)
    requires h != 0.0
    ensures RoundHalfEven(h * c as real / h) == c
  {
    MulDiv(h, c as real);
    RoundOfInteger(c);
  }

  // ---------------------------------------------------------------------
  // Defaults
  // ---------------------------------------------------------------------

  /** The defaults dictionary for a given layer height and line width. */
  function DefaultsFrom(printer: PrinterInfo, material: MaterialInfo, lh: real, lw: real): Settings {
    Settings(
      quality := Quality(lh, lh * 1.5, lw),
      shell := Shell(lw * 3.0, 3, lh * 6.0, 6, lh * 5.0, 5, None, None),
      infill := Infill(20, "gyroid"),
      material := Material((material.tempMin + material.tempMax) / 2,
                           (material.bedMin + material.bedMax) / 2, 100),
      speed := Speed(50, 80, 25, 50, 150),
      travel := Travel(true, if printer.directDrive then 0.8 else 5.0, 35, false, None),
      cooling := Cooling(true, material.coolingMax, material.coolingMin),
      support := Support(false, "everywhere", 50),
      adhesion := Adhesion("skirt", 3, 8),
      experimental := Experimental(false, false))
  }

  /**
   * The starting profile: layers at 40% and lines at 110% of the nozzle
   * (to two decimals), a first layer 1.5 times thicker, a three-wall shell
   * with six top and five bottom layers whose thicknesses agree with those
   * counts, the floored midpoints of the filament's nozzle and bed ranges,
   * the filament's fan range and a retraction suited to the extruder.
   */
  function DefaultSettings(printer: PrinterInfo, material: MaterialInfo, nozzle: real): (s: Settings)
    ensures -0.005 <= s.quality.layerHeight - nozzle * 0.4 <= 0.005
    ensures -0.005 <= s.quality.lineWidth - nozzle * 1.1 <= 0.005
    ensures s.quality.initialLayerHeight == s.quality.layerHeight * 1.5
    ensures s.shell.wallLineCount == 3 && s.shell.topLayers == 6 && s.shell.bottomLayers == 5
    ensures s.quality.layerHeight != 0.0 ==> ShellConsistent(s)
    ensures 2 * s.material.printTemperature <= material.tempMin + material.tempMax
                                            <= 2 * s.material.printTemperature + 1
    ensures material.tempMin <= material.tempMax ==>
      material.tempMin <= s.material.printTemperature <= material.tempMax
    ensures material.bedMin <= material.bedMax ==>
      material.bedMin <= s.material.bedTemperature <= material.bedMax
    ensures s.cooling.fanSpeed == material.coolingMax && s.cooling.initialFanSpeed == material.coolingMin
    ensures s.travel.retractionDistance == if printer.directDrive then 0.8 else 5.0
    ensures s.travel.retractionEnable && !s.travel.zHopEnable && s.travel.zHopHeight.None?
    ensures !s.support.enable && s.adhesion.adhesionType == "skirt"
    ensures s.shell.minimumWallFlow.None? && s.shell.zSeamType.None?
  {
    var lh := Round2(nozzle * 0.4);
    var lw := Round2(nozzle * 1.1);
    if lh != 0.0 then
      LayerCount(lh, 6);
      LayerCount(lh, 5);
      DefaultsFrom(printer, material, lh, lw)
    else
      DefaultsFrom(printer, material, lh, lw)
  }

  // ---------------------------------------------------------------------
  // Importance-driven recommendations
  // ---------------------------------------------------------------------

  /** The layer height after weighing surface quality against speed. */
  function NewLayerHeight(current: real, nozzle: real, req: Requirements): (h: real)
    ensures req.Quality() > req.Speed() ==>
      h == Round2(RMax(nozzle * 0.25, 0.08)) && h >= 0.075
    ensures req.Speed() > req.Quality() ==>
      h == Round2(RMin(nozzle * 0.75, 0.3)) && h <= 0.305
    ensures req.Quality() == req.Speed() ==> h == current
  {
    if req.Quality() > req.Speed() then Round2(RMax(nozzle * 0.25, 0.08))
    else if req.Speed() > req.Quality() then Round2(RMin(nozzle * 0.75, 0.3))
    else current
  }

  /**
   * The layer block: the new layer height, the first layer at 1.5 times it
   * (to two decimals), and top and bottom shells of six and five layers of
   * the new height.
   */
  function RecLayers(s: Settings, nozzle: real, req: Requirements): (r: Settings)
    ensures r.quality.layerHeight == NewLayerHeight(s.quality.layerHeight, nozzle, req)
    ensures r.quality.initialLayerHeight == Round2(r.quality.layerHeight * 1.5)
    ensures r.quality.lineWidth == s.quality.lineWidth
    ensures r.shell.topThickness == r.quality.layerHeight * 6.0 && r.shell.topLayers == 6
    ensures r.shell.bottomThickness == r.quality.layerHeight * 5.0 && r.shell.bottomLayers == 5
    ensures r.shell.(topThickness := s.shell.topThickness, topLayers := s.shell.topLayers,
                     bottomThickness := s.shell.bottomThickness,
                     bottomLayers := s.shell.bottomLayers) == s.shell
    ensures r.(quality := s.quality, shell := s.shell) == s
  {
    var lh := NewLayerHeight(s.quality.layerHeight, nozzle, req);
    s.(quality := s.quality.(layerHeight := lh, initialLayerHeight := Round2(lh * 1.5)),
       shell := s.shell.(topThickness := lh * 6.0, topLayers := 6,
                         bottomThickness := lh * 5.0, bottomLayers := 5))
  }

  /** The wall count from strength against material usage. */
  function WallCount(current: int, req: Requirements): (n: int)
    ensures req.Strength() > req.MaterialUsage() ==> n == 4
    ensures req.MaterialUsage() > req.Strength() ==> n == 2
    ensures req.Strength() == req.MaterialUsage() ==> n == current
  {
    if req.Strength() > req.MaterialUsage() then 4
    else if req.MaterialUsage() > req.Strength() then 2
    else current
  }

  /** Wall count, then the shell thickness as line width times wall count. */
  function RecWalls(s: Settings, req: Requirements): (r: Settings)
    ensures r.shell.wallLineCount == WallCount(s.shell.wallLineCount, req)
    ensures r.shell.wallThickness == r.quality.lineWidth * r.shell.wallLineCount as real
    ensures r.shell.(wallLineCount := s.shell.wallLineCount,
                     wallThickness := s.shell.wallThickness) == s.shell
    ensures r.(shell := s.shell) == s
  {
    var w := WallCount(s.shell.wallLineCount, req);
    s.(shell := s.shell.(wallLineCount := w, wallThickness := s.quality.lineWidth * w as real))
  }

  /** Infill density and pattern by strength importance, then material usage. */
  function InfillChoice(req: Requirements): (c: Option<Infill>)
    ensures req.Strength() > 4 ==> c == Some(Infill(40, "cubic"))
    ensures req.Strength() == 4 ==> c == Some(Infill(30, "gyroid"))
    ensures req.Strength() <= 3 && req.MaterialUsage() > 4 ==> c == Some(Infill(10, "gyroid"))
    ensures req.Strength() <= 3 && req.MaterialUsage() <= 4 ==> c == None
  {
    if req.Strength() > 4 then Some(Infill(40, "cubic"))
    else if req.Strength() > 3 then Some(Infill(30, "gyroid"))
    else if req.MaterialUsage() > 4 then Some(Infill(10, "gyroid"))
    else None
  }

  function RecInfill(s: Settings, req: Requirements): (r: Settings)
    ensures InfillChoice(req).Some? ==> r.infill == InfillChoice(req).value
    ensures r.(infill := s.infill) == s
    ensures InfillChoice(req).None? ==> r == s
  {
    match InfillChoice(req)
    case Some(choice) => s.(infill := choice)
    case None => s
  }

  /** Faster speeds when speed matters most, slower ones when surface quality does; travel stays. */
  function RecSpeeds(s: Settings, req: Requirements): (r: Settings)
    ensures req.Speed() > 4 ==> r.speed == s.speed.(printSpeed := 70, infillSpeed := 100, outerWallSpeed := 35, innerWallSpeed := 70)
    ensures req.Speed() <= 4 && req.Quality() > 4 ==>
      r.speed == s.speed.(printSpeed := 40, infillSpeed := 60, outerWallSpeed := 20, innerWallSpeed := 40)
    ensures req.Speed() <= 4 && req.Quality() <= 4 ==> r == s
    ensures r.(speed := s.speed) == s && r.speed.travelSpeed == s.speed.travelSpeed
  {
    if req.Speed() > 4 then
      s.(speed := s.speed.(printSpeed := 70, infillSpeed := 100, outerWallSpeed := 35, innerWallSpeed := 70))
    else if req.Quality() > 4 then
      s.(speed := s.speed.(printSpeed := 40, infillSpeed := 60, outerWallSpeed := 20, innerWallSpeed := 40))
    else s
  }

  /**
   * Hotter for functional parts, cooler for visual ones, each kept 5 degrees
   * inside the filament's range; unchanged for other purposes.
   */
  function RecTemperature(s: Settings, material: MaterialInfo, req: Requirements): (r: Settings)
    ensures req.Purpose() == "functional" ==>
      r.material.printTemperature <= material.tempMax - 5 &&
      r.material.printTemperature <= s.material.printTemperature + 10 &&
      (r.material.printTemperature == material.tempMax - 5 ||
       r.material.printTemperature == s.material.printTemperature + 10)
    ensures req.Purpose() == "visual" ==>
      r.material.printTemperature >= material.tempMin + 5 &&
      r.material.printTemperature >= s.material.printTemperature - 5 &&
      (r.material.printTemperature == material.tempMin + 5 ||
       r.material.printTemperature == s.material.printTemperature - 5)
    ensures req.Purpose() != "functional" && req.Purpose() != "visual" ==> r == s
    ensures r.material.(printTemperature := s.material.printTemperature) == s.material
    ensures r.(material := s.material) == s
  {
    var t := s.material.printTemperature;
    if req.Purpose() == "functional" then
      s.(material := s.material.(printTemperature := IMin(material.tempMax - 5, t + 10)))
    else if req.Purpose() == "visual" then
      s.(material := s.material.(printTemperature := IMax(material.tempMin + 5, t - 5)))
    else s
  }

  /** The fan after the purpose rules: full for PLA miniatures, 80% for PLA functional parts. */
  function PurposeCooling(c: Cooling, material: MaterialInfo, purpose: string): (r: Cooling)
    ensures purpose == "miniature" && material.materialType == "PLA" ==>
      r == c.(fanSpeed := 100, initialFanSpeed := 100)
    ensures purpose == "functional" && material.materialType == "PLA" ==> r == c.(fanSpeed := 80)
    ensures material.materialType != "PLA" || purpose !in {"miniature", "functional"} ==> r == c
  {
    if purpose == "miniature" && material.materialType == "PLA" then c.(fanSpeed := 100, initialFanSpeed := 100)
    else if purpose == "functional" && material.materialType == "PLA" then c.(fanSpeed := 80)
    else c
  }

  /** Supports at 60 degrees for miniatures and 45 for functional parts. */
  function PurposeSupport(p: Support, purpose: string): (r: Support)
    ensures purpose == "miniature" ==> r == p.(enable := true, angle := 60)
    ensures purpose == "functional" ==> r == p.(enable := true, angle := 45)
    ensures purpose !in {"miniature", "functional"} ==> r == p
  {
    if purpose == "miniature" then p.(enable := true, angle := 60)
    else if purpose == "functional" then p.(enable := true, angle := 45)
    else p
  }

  /** A 10 mm brim for large parts and a 4 mm brim for miniatures. */
  function PurposeAdhesion(a: Adhesion, purpose: string): (r: Adhesion)
    ensures purpose == "large" ==> r == a.(adhesionType := "brim", brimWidth := 10)
    ensures purpose == "miniature" ==> r == a.(adhesionType := "brim", brimWidth := 4)
    ensures purpose !in {"large", "miniature"} ==> r == a
  {
    if purpose == "large" then a.(adhesionType := "brim", brimWidth := 10)
    else if purpose == "miniature" then a.(adhesionType := "brim", brimWidth := 4)
    else a
  }

  /** Ironing for demanding visual parts, adaptive layers for demanding accuracy. */
  function ExperimentalFeatures(e: Experimental, req: Requirements): (r: Experimental)
    ensures r.ironing == (e.ironing || (req.Quality() > 4 && req.Purpose() == "visual"))
    ensures r.adaptiveLayers == (e.adaptiveLayers || req.Accuracy() > 4)
  {
    var ironed := if req.Quality() > 4 && req.Purpose() == "visual" then e.(ironing := true) else e;
    if req.Accuracy() > 4 then ironed.(adaptiveLayers := true) else ironed
  }

  /** Fan, supports, adhesion and the experimental features, by purpose. */
  function RecPurposeFeatures(s: Settings, material: MaterialInfo, req: Requirements): (r: Settings)
    ensures r.cooling == PurposeCooling(s.cooling, material, req.Purpose())
    ensures r.support == PurposeSupport(s.support, req.Purpose())
    ensures r.adhesion == PurposeAdhesion(s.adhesion, req.Purpose())
    ensures r.experimental == ExperimentalFeatures(s.experimental, req)
    ensures r.(cooling := s.cooling, support := s.support, adhesion := s.adhesion,
               experimental := s.experimental) == s
  {
    var purpose := req.Purpose();
    s.(cooling := PurposeCooling(s.cooling, material, purpose),
       support := PurposeSupport(s.support, purpose),
       adhesion := PurposeAdhesion(s.adhesion, purpose),
       experimental := ExperimentalFeatures(s.experimental, req))
  }

  /** The whole recommendation stage, in source order. */
  function Recommended(s: Settings, material: MaterialInfo, nozzle: real, req: Requirements): Settings {
    var walled := RecWalls(RecLayers(s, nozzle, req), req);
    RecPurposeFeatures(RecTemperature(RecSpeeds(RecInfill(walled, req), req), material, req), material, req)
  }

  /** The layer block as the source runs it, one in-place update at a time. */
  method AdjustLayers(profile: Settings, nozzle: real, req: Requirements) returns (r: Settings)
    requires NewLayerHeight(profile.quality.layerHeight, nozzle, req) != 0.0
    ensures r == RecLayers(profile, nozzle, req)
  {
    r := profile;
    if req.Quality() > req.Speed() {
      r := r.(quality := r.quality.(layerHeight := Round2(RMax(nozzle * 0.25, 0.08))));
    } else if req.Speed() > req.Quality() {
      r := r.(quality := r.quality.(layerHeight := Round2(RMin(nozzle * 0.75, 0.3))));
    }
    var lh := r.quality.layerHeight;
    r := r.(quality := r.quality.(initialLayerHeight := Round2(lh * 1.5)));
    r := r.(shell := r.shell.(topThickness := lh * 6.0));
    LayerCount(lh, 6);
    r := r.(shell := r.shell.(topLayers := RoundHalfEven(r.shell.topThickness / lh)));
    r := r.(shell := r.shell.(bottomThickness := lh * 5.0));
    LayerCount(lh, 5);
    r := r.(shell := r.shell.(bottomLayers := RoundHalfEven(r.shell.bottomThickness / lh)));
  }

  /** The wall block as the source runs it. */
  method AdjustWalls(profile: Settings, req: Requirements) returns (r: Settings)
    ensures r == RecWalls(profile, req)
  {
    r := profile;
    if req.Strength() > req.MaterialUsage() {
      r := r.(shell := r.shell.(wallLineCount := 4));
    } else if req.MaterialUsage() > req.Strength() {
      r := r.(shell := r.shell.(wallLineCount := 2));
    }
    r := r.(shell := r.shell.(wallThickness := r.quality.lineWidth * r.shell.wallLineCount as real));
  }

  /** The infill block as the source runs it. */
  method AdjustInfill(profile: Settings, req: Requirements) returns (r: Settings)
    ensures r == RecInfill(profile, req)
  {
    r := profile;
    if req.Strength() > 4 {
      r := r.(infill := r.infill.(density := 40));
      r := r.(infill := r.infill.(pattern := "cubic"));
    } else if req.Strength() > 3 {
      r := r.(infill := r.infill.(density := 30));
      r := r.(infill := r.infill.(pattern := "gyroid"));
    } else if req.MaterialUsage() > 4 {
      r := r.(infill := r.infill.(density := 10));
      r := r.(infill := r.infill.(pattern := "gyroid"));
    }
  }

  /** The speed block as the source runs it. */
  method AdjustSpeeds(profile: Settings, req: Requirements) returns (r: Settings)
    ensures r == RecSpeeds(profile, req)
  {
    r := profile;
    if req.Speed() > 4 {
      r := r.(speed := r.speed.(printSpeed := 70));
      r := r.(speed := r.speed.(infillSpeed := 100));
      r := r.(speed := r.speed.(outerWallSpeed := 35));
      r := r.(speed := r.speed.(innerWallSpeed := 70));
    } else if req.Quality() > 4 {
      r := r.(speed := r.speed.(printSpeed := 40));
      r := r.(speed := r.speed.(infillSpeed := 60));
      r := r.(speed := r.speed.(outerWallSpeed := 20));
      r := r.(speed := r.speed.(innerWallSpeed := 40));
    }
  }

  /** The temperature block as the source runs it. */
  method AdjustTemperature(profile: Settings, material: MaterialInfo, req: Requirements) returns (r: Settings)
    ensures r == RecTemperature(profile, material, req)
  {
    r := profile;
    var purpose := req.Purpose();
    if purpose == "functional" {
      r := r.(material := r.material.(printTemperature :=
             IMin(material.tempMax - 5, r.material.printTemperature + 10)));
    } else if purpose == "visual" {
      r := r.(material := r.material.(printTemperature :=
             IMax(material.tempMin + 5, r.material.printTemperature - 5)));
    }
  }

  /** The cooling, support, adhesion and experimental blocks as the source runs them. */
  method AdjustPurposeFeatures(profile: Settings, material: MaterialInfo, req: Requirements) returns (r: Settings)
    ensures r == RecPurposeFeatures(profile, material, req)
  {
    r := profile;
    var purpose := req.Purpose();
    if purpose == "miniature" && material.materialType == "PLA" {
      r := r.(cooling := r.cooling.(fanSpeed := 100));
      r := r.(cooling := r.cooling.(initialFanSpeed := 100));
    } else if purpose == "functional" && material.materialType == "PLA" {
      r := r.(cooling := r.cooling.(fanSpeed := 80));
    }
    assert r.cooling == PurposeCooling(profile.cooling, material, purpose);
    if purpose == "miniature" {
      r := r.(support := r.support.(enable := true));
      r := r.(support := r.support.(angle := 60));
    } else if purpose == "functional" {
      r := r.(support := r.support.(enable := true));
      r := r.(support := r.support.(angle := 45));
    }
    assert r.support == PurposeSupport(profile.support, purpose);
    if purpose == "large" {
      r := r.(adhesion := r.adhesion.(adhesionType := "brim"));
      r := r.(adhesion := r.adhesion.(brimWidth := 10));
    } else if purpose == "miniature" {
      r := r.(adhesion := r.adhesion.(adhesionType := "brim"));
      r := r.(adhesion := r.adhesion.(brimWidth := 4));
    }
    assert r.adhesion == PurposeAdhesion(profile.adhesion, purpose);
    if req.Quality() > 4 && purpose == "visual" {
      r := r.(experimental := r.experimental.(ironing := true));
    }
    if req.Accuracy() > 4 {
      r := r.(experimental := r.experimental.(adaptiveLayers := true));
    }
  }

  /**
   * The recommendation stage as the source runs it, block by block.  The
   * shell layer counts are recomputed as `round(thickness / layer_height)`,
   * so the chosen layer height must not be zero.
   */
  method ApplyAiRecommendations(profile: Settings, material: MaterialInfo, nozzle: real, req: Requirements)
    returns (r: Settings)
    requires NewLayerHeight(profile.quality.layerHeight, nozzle, req) != 0.0
    ensures r == Recommended(profile, material, nozzle, req)
  {
    r := AdjustLayers(profile, nozzle, req);
    r := AdjustWalls(r, req);
    r := AdjustInfill(r, req);
    r := AdjustSpeeds(r, req);
    r := AdjustTemperature(r, material, req);
    r := AdjustPurposeFeatures(r, material, req);
  }

  // ---------------------------------------------------------------------
  // Material, extruder, kinematics and purpose rules
  // ---------------------------------------------------------------------

  /** PETG, ABS and TPU clamps; other filaments are left alone. */
  function MaterialAdjusted(s: Settings, material: MaterialInfo): (r: Settings)
    ensures material.materialType == "PETG" ==>
      r == s.(travel := s.travel.(retractionDistance := RMin(s.travel.retractionDistance * 1.2, 8.0)),
              cooling := s.cooling.(fanSpeed := IMin(s.cooling.fanSpeed, 60)),
              speed := s.speed.(printSpeed := IMin(s.speed.printSpeed, 60)))
    ensures material.materialType == "ABS" ==>
      r == s.(cooling := s.cooling.(fanSpeed := IMin(s.cooling.fanSpeed, 30), initialFanSpeed := 0),
              adhesion := s.adhesion.(adhesionType := "brim", brimWidth := IMax(s.adhesion.brimWidth, 8)))
    ensures material.materialType == "TPU" ==>
      r == s.(travel := s.travel.(retractionEnable := false),
              speed := s.speed.(printSpeed := IMin(s.speed.printSpeed, 30),
                                outerWallSpeed := IMin(s.speed.outerWallSpeed, 15)))
    ensures material.materialType !in {"PETG", "ABS", "TPU"} ==> r == s
  {
    if material.materialType == "PETG" then
      s.(travel := s.travel.(retractionDistance := RMin(s.travel.retractionDistance * 1.2, 8.0)),
         cooling := s.cooling.(fanSpeed := IMin(s.cooling.fanSpeed, 60)),
         speed := s.speed.(printSpeed := IMin(s.speed.printSpeed, 60)))
    else if material.materialType == "ABS" then
      s.(cooling := s.cooling.(fanSpeed := IMin(s.cooling.fanSpeed, 30), initialFanSpeed := 0),
         adhesion := s.adhesion.(adhesionType := "brim", brimWidth := IMax(s.adhesion.brimWidth, 8)))
    else if material.materialType == "TPU" then
      s.(travel := s.travel.(retractionEnable := false),
         speed := s.speed.(printSpeed := IMin(s.speed.printSpeed, 30), outerWallSpeed := IMin(s.speed.outerWallSpeed, 15)))
    else s
  }

  /** Bowden extruders retract further and slower; deltas travel faster and start thinner. */
  function PrinterAdjusted(s: Settings, printer: PrinterInfo): (r: Settings)
    ensures !printer.directDrive ==>
      r.travel == s.travel.(retractionDistance := RMax(s.travel.retractionDistance, 5.0),
                            retractionSpeed := IMin(s.travel.retractionSpeed, 45))
    ensures printer.directDrive ==> r.travel == s.travel
    ensures printer.printerType == "delta" ==>
      r.speed == s.speed.(travelSpeed := IMax(s.speed.travelSpeed, 200)) &&
      r.quality == s.quality.(initialLayerHeight := RMin(s.quality.initialLayerHeight, 0.3))
    ensures printer.printerType != "delta" ==> r.speed == s.speed && r.quality == s.quality
    ensures r.(travel := s.travel, speed := s.speed, quality := s.quality) == s
  {
    var bowden :=
      if !printer.directDrive then
        s.(travel := s.travel.(retractionDistance := RMax(s.travel.retractionDistance, 5.0),
                               retractionSpeed := IMin(s.travel.retractionSpeed, 45)))
      else s;
    if printer.printerType == "delta" then
      bowden.(speed := bowden.speed.(travelSpeed := IMax(bowden.speed.travelSpeed, 200)),
              quality := bowden.quality.(initialLayerHeight := RMin(bowden.quality.initialLayerHeight, 0.3)))
    else bowden
  }

  /** Miniatures get a minimum wall flow and a Z-hop; large parts a pattern by density and a seam. */
  function PurposeAdjusted(s: Settings, req: Requirements): (r: Settings)
    ensures req.Purpose() == "miniature" ==>
      r == s.(shell := s.shell.(minimumWallFlow := Some(90)),
              travel := s.travel.(zHopEnable := true, zHopHeight := Some(0.2)))
    ensures req.Purpose() == "large" ==>
      r == s.(infill := s.infill.(pattern := if s.infill.density > 15 then "cubic" else "grid"),
              shell := s.shell.(zSeamType := Some("sharpest_corner")))
    ensures req.Purpose() != "miniature" && req.Purpose() != "large" ==> r == s
  {
    if req.Purpose() == "miniature" then
      s.(shell := s.shell.(minimumWallFlow := Some(90)),
         travel := s.travel.(zHopEnable := true, zHopHeight := Some(0.2)))
    else if req.Purpose() == "large" then
      s.(infill := s.infill.(pattern := if s.infill.density > 15 then "cubic" else "grid"),
         shell := s.shell.(zSeamType := Some("sharpest_corner")))
    else s
  }

  /** The whole rule stage: material, then extruder and kinematics, then purpose. */
  function Ruled(s: Settings, printer: PrinterInfo, material: MaterialInfo, req: Requirements): (r: Settings)
    ensures r.quality.layerHeight == s.quality.layerHeight
    ensures r.quality.lineWidth == s.quality.lineWidth
  {
    PurposeAdjusted(PrinterAdjusted(MaterialAdjusted(s, material), printer), req)
  }

  /** The material rules as the source runs them, one in-place update at a time. */
  method ApplyMaterialRules(profile: Settings, material: MaterialInfo) returns (r: Settings)
    ensures r == MaterialAdjusted(profile, material)
  {
    r := profile;
    if material.materialType == "PETG" {
      r := r.(travel := r.travel.(retractionDistance := RMin(r.travel.retractionDistance * 1.2, 8.0)));
      r := r.(cooling := r.cooling.(fanSpeed := IMin(r.cooling.fanSpeed, 60)));
      r := r.(speed := r.speed.(printSpeed := IMin(r.speed.printSpeed, 60)));
    } else if material.materialType == "ABS" {
      r := r.(cooling := r.cooling.(fanSpeed := IMin(r.cooling.fanSpeed, 30)));
      r := r.(cooling := r.cooling.(initialFanSpeed := 0));
      r := r.(adhesion := r.adhesion.(adhesionType := "brim"));
      r := r.(adhesion := r.adhesion.(brimWidth := IMax(r.adhesion.brimWidth, 8)));
    } else if material.materialType == "TPU" {
      r := r.(travel := r.travel.(retractionEnable := false));
      r := r.(speed := r.speed.(printSpeed := IMin(r.speed.printSpeed, 30)));
      r := r.(speed := r.speed.(outerWallSpeed := IMin(r.speed.outerWallSpeed, 15)));
    }
  }

  /** The extruder and kinematics rules as the source runs them. */
  method ApplyPrinterRules(profile: Settings, printer: PrinterInfo) returns (r: Settings)
    ensures r == PrinterAdjusted(profile, printer)
  {
    r := profile;
    if !printer.directDrive {
      r := r.(travel := r.travel.(retractionDistance := RMax(r.travel.retractionDistance, 5.0)));
      r := r.(travel := r.travel.(retractionSpeed := IMin(r.travel.retractionSpeed, 45)));
    }
    if printer.printerType == "delta" {
      r := r.(speed := r.speed.(travelSpeed := IMax(r.speed.travelSpeed, 200)));
      r := r.(quality := r.quality.(initialLayerHeight := RMin(r.quality.initialLayerHeight, 0.3)));
    }
  }

  /** The purpose rules as the source runs them. */
  method ApplyPurposeRules(profile: Settings, req: Requirements) returns (r: Settings)
    ensures r == PurposeAdjusted(profile, req)
  {
    r := profile;
    var purpose := req.Purpose();
    if purpose == "miniature" {
      r := r.(shell := r.shell.(minimumWallFlow := Some(90)));
      r := r.(travel := r.travel.(zHopEnable := true));
      r := r.(travel := r.travel.(zHopHeight := Some(0.2)));
    } else if purpose == "large" {
      r := r.(infill := r.infill.(pattern := if r.infill.density > 15 then "cubic" else "grid"));
      r := r.(shell := r.shell.(zSeamType := Some("sharpest_corner")));
    }
  }

  /** The rule stage as the source runs it. */
  method ApplyRules(profile: Settings, printer: PrinterInfo, material: MaterialInfo, req: Requirements)
    returns (r: Settings)
    ensures r == Ruled(profile, printer, material, req)
  {
    r := ApplyMaterialRules(profile, material);
    r := ApplyPrinterRules(r, printer);
    r := ApplyPurposeRules(r, req);
  }

  // ---------------------------------------------------------------------
  // Consistency pass
  // ---------------------------------------------------------------------

  /**
   * The consistency pass: shell thickness and layer counts re-derived,
   * support type, adhesion helpers and Z-hop made to agree with their
   * switches.  Its result is consistent, and it writes nothing but
   * `wall_thickness`, `top_layers`, `bottom_layers`, `support_type`,
   * `skirt_line_count`, `brim_width` and `z_hop_enable`.
   */
  function Constraints(s: Settings): (r: Settings)
    requires s.quality.layerHeight != 0.0
    ensures Consistent(r)
    ensures r.(shell := s.shell, support := s.support, adhesion := s.adhesion, travel := s.travel) == s
    ensures r.shell.(wallThickness := s.shell.wallThickness, topLayers := s.shell.topLayers,
                     bottomLayers := s.shell.bottomLayers) == s.shell
    ensures r.support.(supportType := s.support.supportType) == s.support
    ensures r.adhesion.(skirtLineCount := s.adhesion.skirtLineCount, brimWidth := s.adhesion.brimWidth) == s.adhesion
    ensures r.travel.(zHopEnable := s.travel.zHopEnable) == s.travel
  {
    var lh := s.quality.layerHeight;
    var shell := s.shell.(wallThickness := s.shell.wallLineCount as real * s.quality.lineWidth,
                          topLayers := RoundHalfEven(s.shell.topThickness / lh),
                          bottomLayers := RoundHalfEven(s.shell.bottomThickness / lh));
    var support := if !s.support.enable then s.support.(supportType := "none") else s.support;
    var a := s.adhesion;
    var adhesion :=
      if a.adhesionType == "skirt" then a.(brimWidth := 0)
      else if a.adhesionType == "brim" then a.(skirtLineCount := 0)
      else if a.adhesionType == "raft" then a.(skirtLineCount := 0, brimWidth := 0)
      else a;
    var travel := if !s.travel.retractionEnable then s.travel.(zHopEnable := false) else s.travel;
    s.(shell := shell, support := support, adhesion := adhesion, travel := travel)
  }

  /** The consistency pass as the source runs it, one in-place update at a time. */
  method ApplyConstraints(profile: Settings) returns (r: Settings)
    requires profile.quality.layerHeight != 0.0
    ensures r == Constraints(profile)
  {
    r := profile;
    r := r.(shell := r.shell.(wallThickness := r.shell.wallLineCount as real * r.quality.lineWidth));
    r := r.(shell := r.shell.(topLayers := RoundHalfEven(r.shell.topThickness / r.quality.layerHeight)));
    r := r.(shell := r.shell.(bottomLayers := RoundHalfEven(r.shell.bottomThickness / r.quality.layerHeight)));
    if !r.support.enable {
      r := r.(support := r.support.(supportType := "none"));
    }
    if r.adhesion.adhesionType == "skirt" {
      r := r.(adhesion := r.adhesion.(brimWidth := 0));
    } else if r.adhesion.adhesionType == "brim" {
      r := r.(adhesion := r.adhesion.(skirtLineCount := 0));
    } else if r.adhesion.adhesionType == "raft" {
      r := r.(adhesion := r.adhesion.(skirtLineCount := 0));
      r := r.(adhesion := r.adhesion.(brimWidth := 0));
    }
    if !r.travel.retractionEnable {
      r := r.(travel := r.travel.(zHopEnable := false));
    }
  }

  /** A consistent profile is a fixed point of the consistency pass. */
  lemma ConstraintsFixpoint(s: Settings)
    requires Consistent(s)
    ensures Constraints(s) == s
  {
  }

  /** Running the consistency pass twice is the same as running it once. */
  lemma ConstraintsIdempotent(s: Settings)
    requires s.quality.layerHeight != 0.0
    ensures Constraints(Constraints(s)) == Constraints(s)
  {
    ConstraintsFixpoint(Constraints(s));
  }

  // ---------------------------------------------------------------------
  // The whole pipeline
  // ---------------------------------------------------------------------

  /** The layer height the pipeline settles on: the default one, re-weighed against the requirements. */
  function ChosenLayerHeight(nozzle: real, req: Requirements): real {
    NewLayerHeight(Round2(nozzle * 0.4), nozzle, req)
  }

  /**
   * Defaults, recommendations, rules, then the consistency pass.  The
   * source divides by the chosen layer height, so it must not be zero.
   */
  function Generated(printer: PrinterInfo, material: MaterialInfo, nozzle: real, req: Requirements): (g: Settings)
    requires ChosenLayerHeight(nozzle, req) != 0.0
    ensures Consistent(g)
    ensures g.quality.layerHeight == ChosenLayerHeight(nozzle, req)
  {
    var d := DefaultSettings(printer, material, nozzle);
    var a := Recommended(d, material, nozzle, req);
    RecommendedKeepsLayer(d, material, nozzle, req);
    Constraints(Ruled(a, printer, material, req))
  }

  /** The recommendation stage sets the layer height and keeps the line width and the filament fan range. */
  lemma RecommendedKeepsLayer(s: Settings, material: MaterialInfo, nozzle: real, req: Requirements)
    ensures Recommended(s, material, nozzle, req).quality.layerHeight ==
            NewLayerHeight(s.quality.layerHeight, nozzle, req)
    ensures Recommended(s, material, nozzle, req).quality.lineWidth == s.quality.lineWidth
  {
    var l := RecLayers(s, nozzle, req);
    var w := RecWalls(l, req);
    var i := RecInfill(w, req);
    var p := RecSpeeds(i, req);
    var t := RecTemperature(p, material, req);
    assert t.quality == p.quality == i.quality == w.quality == l.quality;
  }

  /** Explanation bands attached to the generated profile; the sentences themselves are prose. */
  datatype LayerNote = FinerLayers | ThickerLayers | PlainLayers
  datatype InfillNote = MaximizesStrength | BalancesStrength | MinimizesMaterial
  datatype AdhesionNote = SkirtNote | BrimNote | RaftNote | NoAdhesionNote

  datatype Explanations = Explanations(
    layer: LayerNote,
    wallsStrong: bool, wallsOptimizing: bool,
    infill: InfillNote,
    temperatureHigher: bool,
    speedQuality: bool, speedBalanced: bool, speedFaster: bool,
    supportsEnabled: bool,
    adhesion: AdhesionNote)

  function LayerNoteOf(lh: real): (n: LayerNote)
    ensures n == FinerLayers <==> lh < 0.16
    ensures n == ThickerLayers <==> lh > 0.2
  {
    if lh < 0.16 then FinerLayers else if lh > 0.2 then ThickerLayers else PlainLayers
  }

  /** The three infill notes split the densities between them. */
  function InfillNoteOf(density: int): (n: InfillNote)
    ensures n == MaximizesStrength <==> density > 30
    ensures n == BalancesStrength <==> 15 <= density <= 30
    ensures n == MinimizesMaterial <==> density < 15
  {
    if density > 30 then MaximizesStrength
    else if 15 <= density then BalancesStrength
    else MinimizesMaterial
  }

  function AdhesionNoteOf(adhesionType: string): (n: AdhesionNote)
    ensures n == SkirtNote <==> adhesionType == "skirt"
    ensures n == BrimNote <==> adhesionType == "brim"
    ensures n == RaftNote <==> adhesionType == "raft"
  {
    if adhesionType == "skirt" then SkirtNote
    else if adhesionType == "brim" then BrimNote
    else if adhesionType == "raft" then RaftNote
    else NoAdhesionNote
  }

  /**
   * The bands of each explanation.  The temperature is on the higher end
   * when it exceeds the filament's midpoint taken in true division.
   */
  function Explain(s: Settings, material: MaterialInfo): (e: Explanations)
    ensures e.layer == LayerNoteOf(s.quality.layerHeight)
    ensures e.wallsStrong <==> s.shell.wallLineCount >= 3
    ensures e.wallsOptimizing <==> s.shell.wallLineCount <= 3
    ensures e.infill == InfillNoteOf(s.infill.density)
    ensures e.temperatureHigher <==>
      s.material.printTemperature as real > (material.tempMin + material.tempMax) as real / 2.0
    ensures e.speedQuality <==> s.speed.printSpeed < 50
    ensures e.speedBalanced <==> 45 <= s.speed.printSpeed <= 55
    ensures e.speedFaster <==> s.speed.printSpeed > 55
    ensures e.supportsEnabled == s.support.enable
    ensures e.adhesion == AdhesionNoteOf(s.adhesion.adhesionType)
  {
    var walls := s.shell.wallLineCount;
    var speed := s.speed.printSpeed;
    Explanations(
      layer := LayerNoteOf(s.quality.layerHeight),
      wallsStrong := walls >= 3, wallsOptimizing := walls <= 3,
      infill := InfillNoteOf(s.infill.density),
      temperatureHigher :=
        s.material.printTemperature as real > (material.tempMin + material.tempMax) as real / 2.0,
      speedQuality := speed < 50, speedBalanced := 45 <= speed <= 55, speedFaster := speed > 55,
      supportsEnabled := s.support.enable,
      adhesion := AdhesionNoteOf(s.adhesion.adhesionType))
  }

  /** The settings that carry an explanation. */
  const ExplainedKeys: set<Key> := {LayerHeight, WallLineCount, InfillDensity, MaterialPrintTemperature,
                                    PrintSpeed, SupportEnable, AdhesionType}

  /** Every print speed gets a speed note; the quality and balanced notes overlap from 45 to 49. */
  lemma SpeedNotesCover(s: Settings, material: MaterialInfo)
    ensures var e := Explain(s, material); e.speedQuality || e.speedBalanced || e.speedFaster
    ensures var e := Explain(s, material); e.speedQuality && e.speedBalanced <==> 45 <= s.speed.printSpeed <= 49
    ensures var e := Explain(s, material); !(e.speedFaster && (e.speedQuality || e.speedBalanced))
  {
  }

  /**
   * The floored midpoint the defaults start from never reads as the higher
   * end, so a profile whose purpose leaves the temperature alone is
   * explained as on the lower end.
   */
  lemma MidpointReadsLower(material: MaterialInfo, t: int)
    requires t == (material.tempMin + material.tempMax) / 2
    ensures !(t as real > (material.tempMin + material.tempMax) as real / 2.0)
  {
    var m := material.tempMin + material.tempMax;
    assert 2 * t <= m;
    assert (2 * t) as real <= m as real;
  }

  /** The profile generation as the source runs it, stage by stage. */
  method GenerateProfile(printer: PrinterInfo, material: MaterialInfo, nozzle: real, req: Requirements)
    returns (settings: Settings, explanations: Explanations)
    requires ChosenLayerHeight(nozzle, req) != 0.0
    ensures settings == Generated(printer, material, nozzle, req)
    ensures explanations == Explain(settings, material)
  {
    var profile := DefaultSettings(printer, material, nozzle);
    profile := ApplyAiRecommendations(profile, material, nozzle, req);
    RecommendedKeepsLayer(DefaultSettings(printer, material, nozzle), material, nozzle, req);
    profile := ApplyRules(profile, printer, material, req);
    settings := ApplyConstraints(profile);
    explanations := Explain(settings, material);
  }

  // ---------------------------------------------------------------------
  // The profile as a dictionary
  // ---------------------------------------------------------------------

  function OptR(o: Option<real>): Option<Value> { if o.Some? then Some(R(o.value)) else None }
  function OptI(o: Option<int>): Option<Value> { if o.Some? then Some(I(o.value)) else None }
  function OptS(o: Option<string>): Option<Value> { if o.Some? then Some(S(o.value)) else None }

  /** `settings.get(key)`: the value stored under a key, with its Python type. */
  function Get(s: Settings, k: Key): (v: Option<Value>)
    ensures k.Other? ==> v.None?
  {
    match k
    case LayerHeight => Some(R(s.quality.layerHeight))
    case InitialLayerHeight => Some(R(s.quality.initialLayerHeight))
    case LineWidth => Some(R(s.quality.lineWidth))
    case WallThickness => Some(R(s.shell.wallThickness))
    case WallLineCount => Some(I(s.shell.wallLineCount))
    case TopThickness => Some(R(s.shell.topThickness))
    case TopLayers => Some(I(s.shell.topLayers))
    case BottomThickness => Some(R(s.shell.bottomThickness))
    case BottomLayers => Some(I(s.shell.bottomLayers))
    case MinimumWallFlow => OptI(s.shell.minimumWallFlow)
    case ZSeamType => OptS(s.shell.zSeamType)
    case InfillDensity => Some(I(s.infill.density))
    case InfillPattern => Some(S(s.infill.pattern))
    case MaterialPrintTemperature => Some(I(s.material.printTemperature))
    case MaterialBedTemperature => Some(I(s.material.bedTemperature))
    case MaterialFlow => Some(I(s.material.flow))
    case PrintSpeed => Some(I(s.speed.printSpeed))
    case InfillSpeed => Some(I(s.speed.infillSpeed))
    case OuterWallSpeed => Some(I(s.speed.outerWallSpeed))
    case InnerWallSpeed => Some(I(s.speed.innerWallSpeed))
    case TravelSpeed => Some(I(s.speed.travelSpeed))
    case RetractionEnable => Some(B(s.travel.retractionEnable))
    case RetractionDistance => Some(R(s.travel.retractionDistance))
    case RetractionSpeed => Some(I(s.travel.retractionSpeed))
    case ZHopEnable => Some(B(s.travel.zHopEnable))
    case ZHopHeight => OptR(s.travel.zHopHeight)
    case CoolingEnable => Some(B(s.cooling.enable))
    case FanSpeed => Some(I(s.cooling.fanSpeed))
    case InitialFanSpeed => Some(I(s.cooling.initialFanSpeed))
    case SupportEnable => Some(B(s.support.enable))
    case SupportType => Some(S(s.support.supportType))
    case SupportAngle => Some(I(s.support.angle))
    case AdhesionType => Some(S(s.adhesion.adhesionType))
    case SkirtLineCount => Some(I(s.adhesion.skirtLineCount))
    case BrimWidth => Some(I(s.adhesion.brimWidth))
    case IroningEnabled => Some(B(s.experimental.ironing))
    case AdaptiveLayers => Some(B(s.experimental.adaptiveLayers))
    case _ => None
  }

  /** The keys of the defaults dictionary; the purpose rules may add the three optional ones. */
  const DefaultKeys: set<Key> := {
    LayerHeight, InitialLayerHeight, LineWidth, WallThickness, WallLineCount, TopThickness, TopLayers,
    BottomThickness, BottomLayers, InfillDensity, InfillPattern, MaterialPrintTemperature,
    MaterialBedTemperature, MaterialFlow, PrintSpeed, InfillSpeed, OuterWallSpeed, InnerWallSpeed,
    TravelSpeed, RetractionEnable, RetractionDistance, RetractionSpeed, ZHopEnable, CoolingEnable,
    FanSpeed, InitialFanSpeed, SupportEnable, SupportType, SupportAngle, AdhesionType, SkirtLineCount,
    BrimWidth, IroningEnabled, AdaptiveLayers}

  const OptionalKeys: set<Key> := {MinimumWallFlow, ZHopHeight, ZSeamType}

  /**
   * A profile holds every default key, each optional key exactly when it
   * was set, and nothing else.
   */
  lemma GetDefined(s: Settings, k: Key)
    ensures k in DefaultKeys ==> Get(s, k).Some?
    ensures k == MinimumWallFlow ==> (Get(s, k).Some? <==> s.shell.minimumWallFlow.Some?)
    ensures k == ZHopHeight ==> (Get(s, k).Some? <==> s.travel.zHopHeight.Some?)
    ensures k == ZSeamType ==> (Get(s, k).Some? <==> s.shell.zSeamType.Some?)
    ensures k !in DefaultKeys && k !in OptionalKeys ==> Get(s, k).None?
  {
    GetDefault(s, k);
    GetUnlisted(s, k);
  }

  lemma GetDefault(s: Settings, k: Key)
    ensures k in DefaultKeys ==> Get(s, k).Some?
  {
  }

  lemma GetUnlisted(s: Settings, k: Key)
    ensures k !in DefaultKeys && k !in OptionalKeys ==> Get(s, k).None?
  {
  }
}
