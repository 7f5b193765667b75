/**
 * The Klipper firmware overlay: a configuration of printer models,
 * pressure-advance values and G-code templates, and the operations that
 * lay pressure advance, input shaping and acceleration limits over a
 * settings dictionary, write the firmware configuration snippet and
 * explain the firmware settings.
 */
module Klipper {
  import opened Values
  import opened Inputs
  import opened Metadata

  // ---------------------------------------------------------------------
  // Configuration
  // ---------------------------------------------------------------------

  /** A model's input shaper; the damping ratios are never read and are left out. */
  datatype ShaperConfig = ShaperConfig(
    xFrequency: Option<Value>,
    yFrequency: Option<Value>,
    shaperTypeX: Option<Value>,
    shaperTypeY: Option<Value>)

  /** What the configuration knows about one printer model; every field may be absent. */
  datatype PrinterConfig = PrinterConfig(
    pressureAdvance: Option<Value>,
    smoothTime: Option<Value>,
    inputShaper: Option<ShaperConfig>,
    maxAccel: Option<Value>,
    maxAccelToDecel: Option<Value>,
    squareCornerVelocity: Option<Value>)

  /** The empty dictionary returned when no printer model is configured. */
  const NoPrinterConfig := PrinterConfig(None, None, None, None, None, None)

  datatype ExtruderAdvance = ExtruderAdvance(directDrive: Option<Value>, bowden: Option<Value>)

  /** The start G-code variants, each of which may be missing from the configuration. */
  datatype GcodeTemplates = GcodeTemplates(
    plain: Option<seq<string>>,
    withPressureAdvance: Option<seq<string>>,
    withInputShaper: Option<seq<string>>)

  /**
   * The firmware configuration.  Printer models keep the order of the
   * configuration's dictionary, since the partial-name search takes the
   * first match.
   */
  datatype KlipperConfig = KlipperConfig(
    printerModels: seq<(string, PrinterConfig)>,
    materialPressureAdvance: map<string, ExtruderAdvance>,
    startGcode: GcodeTemplates,
    endGcode: Option<seq<string>>,
    additionalSettings: seq<(string, SettingInfo)>)

  function Shaper(x: real, y: real): ShaperConfig {
    ShaperConfig(Some(R(x)), Some(R(y)), Some(S("mzv")), Some(S("mzv")))
  }

  function Model(advance: real, smooth: real, x: real, y: real, accel: int, decel: int, corner: real): PrinterConfig {
    PrinterConfig(Some(R(advance)), Some(R(smooth)), Some(Shaper(x, y)), Some(I(accel)), Some(I(decel)), Some(R(corner)))
  }

  const FallbackModel := "sonic_pad_default"

  const DefaultModels: seq<(string, PrinterConfig)> := [
    ("ender3", Model(0.05, 0.04, 37.8, 39.2, 3000, 1500, 5.0)),
    ("ender3_v2", Model(0.06, 0.04, 39.5, 41.2, 3500, 1750, 5.0)),
    ("ender5", Model(0.05, 0.04, 42.5, 38.7, 4000, 2000, 5.0)),
    ("prusa_i3_mk3s", Model(0.045, 0.04, 49.8, 41.5, 4500, 2250, 5.0)),
    ("voron_2.4", Model(0.035, 0.03, 58.2, 55.4, 10000, 5000, 8.0)),
    (FallbackModel, Model(0.05, 0.04, 40.0, 40.0, 4000, 2000, 5.0))
  ]

  function Advance(direct: real, bowden: real): ExtruderAdvance {
    ExtruderAdvance(Some(R(direct)), Some(R(bowden)))
  }

  const DefaultMaterialAdvance: map<string, ExtruderAdvance> := map[
    "PLA" := Advance(0.03, 0.05),
    "PETG" := Advance(0.06, 0.08),
    "ABS" := Advance(0.04, 0.06),
    "TPU" := Advance(0.25, 0.35),
    "NYLON" := Advance(0.06, 0.08)
  ]

  const HeatUp: seq<string> := [
    "G28 ; home all axes",
    "G1 Z5 F5000 ; lift nozzle",
    "M104 S{material_print_temperature} ; set extruder temp",
    "M140 S{material_bed_temperature} ; set bed temp",
    "M190 S{material_bed_temperature} ; wait for bed temp",
    "M109 S{material_print_temperature} ; wait for extruder temp"
  ]

  const PrimeLine: seq<string> := [
    "G92 E0 ; reset extruder",
    "G1 Z0.3 F240",
    "G1 X10 Y10 F3000",
    "G1 X100 Y10 E15 F1500 ; prime line",
    "G1 X100 Y10.4 F5000",
    "G1 X10 Y10.4 E30 F1500 ; prime line",
    "G92 E0 ; reset extruder"
  ]

  const SetPressureAdvance := "SET_PRESSURE_ADVANCE ADVANCE={pressure_advance} SMOOTH_TIME={pressure_advance_smooth_time}"
  const SetInputShaper := "SET_INPUT_SHAPER SHAPER_FREQ_X={shaper_freq_x} SHAPER_FREQ_Y={shaper_freq_y} SHAPER_TYPE_X={shaper_type_x} SHAPER_TYPE_Y={shaper_type_y}"

  const DefaultStartGcode := GcodeTemplates(
    Some(HeatUp + PrimeLine),
    Some(HeatUp + [SetPressureAdvance] + PrimeLine),
    Some(HeatUp + [SetPressureAdvance, SetInputShaper] + PrimeLine))

  const DefaultEndGcode: seq<string> := [
    "G91 ; relative positioning",
    "G1 E-2 F2700 ; retract a bit",
    "G1 E-2 Z0.2 F2400 ; retract and raise Z",
    "G1 X5 Y5 F3000 ; wipe out",
    "G1 Z10 ; raise Z more",
    "G90 ; absolute positioning",
    "G1 X0 Y220 ; present print",
    "M106 S0 ; turn off fan",
    "M104 S0 ; turn off extruder",
    "M140 S0 ; turn off bed",
    "M84 X Y E ; disable motors"
  ]

  function Firmware(display: string, category: string, dataType: string, default: Value,
                    low: Option<Value>, high: Option<Value>, impact: int): SettingInfo {
    SettingInfo(display, Some(category), Some("klipper"), dataType, Some(default), low, high, Some(impact))
  }

  /** The firmware settings offered to the settings registry. */
  const FirmwareSettings: seq<(string, SettingInfo)> := [
    ("pressure_advance", Firmware("Pressure Advance", "material", "float", R(0.05), Some(R(0.0)), Some(R(1.0)), 4)),
    ("pressure_advance_smooth_time", Firmware("PA Smooth Time", "material", "float", R(0.04), Some(R(0.0)), Some(R(0.2)), 3)),
    ("input_shaper_x_freq", Firmware("Input Shaper X Frequency", "speed", "float", R(40.0), Some(R(5.0)), Some(R(100.0)), 4)),
    ("input_shaper_y_freq", Firmware("Input Shaper Y Frequency", "speed", "float", R(40.0), Some(R(5.0)), Some(R(100.0)), 4)),
    ("input_shaper_type_x", Firmware("Input Shaper X Type", "speed", "enum", S("mzv"), None, None, 3)),
    ("input_shaper_type_y", Firmware("Input Shaper Y Type", "speed", "enum", S("mzv"), None, None, 3)),
    ("max_accel", Firmware("Maximum Acceleration", "speed", "int", I(4000), Some(I(500)), Some(I(20000)), 4)),
    ("max_accel_to_decel", Firmware("Max Accel to Decel", "speed", "int", I(2000), Some(I(500)), Some(I(10000)), 3)),
    ("square_corner_velocity", Firmware("Square Corner Velocity", "speed", "float", R(5.0), Some(R(1.0)), Some(R(15.0)), 3)),
    ("use_firmware_retraction", Firmware("Use Firmware Retraction", "travel", "bool", B(false), None, None, 3))
  ]

  /** The configuration used when no configuration file is loaded. */
  const DefaultConfig := KlipperConfig(
    DefaultModels, DefaultMaterialAdvance, DefaultStartGcode, Some(DefaultEndGcode), FirmwareSettings)

  // ---------------------------------------------------------------------
  // Printer model lookup
  // ---------------------------------------------------------------------

  /** The position of the model named exactly `name`, or the number of models. */
  function ExactIndex(models: seq<(string, PrinterConfig)>, name: string): (i: nat)
    ensures i <= |models|
    ensures forall j | 0 <= j < i :: models[j].0 != name
    ensures i < |models| ==> models[i].0 == name
  {
    if models == [] then 0
    else if models[0].0 == name then 0
    else 1 + ExactIndex(models[1..], name)
  }

  /** Either lower-cased name contains the other. */
  predicate PartialMatch(name: string, model: string) {
    Contains(Lower(model), Lower(name)) || Contains(Lower(name), Lower(model))
  }

  /** The position of the first model matching `name` partially, or the number of models. */
  function PartialIndex(models: seq<(string, PrinterConfig)>, name: string): (i: nat)
    ensures i <= |models|
    ensures forall j | 0 <= j < i :: !PartialMatch(name, models[j].0)
    ensures i < |models| ==> PartialMatch(name, models[i].0)
  {
    if models == [] then 0
    else if PartialMatch(name, models[0].0) then 0
    else 1 + PartialIndex(models[1..], name)
  }

  /**
   * `get_printer_config`: the model of that exact name, else the first
   * partial match, else the fallback model, else the first model, else
   * an empty configuration.
   */
  function PrinterConfigFor(models: seq<(string, PrinterConfig)>, name: string): (c: PrinterConfig)
    ensures c == NoPrinterConfig || exists i | 0 <= i < |models| :: c == models[i].1
  {
    var e := ExactIndex(models, name);
    var p := PartialIndex(models, name);
    var f := ExactIndex(models, FallbackModel);
    if e < |models| then models[e].1
    else if p < |models| then models[p].1
    else if f < |models| then models[f].1
    else if |models| > 0 then models[0].1
    else NoPrinterConfig
  }

  /** The search loop of `get_printer_config`. */
  method GetPrinterConfig(models: seq<(string, PrinterConfig)>, name: string) returns (c: PrinterConfig)
    ensures c == PrinterConfigFor(models, name)
  {
    var e := ExactIndex(models, name);
    if e < |models| {
      return models[e].1;
    }
    var i := 0;
    while i < |models|
      invariant 0 <= i <= |models|
      invariant forall j | 0 <= j < i :: !PartialMatch(name, models[j].0)
    {
      if PartialMatch(name, models[i].0) {
        return models[i].1;
      }
      i := i + 1;
    }
    var f := ExactIndex(models, FallbackModel);
    if f < |models| {
      return models[f].1;
    }
    if |models| > 0 {
      return models[0].1;
    }
    return NoPrinterConfig;
  }

  predicate DistinctModels(models: seq<(string, PrinterConfig)>) {
    forall i, j | 0 <= i < j < |models| :: models[i].0 != models[j].0
  }

  /** A model of exactly the requested name is chosen whatever else matches. */
  lemma ExactModelWins(models: seq<(string, PrinterConfig)>, name: string, i: nat)
    requires DistinctModels(models) && i < |models| && models[i].0 == name
    ensures PrinterConfigFor(models, name) == models[i].1
  {
    assert ExactIndex(models, name) == i;
  }

  /** Without an exact name, the first partial match in table order is chosen. */
  lemma FirstPartialWins(models: seq<(string, PrinterConfig)>, name: string, j: nat)
    requires forall i | 0 <= i < |models| :: models[i].0 != name
    requires j < |models| && PartialMatch(name, models[j].0)
    requires forall k | 0 <= k < j :: !PartialMatch(name, models[k].0)
    ensures PrinterConfigFor(models, name) == models[j].1
  {
    var e := ExactIndex(models, name);
    var p := PartialIndex(models, name);
    assert e == |models|;
    assert p == j;
  }

  /** Without any match the fallback model is chosen, else the first model, else nothing. */
  lemma UnmatchedFallsBack(models: seq<(string, PrinterConfig)>, name: string)
    requires forall i | 0 <= i < |models| :: models[i].0 != name && !PartialMatch(name, models[i].0)
    ensures ExactIndex(models, FallbackModel) < |models| ==>
      PrinterConfigFor(models, name) == models[ExactIndex(models, FallbackModel)].1
    ensures ExactIndex(models, FallbackModel) == |models| && |models| > 0 ==>
      PrinterConfigFor(models, name) == models[0].1
    ensures models == [] ==> PrinterConfigFor(models, name) == NoPrinterConfig
  {
    var e := ExactIndex(models, name);
    var p := PartialIndex(models, name);
    assert e == |models|;
    assert p == |models|;
  }

  /** The empty name is contained in every name, so it selects the first model. */
  lemma EmptyNameSelectsFirst(models: seq<(string, PrinterConfig)>)
    requires |models| > 0
    requires forall i | 0 < i < |models| :: models[i].0 != ""
    ensures PrinterConfigFor(models, "") == models[0].1
  {
    var m := Lower(models[0].0);
    assert Lower("") == "";
    assert IsPrefix("", m);
    assert PartialMatch("", models[0].0);
    assert PartialIndex(models, "") == 0;
  }

  /**
   * Table order decides among partial matches: "ender3 v2" is no model's
   * exact name and contains "ender3", the first model, so it is given the
   * Ender 3's configuration rather than the Ender 3 V2's.
   */
  lemma LooseNameTakesFirstMatch()
    ensures PrinterConfigFor(DefaultModels, "ender3 v2") == DefaultModels[0].1
    ensures PrinterConfigFor(DefaultModels, "ender3 v2") != DefaultModels[1].1
  {
    NoModelNamedLoosely();
    LooseNameMatchesEnder3("ender3 v2", DefaultModels[0].0);
    FirstPartialWins(DefaultModels, "ender3 v2", 0);
  }

  lemma NoModelNamedLoosely()
    ensures forall i | 0 <= i < |DefaultModels| :: DefaultModels[i].0 != "ender3 v2"
  {
    assert DefaultModels[1].0[6] != "ender3 v2"[6];
  }

  lemma LooseNameMatchesEnder3(name: string, model: string)
    requires name == "ender3 v2" && model == "ender3"
    ensures PartialMatch(name, model)
  {
    LowerOfLowercase(name);
    LowerOfLowercase(model);
    assert IsPrefix(model, name);
  }

  // ---------------------------------------------------------------------
  // Pressure advance and G-code
  // ---------------------------------------------------------------------

  /** The value used for a material missing from the table. */
  function DefaultAdvance(directDrive: bool): Value {
    if directDrive then R(0.03) else R(0.05)
  }

  /** `get_material_pressure_advance`: the table's value for this extruder, else the default. */
  function MaterialPressureAdvance(table: map<string, ExtruderAdvance>, materialType: string, directDrive: bool)
    : (v: Value)
    ensures materialType !in table ==> v == DefaultAdvance(directDrive)
    ensures materialType in table && directDrive && table[materialType].directDrive.Some? ==>
      v == table[materialType].directDrive.value
    ensures materialType in table && !directDrive && table[materialType].bowden.Some? ==>
      v == table[materialType].bowden.value
  {
    if materialType !in table then DefaultAdvance(directDrive)
    else
      var entry := table[materialType];
      OrElse(if directDrive then entry.directDrive else entry.bowden, DefaultAdvance(directDrive))
  }

  /** With the default table every material, listed or not, needs less advance on a direct drive. */
  lemma DirectDriveNeedsLessAdvance(materialType: string)
    ensures IsNum(MaterialPressureAdvance(DefaultMaterialAdvance, materialType, true))
    ensures IsNum(MaterialPressureAdvance(DefaultMaterialAdvance, materialType, false))
    ensures Num(MaterialPressureAdvance(DefaultMaterialAdvance, materialType, true))
          < Num(MaterialPressureAdvance(DefaultMaterialAdvance, materialType, false))
  {
  }

  /**
   * `get_start_gcode`: the input-shaper variant when both features are
   * wanted, else the pressure-advance variant when that is wanted, else
   * the plain variant; a missing variant falls through to the next.
   */
  function StartGcodeLines(t: GcodeTemplates, usePressureAdvance: bool, useInputShaper: bool): (lines: seq<string>)
    ensures !usePressureAdvance ==> lines == OrElse(t.plain, [])
  {
    if usePressureAdvance && useInputShaper && t.withInputShaper.Some? then t.withInputShaper.value
    else if usePressureAdvance && t.withPressureAdvance.Some? then t.withPressureAdvance.value
    else OrElse(t.plain, [])
  }

  /** With the default templates the chosen start G-code sets exactly the features asked for. */
  lemma DefaultStartGcodeFeatures(usePressureAdvance: bool, useInputShaper: bool)
    ensures SetPressureAdvance in StartGcodeLines(DefaultStartGcode, usePressureAdvance, useInputShaper)
      <==> usePressureAdvance
    ensures SetInputShaper in StartGcodeLines(DefaultStartGcode, usePressureAdvance, useInputShaper)
      <==> usePressureAdvance && useInputShaper
  {
    var lines := StartGcodeLines(DefaultStartGcode, usePressureAdvance, useInputShaper);
    assert SetPressureAdvance !in HeatUp && SetPressureAdvance !in PrimeLine;
    assert SetInputShaper !in HeatUp && SetInputShaper !in PrimeLine;
    assert SetInputShaper != SetPressureAdvance;
    if usePressureAdvance && useInputShaper {
      assert lines[6] == SetPressureAdvance && lines[7] == SetInputShaper;
    } else if usePressureAdvance {
      assert lines[6] == SetPressureAdvance;
      assert forall x | x in lines :: x in HeatUp || x == SetPressureAdvance || x in PrimeLine;
    } else {
      assert forall x | x in lines :: x in HeatUp || x in PrimeLine;
    }
  }

  /** `get_end_gcode`: the configured lines, or none. */
  function EndGcodeLines(cfg: KlipperConfig): (lines: seq<string>)
    ensures cfg.endGcode.None? ==> lines == []
  {
    OrElse(cfg.endGcode, [])
  }

  // ---------------------------------------------------------------------
  // The overlay
  // ---------------------------------------------------------------------

  /** A number wherever the key is present. */
  predicate NumericAt(s: Profile, k: Key) {
    k in s ==> IsNum(s[k])
  }

  /** The fields of a model's configuration the overlay compares as numbers. */
  predicate NumericConfig(c: PrinterConfig) {
    (c.maxAccel.Some? ==> IsNum(c.maxAccel.value)) &&
    (c.inputShaper.Some? ==>
      (c.inputShaper.value.xFrequency.Some? ==> IsNum(c.inputShaper.value.xFrequency.value)) &&
      (c.inputShaper.value.yFrequency.Some? ==> IsNum(c.inputShaper.value.yFrequency.value)))
  }

  /** Python's comparisons raise on text, so every compared configuration value is a number. */
  predicate NumericModels(cfg: KlipperConfig) {
    forall i | 0 <= i < |cfg.printerModels| :: NumericConfig(cfg.printerModels[i].1)
  }

  /** The settings the overlay compares are numbers where present. */
  predicate OverlayReady(s: Profile) {
    NumericAt(s, InputShaperXFreq) && NumericAt(s, InputShaperYFreq) &&
    NumericAt(s, PrintSpeed) && NumericAt(s, TravelSpeed)
  }

  lemma ChosenConfigNumeric(cfg: KlipperConfig, name: string)
    requires NumericModels(cfg)
    ensures NumericConfig(PrinterConfigFor(cfg.printerModels, name))
  {
  }

  /** The configuration the overlay uses for a printer: looked up by the lower-cased model name. */
  function ConfigOf(cfg: KlipperConfig, printer: PrinterInfo): PrinterConfig {
    PrinterConfigFor(cfg.printerModels, Lower(printer.model))
  }

  /** The pressure advance: the model's own value, else the material table's. */
  function AdvanceOf(cfg: KlipperConfig, pc: PrinterConfig, printer: PrinterInfo, material: MaterialInfo): Value {
    if pc.pressureAdvance.Some? then pc.pressureAdvance.value
    else MaterialPressureAdvance(cfg.materialPressureAdvance, material.materialType, printer.directDrive)
  }

  function WithAdvance(s: Profile, cfg: KlipperConfig, pc: PrinterConfig, printer: PrinterInfo, material: MaterialInfo)
    : (r: Profile)
    ensures PressureAdvance in r && r[PressureAdvance] == AdvanceOf(cfg, pc, printer, material)
    ensures PressureAdvanceSmoothTime in r && r[PressureAdvanceSmoothTime] == OrElse(pc.smoothTime, R(0.04))
    ensures Keeps(s, r, InputShaperXFreq) && Keeps(s, r, InputShaperYFreq)
    ensures Keeps(s, r, PrintSpeed) && Keeps(s, r, TravelSpeed)
  {
    s[PressureAdvance := AdvanceOf(cfg, pc, printer, material)]
     [PressureAdvanceSmoothTime := OrElse(pc.smoothTime, R(0.04))]
  }

  function WithShaper(s: Profile, pc: PrinterConfig): (r: Profile)
    ensures pc.inputShaper.Some? ==>
      InputShaperXFreq in r && r[InputShaperXFreq] == OrElse(pc.inputShaper.value.xFrequency, R(40.0)) &&
      InputShaperYFreq in r && r[InputShaperYFreq] == OrElse(pc.inputShaper.value.yFrequency, R(40.0))
    ensures pc.inputShaper.None? ==> Keeps(s, r, InputShaperXFreq) && Keeps(s, r, InputShaperYFreq)
    ensures Keeps(s, r, PrintSpeed) && Keeps(s, r, TravelSpeed)
    ensures Keeps(s, r, PressureAdvance) && Keeps(s, r, PressureAdvanceSmoothTime)
    ensures pc.inputShaper.Some? ==>
      InputShaperTypeX in r && r[InputShaperTypeX] == OrElse(pc.inputShaper.value.shaperTypeX, S("mzv")) &&
      InputShaperTypeY in r && r[InputShaperTypeY] == OrElse(pc.inputShaper.value.shaperTypeY, S("mzv"))
  {
    if pc.inputShaper.None? then s
    else
      var sh := pc.inputShaper.value;
      s[InputShaperXFreq := OrElse(sh.xFrequency, R(40.0))]
       [InputShaperYFreq := OrElse(sh.yFrequency, R(40.0))]
       [InputShaperTypeX := OrElse(sh.shaperTypeX, S("mzv"))]
       [InputShaperTypeY := OrElse(sh.shaperTypeY, S("mzv"))]
  }

  function WithAccel(s: Profile, pc: PrinterConfig): (r: Profile)
    ensures MaxAccel in r && r[MaxAccel] == OrElse(pc.maxAccel, I(4000))
    ensures MaxAccelToDecel in r && r[MaxAccelToDecel] == OrElse(pc.maxAccelToDecel, I(2000))
    ensures Keeps(s, r, InputShaperXFreq) && Keeps(s, r, InputShaperYFreq)
    ensures Keeps(s, r, PrintSpeed) && Keeps(s, r, TravelSpeed)
    ensures Keeps(s, r, PressureAdvance) && Keeps(s, r, PressureAdvanceSmoothTime)
    ensures SquareCornerVelocity in r && r[SquareCornerVelocity] == OrElse(pc.squareCornerVelocity, R(5.0))
    ensures Keeps(s, r, InputShaperTypeX) && Keeps(s, r, InputShaperTypeY)
  {
    s[MaxAccel := OrElse(pc.maxAccel, I(4000))]
     [MaxAccelToDecel := OrElse(pc.maxAccelToDecel, I(2000))]
     [SquareCornerVelocity := OrElse(pc.squareCornerVelocity, R(5.0))]
  }

  /** The acceleration a resonance frequency allows. */
  function AccelCap(f: real): (cap: int)
    ensures cap == 10000 <==> f > 50.0
    ensures cap == 6000 <==> 40.0 < f <= 50.0
    ensures cap == 4000 <==> 30.0 < f <= 40.0
    ensures cap == 2000 <==> f <= 30.0
  {
    if f > 50.0 then 10000 else if f > 40.0 then 6000 else if f > 30.0 then 4000 else 2000
  }

  /** Python `v // 2`: a floored half, an `int` for an `int`. */
  function FloorHalf(v: Value): (h: Value)
    requires IsNum(v)
    ensures IsNum(h) && (h.I? <==> IsIntLike(v))
    ensures Num(v) - 2.0 < 2.0 * Num(h) <= Num(v)
  {
    if IsIntLike(v) then I(IntOf(v) / 2) else R((Num(v) / 2.0).Floor as real)
  }

  /** Both frequencies present: the acceleration is capped by the lower one and halved for decelerating. */
  function WithShaperCap(s: Profile): (r: Profile)
    requires MaxAccel in s && IsNum(s[MaxAccel])
    requires NumericAt(s, InputShaperXFreq) && NumericAt(s, InputShaperYFreq)
    ensures MaxAccel in r && IsNum(r[MaxAccel])
    ensures InputShaperXFreq in s && InputShaperYFreq in s ==>
      MaxAccelToDecel in r &&
      r[MaxAccel] == PyMin(s[MaxAccel], I(AccelCap(Num(PyMin(s[InputShaperXFreq], s[InputShaperYFreq]))))) &&
      r[MaxAccelToDecel] == FloorHalf(r[MaxAccel])
    ensures !(InputShaperXFreq in s && InputShaperYFreq in s) ==> Keeps(s, r, MaxAccel) && Keeps(s, r, MaxAccelToDecel)
    ensures Keeps(s, r, InputShaperXFreq) && Keeps(s, r, InputShaperYFreq)
    ensures Keeps(s, r, PrintSpeed) && Keeps(s, r, TravelSpeed)
    ensures Keeps(s, r, PressureAdvance) && Keeps(s, r, PressureAdvanceSmoothTime)
    ensures Keeps(s, r, InputShaperTypeX) && Keeps(s, r, InputShaperTypeY) && Keeps(s, r, SquareCornerVelocity)
  {
    if InputShaperXFreq in s && InputShaperYFreq in s then
      var f := PyMin(s[InputShaperXFreq], s[InputShaperYFreq]);
      var a := PyMin(s[MaxAccel], I(AccelCap(Num(f))));
      s[MaxAccel := a][MaxAccelToDecel := FloorHalf(a)]
    else s
  }

  /** A high acceleration raises the print and travel speeds to a floor; nothing is lowered. */
  function WithSpeedFloors(s: Profile): (r: Profile)
    requires NumericAt(s, MaxAccel) && NumericAt(s, PrintSpeed) && NumericAt(s, TravelSpeed)
    ensures Keeps(s, r, MaxAccel) && Keeps(s, r, MaxAccelToDecel)
    ensures Keeps(s, r, InputShaperXFreq) && Keeps(s, r, InputShaperYFreq)
    ensures (PrintSpeed in r <==> PrintSpeed in s)
    ensures PrintSpeed in s ==> IsNum(r[PrintSpeed]) && Num(r[PrintSpeed]) >= Num(s[PrintSpeed])
    ensures PrintSpeed in s && Num(GetOr(s, MaxAccel, I(4000))) >= 8000.0 ==>
      Num(r[PrintSpeed]) >= 80.0 && TravelSpeed in r && IsNum(r[TravelSpeed]) && Num(r[TravelSpeed]) >= 200.0
    ensures PrintSpeed in s && 5000.0 <= Num(GetOr(s, MaxAccel, I(4000))) < 8000.0 ==>
      Num(r[PrintSpeed]) >= 60.0 && TravelSpeed in r && IsNum(r[TravelSpeed]) && Num(r[TravelSpeed]) >= 180.0
    ensures PrintSpeed !in s || Num(GetOr(s, MaxAccel, I(4000))) < 5000.0 ==>
      Keeps(s, r, PrintSpeed) && Keeps(s, r, TravelSpeed)
    ensures Keeps(s, r, PressureAdvance) && Keeps(s, r, PressureAdvanceSmoothTime)
    ensures Keeps(s, r, InputShaperTypeX) && Keeps(s, r, InputShaperTypeY) && Keeps(s, r, SquareCornerVelocity)
  {
    var accel := GetOr(s, MaxAccel, I(4000));
    if PrintSpeed !in s then s
    else if Num(accel) >= 8000.0 then
      s[PrintSpeed := PyMax(s[PrintSpeed], I(80))][TravelSpeed := PyMax(GetOr(s, TravelSpeed, I(150)), I(200))]
    else if Num(accel) >= 5000.0 then
      s[PrintSpeed := PyMax(s[PrintSpeed], I(60))][TravelSpeed := PyMax(GetOr(s, TravelSpeed, I(150)), I(180))]
    else s
  }

  /** The start G-code the overlay writes: it always asks for both features. */
  function OverlayStartGcode(cfg: KlipperConfig): Value {
    S(Join(StartGcodeLines(cfg.startGcode, true, true), "\n"))
  }

  function WithGcode(s: Profile, cfg: KlipperConfig): (r: Profile)
    ensures Keeps(s, r, MaxAccel) && Keeps(s, r, MaxAccelToDecel)
    ensures Keeps(s, r, InputShaperXFreq) && Keeps(s, r, InputShaperYFreq)
    ensures Keeps(s, r, PrintSpeed) && Keeps(s, r, TravelSpeed)
    ensures Keeps(s, r, PressureAdvance) && Keeps(s, r, PressureAdvanceSmoothTime)
    ensures Keeps(s, r, InputShaperTypeX) && Keeps(s, r, InputShaperTypeY) && Keeps(s, r, SquareCornerVelocity)
  {
    s[UseFirmwareRetraction := B(false)]
     [StartGcode := OverlayStartGcode(cfg)]
     [EndGcode := S(Join(EndGcodeLines(cfg), "\n"))]
  }

  /** `apply_klipper_optimizations`, block by block. */
  function Overlaid(cfg: KlipperConfig, s: Profile, printer: PrinterInfo, material: MaterialInfo): Profile
    requires NumericModels(cfg) && OverlayReady(s)
  {
    var pc := ConfigOf(cfg, printer);
    ChosenConfigNumeric(cfg, Lower(printer.model));
    var s1 := WithAdvance(s, cfg, pc, printer, material);
    var s2 := WithShaper(s1, pc);
    var s3 := WithAccel(s2, pc);
    var s4 := WithShaperCap(s3);
    var s5 := WithSpeedFloors(s4);
    WithGcode(s5, cfg)
  }

  /** Pressure advance and its smooth time. */
  method SetAdvance(r0: Profile, cfg: KlipperConfig, pc: PrinterConfig, printer: PrinterInfo, material: MaterialInfo)
    returns (r: Profile)
    ensures r == WithAdvance(r0, cfg, pc, printer, material)
  {
    r := r0;
    if pc.pressureAdvance.Some? {
      r := r[PressureAdvance := pc.pressureAdvance.value];
    } else {
      r := r[PressureAdvance := MaterialPressureAdvance(cfg.materialPressureAdvance, material.materialType, printer.directDrive)];
    }
    r := r[PressureAdvanceSmoothTime := OrElse(pc.smoothTime, R(0.04))];
  }

  /** The model's input shaper, when it has one. */
  method SetShaper(r0: Profile, pc: PrinterConfig) returns (r: Profile)
    ensures r == WithShaper(r0, pc)
  {
    r := r0;
    if pc.inputShaper.Some? {
      var sh := pc.inputShaper.value;
      r := r[InputShaperXFreq := OrElse(sh.xFrequency, R(40.0))];
      r := r[InputShaperYFreq := OrElse(sh.yFrequency, R(40.0))];
      r := r[InputShaperTypeX := OrElse(sh.shaperTypeX, S("mzv"))];
      r := r[InputShaperTypeY := OrElse(sh.shaperTypeY, S("mzv"))];
    }
  }

  /** The acceleration limits, then their cap by the lower resonance frequency. */
  method SetAccel(r0: Profile, pc: PrinterConfig) returns (r: Profile)
    requires NumericConfig(pc)
    requires NumericAt(r0, InputShaperXFreq) && NumericAt(r0, InputShaperYFreq)
    ensures WithAccel(r0, pc)[MaxAccel] == OrElse(pc.maxAccel, I(4000))
    ensures r == WithShaperCap(WithAccel(r0, pc))
  {
    r := r0;
    r := r[MaxAccel := OrElse(pc.maxAccel, I(4000))];
    r := r[MaxAccelToDecel := OrElse(pc.maxAccelToDecel, I(2000))];
    r := r[SquareCornerVelocity := OrElse(pc.squareCornerVelocity, R(5.0))];
    if InputShaperXFreq in r && InputShaperYFreq in r {
      var minFreq := PyMin(r[InputShaperXFreq], r[InputShaperYFreq]);
      r := r[MaxAccel := PyMin(r[MaxAccel], I(AccelCap(Num(minFreq))))];
      r := r[MaxAccelToDecel := FloorHalf(r[MaxAccel])];
    }
  }

  /** The speed floors a high acceleration allows. */
  method SetSpeedFloors(r0: Profile) returns (r: Profile)
    requires NumericAt(r0, MaxAccel) && NumericAt(r0, PrintSpeed) && NumericAt(r0, TravelSpeed)
    ensures r == WithSpeedFloors(r0)
  {
    r := r0;
    var accel := GetOr(r, MaxAccel, I(4000));
    if PrintSpeed in r {
      if Num(accel) >= 8000.0 {
        r := r[PrintSpeed := PyMax(r[PrintSpeed], I(80))];
        r := r[TravelSpeed := PyMax(GetOr(r, TravelSpeed, I(150)), I(200))];
      } else if Num(accel) >= 5000.0 {
        r := r[PrintSpeed := PyMax(r[PrintSpeed], I(60))];
        r := r[TravelSpeed := PyMax(GetOr(r, TravelSpeed, I(150)), I(180))];
      }
    }
  }

  /**
   * `apply_klipper_optimizations`: the settings dictionary updated in
   * place, block by block.
   */
  method ApplyKlipperOptimizations(cfg: KlipperConfig, settings: Profile, printer: PrinterInfo, material: MaterialInfo)
    returns (r: Profile)
    requires NumericModels(cfg) && OverlayReady(settings)
    ensures r == Overlaid(cfg, settings, printer, material)
  {
    var pc := GetPrinterConfig(cfg.printerModels, Lower(printer.model));
    ChosenConfigNumeric(cfg, Lower(printer.model));
    r := SetAdvance(settings, cfg, pc, printer, material);
    r := SetShaper(r, pc);
    r := SetAccel(r, pc);
    r := SetSpeedFloors(r);
    r := r[UseFirmwareRetraction := B(false)];
    r := r[StartGcode := OverlayStartGcode(cfg)];
    r := r[EndGcode := S(Join(EndGcodeLines(cfg), "\n"))];
  }

  /** The keys the overlay may write. */
  const OverlayKeys: set<Key> := {
    PressureAdvance, PressureAdvanceSmoothTime, InputShaperXFreq, InputShaperYFreq,
    InputShaperTypeX, InputShaperTypeY, MaxAccel, MaxAccelToDecel, SquareCornerVelocity,
    PrintSpeed, TravelSpeed, UseFirmwareRetraction, StartGcode, EndGcode}

  /** Pressure advance comes from the model's configuration when it has one, else from the material table. */
  lemma OverlayAdvance(cfg: KlipperConfig, s: Profile, printer: PrinterInfo, material: MaterialInfo)
    requires NumericModels(cfg) && OverlayReady(s)
    ensures var r := Overlaid(cfg, s, printer, material); var pc := ConfigOf(cfg, printer);
      PressureAdvance in r && PressureAdvanceSmoothTime in r &&
      (pc.pressureAdvance.Some? ==> r[PressureAdvance] == pc.pressureAdvance.value) &&
      (pc.pressureAdvance.None? ==>
        r[PressureAdvance] == MaterialPressureAdvance(cfg.materialPressureAdvance, material.materialType, printer.directDrive)) &&
      r[PressureAdvanceSmoothTime] == OrElse(pc.smoothTime, R(0.04))
  {
  }

  /** True when both shaper frequencies are present once the model's shaper is laid over `s`. */
  predicate Shaped(s: Profile, pc: PrinterConfig) {
    pc.inputShaper.Some? || (InputShaperXFreq in s && InputShaperYFreq in s)
  }

  /**
   * With both frequencies present the acceleration is the model's (or
   * 4000) capped by what the lower frequency allows, and the deceleration
   * limit is half of it; otherwise both are the model's values or their
   * defaults.
   */
  lemma OverlayAcceleration(cfg: KlipperConfig, s: Profile, printer: PrinterInfo, material: MaterialInfo)
    requires NumericModels(cfg) && OverlayReady(s)
    ensures var r := Overlaid(cfg, s, printer, material); var pc := ConfigOf(cfg, printer);
      MaxAccel in r && MaxAccelToDecel in r && IsNum(r[MaxAccel]) &&
      (InputShaperXFreq in r && InputShaperYFreq in r <==> Shaped(s, pc)) &&
      (Shaped(s, pc) ==>
        IsNum(r[InputShaperXFreq]) && IsNum(r[InputShaperYFreq]) &&
        r[MaxAccel] == PyMin(OrElse(pc.maxAccel, I(4000)), I(AccelCap(Num(PyMin(r[InputShaperXFreq], r[InputShaperYFreq]))))) &&
        r[MaxAccelToDecel] == FloorHalf(r[MaxAccel])) &&
      (!Shaped(s, pc) ==>
        r[MaxAccel] == OrElse(pc.maxAccel, I(4000)) && r[MaxAccelToDecel] == OrElse(pc.maxAccelToDecel, I(2000)))
  {
    var pc := ConfigOf(cfg, printer);
    ChosenConfigNumeric(cfg, Lower(printer.model));
    var s1 := WithAdvance(s, cfg, pc, printer, material);
    var s2 := WithShaper(s1, pc);
    var s3 := WithAccel(s2, pc);
    var s4 := WithShaperCap(s3);
    var s5 := WithSpeedFloors(s4);
    assert InputShaperXFreq in s3 && InputShaperYFreq in s3 <==> Shaped(s, pc);
  }

  /**
   * The print speed is never lowered.  Where it is set, an acceleration of
   * 8000 or more raises it to at least 80 and the travel speed to at
   * least 200, one of 5000 or more to at least 60 and 180; below that, or
   * without a print speed, both speeds are left as they were.
   */
  lemma OverlaySpeeds(cfg: KlipperConfig, s: Profile, printer: PrinterInfo, material: MaterialInfo)
    requires NumericModels(cfg) && OverlayReady(s)
    ensures var r := Overlaid(cfg, s, printer, material);
      MaxAccel in r && IsNum(r[MaxAccel]) &&
      (PrintSpeed in r <==> PrintSpeed in s) &&
      (PrintSpeed in s ==> IsNum(r[PrintSpeed]) && Num(r[PrintSpeed]) >= Num(s[PrintSpeed])) &&
      (PrintSpeed in s && Num(r[MaxAccel]) >= 8000.0 ==>
        Num(r[PrintSpeed]) >= 80.0 && TravelSpeed in r && IsNum(r[TravelSpeed]) && Num(r[TravelSpeed]) >= 200.0) &&
      (PrintSpeed in s && 5000.0 <= Num(r[MaxAccel]) < 8000.0 ==>
        Num(r[PrintSpeed]) >= 60.0 && TravelSpeed in r && IsNum(r[TravelSpeed]) && Num(r[TravelSpeed]) >= 180.0) &&
      (PrintSpeed !in s || Num(r[MaxAccel]) < 5000.0 ==>
        (PrintSpeed in s ==> r[PrintSpeed] == s[PrintSpeed]) &&
        (TravelSpeed in r <==> TravelSpeed in s) && (TravelSpeed in s ==> r[TravelSpeed] == s[TravelSpeed]))
  {
    var pc := ConfigOf(cfg, printer);
    ChosenConfigNumeric(cfg, Lower(printer.model));
    var s1 := WithAdvance(s, cfg, pc, printer, material);
    var s2 := WithShaper(s1, pc);
    var s3 := WithAccel(s2, pc);
    var s4 := WithShaperCap(s3);
    var s5 := WithSpeedFloors(s4);
    assert Keeps(s, s4, PrintSpeed) && Keeps(s, s4, TravelSpeed);
  }

  /** The overlay always turns firmware retraction off and writes both G-code blocks. */
  lemma OverlayGcode(cfg: KlipperConfig, s: Profile, printer: PrinterInfo, material: MaterialInfo)
    requires NumericModels(cfg) && OverlayReady(s)
    ensures var r := Overlaid(cfg, s, printer, material);
      UseFirmwareRetraction in r && r[UseFirmwareRetraction] == B(false) &&
      StartGcode in r && r[StartGcode] == S(Join(StartGcodeLines(cfg.startGcode, true, true), "\n")) &&
      EndGcode in r && r[EndGcode] == S(Join(EndGcodeLines(cfg), "\n"))
  {
  }

  /** The overlay writes only its own keys and the two speeds; every other setting is kept. */
  lemma OverlayFrame(cfg: KlipperConfig, s: Profile, printer: PrinterInfo, material: MaterialInfo)
    requires NumericModels(cfg) && OverlayReady(s)
    ensures OnlyWrites(s, Overlaid(cfg, s, printer, material), OverlayKeys)
  {
    var pc := ConfigOf(cfg, printer);
    ChosenConfigNumeric(cfg, Lower(printer.model));
    var s1 := WithAdvance(s, cfg, pc, printer, material);
    var s2 := WithShaper(s1, pc);
    var s3 := WithAccel(s2, pc);
    var s4 := WithShaperCap(s3);
    var s5 := WithSpeedFloors(s4);
    AdvanceFrame(s, cfg, pc, printer, material);
    ShaperFrame(s1, pc);
    OnlyWritesTrans(s, s1, s2, OverlayKeys, OverlayKeys, OverlayKeys);
    AccelFrame(s2, pc);
    OnlyWritesTrans(s, s2, s3, OverlayKeys, OverlayKeys, OverlayKeys);
    ShaperCapFrame(s3);
    OnlyWritesTrans(s, s3, s4, OverlayKeys, OverlayKeys, OverlayKeys);
    SpeedFloorsFrame(s4);
    OnlyWritesTrans(s, s4, s5, OverlayKeys, OverlayKeys, OverlayKeys);
    GcodeFrame(s5, cfg);
    OnlyWritesTrans(s, s5, WithGcode(s5, cfg), OverlayKeys, OverlayKeys, OverlayKeys);
  }

  lemma AdvanceFrame(s: Profile, cfg: KlipperConfig, pc: PrinterConfig, printer: PrinterInfo, material: MaterialInfo)
    ensures OnlyWrites(s, WithAdvance(s, cfg, pc, printer, material), OverlayKeys)
  {
  }

  lemma ShaperFrame(s: Profile, pc: PrinterConfig)
    ensures OnlyWrites(s, WithShaper(s, pc), OverlayKeys)
  {
  }

  lemma AccelFrame(s: Profile, pc: PrinterConfig)
    ensures OnlyWrites(s, WithAccel(s, pc), OverlayKeys)
  {
  }

  lemma ShaperCapFrame(s: Profile)
    requires MaxAccel in s && IsNum(s[MaxAccel])
    requires NumericAt(s, InputShaperXFreq) && NumericAt(s, InputShaperYFreq)
    ensures OnlyWrites(s, WithShaperCap(s), OverlayKeys)
  {
  }

  lemma SpeedFloorsFrame(s: Profile)
    requires NumericAt(s, MaxAccel) && NumericAt(s, PrintSpeed) && NumericAt(s, TravelSpeed)
    ensures OnlyWrites(s, WithSpeedFloors(s), OverlayKeys)
  {
  }

  lemma GcodeFrame(s: Profile, cfg: KlipperConfig)
    ensures OnlyWrites(s, WithGcode(s, cfg), OverlayKeys)
  {
  }

  /** The shaper and corner values the overlay leaves in the settings. */
  lemma OverlayShaper(cfg: KlipperConfig, s: Profile, printer: PrinterInfo, material: MaterialInfo)
    requires NumericModels(cfg) && OverlayReady(s)
    ensures var r := Overlaid(cfg, s, printer, material); var pc := ConfigOf(cfg, printer);
      SquareCornerVelocity in r && r[SquareCornerVelocity] == OrElse(pc.squareCornerVelocity, R(5.0)) &&
      (pc.inputShaper.Some? ==>
        InputShaperXFreq in r && r[InputShaperXFreq] == OrElse(pc.inputShaper.value.xFrequency, R(40.0)) &&
        InputShaperYFreq in r && r[InputShaperYFreq] == OrElse(pc.inputShaper.value.yFrequency, R(40.0)) &&
        InputShaperTypeX in r && r[InputShaperTypeX] == OrElse(pc.inputShaper.value.shaperTypeX, S("mzv")) &&
        InputShaperTypeY in r && r[InputShaperTypeY] == OrElse(pc.inputShaper.value.shaperTypeY, S("mzv"))) &&
      (pc.inputShaper.None? ==> Keeps(s, r, InputShaperXFreq) && Keeps(s, r, InputShaperYFreq))
  {
    var pc := ConfigOf(cfg, printer);
    ChosenConfigNumeric(cfg, Lower(printer.model));
    var s1 := WithAdvance(s, cfg, pc, printer, material);
    var s2 := WithShaper(s1, pc);
    var s3 := WithAccel(s2, pc);
    var s4 := WithShaperCap(s3);
    var s5 := WithSpeedFloors(s4);
  }

  lemma AdvanceSettled(r: Profile, cfg: KlipperConfig, pc: PrinterConfig, printer: PrinterInfo, material: MaterialInfo)
    requires PressureAdvance in r && r[PressureAdvance] == AdvanceOf(cfg, pc, printer, material)
    requires PressureAdvanceSmoothTime in r && r[PressureAdvanceSmoothTime] == OrElse(pc.smoothTime, R(0.04))
    ensures WithAdvance(r, cfg, pc, printer, material) == r
  {
  }

  lemma ShaperSettled(r: Profile, pc: PrinterConfig)
    requires pc.inputShaper.Some? ==>
      InputShaperXFreq in r && r[InputShaperXFreq] == OrElse(pc.inputShaper.value.xFrequency, R(40.0)) &&
      InputShaperYFreq in r && r[InputShaperYFreq] == OrElse(pc.inputShaper.value.yFrequency, R(40.0)) &&
      InputShaperTypeX in r && r[InputShaperTypeX] == OrElse(pc.inputShaper.value.shaperTypeX, S("mzv")) &&
      InputShaperTypeY in r && r[InputShaperTypeY] == OrElse(pc.inputShaper.value.shaperTypeY, S("mzv"))
    ensures WithShaper(r, pc) == r
  {
  }

  lemma AccelSettled(r: Profile, pc: PrinterConfig)
    requires NumericConfig(pc)
    requires NumericAt(r, InputShaperXFreq) && NumericAt(r, InputShaperYFreq)
    requires MaxAccel in r && MaxAccelToDecel in r
    requires SquareCornerVelocity in r && r[SquareCornerVelocity] == OrElse(pc.squareCornerVelocity, R(5.0))
    requires InputShaperXFreq in r && InputShaperYFreq in r ==>
      r[MaxAccel] == PyMin(OrElse(pc.maxAccel, I(4000)), I(AccelCap(Num(PyMin(r[InputShaperXFreq], r[InputShaperYFreq]))))) &&
      r[MaxAccelToDecel] == FloorHalf(r[MaxAccel])
    requires !(InputShaperXFreq in r && InputShaperYFreq in r) ==>
      r[MaxAccel] == OrElse(pc.maxAccel, I(4000)) && r[MaxAccelToDecel] == OrElse(pc.maxAccelToDecel, I(2000))
    ensures WithShaperCap(WithAccel(r, pc)) == r
  {
  }

  lemma SpeedsSettled(r: Profile)
    requires MaxAccel in r && IsNum(r[MaxAccel]) && NumericAt(r, PrintSpeed) && NumericAt(r, TravelSpeed)
    requires PrintSpeed in r && Num(r[MaxAccel]) >= 8000.0 ==>
      Num(r[PrintSpeed]) >= 80.0 && TravelSpeed in r && Num(r[TravelSpeed]) >= 200.0
    requires PrintSpeed in r && 5000.0 <= Num(r[MaxAccel]) < 8000.0 ==>
      Num(r[PrintSpeed]) >= 60.0 && TravelSpeed in r && Num(r[TravelSpeed]) >= 180.0
    ensures WithSpeedFloors(r) == r
  {
  }

  lemma GcodeSettled(r: Profile, cfg: KlipperConfig)
    requires UseFirmwareRetraction in r && r[UseFirmwareRetraction] == B(false)
    requires StartGcode in r && r[StartGcode] == OverlayStartGcode(cfg)
    requires EndGcode in r && r[EndGcode] == S(Join(EndGcodeLines(cfg), "\n"))
    ensures WithGcode(r, cfg) == r
  {
  }

  /** Overlay a second time and nothing changes: every value written is already in place. */
  lemma OverlayIdempotent(cfg: KlipperConfig, s: Profile, printer: PrinterInfo, material: MaterialInfo)
    requires NumericModels(cfg) && OverlayReady(s)
    ensures OverlayReady(Overlaid(cfg, s, printer, material))
    ensures Overlaid(cfg, Overlaid(cfg, s, printer, material), printer, material) == Overlaid(cfg, s, printer, material)
  {
    var pc := ConfigOf(cfg, printer);
    ChosenConfigNumeric(cfg, Lower(printer.model));
    var r := Overlaid(cfg, s, printer, material);
    OverlayAdvance(cfg, s, printer, material);
    OverlayShaper(cfg, s, printer, material);
    OverlayAcceleration(cfg, s, printer, material);
    OverlaySpeeds(cfg, s, printer, material);
    OverlayGcode(cfg, s, printer, material);
    assert OverlayReady(r);
    AdvanceSettled(r, cfg, pc, printer, material);
    ShaperSettled(r, pc);
    AccelSettled(r, pc);
    SpeedsSettled(r);
    GcodeSettled(r, cfg);
  }

  // ---------------------------------------------------------------------
  // The configuration snippet
  // ---------------------------------------------------------------------

  /**
   * One line of the snippet.  How a value is printed after `name: ` is
   * Python's own formatting and is left out; the line keeps the value.
   */
  datatype ConfigLine = Comment(text: string) | Blank | Section(name: string) | Entry(name: string, value: Value)

  const SnippetHeader: seq<ConfigLine> := [Comment("# Klipper settings generated by Orca Slicer Settings Generator"), Blank]

  function ExtruderLines(s: Profile): seq<ConfigLine> {
    [Section("extruder"),
     Entry("pressure_advance", GetOr(s, PressureAdvance, R(0.05))),
     Entry("pressure_advance_smooth_time", GetOr(s, PressureAdvanceSmoothTime, R(0.04))),
     Blank]
  }

  function ShaperLines(s: Profile): seq<ConfigLine> {
    [Section("input_shaper"),
     Entry("shaper_freq_x", GetOr(s, InputShaperXFreq, R(40.0))),
     Entry("shaper_freq_y", GetOr(s, InputShaperYFreq, R(40.0))),
     Entry("shaper_type_x", GetOr(s, InputShaperTypeX, S("mzv"))),
     Entry("shaper_type_y", GetOr(s, InputShaperTypeY, S("mzv"))),
     Blank]
  }

  function PrinterLines(s: Profile): seq<ConfigLine> {
    [Section("printer"),
     Entry("max_accel", GetOr(s, MaxAccel, I(4000))),
     Entry("max_accel_to_decel", GetOr(s, MaxAccelToDecel, I(2000))),
     Entry("square_corner_velocity", GetOr(s, SquareCornerVelocity, R(5.0))),
     Blank]
  }

  /** `generate_klipper_config` as a line list: a header, then each section whose trigger key is set. */
  function ConfigSnippet(s: Profile): (lines: seq<ConfigLine>)
    ensures |lines| >= 2 && lines[..2] == SnippetHeader
  {
    SnippetHeader
      + (if PressureAdvance in s then ExtruderLines(s) else [])
      + (if InputShaperXFreq in s && InputShaperYFreq in s then ShaperLines(s) else [])
      + (if MaxAccel in s then PrinterLines(s) else [])
  }

  /** `generate_klipper_config`, extending the line list section by section; the printer is not read. */
  method GenerateKlipperConfig(printer: PrinterInfo, s: Profile) returns (lines: seq<ConfigLine>)
    ensures lines == ConfigSnippet(s)
  {
    lines := SnippetHeader;
    if PressureAdvance in s {
      lines := lines + ExtruderLines(s);
    }
    if InputShaperXFreq in s && InputShaperYFreq in s {
      lines := lines + ShaperLines(s);
    }
    if MaxAccel in s {
      lines := lines + PrinterLines(s);
    }
  }

  /** The section headers in order. */
  function SectionNames(lines: seq<ConfigLine>): (names: seq<string>)
    ensures |names| <= |lines|
  {
    if lines == [] then []
    else (if lines[0].Section? then [lines[0].name] else []) + SectionNames(lines[1..])
  }

  lemma {:induction false} SectionNamesAppend(a: seq<ConfigLine>, b: seq<ConfigLine>)
    ensures SectionNames(a + b) == SectionNames(a) + SectionNames(b)
  {
    if a == [] {
      assert a + b == b;
    } else {
      var head := if a[0].Section? then [a[0].name] else [];
      assert (a + b)[0] == a[0] && (a + b)[1..] == a[1..] + b;
      assert SectionNames(a + b) == head + SectionNames(a[1..] + b);
      SectionNamesAppend(a[1..], b);
      assert head + (SectionNames(a[1..]) + SectionNames(b)) == (head + SectionNames(a[1..])) + SectionNames(b);
    }
  }

  lemma {:induction false} NoSectionNames(lines: seq<ConfigLine>)
    requires forall i | 0 <= i < |lines| :: !lines[i].Section?
    ensures SectionNames(lines) == []
  {
    if lines != [] {
      NoSectionNames(lines[1..]);
    }
  }

  /** A section block names its own section and no other. */
  lemma SectionBlock(lines: seq<ConfigLine>, name: string)
    requires |lines| > 0 && lines[0] == Section(name)
    requires forall i | 1 <= i < |lines| :: !lines[i].Section?
    ensures SectionNames(lines) == [name]
  {
    NoSectionNames(lines[1..]);
  }

  /** The value of the first entry called `name`, if any. */
  function EntryValue(lines: seq<ConfigLine>, name: string): (v: Option<Value>)
    ensures v.Some? ==> Entry(name, v.value) in lines
    ensures v.None? ==> forall x | x in lines :: !(x.Entry? && x.name == name)
  {
    if lines == [] then None
    else if lines[0].Entry? && lines[0].name == name then Some(lines[0].value)
    else EntryValue(lines[1..], name)
  }

  lemma {:induction false} EntryValueAppend(a: seq<ConfigLine>, b: seq<ConfigLine>, name: string)
    ensures EntryValue(a + b, name) == if EntryValue(a, name).Some? then EntryValue(a, name) else EntryValue(b, name)
  {
    if a == [] {
      assert a + b == b;
    } else {
      assert (a + b)[1..] == a[1..] + b;
      EntryValueAppend(a[1..], b, name);
    }
  }

  /** The snippet's sections appear in the fixed order extruder, input shaper, printer, each exactly when its keys are set. */
  lemma SnippetSections(s: Profile)
    ensures SectionNames(ConfigSnippet(s)) ==
      (if PressureAdvance in s then ["extruder"] else []) +
      (if InputShaperXFreq in s && InputShaperYFreq in s then ["input_shaper"] else []) +
      (if MaxAccel in s then ["printer"] else [])
  {
    var e := if PressureAdvance in s then ExtruderLines(s) else [];
    var h := if InputShaperXFreq in s && InputShaperYFreq in s then ShaperLines(s) else [];
    var p := if MaxAccel in s then PrinterLines(s) else [];
    assert ConfigSnippet(s) == SnippetHeader + e + h + p;
    HeaderHasNoSection();
    if PressureAdvance in s { SectionBlock(ExtruderLines(s), "extruder"); }
    if InputShaperXFreq in s && InputShaperYFreq in s { SectionBlock(ShaperLines(s), "input_shaper"); }
    if MaxAccel in s { SectionBlock(PrinterLines(s), "printer"); }
    SectionNamesOfParts(SnippetHeader, e, h, p);
  }

  lemma HeaderHasNoSection()
    ensures SectionNames(SnippetHeader) == []
  {
    NoSectionNames(SnippetHeader);
  }

  /** Behind a header without sections, the sections of three parts in order. */
  lemma SectionNamesOfParts(header: seq<ConfigLine>, e: seq<ConfigLine>, h: seq<ConfigLine>, p: seq<ConfigLine>)
    requires SectionNames(header) == []
    ensures SectionNames(header + e + h + p) == SectionNames(e) + SectionNames(h) + SectionNames(p)
  {
    SectionNamesAppend(header, e);
    SectionNamesAppend(header + e, h);
    SectionNamesAppend(header + e + h, p);
    assert [] + SectionNames(e) == SectionNames(e);
  }

  lemma ExtruderEntries(s: Profile, name: string)
    ensures EntryValue(ExtruderLines(s), name) ==
      if name == "pressure_advance" then Some(GetOr(s, PressureAdvance, R(0.05)))
      else if name == "pressure_advance_smooth_time" then Some(GetOr(s, PressureAdvanceSmoothTime, R(0.04)))
      else None
  {
    var ex := ExtruderLines(s);
    assert ex[1..][1..][1..][1..] == [];
  }

  lemma ShaperEntries(s: Profile, name: string)
    ensures EntryValue(ShaperLines(s), name) ==
      if name == "shaper_freq_x" then Some(GetOr(s, InputShaperXFreq, R(40.0)))
      else if name == "shaper_freq_y" then Some(GetOr(s, InputShaperYFreq, R(40.0)))
      else if name == "shaper_type_x" then Some(GetOr(s, InputShaperTypeX, S("mzv")))
      else if name == "shaper_type_y" then Some(GetOr(s, InputShaperTypeY, S("mzv")))
      else None
  {
    var sh := ShaperLines(s);
    assert sh[1..][1..][1..][1..][1..][1..] == [];
  }

  lemma PrinterEntries(s: Profile, name: string)
    ensures EntryValue(PrinterLines(s), name) ==
      if name == "max_accel" then Some(GetOr(s, MaxAccel, I(4000)))
      else if name == "max_accel_to_decel" then Some(GetOr(s, MaxAccelToDecel, I(2000)))
      else if name == "square_corner_velocity" then Some(GetOr(s, SquareCornerVelocity, R(5.0)))
      else None
  {
    var pr := PrinterLines(s);
    assert pr[1..][1..][1..][1..][1..] == [];
  }

  /** An entry of the snippet is found in the first written section that has it. */
  lemma SnippetEntry(s: Profile, name: string)
    ensures EntryValue(ConfigSnippet(s), name) ==
      if PressureAdvance in s && EntryValue(ExtruderLines(s), name).Some? then EntryValue(ExtruderLines(s), name)
      else if InputShaperXFreq in s && InputShaperYFreq in s && EntryValue(ShaperLines(s), name).Some? then EntryValue(ShaperLines(s), name)
      else if MaxAccel in s then EntryValue(PrinterLines(s), name)
      else None
  {
    var e := if PressureAdvance in s then ExtruderLines(s) else [];
    var h := if InputShaperXFreq in s && InputShaperYFreq in s then ShaperLines(s) else [];
    var p := if MaxAccel in s then PrinterLines(s) else [];
    EntryValueAppend(SnippetHeader + e + h, p, name);
    EntryValueAppend(SnippetHeader + e, h, name);
    EntryValueAppend(SnippetHeader, e, name);
    assert SnippetHeader[1..][1..] == [];
    assert EntryValue(SnippetHeader, name) == None;
  }

  /** Looking one name up in the snippet, given what each section says about it. */
  lemma SnippetLookup(s: Profile, name: string)
    ensures EntryValue(ConfigSnippet(s), name) ==
      if PressureAdvance in s && EntryValue(ExtruderLines(s), name).Some? then EntryValue(ExtruderLines(s), name)
      else if InputShaperXFreq in s && InputShaperYFreq in s && EntryValue(ShaperLines(s), name).Some? then EntryValue(ShaperLines(s), name)
      else if MaxAccel in s then EntryValue(PrinterLines(s), name)
      else None
    ensures EntryValue(ExtruderLines(s), name) ==
      if name == "pressure_advance" then Some(GetOr(s, PressureAdvance, R(0.05)))
      else if name == "pressure_advance_smooth_time" then Some(GetOr(s, PressureAdvanceSmoothTime, R(0.04)))
      else None
    ensures EntryValue(ShaperLines(s), name) ==
      if name == "shaper_freq_x" then Some(GetOr(s, InputShaperXFreq, R(40.0)))
      else if name == "shaper_freq_y" then Some(GetOr(s, InputShaperYFreq, R(40.0)))
      else if name == "shaper_type_x" then Some(GetOr(s, InputShaperTypeX, S("mzv")))
      else if name == "shaper_type_y" then Some(GetOr(s, InputShaperTypeY, S("mzv")))
      else None
    ensures EntryValue(PrinterLines(s), name) ==
      if name == "max_accel" then Some(GetOr(s, MaxAccel, I(4000)))
      else if name == "max_accel_to_decel" then Some(GetOr(s, MaxAccelToDecel, I(2000)))
      else if name == "square_corner_velocity" then Some(GetOr(s, SquareCornerVelocity, R(5.0)))
      else None
  {
    SnippetEntry(s, name);
    ExtruderEntries(s, name);
    ShaperEntries(s, name);
    PrinterEntries(s, name);
  }

  /** The extruder section copies the pressure advance as it is, and is written only when it is set. */
  lemma SnippetAdvanceValues(s: Profile)
    ensures var lines := ConfigSnippet(s);
      EntryValue(lines, "pressure_advance") == (if PressureAdvance in s then Some(s[PressureAdvance]) else None) &&
      EntryValue(lines, "pressure_advance_smooth_time") ==
        (if PressureAdvance in s then Some(GetOr(s, PressureAdvanceSmoothTime, R(0.04))) else None)
  {
    SnippetLookup(s, "pressure_advance");
    SnippetLookup(s, "pressure_advance_smooth_time");
  }

  /** The input shaper section copies both frequencies, and is written only when both are set. */
  lemma SnippetShaperValues(s: Profile)
    ensures var lines := ConfigSnippet(s); var both := InputShaperXFreq in s && InputShaperYFreq in s;
      EntryValue(lines, "shaper_freq_x") == (if both then Some(s[InputShaperXFreq]) else None) &&
      EntryValue(lines, "shaper_freq_y") == (if both then Some(s[InputShaperYFreq]) else None) &&
      EntryValue(lines, "shaper_type_x") == (if both then Some(GetOr(s, InputShaperTypeX, S("mzv"))) else None) &&
      EntryValue(lines, "shaper_type_y") == (if both then Some(GetOr(s, InputShaperTypeY, S("mzv"))) else None)
  {
    SnippetLookup(s, "shaper_freq_x");
    SnippetLookup(s, "shaper_freq_y");
    SnippetLookup(s, "shaper_type_x");
    SnippetLookup(s, "shaper_type_y");
  }

  /** The printer section copies the acceleration as it is, and is written only when it is set. */
  lemma SnippetPrinterValues(s: Profile)
    ensures var lines := ConfigSnippet(s);
      EntryValue(lines, "max_accel") == (if MaxAccel in s then Some(s[MaxAccel]) else None) &&
      EntryValue(lines, "max_accel_to_decel") == (if MaxAccel in s then Some(GetOr(s, MaxAccelToDecel, I(2000))) else None) &&
      EntryValue(lines, "square_corner_velocity") ==
        (if MaxAccel in s then Some(GetOr(s, SquareCornerVelocity, R(5.0))) else None)
  {
    SnippetLookup(s, "max_accel");
    SnippetLookup(s, "max_accel_to_decel");
    SnippetLookup(s, "square_corner_velocity");
  }

  // ---------------------------------------------------------------------
  // Explanations
  // ---------------------------------------------------------------------

  /** Pressure advance: very low, low to moderate, moderate to high, high. */
  function AdvanceBand(v: real): (b: nat)
    ensures b == 0 <==> v < 0.03
    ensures b == 1 <==> 0.03 <= v < 0.06
    ensures b == 2 <==> 0.06 <= v < 0.1
    ensures b == 3 <==> v >= 0.1
  {
    if v < 0.03 then 0 else if v < 0.06 then 1 else if v < 0.1 then 2 else 3
  }

  /** The lower shaper frequency: low, average, above average, high. */
  function FrequencyBand(f: real): (b: nat)
    ensures b == 3 <==> f > 50.0
    ensures b == 2 <==> 40.0 < f <= 50.0
    ensures b == 1 <==> 30.0 < f <= 40.0
    ensures b == 0 <==> f <= 30.0
  {
    if f > 50.0 then 3 else if f > 40.0 then 2 else if f > 30.0 then 1 else 0
  }

  /** The acceleration: conservative, moderate, high, very high. */
  function AccelBand(a: real): (b: nat)
    ensures b == 3 <==> a >= 10000.0
    ensures b == 2 <==> 6000.0 <= a < 10000.0
    ensures b == 1 <==> 3000.0 <= a < 6000.0
    ensures b == 0 <==> a < 3000.0
  {
    if a >= 10000.0 then 3 else if a >= 6000.0 then 2 else if a >= 3000.0 then 1 else 0
  }

  lemma BandsMonotone(x: real, y: real)
    requires x <= y
    ensures AdvanceBand(x) <= AdvanceBand(y)
    ensures FrequencyBand(x) <= FrequencyBand(y)
    ensures AccelBand(x) <= AccelBand(y)
  {
  }

  /** The overlay's acceleration cap is the frequency band read on the scale 2000, 4000, 6000, 10000. */
  lemma CapFollowsFrequencyBand(f: real)
    ensures AccelCap(f) == [2000, 4000, 6000, 10000][FrequencyBand(f)]
    ensures AccelBand(AccelCap(f) as real) == FrequencyBand(f)
  {
  }

  /**
   * What an explanation is built from; the sentences around it, and the
   * shaper type descriptions, are prose and are left out.
   */
  datatype KlipperNote =
    | AdvanceNote(value: Value, band: nat)
    | ShaperNote(x: Value, y: Value, typeX: Value, typeY: Value, band: nat)
    | AccelNote(value: Value, band: nat)

  /** The explained settings are compared with numbers, which Python demands. */
  predicate ExplainReady(s: Profile) {
    NumericAt(s, PressureAdvance) && NumericAt(s, MaxAccel) &&
    (InputShaperXFreq in s && InputShaperYFreq in s ==> IsNum(s[InputShaperXFreq]) && IsNum(s[InputShaperYFreq]))
  }

  /** `explain_klipper_settings`: one note per explained group whose keys are set. */
  function KlipperExplanations(s: Profile): (e: map<Key, KlipperNote>)
    requires ExplainReady(s)
    ensures e.Keys <= {PressureAdvance, InputShaper, MaxAccel}
    ensures PressureAdvance in e <==> PressureAdvance in s
    ensures InputShaper in e <==> InputShaperXFreq in s && InputShaperYFreq in s
    ensures MaxAccel in e <==> MaxAccel in s
    ensures PressureAdvance in e ==> e[PressureAdvance].AdvanceNote? && e[PressureAdvance].value == s[PressureAdvance]
    ensures InputShaper in e ==>
      e[InputShaper].ShaperNote? && e[InputShaper].x == s[InputShaperXFreq] && e[InputShaper].y == s[InputShaperYFreq]
    ensures MaxAccel in e ==> e[MaxAccel].AccelNote? && e[MaxAccel].value == s[MaxAccel]
  {
    var e1: map<Key, KlipperNote> :=
      if PressureAdvance in s then map[PressureAdvance := AdvanceNote(s[PressureAdvance], AdvanceBand(Num(s[PressureAdvance])))]
      else map[];
    var e2 :=
      if InputShaperXFreq in s && InputShaperYFreq in s then
        var x := s[InputShaperXFreq];
        var y := s[InputShaperYFreq];
        e1[InputShaper := ShaperNote(x, y, GetOr(s, InputShaperTypeX, S("mzv")), GetOr(s, InputShaperTypeY, S("mzv")),
                                      FrequencyBand(Num(PyMin(x, y))))]
      else e1;
    if MaxAccel in s then e2[MaxAccel := AccelNote(s[MaxAccel], AccelBand(Num(s[MaxAccel])))] else e2
  }

  /** `explain_klipper_settings`, filling the dictionary group by group. */
  method ExplainKlipperSettings(s: Profile) returns (e: map<Key, KlipperNote>)
    requires ExplainReady(s)
    ensures e == KlipperExplanations(s)
  {
    e := map[];
    if PressureAdvance in s {
      var pa := s[PressureAdvance];
      var band := if Num(pa) < 0.03 then 0 else if Num(pa) < 0.06 then 1 else if Num(pa) < 0.1 then 2 else 3;
      e := e[PressureAdvance := AdvanceNote(pa, band)];
    }
    if InputShaperXFreq in s && InputShaperYFreq in s {
      var x := s[InputShaperXFreq];
      var y := s[InputShaperYFreq];
      var f := Num(PyMin(x, y));
      var band := if f > 50.0 then 3 else if f > 40.0 then 2 else if f > 30.0 then 1 else 0;
      e := e[InputShaper := ShaperNote(x, y, GetOr(s, InputShaperTypeX, S("mzv")), GetOr(s, InputShaperTypeY, S("mzv")), band)];
    }
    if MaxAccel in s {
      var a := s[MaxAccel];
      var band := if Num(a) >= 10000.0 then 3 else if Num(a) >= 6000.0 then 2 else if Num(a) >= 3000.0 then 1 else 0;
      e := e[MaxAccel := AccelNote(a, band)];
    }
  }

  /** The shaper note describes the lower frequency, and names the configured types or `mzv`. */
  lemma ShaperNoteBand(s: Profile)
    requires ExplainReady(s) && InputShaperXFreq in s && InputShaperYFreq in s
    ensures var n := KlipperExplanations(s)[InputShaper];
      n.band == FrequencyBand(Num(s[InputShaperXFreq])) || n.band == FrequencyBand(Num(s[InputShaperYFreq]))
    ensures var n := KlipperExplanations(s)[InputShaper];
      n.band <= FrequencyBand(Num(s[InputShaperXFreq])) && n.band <= FrequencyBand(Num(s[InputShaperYFreq]))
    ensures var n := KlipperExplanations(s)[InputShaper];
      (InputShaperTypeX !in s ==> n.typeX == S("mzv")) && (InputShaperTypeY !in s ==> n.typeY == S("mzv"))
  {
    var x := s[InputShaperXFreq];
    var y := s[InputShaperYFreq];
    BandsMonotone(Num(PyMin(x, y)), Num(x));
    BandsMonotone(Num(PyMin(x, y)), Num(y));
  }

  /** A dictionary of one setting never yields the input shaper note: that needs two frequencies. */
  lemma OneKeyNeverExplainsShaper(k: Key, v: Value)
    requires ExplainReady(map[k := v])
    ensures InputShaper !in KlipperExplanations(map[k := v])
  {
  }

  /**
   * Once the overlay has capped the acceleration by the shaper, the
   * acceleration note is never in a higher band than the frequency note.
   */
  lemma OverlayAccelWithinShaperBand(cfg: KlipperConfig, s: Profile, printer: PrinterInfo, material: MaterialInfo)
    requires NumericModels(cfg) && OverlayReady(s) && Shaped(s, ConfigOf(cfg, printer))
    requires IsNum(AdvanceOf(cfg, ConfigOf(cfg, printer), printer, material))
    ensures var r := Overlaid(cfg, s, printer, material);
      ExplainReady(r) && MaxAccel in KlipperExplanations(r) && InputShaper in KlipperExplanations(r) &&
      KlipperExplanations(r)[MaxAccel].band <= KlipperExplanations(r)[InputShaper].band
  {
    var r := Overlaid(cfg, s, printer, material);
    var pc := ConfigOf(cfg, printer);
    ChosenConfigNumeric(cfg, Lower(printer.model));
    OverlayAcceleration(cfg, s, printer, material);
    OverlayAdvance(cfg, s, printer, material);
    var f := Num(PyMin(r[InputShaperXFreq], r[InputShaperYFreq]));
    CapFollowsFrequencyBand(f);
    BandsMonotone(Num(r[MaxAccel]), AccelCap(f) as real);
  }
}
