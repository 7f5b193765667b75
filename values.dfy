/**
 * Shared value model for slicer settings.
 *
 * A profile is a dictionary from setting names to values.  Python keeps
 * the distinction between `int`, `float`, `bool` and `str` at run time and
 * the generator relies on it (`round(x)` gives an `int`, `round(x, 2)` a
 * `float`, `int * int` stays an `int`), so values are tagged.  Floats are
 * modelled as exact reals: binary representation error is not modelled.
 */
module Values {

  datatype Option<T> = None | Some(value: T)

  datatype Value = R(r: real) | I(i: int) | B(b: bool) | S(s: string)

  /**
   * Setting names.  Every name the settings logic writes or reads has a
   * constructor of its own; any other dictionary key is `Other(name)`.  A
   * Python dictionary holds one entry per name, so only an `Other(name)`
   * whose name is no named setting's stands for a key of its own
   * (`WellKeyed`).
   */
  datatype Key =
    LayerHeight
    | InitialLayerHeight
    | LineWidth
    | WallThickness
    | WallLineCount
    | TopThickness
    | TopLayers
    | BottomThickness
    | BottomLayers
    | InfillDensity
    | InfillPattern
    | MaterialPrintTemperature
    | MaterialBedTemperature
    | MaterialFlow
    | PrintSpeed
    | InfillSpeed
    | OuterWallSpeed
    | InnerWallSpeed
    | TravelSpeed
    | RetractionEnable
    | RetractionDistance
    | RetractionSpeed
    | ZHopEnable
    | ZHopHeight
    | CoolingEnable
    | FanSpeed
    | InitialFanSpeed
    | SupportEnable
    | SupportType
    | SupportAngle
    | AdhesionType
    | SkirtLineCount
    | BrimWidth
    | IroningEnabled
    | AdaptiveLayers
    | MinimumWallFlow
    | ZSeamType
    | PressureAdvance
    | PressureAdvanceSmoothTime
    | InputShaperXFreq
    | InputShaperYFreq
    | InputShaperTypeX
    | InputShaperTypeY
    | MaxAccel
    | MaxAccelToDecel
    | SquareCornerVelocity
    | UseFirmwareRetraction
    | StartGcode
    | EndGcode
    | InputShaper
    | Temperature
    | BedTemperature
    | Other(name: string)

  /** The dictionary key a setting is stored under. */
  function Name(k: Key): string {
    match k
    case LayerHeight => "layer_height"
    case InitialLayerHeight => "initial_layer_height"
    case LineWidth => "line_width"
    case WallThickness => "wall_thickness"
    case WallLineCount => "wall_line_count"
    case TopThickness => "top_thickness"
    case TopLayers => "top_layers"
    case BottomThickness => "bottom_thickness"
    case BottomLayers => "bottom_layers"
    case InfillDensity => "infill_density"
    case InfillPattern => "infill_pattern"
    case MaterialPrintTemperature => "material_print_temperature"
    case MaterialBedTemperature => "material_bed_temperature"
    case MaterialFlow => "material_flow"
    case PrintSpeed => "print_speed"
    case InfillSpeed => "infill_speed"
    case OuterWallSpeed => "outer_wall_speed"
    case InnerWallSpeed => "inner_wall_speed"
    case TravelSpeed => "travel_speed"
    case RetractionEnable => "retraction_enable"
    case RetractionDistance => "retraction_distance"
    case RetractionSpeed => "retraction_speed"
    case ZHopEnable => "z_hop_enable"
    case ZHopHeight => "z_hop_height"
    case CoolingEnable => "cooling_enable"
    case FanSpeed => "fan_speed"
    case InitialFanSpeed => "initial_fan_speed"
    case SupportEnable => "support_enable"
    case SupportType => "support_type"
    case SupportAngle => "support_angle"
    case AdhesionType => "adhesion_type"
    case SkirtLineCount => "skirt_line_count"
    case BrimWidth => "brim_width"
    case IroningEnabled => "ironing_enabled"
    case AdaptiveLayers => "adaptive_layers"
    case MinimumWallFlow => "minimum_wall_flow"
    case ZSeamType => "z_seam_type"
    case PressureAdvance => "pressure_advance"
    case PressureAdvanceSmoothTime => "pressure_advance_smooth_time"
    case InputShaperXFreq => "input_shaper_x_freq"
    case InputShaperYFreq => "input_shaper_y_freq"
    case InputShaperTypeX => "input_shaper_type_x"
    case InputShaperTypeY => "input_shaper_type_y"
    case MaxAccel => "max_accel"
    case MaxAccelToDecel => "max_accel_to_decel"
    case SquareCornerVelocity => "square_corner_velocity"
    case UseFirmwareRetraction => "use_firmware_retraction"
    case StartGcode => "start_gcode"
    case EndGcode => "end_gcode"
    case InputShaper => "input_shaper"
    case Temperature => "temperature"
    case BedTemperature => "bed_temperature"
    case Other(n) => n
  }

  type Profile = map<Key, Value>

  /**
   * `r` is `p` after writes to the keys `ks` only: every key of `p` is
   * kept, no key outside `ks` is added, and no value outside `ks` changes.
   */
  predicate OnlyWrites(p: Profile, r: Profile, ks: set<Key>) {
    (forall k | k in p :: k in r) &&
    (forall k | k in r && k !in p :: k in ks) &&
    (forall k | k in p && k !in ks :: r[k] == p[k])
  }

  /** Writes to `ks` then to `js` are writes to a set holding both. */
  lemma OnlyWritesTrans(p: Profile, q: Profile, r: Profile, ks: set<Key>, js: set<Key>, all: set<Key>)
    requires OnlyWrites(p, q, ks) && OnlyWrites(q, r, js) && ks <= all && js <= all
    ensures OnlyWrites(p, r, all)
  {
  }

  /** The names that belong to a named setting. */
  const NamedSettings: set<string> := {
    "layer_height",
    "initial_layer_height",
    "line_width",
    "wall_thickness",
    "wall_line_count",
    "top_thickness",
    "top_layers",
    "bottom_thickness",
    "bottom_layers",
    "infill_density",
    "infill_pattern",
    "material_print_temperature",
    "material_bed_temperature",
    "material_flow",
    "print_speed",
    "infill_speed",
    "outer_wall_speed",
    "inner_wall_speed",
    "travel_speed",
    "retraction_enable",
    "retraction_distance",
    "retraction_speed",
    "z_hop_enable",
    "z_hop_height",
    "cooling_enable",
    "fan_speed",
    "initial_fan_speed",
    "support_enable",
    "support_type",
    "support_angle",
    "adhesion_type",
    "skirt_line_count",
    "brim_width",
    "ironing_enabled",
    "adaptive_layers",
    "minimum_wall_flow",
    "z_seam_type",
    "pressure_advance",
    "pressure_advance_smooth_time",
    "input_shaper_x_freq",
    "input_shaper_y_freq",
    "input_shaper_type_x",
    "input_shaper_type_y",
    "max_accel",
    "max_accel_to_decel",
    "square_corner_velocity",
    "use_firmware_retraction",
    "start_gcode",
    "end_gcode",
    "input_shaper",
    "temperature",
    "bed_temperature"
  }

  /**
   * `k` is the only key stored under its name: an `Other` key never
   * carries a named setting's name.
   */
  predicate WellKeyed(k: Key) {
    k.Other? ==> k.name !in NamedSettings
  }

  /** Every key of `p` is well keyed, as in a dictionary indexed by name. */
  predicate WellKeyedProfile(p: Profile) {
    forall k | k in p :: WellKeyed(k)
  }

  /** Every named setting's name is reserved for it. */
  lemma NamedKeyReserved(k: Key)
    requires !k.Other?
    ensures Name(k) in NamedSettings
  {
  }

  /** A well-keyed `Other` key shares its name with no other key. */
  lemma OtherNameUnique(o: Key, k: Key)
    requires o.Other? && WellKeyed(o)
    ensures Name(o) == Name(k) <==> o == k
  {
    if !k.Other? {
      NamedKeyReserved(k);
    }
  }

  /** Writing only named settings keeps a profile well keyed. */
  lemma OnlyWritesWellKeyed(p: Profile, r: Profile, ks: set<Key>)
    requires OnlyWrites(p, r, ks) && WellKeyedProfile(p)
    requires forall k | k in ks :: !k.Other?
    ensures WellKeyedProfile(r)
  {
  }

  /** A key outside the written set keeps its value. */
  lemma OnlyWritesKeeps(p: Profile, r: Profile, ks: set<Key>, k: Key)
    requires OnlyWrites(p, r, ks) && k !in ks
    ensures Keeps(p, r, k)
  {
  }

  /** `r` holds `k` exactly when `s` does, with the same value. */
  predicate Keeps(s: Profile, r: Profile, k: Key) {
    (k in r <==> k in s) && (k in s ==> r[k] == s[k])
  }

  /** Numbers in Python's sense: `bool` is a subclass of `int`. */
  predicate IsNum(v: Value) {
    !v.S?
  }

  /** Values on which integer arithmetic stays integral. */
  predicate IsIntLike(v: Value) {
    v.I? || v.B?
  }

  function Num(v: Value): (x: real)
    requires IsNum(v)
    ensures v.R? ==> x == v.r
    ensures v.I? ==> x == v.i as real
    ensures v.B? ==> x == (if v.b then 1.0 else 0.0)
  {
    match v
    case R(r) => r
    case I(i) => i as real
    case B(b) => if b then 1.0 else 0.0
  }

  function IntOf(v: Value): (n: int)
    requires IsIntLike(v)
    ensures n as real == Num(v)
  {
    if v.I? then v.i else if v.b then 1 else 0
  }

  /** Python truthiness: zero, `False` and the empty string are false. */
  predicate Truthy(v: Value) {
    match v
    case R(r) => r != 0.0
    case I(i) => i != 0
    case B(b) => b
    case S(s) => s != ""
  }

  /** Python `==`: numbers compare by value across `int`, `float` and `bool`. */
  predicate PyEq(a: Value, b: Value) {
    if IsNum(a) && IsNum(b) then Num(a) == Num(b)
    else a.S? && b.S? && a.s == b.s
  }

  /** Python string `<`: lexicographic by code point. */
  predicate StrLt(a: string, b: string) {
    if |a| == 0 then |b| > 0
    else if |b| == 0 then false
    else if a[0] != b[0] then a[0] < b[0]
    else StrLt(a[1..], b[1..])
  }

  /** The operands of `<` that do not raise `TypeError`. */
  predicate Comparable(a: Value, b: Value) {
    (IsNum(a) && IsNum(b)) || (a.S? && b.S?)
  }

  predicate PyLt(a: Value, b: Value)
    requires Comparable(a, b)
  {
    if IsNum(a) then Num(a) < Num(b) else StrLt(a.s, b.s)
  }

  /** `a * b` on numbers: integral when both operands are. */
  function Mul(a: Value, b: Value): (c: Value)
    requires IsNum(a) && IsNum(b)
    ensures IsNum(c)
    ensures c.R? <==> !(IsIntLike(a) && IsIntLike(b))
  {
    if IsIntLike(a) && IsIntLike(b) then I(IntOf(a) * IntOf(b)) else R(Num(a) * Num(b))
  }

  /** `v * f` for a float literal `f`: always a float. */
  function Scale(v: Value, f: real): (c: Value)
    requires IsNum(v)
    ensures c.R? && c.r == Num(v) * f
  {
    R(Num(v) * f)
  }

  /** `a + b` for a number and an integer literal. */
  function AddInt(a: Value, k: int): (c: Value)
    requires IsNum(a)
    ensures IsNum(c) && Num(c) == Num(a) + k as real
    ensures c.R? <==> a.R?
  {
    if IsIntLike(a) then I(IntOf(a) + k) else R(a.r + k as real)
  }

  /** `a / b`: true division, always a float. */
  function Div(a: Value, b: Value): (c: Value)
    requires IsNum(a) && IsNum(b) && Num(b) != 0.0
    ensures c.R?
  {
    R(Num(a) / Num(b))
  }

  /** Python `min(a, b)`: the first argument unless the second is smaller. */
  function PyMin(a: Value, b: Value): (m: Value)
    requires IsNum(a) && IsNum(b)
    ensures m == a || m == b
    ensures Num(m) <= Num(a) && Num(m) <= Num(b)
  {
    if Num(b) < Num(a) then b else a
  }

  /** Python `max(a, b)`: the first argument unless the second is larger. */
  function PyMax(a: Value, b: Value): (m: Value)
    requires IsNum(a) && IsNum(b)
    ensures m == a || m == b
    ensures Num(m) >= Num(a) && Num(m) >= Num(b)
  {
    if Num(b) > Num(a) then b else a
  }

  /**
   * Python 3 `round(x)`: the nearest integer, ties to the even one.
   */
  function RoundHalfEven(x: real): (n: int)
    ensures -0.5 <= n as real - x <= 0.5
    ensures (n as real - x == 0.5 || x - n as real == 0.5) ==> n % 2 == 0
  {
    var f := x.Floor;
    var d := x - f as real;
    if d < 0.5 then f
    else if d > 0.5 then f + 1
    else if f % 2 == 0 then f
    else f + 1
  }

  lemma MulDiv(x: real, c: real)
    requires x != 0.0
    ensures (x * c) / x == c
  {
  }

  lemma RoundOfInteger(k: int)
    ensures RoundHalfEven(k as real) == k
  {
  }

  /** The number `a * b` stands for is the product of the operands'. */
  lemma MulValue(a: Value, b: Value)
    requires IsNum(a) && IsNum(b)
    ensures Num(Mul(a, b)) == Num(a) * Num(b)
  {
    if IsIntLike(a) && IsIntLike(b) {
      assert Num(Mul(a, b)) == (IntOf(a) * IntOf(b)) as real;
    }
  }

  /**
   * A thickness of `c` layers, divided by the layer height and rounded,
   * gives back `c`: `round(lh * c / lh) == c` whenever `lh` is not zero.
   */
  lemma LayerCountOfThickness(lh: Value, c: int)
    requires IsNum(lh) && Num(lh) != 0.0
    ensures RoundV(Div(Mul(lh, I(c)), lh)) == I(c)
  {
    ThicknessOverHeight(lh, c);
    RoundOfInteger(c);
  }

  /** `lh * c / lh` is the float `c`. */
  lemma ThicknessOverHeight(lh: Value, c: int)
    requires IsNum(lh) && Num(lh) != 0.0
    ensures Div(Mul(lh, I(c)), lh) == R(c as real)
  {
    var x, t := Num(lh), Mul(lh, I(c));
    MulValue(lh, I(c));
    assert Num(t) == x * (c as real);
    MulDiv(x, c as real);
    assert Num(t) / x == c as real;
  }

  /** Python `round(x, 2)` on a float: a float with at most two decimals. */
  function Round2(x: real): (y: real)
    ensures -0.005 <= y - x <= 0.005
    ensures (y * 100.0).Floor as real == y * 100.0
  {
    RoundHalfEven(x * 100.0) as real / 100.0
  }

  /** `round(v)` on a number: always an `int`. */
  function RoundV(v: Value): (c: Value)
    requires IsNum(v)
    ensures c.I? && -0.5 <= c.i as real - Num(v) <= 0.5
  {
    I(RoundHalfEven(Num(v)))
  }

  /** `round(v, 2)`: an `int` argument comes back unchanged, a float is rounded. */
  function Round2V(v: Value): (c: Value)
    requires IsNum(v)
    ensures IsNum(c) && -0.005 <= Num(c) - Num(v) <= 0.005
    ensures IsIntLike(v) ==> c == I(IntOf(v))
  {
    if IsIntLike(v) then I(IntOf(v)) else R(Round2(v.r))
  }

  /** ASCII `str.lower()`. */
  function Lower(s: string): (t: string)
    ensures |t| == |s|
    ensures forall i :: 0 <= i < |s| ==> t[i] == LowerChar(s[i])
  {
    if |s| == 0 then "" else [LowerChar(s[0])] + Lower(s[1..])
  }

  /** A string without capital letters is its own lower-case form. */
  lemma LowerOfLowercase(s: string)
    requires forall i | 0 <= i < |s| :: !('A' <= s[i] <= 'Z')
    ensures Lower(s) == s
  {
    assert forall i | 0 <= i < |s| :: Lower(s)[i] == s[i];
  }

  function LowerChar(c: char): char {
    if 'A' <= c <= 'Z' then (c as int + 32) as char else c
  }

  predicate IsPrefix(p: string, s: string) {
    |p| <= |s| && s[..|p|] == p
  }

  /** Python `sub in s` on strings. */
  predicate Contains(s: string, sub: string)
    decreases |s|
  {
    IsPrefix(sub, s) || (|s| > 0 && Contains(s[1..], sub))
  }

  lemma {:induction false} ContainsShifted(s: string, sub: string, i: nat)
    requires i + |sub| <= |s| && s[i..i + |sub|] == sub
    ensures Contains(s, sub)
    decreases i
  {
    if i == 0 {
      assert s[..|sub|] == sub;
    } else {
      assert s[1..][i - 1..i - 1 + |sub|] == s[i..i + |sub|];
      ContainsShifted(s[1..], sub, i - 1);
    }
  }

  /** A string that contains a longer one contains every part of it. */
  lemma {:induction false} ContainsPart(s: string, a: string, b: string, c: string)
    requires Contains(s, a + b + c)
    ensures Contains(s, b)
    decreases |s|
  {
    if IsPrefix(a + b + c, s) {
      var w := a + b + c;
      assert s[|a|..|a| + |b|] == w[|a|..|a| + |b|] == b;
      ContainsShifted(s, b, |a|);
    } else {
      ContainsPart(s[1..], a, b, c);
    }
  }

  /** `d.get(key, default)` on an optional field. */
  function OrElse<T>(o: Option<T>, d: T): T {
    if o.Some? then o.value else d
  }

  /** `settings.get(key, default)`. */
  function GetOr(s: Profile, k: Key, d: Value): Value {
    if k in s then s[k] else d
  }

  /** `sep.join(lines)`. */
  function Join(lines: seq<string>, sep: string): string {
    if lines == [] then ""
    else if |lines| == 1 then lines[0]
    else lines[0] + sep + Join(lines[1..], sep)
  }
}
