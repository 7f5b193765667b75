/**
 * The profile generator's stored printer and material records and their
 * conversion to and from the slicer's own profile format: the material
 * temperature ranges taken from a two-element list or a fixed fallback,
 * the printer bed written as a four-corner shape string and read back as
 * its largest coordinates, and Klipper firmware written as a G-code flavour
 * and recognised again on import.
 */
module ProfileConvert {
  import opened Values

  /** A stored field: a scalar, or a list such as a bed size or a temperature range. */
  datatype Arg = Scalar(v: Value) | List(items: seq<Value>)

  /** The dictionary keys the conversions read and write. */
  datatype Field =
      Name
    | Vendor
    | Model
    | Type
    | MaterialType
    | Color
    | Diameter
    | TempRange
    | BedTempRange
    | TempRangeMin
    | TempRangeMax
    | BedTempRangeMin
    | BedTempRangeMax
    | Imported
    | Version
    | FilamentDiameter
    | FilamentType
    | Temperature
    | FirstLayerTemperature
    | BedTemperature
    | FirstLayerBedTemperature
    | BedSize
    | BedShape
    | MaxPrintHeight
    | NozzleDiameter
    | PrinterTechnology
    | GcodeFlavor
    | UseRelativeEDistances
    | UseFirmwareRetraction
    | SilentMode
    | StartGcode
    | UseKlipper
    | DirectDrive
    | PrinterType

  /** The key a field is stored under. */
  function FieldName(f: Field): string {
    match f
    case Name => "name"
    case Vendor => "vendor"
    case Model => "model"
    case Type => "type"
    case MaterialType => "material_type"
    case Color => "color"
    case Diameter => "diameter"
    case TempRange => "temp_range"
    case BedTempRange => "bed_temp_range"
    case TempRangeMin => "temp_range_min"
    case TempRangeMax => "temp_range_max"
    case BedTempRangeMin => "bed_temp_range_min"
    case BedTempRangeMax => "bed_temp_range_max"
    case Imported => "imported"
    case Version => "version"
    case FilamentDiameter => "filament_diameter"
    case FilamentType => "filament_type"
    case Temperature => "temperature"
    case FirstLayerTemperature => "first_layer_temperature"
    case BedTemperature => "bed_temperature"
    case FirstLayerBedTemperature => "first_layer_bed_temperature"
    case BedSize => "bed_size"
    case BedShape => "bed_shape"
    case MaxPrintHeight => "max_print_height"
    case NozzleDiameter => "nozzle_diameter"
    case PrinterTechnology => "printer_technology"
    case GcodeFlavor => "gcode_flavor"
    case UseRelativeEDistances => "use_relative_e_distances"
    case UseFirmwareRetraction => "use_firmware_retraction"
    case SilentMode => "silent_mode"
    case StartGcode => "start_gcode"
    case UseKlipper => "use_klipper"
    case DirectDrive => "direct_drive"
    case PrinterType => "printer_type"
  }

  /** A stored record, a keyword-argument dictionary, or one level of a slicer profile. */
  type Record = map<Field, Arg>

  /** `record.get(key, default)`. */
  function Get(r: Record, key: Field, d: Arg): (a: Arg)
    ensures key in r ==> a == r[key]
    ensures key !in r ==> a == d
  {
    if key in r then r[key] else d
  }

  /** Python truthiness of a stored field: an empty list is false. */
  predicate ArgTruthy(a: Arg) {
    if a.Scalar? then Truthy(a.v) else a.items != []
  }

  /** A number stored under `key`, where one is stored at all. */
  predicate NumberAt(r: Record, key: Field) {
    key in r ==> r[key].Scalar? && IsNum(r[key].v)
  }

  function Str(s: string): Arg {
    Scalar(S(s))
  }

  function Int(n: int): Arg {
    Scalar(I(n))
  }

  // ---------------------------------------------------------------------
  // Material records
  // ---------------------------------------------------------------------

  /**
   * A temperature range: the two ends of a two-element list, in the order
   * given, or the fallback pair for anything else.  The ends are not
   * checked against each other.
   */
  function RangeOf(a: Arg, low: int, high: int): (r: (Value, Value))
    ensures a.List? && |a.items| == 2 ==> r == (a.items[0], a.items[1])
    ensures !(a.List? && |a.items| == 2) ==> r == (I(low), I(high))
  {
    if a.List? && |a.items| == 2 then (a.items[0], a.items[1]) else (I(low), I(high))
  }

  /** `create_material_profile`: the record stored for the given keyword arguments. */
  function CreateMaterialRecord(kwargs: Record): (m: Record)
    ensures Name in m && Vendor in m && Type in m && Color in m && Diameter in m && TempRangeMin in m && TempRangeMax in m && BedTempRangeMin in m && BedTempRangeMax in m
    ensures m[Type] == Get(kwargs, MaterialType, Str("PLA"))
    ensures m[Name] == Get(kwargs, Name, Str("New Material")) && m[Vendor] == Get(kwargs, Vendor, Str("Unknown")) &&
      m[Color] == Get(kwargs, Color, Str("#FFFFFF")) && m[Diameter] == Get(kwargs, Diameter, Scalar(R(1.75)))
  {
    var temp := RangeOf(Get(kwargs, TempRange, List([I(190), I(220)])), 190, 220);
    var bed := RangeOf(Get(kwargs, BedTempRange, List([I(50), I(60)])), 50, 60);
    map[
      Name := Get(kwargs, Name, Str("New Material")),
      Vendor := Get(kwargs, Vendor, Str("Unknown")),
      Type := Get(kwargs, MaterialType, Str("PLA")),
      Color := Get(kwargs, Color, Str("#FFFFFF")),
      Diameter := Get(kwargs, Diameter, Scalar(R(1.75))),
      TempRangeMin := Scalar(temp.0),
      TempRangeMax := Scalar(temp.1),
      BedTempRangeMin := Scalar(bed.0),
      BedTempRangeMax := Scalar(bed.1)]
  }

  /** A stored material record holds exactly these fields. */
  lemma MaterialRecordKeys(kwargs: Record)
    ensures CreateMaterialRecord(kwargs).Keys == {Name, Vendor, Type, Color, Diameter, TempRangeMin, TempRangeMax, BedTempRangeMin, BedTempRangeMax}
  {
  }

  /**
   * A two-element range is stored end by end; any other value, including
   * a list of another length, stores the fallback 190 to 220 for the
   * nozzle and 50 to 60 for the bed, as does leaving the range out.
   */
  lemma MaterialRanges(kwargs: Record)
    ensures var m := CreateMaterialRecord(kwargs); var t := Get(kwargs, TempRange, List([I(190), I(220)]));
      (t.List? && |t.items| == 2 ==> m[TempRangeMin] == Scalar(t.items[0]) && m[TempRangeMax] == Scalar(t.items[1])) &&
      (!(t.List? && |t.items| == 2) ==> m[TempRangeMin] == Int(190) && m[TempRangeMax] == Int(220))
    ensures var m := CreateMaterialRecord(kwargs); var b := Get(kwargs, BedTempRange, List([I(50), I(60)]));
      (b.List? && |b.items| == 2 ==> m[BedTempRangeMin] == Scalar(b.items[0]) && m[BedTempRangeMax] == Scalar(b.items[1])) &&
      (!(b.List? && |b.items| == 2) ==> m[BedTempRangeMin] == Int(50) && m[BedTempRangeMax] == Int(60))
    ensures TempRange !in kwargs && BedTempRange !in kwargs ==>
      var m := CreateMaterialRecord(kwargs);
      m[TempRangeMin] == Int(190) && m[TempRangeMax] == Int(220) &&
      m[BedTempRangeMin] == Int(50) && m[BedTempRangeMax] == Int(60)
  {
  }

  /** A reversed range is stored as given: nothing orders its two ends. */
  lemma ReversedRangeKept()
    ensures var m := CreateMaterialRecord(map[TempRange := List([I(230), I(200)])]);
      m[TempRangeMin] == Int(230) && m[TempRangeMax] == Int(200)
  {
  }

  /** One profile in the slicer's format: its top-level fields and its `settings` dictionary. */
  datatype OrcaProfile = OrcaProfile(top: Record, settings: Record)

  /** The fields of a material record the export computes with. */
  predicate MaterialExportable(m: Record) {
    NumberAt(m, TempRangeMax) && NumberAt(m, BedTempRangeMin)
  }

  function ArgNum(a: Arg): Value
    requires a.Scalar? && IsNum(a.v)
  {
    a.v
  }

  /**
   * `_convert_to_orca_format` for a material: the print temperature is
   * set 10 below the top of the range and the first layer at the top; the
   * bed 5 above the bottom of its range and the first layer at its top.
   */
  function ExportMaterial(m: Record): (o: OrcaProfile)
    requires MaterialExportable(m)
    ensures Name in o.top && Version in o.top && Type in o.top && Vendor in o.top && MaterialType in o.top && Color in o.top
    ensures FilamentDiameter in o.settings && FilamentType in o.settings && Field.Temperature in o.settings && FirstLayerTemperature in o.settings && Field.BedTemperature in o.settings && FirstLayerBedTemperature in o.settings
    ensures o.top[Type] == Str("material")
    ensures o.settings[FilamentType] == o.top[MaterialType] == Get(m, Type, Str("PLA"))
    ensures o.settings[FirstLayerTemperature] == Get(m, TempRangeMax, Int(220))
    ensures o.settings[Field.Temperature].Scalar? && IsNum(o.settings[Field.Temperature].v) &&
      Num(o.settings[Field.Temperature].v) == Num(Get(m, TempRangeMax, Int(220)).v) - 10.0
    ensures o.settings[FirstLayerBedTemperature] == Get(m, BedTempRangeMax, Int(60))
    ensures o.settings[Field.BedTemperature].Scalar? && IsNum(o.settings[Field.BedTemperature].v) &&
      Num(o.settings[Field.BedTemperature].v) == Num(Get(m, BedTempRangeMin, Int(50)).v) + 5.0
  {
    var tmax := Get(m, TempRangeMax, Int(220));
    var bmin := Get(m, BedTempRangeMin, Int(50));
    OrcaProfile(
      map[
        Name := Get(m, Name, Str("Unnamed Profile")),
        Version := Str("1.0.0"),
        Type := Str("material"),
        Vendor := Get(m, Vendor, Str("Unknown")),
        MaterialType := Get(m, Type, Str("PLA")),
        Color := Get(m, Color, Str("#FFFFFF"))],
      map[
        FilamentDiameter := Get(m, Diameter, Scalar(R(1.75))),
        FilamentType := Get(m, Type, Str("PLA")),
        Field.Temperature := Scalar(AddInt(ArgNum(tmax), -10)),
        FirstLayerTemperature := tmax,
        Field.BedTemperature := Scalar(AddInt(ArgNum(bmin), 5)),
        FirstLayerBedTemperature := Get(m, BedTempRangeMax, Int(60))])
  }

  /** An exported material profile holds exactly these fields. */
  lemma ExportedMaterialKeys(m: Record)
    requires MaterialExportable(m)
    ensures ExportMaterial(m).top.Keys == {Name, Version, Type, Vendor, MaterialType, Color}
    ensures ExportMaterial(m).settings.Keys == {FilamentDiameter, FilamentType, Field.Temperature, FirstLayerTemperature, Field.BedTemperature, FirstLayerBedTemperature}
  {
  }

  /** The temperatures of a slicer material profile the import compares, as numbers where present. */
  predicate MaterialImportable(o: OrcaProfile) {
    NumberAt(o.settings, FirstLayerTemperature) && NumberAt(o.settings, Field.Temperature) &&
    NumberAt(o.settings, FirstLayerBedTemperature) && NumberAt(o.settings, Field.BedTemperature)
  }

  /**
   * The range `lo` to `hi` reaches exactly `margin` beyond both of the
   * temperatures `a` and `b`: its bottom is `margin` below the lower one
   * and its top `margin` above the higher one.
   */
  predicate Spans(lo: Arg, hi: Arg, a: Value, b: Value, margin: real)
    requires IsNum(a) && IsNum(b)
  {
    lo.Scalar? && hi.Scalar? && IsNum(lo.v) && IsNum(hi.v) &&
    var low, high := Num(lo.v) + margin, Num(hi.v) - margin;
    low <= Num(a) && low <= Num(b) && (low == Num(a) || low == Num(b)) &&
    high >= Num(a) && high >= Num(b) && (high == Num(a) || high == Num(b))
  }

  /**
   * `_convert_from_orca_format` for a material: the range is taken 10
   * beyond the lower and higher of the two print temperatures, the bed
   * range 5 beyond the two bed temperatures.  The import time stamp is
   * left out.
   */
  function ImportMaterial(o: OrcaProfile): (m: Record)
    requires MaterialImportable(o)
    ensures Name in m && Imported in m && Vendor in m && Type in m && Color in m && Diameter in m && TempRangeMin in m && TempRangeMax in m && BedTempRangeMin in m && BedTempRangeMax in m
    ensures m[Imported] == Scalar(B(true))
    ensures m[Type] == Get(o.top, MaterialType, Str("PLA"))
    ensures m[Name] == Get(o.top, Name, Str("Imported Profile")) && m[Vendor] == Get(o.top, Vendor, Str("Unknown")) &&
      m[Color] == Get(o.top, Color, Str("#FFFFFF")) && m[Diameter] == Get(o.settings, FilamentDiameter, Scalar(R(1.75)))
    ensures Spans(m[TempRangeMin], m[TempRangeMax], Get(o.settings, FirstLayerTemperature, Int(220)).v,
                  Get(o.settings, Field.Temperature, Int(210)).v, 10.0)
    ensures Spans(m[BedTempRangeMin], m[BedTempRangeMax], Get(o.settings, FirstLayerBedTemperature, Int(60)).v,
                  Get(o.settings, Field.BedTemperature, Int(50)).v, 5.0)
  {
    var first := Get(o.settings, FirstLayerTemperature, Int(220)).v;
    var normal := Get(o.settings, Field.Temperature, Int(210)).v;
    var firstBed := Get(o.settings, FirstLayerBedTemperature, Int(60)).v;
    var normalBed := Get(o.settings, Field.BedTemperature, Int(50)).v;
    map[
      Name := Get(o.top, Name, Str("Imported Profile")),
      Imported := Scalar(B(true)),
      Vendor := Get(o.top, Vendor, Str("Unknown")),
      Type := Get(o.top, MaterialType, Str("PLA")),
      Color := Get(o.top, Color, Str("#FFFFFF")),
      Diameter := Get(o.settings, FilamentDiameter, Scalar(R(1.75))),
      TempRangeMin := Scalar(AddInt(PyMin(first, normal), -10)),
      TempRangeMax := Scalar(AddInt(PyMax(first, normal), 10)),
      BedTempRangeMin := Scalar(AddInt(PyMin(firstBed, normalBed), -5)),
      BedTempRangeMax := Scalar(AddInt(PyMax(firstBed, normalBed), 5))]
  }

  /** An imported material record holds exactly these fields. */
  lemma ImportedMaterialKeys(o: OrcaProfile)
    requires MaterialImportable(o)
    ensures ImportMaterial(o).Keys == {Name, Imported, Vendor, Type, Color, Diameter, TempRangeMin, TempRangeMax, BedTempRangeMin, BedTempRangeMax}
  {
  }

  /** Exporting a material and importing it again keeps its name, vendor, type, colour and diameter. */
  lemma MaterialFieldsKept(m: Record)
    requires MaterialExportable(m) && NumberAt(m, BedTempRangeMax)
    ensures MaterialImportable(ExportMaterial(m))
    ensures var r := ImportMaterial(ExportMaterial(m));
      r[Name] == Get(m, Name, Str("Unnamed Profile")) && r[Vendor] == Get(m, Vendor, Str("Unknown")) &&
      r[Type] == Get(m, Type, Str("PLA")) && r[Color] == Get(m, Color, Str("#FFFFFF")) &&
      r[Diameter] == Get(m, Diameter, Scalar(R(1.75)))
  {
  }

  /**
   * The ranges do not survive an export and import: the print range comes
   * back as 20 below to 10 above the old top, and a bed range at least 5
   * wide comes back with its bottom kept and its top raised by 5.
   */
  lemma MaterialRangesWidened(m: Record)
    requires MaterialExportable(m) && NumberAt(m, BedTempRangeMax)
    ensures MaterialImportable(ExportMaterial(m))
    ensures var r := ImportMaterial(ExportMaterial(m)); var tmax := Num(Get(m, TempRangeMax, Int(220)).v);
      Num(r[TempRangeMin].v) == tmax - 20.0 && Num(r[TempRangeMax].v) == tmax + 10.0
    ensures var r := ImportMaterial(ExportMaterial(m));
      var bmin := Num(Get(m, BedTempRangeMin, Int(50)).v);
      var bmax := Num(Get(m, BedTempRangeMax, Int(60)).v);
      bmin + 5.0 <= bmax ==> Num(r[BedTempRangeMin].v) == bmin && Num(r[BedTempRangeMax].v) == bmax + 5.0
  {
  }

  // ---------------------------------------------------------------------
  // Decimal text
  // ---------------------------------------------------------------------

  predicate IsDigit(c: char) {
    '0' <= c <= '9'
  }

  function DigitChar(d: nat): (c: char)
    requires d < 10
    ensures IsDigit(c)
  {
    ('0' as int + d) as char
  }

  /** `str(n)` for a natural number: its decimal digits, without leading zeros. */
  function NatText(n: nat): (s: string)
    ensures |s| > 0 && forall i | 0 <= i < |s| :: IsDigit(s[i])
  {
    if n < 10 then [DigitChar(n)] else NatText(n / 10) + [DigitChar(n % 10)]
  }

  /** `str(n)` for an integer. */
  function IntText(n: int): (s: string)
    ensures |s| > 0 && forall i | 0 <= i < |s| :: IsDigit(s[i]) || (i == 0 && s[i] == '-')
  {
    if n < 0 then "-" + NatText(-n) else NatText(n)
  }

  function DigitValue(c: char): (d: nat)
    requires IsDigit(c)
    ensures d < 10
  {
    c as int - '0' as int
  }

  /** The value of a string of decimal digits. */
  function DigitsValue(s: string): nat
    requires forall i | 0 <= i < |s| :: IsDigit(s[i])
  {
    if s == [] then 0 else DigitsValue(s[..|s| - 1]) * 10 + DigitValue(s[|s| - 1])
  }

  predicate AllDigits(s: string) {
    |s| > 0 && forall i | 0 <= i < |s| :: IsDigit(s[i])
  }

  /**
   * `int(s)`: an optional sign followed by decimal digits.  The white
   * space and digit separators Python also accepts are not modelled.
   */
  function ParseInt(s: string): (n: Option<int>)
    ensures AllDigits(s) ==> n == Some(DigitsValue(s))
  {
    if AllDigits(s) then Some(DigitsValue(s))
    else if |s| > 1 && s[0] == '-' && AllDigits(s[1..]) then Some(0 - DigitsValue(s[1..]))
    else if |s| > 1 && s[0] == '+' && AllDigits(s[1..]) then Some(DigitsValue(s[1..]))
    else None
  }

  lemma {:induction false} NatTextValue(n: nat)
    ensures DigitsValue(NatText(n)) == n
  {
    if n >= 10 {
      var s := NatText(n);
      assert s[..|s| - 1] == NatText(n / 10);
      NatTextValue(n / 10);
    }
  }

  /** Reading back what `str` wrote gives the integer again. */
  lemma IntTextParses(n: int)
    ensures ParseInt(IntText(n)) == Some(n)
  {
    if n < 0 {
      NatTextValue(-n);
      assert IntText(n)[1..] == NatText(-n);
    } else {
      NatTextValue(n);
    }
  }

  // ---------------------------------------------------------------------
  // Splitting
  // ---------------------------------------------------------------------

  /** `s.split(c)`: the pieces between the separators, at least one. */
  function Split(s: string, c: char): (parts: seq<string>)
    ensures |parts| >= 1
    decreases |s|
  {
    if s == [] then [""]
    else
      var rest := Split(s[1..], c);
      if s[0] == c then [""] + rest else [[s[0]] + rest[0]] + rest[1..]
  }

  /** A string without the separator is one piece. */
  lemma {:induction false} SplitWithout(s: string, c: char)
    requires c !in s
    ensures Split(s, c) == [s]
    decreases |s|
  {
    if s != [] {
      SplitWithout(s[1..], c);
      assert [s[0]] + s[1..] == s;
    }
  }

  /** A separator after a piece without one splits off that piece. */
  lemma {:induction false} SplitAt(a: string, b: string, c: char)
    requires c !in a
    ensures Split(a + [c] + b, c) == [a] + Split(b, c)
    decreases |a|
  {
    if a == [] {
      assert a + [c] + b == [c] + b;
      assert ([c] + b)[1..] == b;
    } else {
      var s := a + [c] + b;
      assert s[0] == a[0] && s[1..] == a[1..] + [c] + b;
      SplitAt(a[1..], b, c);
      assert [a[0]] + a[1..] == a;
    }
  }

  // ---------------------------------------------------------------------
  // Bed shape
  // ---------------------------------------------------------------------

  /** The bed shape written for a bed `width` by `depth`: its four corners, counter-clockwise. */
  function BedShapeText(width: string, depth: string): string {
    "0x0," + width + "x0," + width + "x" + depth + ",0x" + depth
  }

  /** The coordinate `j` of one point `XxY`, read with `int`. */
  function Coordinate(p: string, j: nat): Option<int> {
    var parts := Split(p, 'x');
    if j < |parts| then ParseInt(parts[j]) else None
  }

  /** The coordinate `j` of each point, or nothing when one of them cannot be read. */
  function Coordinates(points: seq<string>, j: nat): (cs: Option<seq<int>>)
    ensures cs.Some? ==> |cs.value| == |points|
  {
    if points == [] then Some([])
    else
      var c := Coordinate(points[0], j);
      var rest := Coordinates(points[1..], j);
      if c.None? || rest.None? then None else Some([c.value] + rest.value)
  }

  /** `Coordinates` succeeds exactly when every point has a readable coordinate, and lists them in order. */
  lemma {:induction false} CoordinatesExact(points: seq<string>, j: nat)
    ensures Coordinates(points, j).Some? <==> forall i | 0 <= i < |points| :: Coordinate(points[i], j).Some?
    ensures Coordinates(points, j).Some? ==>
      forall i | 0 <= i < |points| :: Coordinates(points, j).value[i] == Coordinate(points[i], j).value
  {
    if points != [] {
      CoordinatesExact(points[1..], j);
      assert forall i | 1 <= i < |points| :: points[i] == points[1..][i - 1];
    }
  }

  /** Python `max` of a non-empty list. */
  function Max(xs: seq<int>): (m: int)
    requires |xs| > 0
    ensures m in xs && forall i | 0 <= i < |xs| :: xs[i] <= m
  {
    if |xs| == 1 then xs[0]
    else
      var m := Max(xs[1..]);
      assert forall i | 1 <= i < |xs| :: xs[i] == xs[1..][i - 1];
      if m > xs[0] then m else xs[0]
  }

  /**
   * The bed size read from a bed shape: the largest first and second
   * coordinates of its points, or nothing when a point lacks a coordinate
   * or one is not an integer (the source's bare `except` then takes
   * 220 by 220).
   */
  function ParseBedShape(shape: string): (r: Option<(int, int)>)
    ensures r.Some? ==> Coordinates(Split(shape, ','), 0).Some? && Coordinates(Split(shape, ','), 1).Some?
  {
    var points := Split(shape, ',');
    var xs := Coordinates(points, 0);
    var ys := Coordinates(points, 1);
    if xs.None? || ys.None? then None else Some((Max(xs.value), Max(ys.value)))
  }

  /** Every point has two integer coordinates. */
  predicate ShapeReadable(points: seq<string>) {
    forall i | 0 <= i < |points| :: Coordinate(points[i], 0).Some? && Coordinate(points[i], 1).Some?
  }

  /**
   * A bed shape is read exactly when each of its comma-separated points
   * has two integer coordinates, and then the bed reaches the farthest
   * point in each direction: no point lies beyond it and some point lies
   * on each of its edges.
   */
  lemma BedIsFarthestCorner(shape: string)
    ensures ParseBedShape(shape).Some? <==> ShapeReadable(Split(shape, ','))
    ensures var points := Split(shape, ','); var r := ParseBedShape(shape);
      r.Some? ==>
        (forall i | 0 <= i < |points| ::
           Coordinate(points[i], 0).value <= r.value.0 && Coordinate(points[i], 1).value <= r.value.1) &&
        (exists i | 0 <= i < |points| :: Coordinate(points[i], 0) == Some(r.value.0)) &&
        (exists i | 0 <= i < |points| :: Coordinate(points[i], 1) == Some(r.value.1))
  {
    var points := Split(shape, ',');
    ReadableExactly(points);
    if ParseBedShape(shape).Some? {
      FarthestCoordinate(points, 0);
      FarthestCoordinate(points, 1);
    }
  }

  /** Both coordinate lists are read exactly when every point has two integer coordinates. */
  lemma ReadableExactly(points: seq<string>)
    ensures Coordinates(points, 0).Some? && Coordinates(points, 1).Some? <==> ShapeReadable(points)
  {
    CoordinatesExact(points, 0);
    CoordinatesExact(points, 1);
    if !ShapeReadable(points) {
      var n :| 0 <= n < |points| && !(Coordinate(points[n], 0).Some? && Coordinate(points[n], 1).Some?);
    }
  }

  /** The largest coordinate `j` bounds that coordinate of every point and is that of some point. */
  lemma FarthestCoordinate(points: seq<string>, j: nat)
    requires points != [] && Coordinates(points, j).Some?
    ensures forall i | 0 <= i < |points| :: Coordinate(points[i], j).Some?
    ensures var m := Max(Coordinates(points, j).value);
      (forall i | 0 <= i < |points| :: Coordinate(points[i], j).value <= m) &&
      (exists i | 0 <= i < |points| :: Coordinate(points[i], j) == Some(m))
  {
    CoordinatesExact(points, j);
    var cs := Coordinates(points, j).value;
    var i :| 0 <= i < |cs| && cs[i] == Max(cs);
    assert Coordinate(points[i], j) == Some(Max(cs));
    forall n | 0 <= n < |points|
      ensures Coordinate(points[n], j).value <= Max(cs)
    {
      assert cs[n] <= Max(cs);
    }
  }

  /** The shape of a 220 by 220 bed, taken when a profile has none. */
  const DefaultBedShape: string := "0x0,220x0,220x220,0x220"

  /** The default shape is the one written for a 220 by 220 bed. */
  lemma DefaultBedShapeWritten()
    ensures DefaultBedShape == BedShapeText("220", "220")
  {
  }

  /** The default side length reads back as 220. */
  lemma SideParses()
    ensures ParseInt("220") == Some(220)
  {
    IntTextParses(220);
    assert IntText(220) == "220";
  }

  /** The default shape is read as a 220 by 220 bed. */
  lemma DefaultBedShapeRead(shape: string)
    requires shape == DefaultBedShape
    ensures ParseBedShape(shape) == Some((220, 220))
  {
    DefaultBedShapeWritten();
    SideParses();
    ShapeRead("220", "220", 220, 220);
  }

  /** The bed stored for a shape setting: a text that parses, else 220 by 220. */
  function BedSizeOf(shape: Arg): (size: (int, int))
    ensures !(shape.Scalar? && shape.v.S?) ==> size == (220, 220)
  {
    if shape.Scalar? && shape.v.S? && ParseBedShape(shape.v.s).Some? then ParseBedShape(shape.v.s).value
    else (220, 220)
  }

  /**
   * The bed imported from a profile's settings: read from its shape,
   * which defaults to a 220 by 220 bed.
   */
  function ImportedBed(settings: Record): (size: (int, int))
    ensures BedShape !in settings ==> size == (220, 220)
    ensures BedShape in settings ==> size == BedSizeOf(settings[BedShape])
  {
    if BedShape in settings then BedSizeOf(settings[BedShape])
    else DefaultBedShapeRead(DefaultBedShape); BedSizeOf(Str(DefaultBedShape))
  }

  /** A point `a` x `b` splits into its two coordinates. */
  lemma PointSplits(a: string, b: string)
    requires 'x' !in a && 'x' !in b
    ensures Split(a + "x" + b, 'x') == [a, b]
  {
    SplitAt(a, b, 'x');
    SplitWithout(b, 'x');
  }

  /** The four points of a written bed shape. */
  lemma BedShapePoints(w: string, d: string)
    requires ',' !in w && ',' !in d
    ensures Split(BedShapeText(w, d), ',') == ["0x0", w + "x0", w + "x" + d, "0x" + d]
  {
    var p1, p2, p3, p4 := "0x0", w + "x0", w + "x" + d, "0x" + d;
    assert ',' !in p1 && ',' !in p2 && ',' !in p3 && ',' !in p4;
    assert BedShapeText(w, d) == p1 + [','] + (p2 + [','] + (p3 + [','] + p4));
    SplitAt(p1, p2 + [','] + (p3 + [','] + p4), ',');
    SplitAt(p2, p3 + [','] + p4, ',');
    SplitAt(p3, p4, ',');
    SplitWithout(p4, ',');
  }

  /**
   * A bed shape written from two coordinate texts is read back as the
   * larger of 0 and each of their values.
   */
  lemma ShapeRead(w: string, d: string, width: int, depth: int)
    requires ',' !in w && ',' !in d && 'x' !in w && 'x' !in d
    requires ParseInt(w) == Some(width) && ParseInt(d) == Some(depth)
    ensures ParseBedShape(BedShapeText(w, d)) == Some((if width > 0 then width else 0, if depth > 0 then depth else 0))
  {
    BedShapePoints(w, d);
    var points := ["0x0", w + "x0", w + "x" + d, "0x" + d];
    CornersRead(w, d, width, depth);
    var xs, ys := Coordinates(points, 0).value, Coordinates(points, 1).value;
    var mx, my := Max(xs), Max(ys);
    assert mx == 0 || mx == width by { assert mx in xs; }
    assert my == 0 || my == depth by { assert my in ys; }
    assert xs[0] <= mx && xs[1] <= mx && ys[0] <= my && ys[2] <= my;
  }

  /** A point written from two coordinate texts reads back as their values. */
  lemma PointRead(a: string, b: string, x: int, y: int)
    requires 'x' !in a && 'x' !in b && ParseInt(a) == Some(x) && ParseInt(b) == Some(y)
    ensures Coordinate(a + "x" + b, 0) == Some(x) && Coordinate(a + "x" + b, 1) == Some(y)
  {
    PointSplits(a, b);
  }

  /** The coordinates of the four corners of a written bed shape. */
  lemma CornersRead(w: string, d: string, width: int, depth: int)
    requires 'x' !in w && 'x' !in d
    requires ParseInt(w) == Some(width) && ParseInt(d) == Some(depth)
    ensures Coordinates(["0x0", w + "x0", w + "x" + d, "0x" + d], 0) == Some([0, width, width, 0])
    ensures Coordinates(["0x0", w + "x0", w + "x" + d, "0x" + d], 1) == Some([0, 0, depth, depth])
  {
    assert ParseInt("0") == Some(0);
    PointRead("0", "0", 0, 0);
    PointRead(w, "0", width, 0);
    PointRead(w, d, width, depth);
    PointRead("0", d, 0, depth);
    assert "0x0" == "0" + "x" + "0" && w + "x0" == w + "x" + "0" && "0x" + d == "0" + "x" + d;
    FourCoordinates("0x0", w + "x0", w + "x" + d, "0x" + d, 0, 0, width, width, 0);
    FourCoordinates("0x0", w + "x0", w + "x" + d, "0x" + d, 1, 0, 0, depth, depth);
  }

  /** The coordinates of four points, each read on its own. */
  lemma FourCoordinates(p1: string, p2: string, p3: string, p4: string, j: nat, x1: int, x2: int, x3: int, x4: int)
    requires Coordinate(p1, j) == Some(x1) && Coordinate(p2, j) == Some(x2)
    requires Coordinate(p3, j) == Some(x3) && Coordinate(p4, j) == Some(x4)
    ensures Coordinates([p1, p2, p3, p4], j) == Some([x1, x2, x3, x4])
  {
    assert [p4][1..] == [] && Coordinates([], j) == Some([]);
    assert [x4] + [] == [x4];
    assert Coordinates([p4], j) == Some([x4]);
    assert [p3, p4][1..] == [p4] && [x3] + [x4] == [x3, x4];
    assert Coordinates([p3, p4], j) == Some([x3, x4]);
    assert [p2, p3, p4][1..] == [p3, p4] && [x2] + [x3, x4] == [x2, x3, x4];
    assert Coordinates([p2, p3, p4], j) == Some([x2, x3, x4]);
    assert [p1, p2, p3, p4][1..] == [p2, p3, p4] && [x1] + [x2, x3, x4] == [x1, x2, x3, x4];
  }

  /** Writing a bed of natural-number size as a shape and reading it back gives the same size. */
  lemma BedShapeRoundTrip(width: nat, depth: nat)
    ensures ParseBedShape(BedShapeText(IntText(width), IntText(depth))) == Some((width, depth))
  {
    IntTextParses(width);
    IntTextParses(depth);
    ShapeRead(IntText(width), IntText(depth), width, depth);
  }

  /** A negative width is lost: the corner at the origin is the larger coordinate. */
  lemma NegativeWidthLost(width: int, depth: int)
    requires width < 0 && depth >= 0
    ensures ParseBedShape(BedShapeText(IntText(width), IntText(depth))) == Some((0, depth))
  {
    IntTextParses(width);
    IntTextParses(depth);
    ShapeRead(IntText(width), IntText(depth), width, depth);
  }

  /** A shape whose point has no second coordinate cannot be read, and the bed falls back to 220 by 220. */
  lemma UnreadableBedShape()
    ensures ParseBedShape("300") == None
    ensures BedSizeOf(Str("300")) == (220, 220)
  {
    SplitWithout("300", ',');
    SplitWithout("300", 'x');
  }

  // ---------------------------------------------------------------------
  // Printer records
  // ---------------------------------------------------------------------

  /** The start G-code written for a Klipper printer: it sets pressure advance, homes and lifts. */
  const KlipperStartGcode :=
    "SET_PRESSURE_ADVANCE ADVANCE={pressure_advance} SMOOTH_TIME={pressure_advance_smooth_time}\nG28 ; home all axes\nG1 Z5 F5000 ; lift nozzle"

  /** The bed size a printer record stores: absent, or a list of at least two integers. */
  predicate BedSizeWritable(p: Record) {
    BedSize in p ==>
      var b := p[BedSize];
      b.List? && |b.items| >= 2 && b.items[0].I? && b.items[1].I?
  }

  /** The bed size the export uses: the record's, or 220 by 220. */
  function StoredBed(p: Record): (size: (int, int))
    requires BedSizeWritable(p)
  {
    if BedSize in p then (p[BedSize].items[0].i, p[BedSize].items[1].i) else (220, 220)
  }

  /**
   * `_convert_to_orca_format` for a printer: the bed becomes a shape
   * string, the flavour is Klipper's when the record says so, and then
   * firmware retraction is on and a start G-code setting pressure advance
   * is written.
   */
  function ExportPrinter(p: Record): OrcaProfile
    requires BedSizeWritable(p)
  {
    OrcaProfile(PrinterTop(p), PrinterSettings(p))
  }

  /** The top-level fields of an exported printer profile. */
  function PrinterTop(p: Record): (top: Record)
    ensures Name in top && Version in top && Type in top && Vendor in top && Model in top
    ensures top[Type] == Str("printer")
    ensures top[Name] == Get(p, Name, Str("Unnamed Profile")) && top[Vendor] == Get(p, Vendor, Str("Unknown")) &&
      top[Model] == Get(p, Model, Str("Unknown"))
  {
    map[
      Name := Get(p, Name, Str("Unnamed Profile")),
      Version := Str("1.0.0"),
      Type := Str("printer"),
      Vendor := Get(p, Vendor, Str("Unknown")),
      Model := Get(p, Model, Str("Unknown"))]
  }

  /** The `settings` dictionary of an exported printer profile. */
  function PrinterSettings(p: Record): (settings: Record)
    requires BedSizeWritable(p)
    ensures BedShape in settings && MaxPrintHeight in settings && NozzleDiameter in settings &&
      PrinterTechnology in settings && GcodeFlavor in settings && UseRelativeEDistances in settings &&
      Field.UseFirmwareRetraction in settings && SilentMode in settings
    ensures settings[BedShape] == Str(BedShapeText(IntText(StoredBed(p).0), IntText(StoredBed(p).1)))
    ensures settings[MaxPrintHeight] == Get(p, MaxPrintHeight, Int(250)) &&
      settings[NozzleDiameter] == Get(p, NozzleDiameter, Scalar(R(0.4)))
    ensures settings[GcodeFlavor] == Str(if ArgTruthy(Get(p, UseKlipper, Scalar(B(false)))) then "klipper" else "marlin")
    ensures Field.StartGcode in settings <==> ArgTruthy(Get(p, UseKlipper, Scalar(B(false))))
  {
    var size := StoredBed(p);
    var klipper := Get(p, UseKlipper, Scalar(B(false)));
    var common := map[
      BedShape := Str(BedShapeText(IntText(size.0), IntText(size.1))),
      MaxPrintHeight := Get(p, MaxPrintHeight, Int(250)),
      NozzleDiameter := Get(p, NozzleDiameter, Scalar(R(0.4))),
      PrinterTechnology := Str("FFF"),
      GcodeFlavor := Str("marlin"),
      UseRelativeEDistances := Scalar(B(true)),
      Field.UseFirmwareRetraction := klipper,
      SilentMode := Scalar(B(false))];
    if ArgTruthy(klipper) then
      common[GcodeFlavor := Str("klipper")]
            [Field.UseFirmwareRetraction := Scalar(B(true))]
            [Field.StartGcode := Str(KlipperStartGcode)]
    else common
  }

  /** An exported printer profile holds exactly these fields, and the start G-code only for Klipper. */
  lemma ExportedPrinterKeys(p: Record)
    requires BedSizeWritable(p)
    ensures ExportPrinter(p).top.Keys == {Name, Version, Type, Vendor, Model}
    ensures ExportPrinter(p).settings.Keys - {Field.StartGcode} == {BedShape, MaxPrintHeight, NozzleDiameter, PrinterTechnology, GcodeFlavor, UseRelativeEDistances, Field.UseFirmwareRetraction, SilentMode}
  {
  }

  /** Python's `in` on the start G-code needs text, unless the flavour already said Klipper. */
  predicate PrinterImportable(o: OrcaProfile) {
    Get(o.settings, GcodeFlavor, Str("marlin")) != Str("klipper") ==>
      Get(o.settings, Field.StartGcode, Str("")).Scalar? && Get(o.settings, Field.StartGcode, Str("")).v.S?
  }

  /** The firmware is Klipper when the flavour says so or the start G-code sets pressure advance. */
  predicate KlipperDetected(o: OrcaProfile)
    requires PrinterImportable(o)
  {
    Get(o.settings, GcodeFlavor, Str("marlin")) == Str("klipper") ||
    Contains(Get(o.settings, Field.StartGcode, Str("")).v.s, "SET_PRESSURE_ADVANCE") ||
    Contains(Get(o.settings, Field.StartGcode, Str("")).v.s, "PRESSURE_ADVANCE")
  }

  /** Looking for `SET_PRESSURE_ADVANCE` adds nothing: `PRESSURE_ADVANCE` is part of it. */
  lemma DetectionByAdvanceSuffices(o: OrcaProfile)
    requires PrinterImportable(o)
    ensures KlipperDetected(o) <==>
      Get(o.settings, GcodeFlavor, Str("marlin")) == Str("klipper") ||
      Contains(Get(o.settings, Field.StartGcode, Str("")).v.s, "PRESSURE_ADVANCE")
  {
    if Get(o.settings, GcodeFlavor, Str("marlin")) != Str("klipper") {
      AdvanceWithinSetAdvance(Get(o.settings, Field.StartGcode, Str("")).v.s);
    }
  }

  lemma AdvanceWithinSetAdvance(g: string)
    ensures Contains(g, "SET_PRESSURE_ADVANCE") ==> Contains(g, "PRESSURE_ADVANCE")
  {
    if Contains(g, "SET_PRESSURE_ADVANCE") {
      assert "SET_PRESSURE_ADVANCE" == "SET_" + "PRESSURE_ADVANCE" + "";
      ContainsPart(g, "SET_", "PRESSURE_ADVANCE", "");
    }
  }

  /**
   * `_convert_from_orca_format` for a printer: the bed size is read from
   * the shape, the extruder and kinematics take fixed defaults, and Klipper
   * is detected.  The import time stamp is left out.
   */
  function ImportPrinter(o: OrcaProfile): (p: Record)
    requires PrinterImportable(o)
    ensures Name in p && Imported in p && Vendor in p && Model in p && BedSize in p && MaxPrintHeight in p && NozzleDiameter in p && DirectDrive in p && PrinterType in p && UseKlipper in p
    ensures p[Imported] == Scalar(B(true))
    ensures p[UseKlipper] == Scalar(B(KlipperDetected(o)))
    ensures p[BedSize] == List([I(ImportedBed(o.settings).0), I(ImportedBed(o.settings).1)])
    ensures p[Name] == Get(o.top, Name, Str("Imported Profile")) && p[Vendor] == Get(o.top, Vendor, Str("Unknown")) &&
      p[Model] == Get(o.top, Model, Str("Unknown"))
    ensures p[MaxPrintHeight] == Get(o.settings, MaxPrintHeight, Int(250)) &&
      p[NozzleDiameter] == Get(o.settings, NozzleDiameter, Scalar(R(0.4)))
    ensures p[DirectDrive] == Scalar(B(false)) && p[PrinterType] == Str("cartesian")
  {
    var size := ImportedBed(o.settings);
    map[
      Name := Get(o.top, Name, Str("Imported Profile")),
      Imported := Scalar(B(true)),
      Vendor := Get(o.top, Vendor, Str("Unknown")),
      Model := Get(o.top, Model, Str("Unknown")),
      BedSize := List([I(size.0), I(size.1)]),
      MaxPrintHeight := Get(o.settings, MaxPrintHeight, Int(250)),
      NozzleDiameter := Get(o.settings, NozzleDiameter, Scalar(R(0.4))),
      DirectDrive := Scalar(B(false)),
      PrinterType := Str("cartesian"),
      UseKlipper := Scalar(B(KlipperDetected(o)))]
  }

  /** An imported printer record holds exactly these fields. */
  lemma ImportedPrinterKeys(o: OrcaProfile)
    requires PrinterImportable(o)
    ensures ImportPrinter(o).Keys == {Name, Imported, Vendor, Model, BedSize, MaxPrintHeight, NozzleDiameter, DirectDrive, PrinterType, UseKlipper}
  {
  }

  /**
   * Exporting a printer and importing it again keeps its name, vendor,
   * model, height and nozzle, and its bed size when that is two natural
   * numbers.
   */
  lemma PrinterFieldsKept(p: Record)
    requires BedSizeWritable(p) && StoredBed(p).0 >= 0 && StoredBed(p).1 >= 0
    ensures PrinterImportable(ExportPrinter(p))
    ensures var r := ImportPrinter(ExportPrinter(p));
      r[Name] == Get(p, Name, Str("Unnamed Profile")) && r[Vendor] == Get(p, Vendor, Str("Unknown")) &&
      r[Model] == Get(p, Model, Str("Unknown")) &&
      r[MaxPrintHeight] == Get(p, MaxPrintHeight, Int(250)) &&
      r[NozzleDiameter] == Get(p, NozzleDiameter, Scalar(R(0.4)))
    ensures ImportPrinter(ExportPrinter(p))[BedSize] == List([I(StoredBed(p).0), I(StoredBed(p).1)])
  {
    var o := ExportPrinter(p);
    var size := StoredBed(p);
    BedShapeRoundTrip(size.0, size.1);
    ExportedPrinterImportable(p);
  }

  /** An exported printer always has the start G-code text the import looks into. */
  lemma ExportedPrinterImportable(p: Record)
    requires BedSizeWritable(p)
    ensures PrinterImportable(ExportPrinter(p))
  {
    var o := ExportPrinter(p);
    if !ArgTruthy(Get(p, UseKlipper, Scalar(B(false)))) {
      assert Field.StartGcode !in o.settings;
    }
  }

  /** Exporting a printer and importing it again keeps whether it runs Klipper. */
  lemma PrinterKlipperKept(p: Record)
    requires BedSizeWritable(p)
    ensures PrinterImportable(ExportPrinter(p))
    ensures ImportPrinter(ExportPrinter(p))[UseKlipper] == Scalar(B(ArgTruthy(Get(p, UseKlipper, Scalar(B(false))))))
  {
    var o := ExportPrinter(p);
    ExportedPrinterImportable(p);
    if !ArgTruthy(Get(p, UseKlipper, Scalar(B(false)))) {
      assert Field.StartGcode !in o.settings;
      assert Get(o.settings, Field.StartGcode, Str("")) == Str("");
      assert !Contains("", "SET_PRESSURE_ADVANCE") && !Contains("", "PRESSURE_ADVANCE");
    }
  }
}
