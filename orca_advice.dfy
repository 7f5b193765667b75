/**
 * Single-setting advice from the AI engine: the recommendation for one
 * setting of a generated profile, the alternatives offered beside it, and
 * the explanation band chosen for a setting's value.  The sentences of the
 * explanations are prose and not modelled; which band is chosen is.
 */
module OrcaAdvice {
  import opened Values
  import opened Inputs
  import opened OrcaAI

  /** The infill patterns alternatives cycle through, in order. */
  const Patterns: seq<string> := ["grid", "triangles", "cubic", "gyroid", "honeycomb"]

  /** `patterns.index(v) if v in patterns else 0`. */
  function PatternIndex(v: Value): (i: nat)
    ensures i < |Patterns|
    ensures v.S? && v.s in Patterns ==> Patterns[i] == v.s
    ensures !(v.S? && v.s in Patterns) ==> i == 0
  {
    if v == S("grid") then 0
    else if v == S("triangles") then 1
    else if v == S("cubic") then 2
    else if v == S("gyroid") then 3
    else if v == S("honeycomb") then 4
    else 0
  }

  /** The settings whose alternatives are computed from a number. */
  predicate NumericAdvice(k: Key) {
    k == LayerHeight || k == InfillDensity || k == MaterialPrintTemperature || k == PrintSpeed
  }

  /** The two patterns that follow position `i` in the cycle. */
  function NextPatterns(i: nat): seq<Value>
    requires i < |Patterns|
  {
    [S(Patterns[(i + 1) % |Patterns|]), S(Patterns[(i + 2) % |Patterns|])]
  }

  /** The pattern suggestions as the source builds them: two rounds of the loop over the cycle. */
  method CyclePatterns(current: nat) returns (alts: seq<Value>)
    requires current < |Patterns|
    ensures alts == NextPatterns(current)
  {
    alts := [];
    for i := 1 to 3
      invariant |alts| == i - 1
      invariant forall j :: 0 <= j < i - 1 ==> alts[j] == S(Patterns[(current + j + 1) % |Patterns|])
    {
      var altIndex := (current + i) % |Patterns|;
      alts := alts + [S(Patterns[altIndex])];
    }
  }

  /** The numeric alternatives, each offered only where its guard holds. */
  function Optional(guard: bool, v: Value): (alts: seq<Value>)
    ensures guard ==> alts == [v]
    ensures !guard ==> alts == []
  {
    if guard then [v] else []
  }

  /**
   * The alternative values offered beside a recommendation: finer or
   * thicker layers, less or more infill, the next two patterns of the
   * cycle, five degrees either way, slower or faster printing; nothing for
   * any other setting.
   */
  function Alternatives(k: Key, v: Value): seq<Value>
    requires NumericAdvice(k) ==> IsNum(v)
  {
    if k == LayerHeight then
      Optional(Num(v) > 0.12, R(Round2(Num(v) * 0.75))) + Optional(Num(v) < 0.28, R(Round2(Num(v) * 1.25)))
    else if k == InfillDensity then
      Optional(Num(v) > 15.0, PyMax(I(5), AddInt(v, -10))) + Optional(Num(v) < 50.0, PyMin(I(80), AddInt(v, 20)))
    else if k == InfillPattern then
      NextPatterns(PatternIndex(v))
    else if k == MaterialPrintTemperature then
      [AddInt(v, -5), AddInt(v, 5)]
    else if k == PrintSpeed then
      Optional(Num(v) > 30.0, AddInt(v, -10)) + Optional(Num(v) < 80.0, AddInt(v, 20))
    else []
  }

  /** The alternatives as the source builds them, appending one at a time. */
  method GenerateAlternatives(k: Key, v: Value) returns (alts: seq<Value>)
    requires NumericAdvice(k) ==> IsNum(v)
    ensures alts == Alternatives(k, v)
  {
    alts := [];
    if k == LayerHeight {
      if Num(v) > 0.12 {
        alts := alts + [R(Round2(Num(v) * 0.75))];
      }
      if Num(v) < 0.28 {
        alts := alts + [R(Round2(Num(v) * 1.25))];
      }
    } else if k == InfillDensity {
      if Num(v) > 15.0 {
        alts := alts + [PyMax(I(5), AddInt(v, -10))];
      }
      if Num(v) < 50.0 {
        alts := alts + [PyMin(I(80), AddInt(v, 20))];
      }
    } else if k == InfillPattern {
      alts := CyclePatterns(PatternIndex(v));
    } else if k == MaterialPrintTemperature {
      alts := alts + [AddInt(v, -5)];
      alts := alts + [AddInt(v, 5)];
    } else if k == PrintSpeed {
      if Num(v) > 30.0 {
        alts := alts + [AddInt(v, -10)];
      }
      if Num(v) < 80.0 {
        alts := alts + [AddInt(v, 20)];
      }
    }
  }

  /** Layer height, infill density and print speed always get one or two alternatives. */
  lemma NumericAlternativesCount(k: Key, v: Value)
    requires k == LayerHeight || k == InfillDensity || k == PrintSpeed
    requires IsNum(v)
    ensures 1 <= |Alternatives(k, v)| <= 2
  {
  }

  /** A finer alternative is thinner and a thicker one thicker than the current layer height. */
  lemma LayerAlternativesOrdered(v: Value)
    requires IsNum(v)
    ensures var alts := Alternatives(LayerHeight, v);
      (Num(v) > 0.12 ==> Num(alts[0]) < Num(v)) &&
      (0.02 < Num(v) < 0.28 ==> Num(alts[|alts| - 1]) > Num(v))
  {
  }

  /** The temperature alternatives are exactly five degrees below and above, of the same type. */
  lemma TemperatureAlternatives(v: Value)
    requires IsNum(v)
    ensures var alts := Alternatives(MaterialPrintTemperature, v);
      |alts| == 2 && Num(alts[0]) == Num(v) - 5.0 && Num(alts[1]) == Num(v) + 5.0 &&
      (alts[0].R? <==> v.R?) && (alts[1].R? <==> v.R?)
  {
  }

  /**
   * The lower infill alternative is at least 5% and the higher at most
   * 80%; for a density between 0 and 90 every alternative lies in [5, 80].
   */
  lemma InfillAlternativesBounded(v: Value)
    requires IsNum(v)
    ensures var alts := Alternatives(InfillDensity, v);
      (Num(v) > 15.0 ==> Num(alts[0]) >= 5.0) &&
      (Num(v) < 50.0 ==> Num(alts[|alts| - 1]) <= 80.0) &&
      (0.0 <= Num(v) <= 90.0 ==> forall i :: 0 <= i < |alts| ==> 5.0 <= Num(alts[i]) <= 80.0)
  {
    var alts := Alternatives(InfillDensity, v);
    if 0.0 <= Num(v) <= 90.0 {
      forall i | 0 <= i < |alts|
        ensures 5.0 <= Num(alts[i]) <= 80.0
      {
        if Num(v) > 15.0 && i == 0 {
          assert alts[i] == PyMax(I(5), AddInt(v, -10));
        } else {
          assert alts[i] == PyMin(I(80), AddInt(v, 20));
        }
      }
    }
  }

  /**
   * The pattern alternatives are the next two patterns of the cycle, two
   * different patterns, neither of them the current one; an unknown
   * pattern counts as "grid".
   */
  lemma PatternAlternatives(v: Value)
    ensures var alts := Alternatives(InfillPattern, v);
      |alts| == 2 && alts[0] != alts[1] &&
      alts[0] != v && alts[1] != v &&
      alts[0].S? && alts[0].s in Patterns && alts[1].S? && alts[1].s in Patterns
    ensures !(v.S? && v.s in Patterns) ==> Alternatives(InfillPattern, v) == [S("triangles"), S("cubic")]
  {
    var i := PatternIndex(v);
    var alts := NextPatterns(i);
    assert Alternatives(InfillPattern, v) == alts;
    PatternsDistinct((i + 1) % 5, (i + 2) % 5);
    if v.S? && v.s in Patterns {
      PatternsDistinct(i, (i + 1) % 5);
      PatternsDistinct(i, (i + 2) % 5);
    }
  }

  /** The five patterns are different strings. */
  lemma PatternsDistinct(a: nat, b: nat)
    requires a < |Patterns| && b < |Patterns| && a != b
    ensures Patterns[a] != Patterns[b]
  {
    assert Patterns[a][0] != Patterns[b][0] || Patterns[a][1] != Patterns[b][1];
  }

  /** Any other setting gets no alternatives. */
  lemma OtherAlternatives(k: Key, v: Value)
    requires !NumericAdvice(k) && k != InfillPattern
    ensures Alternatives(k, v) == []
  {
  }

  /** Where an explanation comes from: the profile's own, a generic sentence, or none. */
  datatype ExplanationSource = NotFound | ProfileExplanation | GenericRecommendation

  datatype Recommendation = Recommendation(
    value: Option<Value>, confidence: real, explanation: ExplanationSource, alternatives: seq<Value>)

  /** The settings `Get` returns as numbers. */
  lemma NumericSettings(s: Settings, k: Key)
    requires NumericAdvice(k)
    ensures Get(s, k).Some? && IsNum(Get(s, k).value)
  {
  }

  /**
   * The recommendation for one setting: a profile is generated for the
   * printer, filament and requirements, and the setting is looked up in
   * it.  A setting the profile lacks comes back with no value, confidence
   * 0 and no alternatives; any other with confidence 0.85, the profile's
   * explanation where it has one, and the alternatives to its value.
   */
  method RecommendSetting(k: Key, printer: PrinterInfo, material: MaterialInfo, nozzle: real, req: Requirements)
    returns (rec: Recommendation)
    requires ChosenLayerHeight(nozzle, req) != 0.0
    requires WellKeyed(k)
    ensures var v := Get(Generated(printer, material, nozzle, req), k);
      NumericAdvice(k) ==> v.Some? && IsNum(v.value)
    ensures var v := Get(Generated(printer, material, nozzle, req), k);
      (v.None? ==> rec == Recommendation(None, 0.0, NotFound, [])) &&
      (v.Some? ==>
         rec.value == v && rec.confidence == 0.85 &&
         rec.explanation == (if k in ExplainedKeys then ProfileExplanation else GenericRecommendation) &&
         rec.alternatives == Alternatives(k, v.value))
  {
    var settings, explanations := GenerateProfile(printer, material, nozzle, req);
    var recommended := Get(settings, k);
    if NumericAdvice(k) {
      NumericSettings(settings, k);
    }
    if recommended.None? {
      return Recommendation(None, 0.0, NotFound, []);
    }
    var explanation := if k in ExplainedKeys then ProfileExplanation else GenericRecommendation;
    var alternatives := GenerateAlternatives(k, recommended.value);
    rec := Recommendation(recommended, 0.85, explanation, alternatives);
  }

  // ---------------------------------------------------------------------
  // Explaining one setting
  // ---------------------------------------------------------------------

  /** The band an explanation of one setting's value falls in. */
  datatype Band =
    UnknownSetting | GenericSetting
    | VeryFineLayer | StandardLayer | CoarseLayer
    | SlowSpeed | BalancedSpeed | FastSpeed
    | VeryLowInfill | StandardInfill | HighInfill | VeryHighInfill

  datatype SettingExplanation = SettingExplanation(band: Band, related: seq<Key>)

  function LayerBand(v: real): (b: Band)
    ensures b == VeryFineLayer <==> v <= 0.1
    ensures b == StandardLayer <==> 0.1 < v <= 0.2
    ensures b == CoarseLayer <==> v > 0.2
  {
    if v <= 0.1 then VeryFineLayer else if v <= 0.2 then StandardLayer else CoarseLayer
  }

  function SpeedBand(v: real): (b: Band)
    ensures b == SlowSpeed <==> v < 40.0
    ensures b == BalancedSpeed <==> 40.0 <= v <= 60.0
    ensures b == FastSpeed <==> v > 60.0
  {
    if v < 40.0 then SlowSpeed else if v <= 60.0 then BalancedSpeed else FastSpeed
  }

  function InfillBand(v: real): (b: Band)
    ensures b == VeryLowInfill <==> v <= 10.0
    ensures b == StandardInfill <==> 10.0 < v <= 25.0
    ensures b == HighInfill <==> 25.0 < v <= 50.0
    ensures b == VeryHighInfill <==> v > 50.0
  {
    if v <= 10.0 then VeryLowInfill
    else if v <= 25.0 then StandardInfill
    else if v <= 50.0 then HighInfill
    else VeryHighInfill
  }

  /** The settings proposed beside layer height, print speed and infill density. */
  const LayerRelated: seq<Key> := [InitialLayerHeight, LineWidth, PrintSpeed, TopLayers, BottomLayers]
  const SpeedRelated: seq<Key> := [OuterWallSpeed, InnerWallSpeed, InfillSpeed, MaterialPrintTemperature, CoolingEnable]
  const InfillRelated: seq<Key> := [InfillPattern, InfillSpeed, WallLineCount, TopLayers, BottomLayers]

  /** The settings whose explanation depends on the value's band. */
  predicate BandedSetting(k: Key) {
    k == LayerHeight || k == PrintSpeed || k == InfillDensity
  }

  /**
   * The explanation band of a setting's value.  A setting without metadata
   * gets the unknown-setting answer and no related settings; layer height,
   * print speed and infill density get the band their value falls in and
   * their related settings; any other setting the generic answer.
   */
  function ExplainSetting(k: Key, v: Value, hasMetadata: bool): (e: SettingExplanation)
    requires hasMetadata && BandedSetting(k) ==> IsNum(v)
    ensures !hasMetadata ==> e == SettingExplanation(UnknownSetting, [])
    ensures hasMetadata && k == LayerHeight ==> e == SettingExplanation(LayerBand(Num(v)), LayerRelated)
    ensures hasMetadata && k == PrintSpeed ==> e == SettingExplanation(SpeedBand(Num(v)), SpeedRelated)
    ensures hasMetadata && k == InfillDensity ==> e == SettingExplanation(InfillBand(Num(v)), InfillRelated)
    ensures hasMetadata && !BandedSetting(k) ==> e == SettingExplanation(GenericSetting, [])
  {
    if !hasMetadata then SettingExplanation(UnknownSetting, [])
    else if k == LayerHeight then SettingExplanation(LayerBand(Num(v)), LayerRelated)
    else if k == PrintSpeed then SettingExplanation(SpeedBand(Num(v)), SpeedRelated)
    else if k == InfillDensity then SettingExplanation(InfillBand(Num(v)), InfillRelated)
    else SettingExplanation(GenericSetting, [])
  }

  /** The position of a band within its setting's scale, from the lowest value up. */
  function BandRank(b: Band): nat {
    match b
    case VeryFineLayer => 0
    case StandardLayer => 1
    case CoarseLayer => 2
    case SlowSpeed => 0
    case BalancedSpeed => 1
    case FastSpeed => 2
    case VeryLowInfill => 0
    case StandardInfill => 1
    case HighInfill => 2
    case VeryHighInfill => 3
    case _ => 0
  }

  /** The bands are consecutive intervals: a larger value never falls in a lower band. */
  lemma BandsMonotone(k: Key, v1: Value, v2: Value)
    requires BandedSetting(k) && IsNum(v1) && IsNum(v2) && Num(v1) <= Num(v2)
    ensures BandRank(ExplainSetting(k, v1, true).band) <= BandRank(ExplainSetting(k, v2, true).band)
  {
  }

  /** No related setting is the explained one, and none is listed twice. */
  lemma RelatedSettingsDistinct(k: Key, v: Value)
    requires BandedSetting(k) ==> IsNum(v)
    ensures var rel := ExplainSetting(k, v, true).related;
      k !in rel && forall i, j :: 0 <= i < j < |rel| ==> rel[i] != rel[j]
  {
  }
}
