/**
 * Comparing two profiles: the settings that differ, in the first
 * profile's key order, each with the direction of the change and its
 * estimated impact; three weighted estimates of how much faster, better
 * and stronger the second profile prints; and the summary drawn from
 * them.  Profiles are dictionaries here, since any two profiles may be
 * compared.
 */
module OrcaCompare {
  import opened Values

  /** Both profiles hold the key. */
  predicate Shared(p1: Profile, p2: Profile, k: Key) {
    k in p1 && k in p2
  }

  /** Where both profiles hold `k`, its values are numbers and the divisor's is not zero. */
  predicate Divides(num: Profile, den: Profile, k: Key) {
    k in num && k in den ==> IsNum(num[k]) && IsNum(den[k]) && Num(den[k]) != 0.0
  }

  /** `(num[k] / den[k] - 1) * 100`: the relative change in percent. */
  function Change(num: Profile, den: Profile, k: Key): real
    requires Shared(num, den, k) && Divides(num, den, k)
  {
    (Num(num[k]) / Num(den[k]) - 1.0) * 100.0
  }

  /** A weighted term, counted only when both profiles hold the key. */
  function Term(num: Profile, den: Profile, k: Key, weight: real): (t: real)
    requires Divides(num, den, k)
    ensures !Shared(num, den, k) ==> t == 0.0
  {
    if Shared(num, den, k) then Change(num, den, k) * weight else 0.0
  }

  // ---------------------------------------------------------------------
  // Estimators
  // ---------------------------------------------------------------------

  predicate TimeReady(p1: Profile, p2: Profile) {
    Divides(p2, p1, LayerHeight) && Divides(p2, p1, PrintSpeed) &&
    Divides(p2, p1, InfillDensity) && Divides(p2, p1, WallLineCount)
  }

  /**
   * Print time difference in percent, negative when the second profile
   * is faster: thicker layers and higher speeds shorten the print, more
   * infill and more walls lengthen it.
   */
  function PrintTimeDifference(p1: Profile, p2: Profile): real
    requires TimeReady(p1, p2)
  {
    Term(p2, p1, LayerHeight, -0.4) + Term(p2, p1, PrintSpeed, -0.3) +
    Term(p2, p1, InfillDensity, 0.15) + Term(p2, p1, WallLineCount, 0.1)
  }

  predicate QualityReady(p1: Profile, p2: Profile) {
    Divides(p1, p2, LayerHeight) && Divides(p1, p2, PrintSpeed) &&
    Divides(p1, p2, OuterWallSpeed) && Divides(p2, p1, WallLineCount)
  }

  /**
   * Quality difference in percent, positive when the second profile is
   * better: thinner layers, lower speeds and more walls improve it.
   */
  function QualityDifference(p1: Profile, p2: Profile): real
    requires QualityReady(p1, p2)
  {
    Term(p1, p2, LayerHeight, 0.5) + Term(p1, p2, PrintSpeed, 0.2) +
    Term(p1, p2, OuterWallSpeed, 0.15) + Term(p2, p1, WallLineCount, 0.1)
  }

  predicate StrengthReady(p1: Profile, p2: Profile) {
    Divides(p2, p1, InfillDensity) && Divides(p2, p1, WallLineCount) &&
    Divides(p2, p1, LayerHeight) && Divides(p2, p1, MaterialPrintTemperature)
  }

  /**
   * Strength difference in percent, positive when the second profile is
   * stronger: more infill, more walls, thicker layers and hotter printing.
   */
  function StrengthDifference(p1: Profile, p2: Profile): real
    requires StrengthReady(p1, p2)
  {
    Term(p2, p1, InfillDensity, 0.4) + Term(p2, p1, WallLineCount, 0.3) +
    Term(p2, p1, LayerHeight, 0.1) + Term(p2, p1, MaterialPrintTemperature, 0.1)
  }

  /** The print time estimate as the source accumulates it. */
  method EstimatePrintTimeDifference(p1: Profile, p2: Profile) returns (total: real)
    requires TimeReady(p1, p2)
    ensures total == PrintTimeDifference(p1, p2)
  {
    total := 0.0;
    if LayerHeight in p1 && LayerHeight in p2 {
      var layerDiff := (Num(p2[LayerHeight]) / Num(p1[LayerHeight]) - 1.0) * -100.0;
      total := total + layerDiff * 0.4;
    }
    if PrintSpeed in p1 && PrintSpeed in p2 {
      var speedDiff := (Num(p2[PrintSpeed]) / Num(p1[PrintSpeed]) - 1.0) * -100.0;
      total := total + speedDiff * 0.3;
    }
    if InfillDensity in p1 && InfillDensity in p2 {
      var infillDiff := (Num(p2[InfillDensity]) / Num(p1[InfillDensity]) - 1.0) * 100.0;
      total := total + infillDiff * 0.15;
    }
    if WallLineCount in p1 && WallLineCount in p2 {
      var wallDiff := (Num(p2[WallLineCount]) / Num(p1[WallLineCount]) - 1.0) * 100.0;
      total := total + wallDiff * 0.1;
    }
  }

  /** The quality estimate as the source accumulates it. */
  method EstimateQualityDifference(p1: Profile, p2: Profile) returns (total: real)
    requires QualityReady(p1, p2)
    ensures total == QualityDifference(p1, p2)
  {
    total := 0.0;
    if LayerHeight in p1 && LayerHeight in p2 {
      var layerDiff := (Num(p1[LayerHeight]) / Num(p2[LayerHeight]) - 1.0) * 100.0;
      total := total + layerDiff * 0.5;
    }
    if PrintSpeed in p1 && PrintSpeed in p2 {
      var speedDiff := (Num(p1[PrintSpeed]) / Num(p2[PrintSpeed]) - 1.0) * 100.0;
      total := total + speedDiff * 0.2;
    }
    if OuterWallSpeed in p1 && OuterWallSpeed in p2 {
      var wallSpeedDiff := (Num(p1[OuterWallSpeed]) / Num(p2[OuterWallSpeed]) - 1.0) * 100.0;
      total := total + wallSpeedDiff * 0.15;
    }
    if WallLineCount in p1 && WallLineCount in p2 {
      var wallDiff := (Num(p2[WallLineCount]) / Num(p1[WallLineCount]) - 1.0) * 100.0;
      total := total + wallDiff * 0.1;
    }
  }

  /** The strength estimate as the source accumulates it. */
  method EstimateStrengthDifference(p1: Profile, p2: Profile) returns (total: real)
    requires StrengthReady(p1, p2)
    ensures total == StrengthDifference(p1, p2)
  {
    total := 0.0;
    if InfillDensity in p1 && InfillDensity in p2 {
      var infillDiff := (Num(p2[InfillDensity]) / Num(p1[InfillDensity]) - 1.0) * 100.0;
      total := total + infillDiff * 0.4;
    }
    if WallLineCount in p1 && WallLineCount in p2 {
      var wallDiff := (Num(p2[WallLineCount]) / Num(p1[WallLineCount]) - 1.0) * 100.0;
      total := total + wallDiff * 0.3;
    }
    if LayerHeight in p1 && LayerHeight in p2 {
      var layerDiff := (Num(p2[LayerHeight]) / Num(p1[LayerHeight]) - 1.0) * 100.0;
      total := total + layerDiff * 0.1;
    }
    if MaterialPrintTemperature in p1 && MaterialPrintTemperature in p2 {
      var tempDiff := (Num(p2[MaterialPrintTemperature]) / Num(p1[MaterialPrintTemperature]) - 1.0) * 100.0;
      total := total + tempDiff * 0.1;
    }
  }

  /** A profile whose estimator settings are nonzero numbers. */
  predicate NonzeroAt(p: Profile, k: Key) {
    k in p ==> IsNum(p[k]) && Num(p[k]) != 0.0
  }

  predicate EstimatorSettingsNonzero(p: Profile) {
    NonzeroAt(p, LayerHeight) && NonzeroAt(p, PrintSpeed) && NonzeroAt(p, InfillDensity) &&
    NonzeroAt(p, WallLineCount) && NonzeroAt(p, OuterWallSpeed) && NonzeroAt(p, MaterialPrintTemperature)
  }

  lemma SelfChange(p: Profile, k: Key)
    requires NonzeroAt(p, k) && k in p
    ensures Change(p, p, k) == 0.0
  {
    var x := Num(p[k]);
    assert x / x == 1.0;
  }

  /** A profile compared with itself differs by nothing in any estimate. */
  lemma IdenticalProfilesNoDifference(p: Profile)
    requires EstimatorSettingsNonzero(p)
    ensures PrintTimeDifference(p, p) == 0.0
    ensures QualityDifference(p, p) == 0.0
    ensures StrengthDifference(p, p) == 0.0
  {
    if LayerHeight in p { SelfChange(p, LayerHeight); }
    if PrintSpeed in p { SelfChange(p, PrintSpeed); }
    if InfillDensity in p { SelfChange(p, InfillDensity); }
    if WallLineCount in p { SelfChange(p, WallLineCount); }
    if OuterWallSpeed in p { SelfChange(p, OuterWallSpeed); }
    if MaterialPrintTemperature in p { SelfChange(p, MaterialPrintTemperature); }
  }

  // ---------------------------------------------------------------------
  // Differences
  // ---------------------------------------------------------------------

  /** Which way a setting moved, as the explanation of a difference says it. */
  datatype ChangeNote =
    ThinnerLayers | ThickerLayers | SlowerPrinting | FasterPrinting
    | LessInfill | MoreInfill | FewerWalls | MoreWalls | ValueChanged

  /**
   * The estimated impact of one change: whether the value rose, and the
   * percentage the sentence quotes (0.8, 0.7 and 0.5 of the relative change
   * for layer height, speed and infill).
   */
  datatype Impact = Assessed(rose: bool, percent: real) | DependsOnRequirements

  datatype Difference = Difference(key: Key, value1: Value, value2: Value, note: ChangeNote, impact: Impact)

  /** The settings whose change gets a directional explanation. */
  predicate Explained(k: Key) {
    k == LayerHeight || k == PrintSpeed || k == InfillDensity || k == WallLineCount
  }

  /** The settings whose change gets an impact estimate. */
  predicate Assessed3(k: Key) {
    k == LayerHeight || k == PrintSpeed || k == InfillDensity
  }

  /** `_explain_difference`: the direction of the change for the four explained settings. */
  function NoteOf(k: Key, v1: Value, v2: Value): (n: ChangeNote)
    requires Explained(k) ==> IsNum(v1) && IsNum(v2)
    ensures !Explained(k) ==> n == ValueChanged
    ensures k == LayerHeight ==> (n == ThinnerLayers <==> Num(v2) < Num(v1)) && n in {ThinnerLayers, ThickerLayers}
    ensures k == PrintSpeed ==> (n == SlowerPrinting <==> Num(v2) < Num(v1)) && n in {SlowerPrinting, FasterPrinting}
    ensures k == InfillDensity ==> (n == LessInfill <==> Num(v2) < Num(v1)) && n in {LessInfill, MoreInfill}
    ensures k == WallLineCount ==> (n == FewerWalls <==> Num(v2) < Num(v1)) && n in {FewerWalls, MoreWalls}
  {
    if k == LayerHeight then (if Num(v2) < Num(v1) then ThinnerLayers else ThickerLayers)
    else if k == PrintSpeed then (if Num(v2) < Num(v1) then SlowerPrinting else FasterPrinting)
    else if k == InfillDensity then (if Num(v2) < Num(v1) then LessInfill else MoreInfill)
    else if k == WallLineCount then (if Num(v2) < Num(v1) then FewerWalls else MoreWalls)
    else ValueChanged
  }

  /** The share of the relative change each assessed setting's impact quotes. */
  function ImpactWeight(k: Key): real {
    if k == LayerHeight then 0.8 else if k == PrintSpeed then 0.7 else if k == InfillDensity then 0.5 else 0.0
  }

  /** `_assess_impact`: the sign of `(v2 - v1) / v1 * 100` and the weighted magnitude quoted. */
  function ImpactOf(k: Key, v1: Value, v2: Value): (i: Impact)
    requires Assessed3(k) ==> IsNum(v1) && IsNum(v2) && Num(v1) != 0.0
    ensures !Assessed3(k) <==> i == DependsOnRequirements
    ensures i.Assessed? ==> i.percent >= 0.0
    ensures i.Assessed? ==> i.percent == ImpactWeight(k) * Abs((Num(v2) - Num(v1)) / Num(v1) * 100.0)
    ensures i.Assessed? ==>
      (i.rose <==> (Num(v1) > 0.0 && Num(v2) > Num(v1)) || (Num(v1) < 0.0 && Num(v2) < Num(v1)))
  {
    if Assessed3(k) then
      var pct := (Num(v2) - Num(v1)) / Num(v1) * 100.0;
      var factor := ImpactWeight(k);
      SignOfQuotient(Num(v2) - Num(v1), Num(v1));
      if pct > 0.0 then Assessed(true, factor * pct) else Assessed(false, -factor * pct)
    else DependsOnRequirements
  }

  lemma SignOfQuotient(a: real, b: real)
    requires b != 0.0
    ensures a / b * 100.0 > 0.0 <==> (a > 0.0 && b > 0.0) || (a < 0.0 && b < 0.0)
  {
    var q := a / b;
    assert q * b == a;
    if a > 0.0 && b > 0.0 {
      assert q > 0.0;
    } else if a < 0.0 && b < 0.0 {
      assert q > 0.0;
    } else if q > 0.0 {
      assert false;
    }
  }

  /** Where both profiles hold `k` with different values, they can be explained and assessed. */
  predicate Describable(p1: Profile, p2: Profile, k: Key) {
    k in p1 && k in p2 && !PyEq(p1[k], p2[k]) ==>
      (Explained(k) ==> IsNum(p1[k]) && IsNum(p2[k])) &&
      (Assessed3(k) ==> IsNum(p1[k]) && IsNum(p2[k]) && Num(p1[k]) != 0.0)
  }

  predicate Differs(p1: Profile, p2: Profile, k: Key)
    requires k in p1
  {
    k in p2 && !PyEq(p1[k], p2[k])
  }

  function DifferenceAt(p1: Profile, p2: Profile, k: Key): Difference
    requires k in p1 && Differs(p1, p2, k) && Describable(p1, p2, k)
  {
    Difference(k, p1[k], p2[k], NoteOf(k, p1[k], p2[k]), ImpactOf(k, p1[k], p2[k]))
  }

  /** The keys of `order` are keys of `p1` that can be described where they differ. */
  predicate Walkable(order: seq<Key>, p1: Profile, p2: Profile) {
    forall k | k in order :: k in p1 && Describable(p1, p2, k)
  }

  /** The differences, in the order keys are visited. */
  function Differences(order: seq<Key>, p1: Profile, p2: Profile): seq<Difference>
    requires Walkable(order, p1, p2)
  {
    if order == [] then []
    else
      var k := order[0];
      (if Differs(p1, p2, k) then [DifferenceAt(p1, p2, k)] else []) + Differences(order[1..], p1, p2)
  }

  /**
   * Every listed difference is a visited key both profiles hold with
   * unequal values, carrying those values; and every such key is listed.
   */
  lemma {:induction false} DifferencesExact(order: seq<Key>, p1: Profile, p2: Profile)
    requires Walkable(order, p1, p2)
    ensures forall d | d in Differences(order, p1, p2) ::
      d.key in order && d.key in p1 && d.key in p2 && !PyEq(p1[d.key], p2[d.key]) &&
      d.value1 == p1[d.key] && d.value2 == p2[d.key]
    ensures forall k | k in order && k in p2 && !PyEq(p1[k], p2[k]) ::
      exists d | d in Differences(order, p1, p2) :: d.key == k
  {
    if order != [] {
      var k := order[0];
      DifferencesExact(order[1..], p1, p2);
      var rest := Differences(order[1..], p1, p2);
      assert Differences(order, p1, p2) ==
        (if Differs(p1, p2, k) then [DifferenceAt(p1, p2, k)] else []) + rest;
      forall j | j in order && j in p2 && !PyEq(p1[j], p2[j])
        ensures exists d | d in Differences(order, p1, p2) :: d.key == j
      {
        if j == k {
          assert DifferenceAt(p1, p2, k) in Differences(order, p1, p2);
        } else {
          assert j in order[1..];
          var d :| d in rest && d.key == j;
          assert d in Differences(order, p1, p2);
        }
      }
    }
  }

  /** No key is reported twice. */
  predicate KeysOnce(ds: seq<Difference>) {
    forall i, j | 0 <= i < j < |ds| :: ds[i].key != ds[j].key
  }

  /** Visiting distinct keys reports each difference once. */
  lemma {:induction false} DifferencesDistinct(order: seq<Key>, p1: Profile, p2: Profile)
    requires Walkable(order, p1, p2)
    requires forall i, j | 0 <= i < j < |order| :: order[i] != order[j]
    ensures KeysOnce(Differences(order, p1, p2))
  {
    if order != [] {
      var k := order[0];
      TailDistinct(order);
      DifferencesDistinct(order[1..], p1, p2);
      DifferenceKeysVisited(order[1..], p1, p2);
      var head := if Differs(p1, p2, k) then [DifferenceAt(p1, p2, k)] else [];
      assert Differences(order, p1, p2) == head + Differences(order[1..], p1, p2);
      KeysOnceCons(head, Differences(order[1..], p1, p2), k);
    }
  }

  lemma TailDistinct(order: seq<Key>)
    requires order != [] && forall i, j | 0 <= i < j < |order| :: order[i] != order[j]
    ensures forall i, j | 0 <= i < j < |order[1..]| :: order[1..][i] != order[1..][j]
    ensures order[0] !in order[1..]
  {
    forall i, j | 0 <= i < j < |order[1..]| ensures order[1..][i] != order[1..][j] {
      assert order[1..][i] == order[i + 1] && order[1..][j] == order[j + 1];
    }
    forall j | 0 <= j < |order[1..]| ensures order[1..][j] != order[0] {
      assert order[1..][j] == order[j + 1];
    }
  }

  lemma {:induction false} DifferenceKeysVisited(order: seq<Key>, p1: Profile, p2: Profile)
    requires Walkable(order, p1, p2)
    ensures forall d | d in Differences(order, p1, p2) :: d.key in order
  {
    if order != [] {
      DifferenceKeysVisited(order[1..], p1, p2);
    }
  }

  lemma KeysOnceCons(head: seq<Difference>, rest: seq<Difference>, k: Key)
    requires |head| <= 1 && (forall d | d in head :: d.key == k)
    requires KeysOnce(rest) && forall d | d in rest :: d.key != k
    ensures KeysOnce(head + rest)
  {
    var ds := head + rest;
    forall i, j | 0 <= i < j < |ds| ensures ds[i].key != ds[j].key {
      assert ds[j] == rest[j - |head|] && rest[j - |head|] in rest;
      if i < |head| {
        assert ds[i] in head;
      } else {
        assert ds[i] == rest[i - |head|];
      }
    }
  }

  /** Two identical profiles have no differences. */
  lemma {:induction false} NoDifferencesWithItself(order: seq<Key>, p: Profile)
    requires Walkable(order, p, p)
    ensures Differences(order, p, p) == []
  {
    if order != [] {
      var k := order[0];
      assert PyEq(p[k], p[k]);
      NoDifferencesWithItself(order[1..], p);
    }
  }

  // ---------------------------------------------------------------------
  // Comparison
  // ---------------------------------------------------------------------

  /** The summary's words: faster or slower, better or lower quality, higher or lower strength. */
  datatype Summary = Summary(faster: bool, better: bool, stronger: bool,
                             timePercent: real, qualityPercent: real, strengthPercent: real)

  function Abs(x: real): (a: real)
    ensures a >= 0.0 && (a == x || a == -x)
  {
    if x < 0.0 then -x else x
  }

  function SummaryOf(time: real, quality: real, strength: real): (s: Summary)
    ensures s.faster <==> time < 0.0
    ensures s.better <==> quality > 0.0
    ensures s.stronger <==> strength > 0.0
    ensures s.timePercent == Abs(time) && s.qualityPercent == Abs(quality) && s.strengthPercent == Abs(strength)
  {
    Summary(time < 0.0, quality > 0.0, strength > 0.0, Abs(time), Abs(quality), Abs(strength))
  }

  datatype Comparison = Comparison(
    differences: seq<Difference>, summary: Summary,
    printTimeDifference: real, qualityDifference: real, strengthDifference: real)

  /** `order` lists every key of `p`, each once, as `p.keys()` does. */
  predicate KeyOrder(order: seq<Key>, p: Profile) {
    (forall k | k in order :: k in p) && (forall k | k in p :: k in order) &&
    (forall i, j | 0 <= i < j < |order| :: order[i] != order[j])
  }

  /** Everything the comparison needs of its two profiles. */
  predicate Comparable2(order: seq<Key>, p1: Profile, p2: Profile) {
    KeyOrder(order, p1) && Walkable(order, p1, p2) &&
    TimeReady(p1, p2) && QualityReady(p1, p2) && StrengthReady(p1, p2)
  }

  /** The loop over the first profile's keys, in `order`, that collects the differences. */
  method CollectDifferences(order: seq<Key>, p1: Profile, p2: Profile) returns (differences: seq<Difference>)
    requires Walkable(order, p1, p2)
    ensures differences == Differences(order, p1, p2)
  {
    differences := [];
    for i := 0 to |order|
      invariant Walkable(order[i..], p1, p2)
      invariant differences + Differences(order[i..], p1, p2) == Differences(order, p1, p2)
    {
      var k := order[i];
      assert order[i..][0] == k && order[i..][1..] == order[i + 1..];
      if k in p2 && !PyEq(p1[k], p2[k]) {
        differences := differences + [DifferenceAt(p1, p2, k)];
      }
    }
    assert order[|order|..] == [];
  }

  /**
   * The comparison as the source runs it: the keys of the first profile are
   * visited in `order` (its insertion order), collecting differences, then
   * the three estimates and the summary are computed.
   */
  method CompareProfiles(order: seq<Key>, p1: Profile, p2: Profile) returns (c: Comparison)
    requires Comparable2(order, p1, p2)
    ensures c.differences == Differences(order, p1, p2)
    ensures forall d | d in c.differences ::
      d.key in p1 && d.key in p2 && !PyEq(p1[d.key], p2[d.key]) &&
      d.value1 == p1[d.key] && d.value2 == p2[d.key]
    ensures forall k | k in p1 && k in p2 && !PyEq(p1[k], p2[k]) ::
      exists d | d in c.differences :: d.key == k
    ensures KeysOnce(c.differences)
    ensures c.printTimeDifference == PrintTimeDifference(p1, p2)
    ensures c.qualityDifference == QualityDifference(p1, p2)
    ensures c.strengthDifference == StrengthDifference(p1, p2)
    ensures c.summary == SummaryOf(c.printTimeDifference, c.qualityDifference, c.strengthDifference)
  {
    var differences := CollectDifferences(order, p1, p2);
    DifferencesExact(order, p1, p2);
    DifferencesDistinct(order, p1, p2);
    var time := EstimatePrintTimeDifference(p1, p2);
    var quality := EstimateQualityDifference(p1, p2);
    var strength := EstimateStrengthDifference(p1, p2);
    c := Comparison(differences, SummaryOf(time, quality, strength), time, quality, strength);
  }

  /**
   * The demonstration pair: layers 0.16 against 0.2 mm, speed 50 against
   * 70 mm/s, infill 20 against 15%, everything else the estimators read
   * equal.  The second profile prints 25.75% faster, 7.5% weaker, and
   * 110/7% (about 15.7%) lower in quality.
   */
  lemma DemonstrationEstimates(p1: Profile, p2: Profile)
    requires LayerHeight in p1 && LayerHeight in p2 && p1[LayerHeight] == R(0.16) && p2[LayerHeight] == R(0.2)
    requires PrintSpeed in p1 && PrintSpeed in p2 && p1[PrintSpeed] == I(50) && p2[PrintSpeed] == I(70)
    requires InfillDensity in p1 && InfillDensity in p2 && p1[InfillDensity] == I(20) && p2[InfillDensity] == I(15)
    requires forall k | k in {WallLineCount, OuterWallSpeed, MaterialPrintTemperature} ::
      (k in p1 <==> k in p2) && (k in p1 ==> p1[k] == p2[k] && NonzeroAt(p1, k))
    ensures TimeReady(p1, p2) && QualityReady(p1, p2) && StrengthReady(p1, p2)
    ensures PrintTimeDifference(p1, p2) == -25.75
    ensures StrengthDifference(p1, p2) == -7.5
    ensures QualityDifference(p1, p2) == -110.0 / 7.0
    ensures var s := SummaryOf(PrintTimeDifference(p1, p2), QualityDifference(p1, p2), StrengthDifference(p1, p2));
      s.faster && !s.better && !s.stronger
  {
    assert NonzeroAt(p1, WallLineCount) && NonzeroAt(p1, OuterWallSpeed) && NonzeroAt(p1, MaterialPrintTemperature);
    if WallLineCount in p1 { SelfChange(p1, WallLineCount); assert Change(p2, p1, WallLineCount) == 0.0; assert Change(p1, p2, WallLineCount) == 0.0; }
    if OuterWallSpeed in p1 { SelfChange(p1, OuterWallSpeed); assert Change(p1, p2, OuterWallSpeed) == 0.0; }
    if MaterialPrintTemperature in p1 { SelfChange(p1, MaterialPrintTemperature); assert Change(p2, p1, MaterialPrintTemperature) == 0.0; }
    assert Change(p2, p1, LayerHeight) == 25.0;
    assert Change(p2, p1, PrintSpeed) == 40.0;
    assert Change(p2, p1, InfillDensity) == -25.0;
    assert Change(p1, p2, LayerHeight) == -20.0;
    assert Change(p1, p2, PrintSpeed) == -200.0 / 7.0;
  }
}
