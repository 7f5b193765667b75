/**
 * The profile generator's comparison of two stored process profiles: a
 * fixed list of important settings is walked in order, every setting both
 * profiles hold with different values is listed with the wording and the
 * impact chosen for it, three of them move running estimates of print
 * time, quality and strength, and a summary is drawn from the estimates.
 */
module ProfileCompare {
  import opened Values

  /** The settings compared, in the order they are visited. */
  const ImportantSettings: seq<Key> :=
    [LayerHeight, PrintSpeed, InfillDensity, Temperature, BedTemperature, RetractionDistance, RetractionSpeed]

  /** The settings that move the estimates. */
  predicate Weighted(k: Key) {
    k == LayerHeight || k == PrintSpeed || k == InfillDensity
  }

  /** Both profiles hold `k`, with values Python's `!=` tells apart. */
  predicate Differs(p1: Profile, p2: Profile, k: Key) {
    k in p1 && k in p2 && !PyEq(p1[k], p2[k])
  }

  /**
   * What Python needs of two differing values: the wording compares them
   * with `<`, and the weighted settings are divided or subtracted.
   */
  predicate Describable(k: Key, v1: Value, v2: Value) {
    Comparable(v1, v2) && (Weighted(k) ==> IsNum(v1) && IsNum(v2))
  }

  /** Every visited setting on which the profiles differ can be described. */
  predicate Ready(order: seq<Key>, p1: Profile, p2: Profile) {
    forall k | k in order && Differs(p1, p2, k) :: Describable(k, p1[k], p2[k])
  }

  // ---------------------------------------------------------------------
  // Estimates
  // ---------------------------------------------------------------------

  /** `value_2 / value_1 if value_1 > 0 else 1`. */
  function Ratio(v1: Value, v2: Value): (r: real)
    requires IsNum(v1) && IsNum(v2)
    ensures Num(v1) <= 0.0 ==> r == 1.0
    ensures Num(v1) > 0.0 ==> r * Num(v1) == Num(v2)
  {
    if Num(v1) > 0.0 then Num(v2) / Num(v1) else 1.0
  }

  /** How one differing setting moves the print time, quality and strength estimates. */
  datatype Effect = Effect(time: real, quality: real, strength: real)

  const NoEffect := Effect(0.0, 0.0, 0.0)

  function Plus(a: Effect, b: Effect): Effect {
    Effect(a.time + b.time, a.quality + b.quality, a.strength + b.strength)
  }

  /**
   * Layer height moves time and quality by the ratio in opposite
   * directions; print speed shortens the time by its ratio and lowers the
   * quality only beyond a 20% increase; infill adds half its difference to
   * strength and a quarter to time.  No other setting counts.
   */
  function EffectOf(k: Key, v1: Value, v2: Value): (e: Effect)
    requires Weighted(k) ==> IsNum(v1) && IsNum(v2)
    ensures !Weighted(k) ==> e == NoEffect
    ensures k == LayerHeight ==> e.strength == 0.0 && e.quality == -e.time
    ensures k == PrintSpeed ==> e.strength == 0.0 && e.quality <= 0.0
    ensures k == InfillDensity ==> e.quality == 0.0 && e.time == e.strength / 2.0
  {
    if k == LayerHeight then
      var ratio := Ratio(v1, v2);
      Effect((1.0 - ratio) * 100.0, (ratio - 1.0) * 100.0, 0.0)
    else if k == PrintSpeed then
      var ratio := Ratio(v1, v2);
      Effect(-(ratio - 1.0) * 100.0, if ratio > 1.2 then -(ratio - 1.0) * 50.0 else 0.0, 0.0)
    else if k == InfillDensity then
      var diff := Num(v2) - Num(v1);
      Effect(diff * 0.25, 0.0, diff * 0.5)
    else NoEffect
  }

  /** The estimates summed over the visited settings on which the profiles differ. */
  function Totals(order: seq<Key>, p1: Profile, p2: Profile): Effect
    requires Ready(order, p1, p2)
  {
    if order == [] then NoEffect
    else
      var k := order[0];
      Plus(if Differs(p1, p2, k) then EffectOf(k, p1[k], p2[k]) else NoEffect, Totals(order[1..], p1, p2))
  }

  /** Comparing a quotient with a bound is comparing the dividend with the scaled bound. */
  lemma QuotientAgainst(y: real, x: real, c: real)
    requires x > 0.0
    ensures y / x < c <==> y < c * x
    ensures y / x > c <==> y > c * x
  {
    var q := y / x;
    assert q * x == y;
    assert (c - q) * x == c * x - y;
  }

  /** Thinner layers lengthen the print and raise the quality estimate; thicker ones the opposite. */
  lemma LayerHeightDirection(v1: Value, v2: Value)
    requires IsNum(v1) && IsNum(v2) && Num(v1) > 0.0
    ensures EffectOf(LayerHeight, v1, v2).time > 0.0 <==> Num(v2) < Num(v1)
    ensures EffectOf(LayerHeight, v1, v2).quality > 0.0 <==> Num(v2) > Num(v1)
  {
    QuotientAgainst(Num(v2), Num(v1), 1.0);
  }

  /**
   * A faster print speed shortens the print; the quality estimate falls
   * only when the new speed is more than 1.2 times the old.
   */
  lemma PrintSpeedDirection(v1: Value, v2: Value)
    requires IsNum(v1) && IsNum(v2) && Num(v1) > 0.0
    ensures EffectOf(PrintSpeed, v1, v2).time < 0.0 <==> Num(v2) > Num(v1)
    ensures EffectOf(PrintSpeed, v1, v2).quality < 0.0 <==> Num(v2) > 1.2 * Num(v1)
  {
    QuotientAgainst(Num(v2), Num(v1), 1.0);
    QuotientAgainst(Num(v2), Num(v1), 1.2);
  }

  /** A profile whose first value is not positive is compared against a ratio of one: no effect. */
  lemma NonPositiveBaseHasNoEffect(k: Key, v1: Value, v2: Value)
    requires k == LayerHeight || k == PrintSpeed
    requires IsNum(v1) && IsNum(v2) && Num(v1) <= 0.0
    ensures EffectOf(k, v1, v2) == NoEffect
  {
  }

  /** Profiles that agree on the three weighted settings have all three totals zero. */
  lemma {:induction false} TotalsOnlyWeighted(order: seq<Key>, p1: Profile, p2: Profile)
    requires Ready(order, p1, p2)
    requires forall k | k in order && Weighted(k) :: !Differs(p1, p2, k)
    ensures Totals(order, p1, p2) == NoEffect
  {
    if order != [] {
      TotalsOnlyWeighted(order[1..], p1, p2);
    }
  }

  // ---------------------------------------------------------------------
  // Differences
  // ---------------------------------------------------------------------

  /** The consequence stated for one changed setting. */
  datatype SettingImpact =
    | TimeImpact(increased: bool, percent: real)
    | MaterialImpact(increased: bool)
    | TemperatureImpact(lowered: bool)
    | BedTemperatureImpact(lowered: bool)
    | RetractionImpact(affected: bool)
    | UnknownImpact

  function Abs(x: real): (a: real)
    ensures a >= 0.0 && (a == x || a == -x)
  {
    if x < 0.0 then -x else x
  }

  /**
   * `_explain_setting_difference`: which of its two sentences is chosen.
   * It is the sentence for a lowered value, decided by `value_2 < value_1`,
   * except for infill, where the raised sentence is decided by
   * `value_2 > value_1`.
   */
  function LowerWording(k: Key, v1: Value, v2: Value): bool
    requires Comparable(v1, v2)
  {
    if k == InfillDensity then !PyLt(v1, v2) else PyLt(v2, v1)
  }

  /**
   * `_calculate_setting_impact`: for layer height and print speed the
   * print time change `(1 - ratio) * 100`, rising when positive; for
   * infill whether the value rose; for the temperatures whether it fell;
   * for the retraction settings whether it changed.
   */
  function ImpactOf(k: Key, v1: Value, v2: Value): (i: SettingImpact)
    requires Describable(k, v1, v2)
    ensures i.UnknownImpact? <==> !(Weighted(k) || k == Temperature || k == BedTemperature ||
                                   k == RetractionDistance || k == RetractionSpeed)
  {
    if k == LayerHeight || k == PrintSpeed then
      var t := (1.0 - Ratio(v1, v2)) * 100.0;
      TimeImpact(t > 0.0, Abs(t))
    else if k == InfillDensity then MaterialImpact(Num(v2) - Num(v1) > 0.0)
    else if k == Temperature then TemperatureImpact(PyLt(v2, v1))
    else if k == BedTemperature then BedTemperatureImpact(PyLt(v2, v1))
    else if k == RetractionDistance || k == RetractionSpeed then RetractionImpact(!PyEq(v1, v2))
    else UnknownImpact
  }

  /** For numbers that differ, every wording and every direction of impact follows the direction of the change. */
  lemma WordingFollowsChange(k: Key, v1: Value, v2: Value)
    requires IsNum(v1) && IsNum(v2) && Num(v1) != Num(v2)
    ensures LowerWording(k, v1, v2) <==> Num(v2) < Num(v1)
    ensures k == InfillDensity ==> (ImpactOf(k, v1, v2).increased <==> Num(v2) > Num(v1))
    ensures k == Temperature || k == BedTemperature ==> (ImpactOf(k, v1, v2).lowered <==> Num(v2) < Num(v1))
    ensures k == RetractionDistance || k == RetractionSpeed ==> ImpactOf(k, v1, v2).affected
  {
  }

  /**
   * The impact stated for layer height and print speed agrees with the
   * totals: its percentage is the size of the time estimate's change and
   * it says "increased" exactly when that change is positive.
   */
  lemma ImpactAgreesWithEstimate(k: Key, v1: Value, v2: Value)
    requires k == LayerHeight || k == PrintSpeed
    requires IsNum(v1) && IsNum(v2)
    ensures ImpactOf(k, v1, v2).TimeImpact?
    ensures ImpactOf(k, v1, v2).percent == Abs(EffectOf(k, v1, v2).time)
    ensures ImpactOf(k, v1, v2).increased <==> EffectOf(k, v1, v2).time > 0.0
  {
  }

  datatype Difference = Difference(setting: Key, value1: Value, value2: Value, lowerWording: bool, impact: SettingImpact)

  function DifferenceAt(p1: Profile, p2: Profile, k: Key): Difference
    requires Differs(p1, p2, k) && Describable(k, p1[k], p2[k])
  {
    Difference(k, p1[k], p2[k], LowerWording(k, p1[k], p2[k]), ImpactOf(k, p1[k], p2[k]))
  }

  /** The differences, in the order the settings are visited. */
  function Differences(order: seq<Key>, p1: Profile, p2: Profile): seq<Difference>
    requires Ready(order, p1, p2)
  {
    if order == [] then []
    else
      var k := order[0];
      (if Differs(p1, p2, k) then [DifferenceAt(p1, p2, k)] else []) + Differences(order[1..], p1, p2)
  }

  /**
   * Every listed difference is a visited setting both profiles hold with
   * unequal values, carrying those values, and every such setting is
   * listed.
   */
  lemma {:induction false} DifferencesExact(order: seq<Key>, p1: Profile, p2: Profile)
    requires Ready(order, p1, p2)
    ensures forall d | d in Differences(order, p1, p2) ::
      d.setting in order && Differs(p1, p2, d.setting) && d.value1 == p1[d.setting] && d.value2 == p2[d.setting]
    ensures forall k | k in order && Differs(p1, p2, k) :: exists d | d in Differences(order, p1, p2) :: d.setting == k
  {
    if order != [] {
      var k := order[0];
      DifferencesExact(order[1..], p1, p2);
      var rest := Differences(order[1..], p1, p2);
      assert Differences(order, p1, p2) == (if Differs(p1, p2, k) then [DifferenceAt(p1, p2, k)] else []) + rest;
      forall j | j in order && Differs(p1, p2, j)
        ensures exists d | d in Differences(order, p1, p2) :: d.setting == j
      {
        if j == k {
          assert DifferenceAt(p1, p2, k) in Differences(order, p1, p2);
        } else {
          assert j in order[1..];
          var d :| d in rest && d.setting == j;
          assert d in Differences(order, p1, p2);
        }
      }
    }
  }

  /** The settings of the differences, which keep the visiting order. */
  function Settings(ds: seq<Difference>): seq<Key> {
    if ds == [] then [] else [ds[0].setting] + Settings(ds[1..])
  }

  lemma {:induction false} SettingsAppend(a: seq<Difference>, b: seq<Difference>)
    ensures Settings(a + b) == Settings(a) + Settings(b)
  {
    if a == [] {
      assert a + b == b;
    } else {
      assert (a + b)[1..] == a[1..] + b;
      SettingsAppend(a[1..], b);
    }
  }

  /** The visited settings on which the profiles differ, in visiting order. */
  function DifferingSettings(order: seq<Key>, p1: Profile, p2: Profile): seq<Key> {
    if order == [] then []
    else (if Differs(p1, p2, order[0]) then [order[0]] else []) + DifferingSettings(order[1..], p1, p2)
  }

  /** The list of differences names exactly the differing settings, in the whitelist's order. */
  lemma {:induction false} DifferencesInOrder(order: seq<Key>, p1: Profile, p2: Profile)
    requires Ready(order, p1, p2)
    ensures Settings(Differences(order, p1, p2)) == DifferingSettings(order, p1, p2)
  {
    if order != [] {
      var k := order[0];
      var head := if Differs(p1, p2, k) then [DifferenceAt(p1, p2, k)] else [];
      SettingsAppend(head, Differences(order[1..], p1, p2));
      DifferencesInOrder(order[1..], p1, p2);
      if Differs(p1, p2, k) {
        assert Settings(head) == [k] + Settings(head[1..]);
      }
    }
  }

  /** A profile compared with itself has no differences and no effect. */
  lemma {:induction false} NothingDiffersFromItself(order: seq<Key>, p: Profile)
    ensures Ready(order, p, p)
    ensures Differences(order, p, p) == []
    ensures Totals(order, p, p) == NoEffect
  {
    if order != [] {
      var k := order[0];
      if k in p {
        assert PyEq(p[k], p[k]);
      }
      NothingDiffersFromItself(order[1..], p);
    }
  }

  // ---------------------------------------------------------------------
  // Summary and comparison
  // ---------------------------------------------------------------------

  /** A percentage and whether it is a fall. */
  datatype Clause = Clause(percent: real, lower: bool)

  /**
   * The summary: the time clause is always there, "faster" when the
   * estimate is negative; the quality and strength clauses only when their
   * estimate exceeds 5% either way.
   */
  datatype Summary = Summary(timePercent: real, faster: bool, quality: Option<Clause>, strength: Option<Clause>)

  function SummaryOf(e: Effect): (s: Summary)
    ensures s.timePercent == Abs(e.time) && (s.faster <==> e.time < 0.0)
    ensures s.quality.Some? <==> e.quality > 5.0 || e.quality < -5.0
    ensures s.quality.Some? ==> s.quality.value == Clause(Abs(e.quality), e.quality < 0.0)
    ensures s.strength.Some? <==> e.strength > 5.0 || e.strength < -5.0
    ensures s.strength.Some? ==> s.strength.value == Clause(Abs(e.strength), e.strength < 0.0)
  {
    Summary(Abs(e.time), e.time < 0.0,
            if Abs(e.quality) > 5.0 then Some(Clause(Abs(e.quality), e.quality < 0.0)) else None,
            if Abs(e.strength) > 5.0 then Some(Clause(Abs(e.strength), e.strength < 0.0)) else None)
  }

  /** Two equal profiles are summarised as 0% slower, with neither optional clause. */
  lemma EqualProfilesSummary()
    ensures SummaryOf(NoEffect) == Summary(0.0, false, None, None)
  {
  }

  /** The comparison's result: an error naming which profile was found, or the differences and estimates. */
  datatype ProcessComparison =
    | NotFound(found1: bool, found2: bool)
    | Compared(differences: seq<Difference>, summary: Summary,
               printTimeDifference: real, qualityDifference: real, strengthDifference: real)

  /** A stored profile that Python treats as true: found and not empty. */
  predicate Present(p: Option<Profile>) {
    p.Some? && p.value != map[]
  }

  /** One pass of the comparison loop's estimate updates for a differing setting. */
  method Accumulate(setting: Key, v1: Value, v2: Value, time0: real, quality0: real, strength0: real)
    returns (time: real, quality: real, strength: real)
    requires Weighted(setting) ==> IsNum(v1) && IsNum(v2)
    ensures time == time0 + EffectOf(setting, v1, v2).time
    ensures quality == quality0 + EffectOf(setting, v1, v2).quality
    ensures strength == strength0 + EffectOf(setting, v1, v2).strength
  {
    time, quality, strength := time0, quality0, strength0;
    if setting == LayerHeight {
      var ratio := if Num(v1) > 0.0 then Num(v2) / Num(v1) else 1.0;
      time := time + (1.0 - ratio) * 100.0;
      quality := quality + (ratio - 1.0) * 100.0;
    } else if setting == PrintSpeed {
      var ratio := if Num(v1) > 0.0 then Num(v2) / Num(v1) else 1.0;
      time := time - (ratio - 1.0) * 100.0;
      if ratio > 1.2 {
        quality := quality - (ratio - 1.0) * 50.0;
      }
    } else if setting == InfillDensity {
      var diff := Num(v2) - Num(v1);
      strength := strength + diff * 0.5;
      time := time + diff * 0.25;
    }
  }

  /** Visiting `x` after `order` extends the differences by that one setting. */
  lemma {:induction false} DifferencesAppend(order: seq<Key>, x: Key, a: Profile, b: Profile)
    requires Ready(order, a, b) && Ready(order + [x], a, b)
    ensures Differences(order + [x], a, b) ==
      Differences(order, a, b) + (if Differs(a, b, x) then [DifferenceAt(a, b, x)] else [])
  {
    if order == [] {
      assert [] + [x] == [x];
    } else {
      var k := order[0];
      var head := if Differs(a, b, k) then [DifferenceAt(a, b, k)] else [];
      var last := if Differs(a, b, x) then [DifferenceAt(a, b, x)] else [];
      assert (order + [x])[0] == k && (order + [x])[1..] == order[1..] + [x];
      ReadyTail(order, x, a, b);
      assert Differences(order + [x], a, b) == head + Differences(order[1..] + [x], a, b);
      DifferencesAppend(order[1..], x, a, b);
      assert head + (Differences(order[1..], a, b) + last) == (head + Differences(order[1..], a, b)) + last;
    }
  }

  /** Visiting `x` after `order` adds that one setting's effect to the totals. */
  lemma {:induction false} TotalsAppend(order: seq<Key>, x: Key, a: Profile, b: Profile)
    requires Ready(order, a, b) && Ready(order + [x], a, b)
    ensures var e := if Differs(a, b, x) then EffectOf(x, a[x], b[x]) else NoEffect;
      Totals(order + [x], a, b) == Plus(Totals(order, a, b), e)
  {
    if order == [] {
      assert [] + [x] == [x];
    } else {
      var k := order[0];
      assert (order + [x])[0] == k && (order + [x])[1..] == order[1..] + [x];
      ReadyTail(order, x, a, b);
      var first := if Differs(a, b, k) then EffectOf(k, a[k], b[k]) else NoEffect;
      assert Totals(order + [x], a, b) == Plus(first, Totals(order[1..] + [x], a, b));
      assert Totals(order, a, b) == Plus(first, Totals(order[1..], a, b));
      TotalsAppend(order[1..], x, a, b);
    }
  }

  /** Dropping the first visited setting keeps the profiles describable. */
  lemma ReadyTail(order: seq<Key>, x: Key, a: Profile, b: Profile)
    requires order != [] && Ready(order, a, b) && Ready(order + [x], a, b)
    ensures Ready(order[1..], a, b) && Ready(order[1..] + [x], a, b)
  {
    forall k | k in order[1..]
      ensures k in order
    {
      var i :| 0 <= i < |order[1..]| && order[1..][i] == k;
      assert order[i + 1] == k;
    }
    forall k | k in order[1..] + [x]
      ensures k in order + [x]
    {
      if k != x {
        assert k in order[1..];
      }
    }
  }

  /** The loop body for one setting: list it and fold it into the estimates when the profiles differ on it. */
  method VisitSetting(setting: Key, a: Profile, b: Profile,
                      differences0: seq<Difference>, time0: real, quality0: real, strength0: real)
    returns (differences: seq<Difference>, time: real, quality: real, strength: real)
    requires Differs(a, b, setting) ==> Describable(setting, a[setting], b[setting])
    ensures differences == differences0 + if Differs(a, b, setting) then [DifferenceAt(a, b, setting)] else []
    ensures var e := if Differs(a, b, setting) then EffectOf(setting, a[setting], b[setting]) else NoEffect;
      time == time0 + e.time && quality == quality0 + e.quality && strength == strength0 + e.strength
  {
    differences, time, quality, strength := differences0, time0, quality0, strength0;
    if setting in a && setting in b && !PyEq(a[setting], b[setting]) {
      var v1 := a[setting];
      var v2 := b[setting];
      differences := differences + [Difference(setting, v1, v2, LowerWording(setting, v1, v2), ImpactOf(setting, v1, v2))];
      time, quality, strength := Accumulate(setting, v1, v2, time, quality, strength);
    }
  }

  /** The comparison loop: settings visited in `order`, differences listed, estimates accumulated. */
  method WalkSettings(order: seq<Key>, a: Profile, b: Profile)
    returns (differences: seq<Difference>, time: real, quality: real, strength: real)
    requires Ready(order, a, b)
    ensures differences == Differences(order, a, b)
    ensures Effect(time, quality, strength) == Totals(order, a, b)
  {
    differences := [];
    time, quality, strength := 0.0, 0.0, 0.0;
    for i := 0 to |order|
      invariant Ready(order[..i], a, b)
      invariant differences == Differences(order[..i], a, b)
      invariant Effect(time, quality, strength) == Totals(order[..i], a, b)
    {
      assert order[..i + 1] == order[..i] + [order[i]];
      DifferencesAppend(order[..i], order[i], a, b);
      TotalsAppend(order[..i], order[i], a, b);
      differences, time, quality, strength := VisitSetting(order[i], a, b, differences, time, quality, strength);
    }
    assert order[..|order|] == order;
  }

  /**
   * `compare_process_profiles` on the two profiles the database returned
   * (`None` for an unknown id).  A missing or empty profile gives the
   * error; otherwise the important settings are walked in order, each
   * differing one listed and folded into the three running estimates.
   */
  method CompareProcessProfiles(p1: Option<Profile>, p2: Option<Profile>) returns (c: ProcessComparison)
    requires Present(p1) && Present(p2) ==> Ready(ImportantSettings, p1.value, p2.value)
    ensures c.NotFound? <==> !(Present(p1) && Present(p2))
    ensures c.NotFound? ==> c.found1 == p1.Some? && c.found2 == p2.Some?
    ensures c.Compared? ==>
      var t := Totals(ImportantSettings, p1.value, p2.value);
      c.differences == Differences(ImportantSettings, p1.value, p2.value) &&
      c.printTimeDifference == t.time && c.qualityDifference == t.quality && c.strengthDifference == t.strength &&
      c.summary == SummaryOf(t)
  {
    if !Present(p1) || !Present(p2) {
      return NotFound(p1.Some?, p2.Some?);
    }
    var time, quality, strength;
    var differences;
    differences, time, quality, strength := WalkSettings(ImportantSettings, p1.value, p2.value);
    var e := Effect(time, quality, strength);
    c := Compared(differences, SummaryOf(e), time, quality, strength);
  }

  /** Comparing a stored profile with itself lists nothing and estimates no change. */
  lemma CompareWithItself(p: Profile)
    requires p != map[]
    ensures Ready(ImportantSettings, p, p)
    ensures Differences(ImportantSettings, p, p) == []
    ensures SummaryOf(Totals(ImportantSettings, p, p)) == Summary(0.0, false, None, None)
  {
    NothingDiffersFromItself(ImportantSettings, p);
  }
}
