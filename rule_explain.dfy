/**
 * The rule engine's explanation of one setting: which band of its scale
 * the value falls in and which requirement the choice favours.  The prose
 * around those choices is not modelled; an explanation is the tuple of
 * choices the wording is built from.
 */
module RuleExplain {
  import opened Values
  import opened Inputs

  // ---------------------------------------------------------------------
  // Bands
  // ---------------------------------------------------------------------

  /**
   * The tier of `v` on a scale of upper bounds: the index of the first
   * bound `v` does not exceed, or the number of bounds when it exceeds
   * them all.  Tier 0 is the lowest band.
   */
  function Tier(v: real, bounds: seq<real>): (t: nat)
    ensures t <= |bounds|
    ensures forall i | 0 <= i < t :: v > bounds[i]
    ensures t < |bounds| ==> v <= bounds[t]
  {
    if bounds == [] then 0
    else if v <= bounds[0] then 0
    else 1 + Tier(v, bounds[1..])
  }

  /** A scale whose bounds rise strictly. */
  predicate Ascending(bounds: seq<real>) {
    forall i, j | 0 <= i < j < |bounds| :: bounds[i] < bounds[j]
  }

  /** On a rising scale tier `k` is exactly the interval above bound `k - 1` up to bound `k`. */
  lemma {:induction false} TierInterval(v: real, bounds: seq<real>, k: nat)
    requires Ascending(bounds) && k <= |bounds|
    ensures Tier(v, bounds) == k <==> (k == 0 || v > bounds[k - 1]) && (k == |bounds| || v <= bounds[k])
  {
    var t := Tier(v, bounds);
    if t < k {
      assert v <= bounds[t];
      if k > 0 {
        assert bounds[t] <= bounds[k - 1];
      }
    } else if t > k {
      assert v > bounds[k];
    }
  }

  /** A larger value never falls in a lower tier, whatever the scale. */
  lemma TierMonotone(v1: real, v2: real, bounds: seq<real>)
    requires v1 <= v2
    ensures Tier(v1, bounds) <= Tier(v2, bounds)
  {
    var t2 := Tier(v2, bounds);
    if t2 < |bounds| {
      assert v1 <= bounds[t2];
    }
  }

  /** Layer height: very fine, fine, standard, coarse, very coarse. */
  const LayerBounds: seq<real> := [0.1, 0.16, 0.24, 0.32]
  /** Print speed: very slow, slow, standard, fast, very fast. */
  const SpeedBounds: seq<real> := [30.0, 45.0, 60.0, 80.0]
  /** Infill density: very low, low, medium, high, very high. */
  const InfillBounds: seq<real> := [10.0, 20.0, 30.0, 50.0]
  /** Retraction on a direct drive: very short, short, medium, long. */
  const DirectDriveBounds: seq<real> := [0.5, 1.0, 1.5]
  /** Retraction on a Bowden extruder: very short, short, medium, long. */
  const BowdenBounds: seq<real> := [3.0, 5.0, 7.0]

  /** Every scale of the explanations rises. */
  lemma ScalesAscend()
    ensures Ascending(LayerBounds) && Ascending(SpeedBounds) && Ascending(InfillBounds)
    ensures Ascending(DirectDriveBounds) && Ascending(BowdenBounds)
  {
  }

  /**
   * The wall-count tier: at most one wall is the minimum, then two, three
   * and four walls each a tier of their own, anything else the top tier.
   * The middle tiers test equality, so a fractional count such as 2.5
   * lands in the top tier.
   */
  function WallTier(count: real): (t: nat)
    ensures t <= 4
    ensures t == 0 <==> count <= 1.0
    ensures 0 < t < 4 ==> count == (t + 1) as real
  {
    if count <= 1.0 then 0
    else if count == 2.0 then 1
    else if count == 3.0 then 2
    else if count == 4.0 then 3
    else 4
  }

  /** On a whole number of walls the wall tier is the tier on the scale 1, 2, 3, 4. */
  lemma WallTierOfWholeCount(n: int)
    ensures WallTier(n as real) == Tier(n as real, [1.0, 2.0, 3.0, 4.0])
  {
    var b := [1.0, 2.0, 3.0, 4.0];
    assert b[1..] == [2.0, 3.0, 4.0] && b[1..][1..] == [3.0, 4.0] && b[1..][1..][1..] == [4.0];
  }

  /** A fractional wall count between two and three is explained as the most walls. */
  lemma WallTierOfFraction()
    ensures WallTier(2.5) == 4 && WallTier(2.0) == 1 && WallTier(3.0) == 2
  {
  }

  // ---------------------------------------------------------------------
  // Reasons
  // ---------------------------------------------------------------------

  /** Which of two competing requirements a choice favours. */
  datatype Priority = FavoursFirst | FavoursSecond | Balanced

  /** The first importance wins when it is larger, the second when it is larger, neither on a tie. */
  function Favour(first: int, second: int): (p: Priority)
    ensures p == FavoursFirst <==> first > second
    ensures p == FavoursSecond <==> second > first
    ensures p == Balanced <==> first == second
  {
    if first > second then FavoursFirst
    else if second > first then FavoursSecond
    else Balanced
  }

  /** Swapping the two requirements swaps the verdict. */
  lemma FavourSwaps(a: int, b: int)
    ensures Favour(a, b) == FavoursFirst <==> Favour(b, a) == FavoursSecond
    ensures Favour(a, b) == Balanced <==> Favour(b, a) == Balanced
  {
  }

  /** Where a print temperature sits against the middle of the material's range. */
  datatype TemperaturePosition = LowerEnd | HigherEnd | MiddleOfRange

  /** The middle of the range is `(min + max) / 2`, a true division. */
  function TemperaturePositionOf(value: real, tempMin: int, tempMax: int): (p: TemperaturePosition)
    ensures p == LowerEnd <==> 2.0 * value < (tempMin + tempMax) as real
    ensures p == HigherEnd <==> 2.0 * value > (tempMin + tempMax) as real
    ensures p == MiddleOfRange <==> 2.0 * value == (tempMin + tempMax) as real
  {
    var mid := (tempMin + tempMax) as real / 2.0;
    if value < mid then LowerEnd
    else if value > mid then HigherEnd
    else MiddleOfRange
  }

  datatype TemperatureReason = ForStrength | ForVisualQuality | ForBalance

  /** A functional part or a strength importance of 4 or more favours strength; a visual one detail. */
  function TemperatureReasonOf(req: Requirements): (r: TemperatureReason)
    ensures r == ForStrength <==> req.Purpose() == "functional" || req.Strength() >= 4
    ensures r == ForVisualQuality <==> req.Purpose() == "visual" && req.Strength() < 4
  {
    if req.Purpose() == "functional" || req.Strength() >= 4 then ForStrength
    else if req.Purpose() == "visual" then ForVisualQuality
    else ForBalance
  }

  /** The remark added for a material whose retraction needs care. */
  datatype RetractionRemark = PetgNeedsMore | TpuNeedsLess | NoRemark

  function RetractionRemarkOf(materialType: string): (m: RetractionRemark)
    ensures m == PetgNeedsMore <==> materialType == "PETG"
    ensures m == TpuNeedsLess <==> materialType == "TPU"
  {
    if materialType == "PETG" then PetgNeedsMore
    else if materialType == "TPU" then TpuNeedsLess
    else NoRemark
  }

  // ---------------------------------------------------------------------
  // Explanations
  // ---------------------------------------------------------------------

  datatype RuleExplanation =
    | LayerExplanation(tier: nat, priority: Priority)
    | TemperatureExplanation(position: TemperaturePosition, reason: TemperatureReason)
    | SpeedExplanation(tier: nat, priority: Priority)
    | InfillExplanation(tier: nat, priority: Priority)
    | WallExplanation(tier: nat, priority: Priority)
    | RetractionExplanation(directDrive: bool, tier: nat, remark: RetractionRemark)
    | GenericExplanation

  /** The settings with an explanation of their own. */
  predicate Explained(k: Key) {
    k == LayerHeight || k == MaterialPrintTemperature || k == PrintSpeed ||
    k == InfillDensity || k == WallLineCount || k == RetractionDistance
  }

  /**
   * `get_explanation`: layer height and print speed weigh quality against
   * speed, infill and walls strength against material usage, the
   * temperature is placed in the material's range, the retraction on the
   * extruder's scale; any other setting gets the generic sentence.  The
   * compared values must be numbers, as Python's comparisons demand.
   */
  function GetExplanation(name: Key, value: Value, printer: PrinterInfo, material: MaterialInfo, req: Requirements)
    : (e: RuleExplanation)
    requires Explained(name) ==> IsNum(value)
    ensures e.GenericExplanation? <==> !Explained(name)
    ensures name == LayerHeight ==> e.LayerExplanation? && e.priority == Favour(req.Quality(), req.Speed())
    ensures name == PrintSpeed ==> e.SpeedExplanation? && e.priority == Favour(req.Speed(), req.Quality())
    ensures name == InfillDensity ==> e.InfillExplanation? && e.priority == Favour(req.Strength(), req.MaterialUsage())
    ensures name == WallLineCount ==> e.WallExplanation? && e.priority == Favour(req.Strength(), req.MaterialUsage())
    ensures name == RetractionDistance ==> e.RetractionExplanation? && e.directDrive == printer.directDrive
  {
    if name == LayerHeight then
      LayerExplanation(Tier(Num(value), LayerBounds), Favour(req.Quality(), req.Speed()))
    else if name == MaterialPrintTemperature then
      TemperatureExplanation(TemperaturePositionOf(Num(value), material.tempMin, material.tempMax), TemperatureReasonOf(req))
    else if name == PrintSpeed then
      SpeedExplanation(Tier(Num(value), SpeedBounds), Favour(req.Speed(), req.Quality()))
    else if name == InfillDensity then
      InfillExplanation(Tier(Num(value), InfillBounds), Favour(req.Strength(), req.MaterialUsage()))
    else if name == WallLineCount then
      WallExplanation(WallTier(Num(value)), Favour(req.Strength(), req.MaterialUsage()))
    else if name == RetractionDistance then
      var bounds := if printer.directDrive then DirectDriveBounds else BowdenBounds;
      RetractionExplanation(printer.directDrive, Tier(Num(value), bounds), RetractionRemarkOf(material.materialType))
    else GenericExplanation
  }

  /**
   * The same retraction distance reads at least as long on a direct drive
   * as on a Bowden extruder: every Bowden bound is at or above the direct
   * drive bound of the same tier.
   */
  lemma RetractionTiersByExtruder(v: real)
    ensures Tier(v, BowdenBounds) <= Tier(v, DirectDriveBounds)
  {
    var t := Tier(v, DirectDriveBounds);
    if t < 3 {
      assert v <= DirectDriveBounds[t] <= BowdenBounds[t];
    }
  }

  /** The default requirements explain a layer height as balanced between quality and speed. */
  lemma DefaultRequirementsBalance(v: Value)
    requires IsNum(v)
    ensures GetExplanation(LayerHeight, v, PrinterInfo("", "", true), MaterialInfo("PLA", 190, 220, 50, 60, 0, 100), NoRequirements).priority == Balanced
  {
  }
}
