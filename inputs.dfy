/**
 * The descriptors every generator receives: the printer, the filament
 * and the user's print requirements.  Only the fields the settings logic
 * reads are kept.
 */
module Inputs {
  import opened Values

  /** A printer: its model name, kinematics and extruder arrangement. */
  datatype PrinterInfo = PrinterInfo(model: string, printerType: string, directDrive: bool)

  /** A filament with its nozzle, bed and fan ranges. */
  datatype MaterialInfo = MaterialInfo(
    materialType: string,
    tempMin: int, tempMax: int,
    bedMin: int, bedMax: int,
    coolingMin: int, coolingMax: int)

  /**
   * The user's print requirements.  An absent importance reads as 3 and an
   * absent purpose as "visual".
   */
  datatype Requirements = Requirements(
    strength: Option<int>,
    quality: Option<int>,
    speed: Option<int>,
    materialUsage: Option<int>,
    accuracy: Option<int>,
    purpose: Option<string>)
  {
    function Importance(o: Option<int>): (n: int)
      ensures o.None? ==> n == 3
      ensures o.Some? ==> n == o.value
    {
      if o.Some? then o.value else 3
    }

    function Strength(): int { Importance(strength) }
    function Quality(): int { Importance(quality) }
    function Speed(): int { Importance(speed) }
    function MaterialUsage(): int { Importance(materialUsage) }
    function Accuracy(): int { Importance(accuracy) }

    function Purpose(): (p: string)
      ensures purpose.None? ==> p == "visual"
    {
      if purpose.Some? then purpose.value else "visual"
    }
  }

  /** Every requirement left at its default. */
  const NoRequirements := Requirements(None, None, None, None, None, None)
}
