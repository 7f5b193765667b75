# Orca Slicer settings derivation, modelled in Dafny

This project models the settings-derivation engine of the Orca Slicer Settings and Profiles Generator. A profile is a dictionary from setting names to scalar values: floats, integers, booleans and strings. The engine builds one for a printer, a material, a nozzle size and a vector of print requirements. It then explains or compares profiles. The model covers these parts:

- **The AI engine** (`src/ai/orca_ai.py`).
  - Profile generation runs in stages: seeded defaults, requirement-driven adjustments, material/extruder/kinematics/purpose clamps, a consistency pass, and a choice of explanation bands.
  - It also gives single-setting recommendations with their alternatives.
  - It explains a setting by its band.
  - Three weighted estimators compare two profiles (modules `OrcaAI`, `OrcaAIProperties`, `OrcaAdvice`, `OrcaCompare`).
- **The rule engine** (`src/ai/rule_engine.py`).
  - A table-driven pipeline of seven stages in fixed order: material, nozzle, printer, purpose, quality, speed, strength.
  - A dependency pass follows the stages.
  - It has its own explanation tiers (modules `RuleEngine`, `RuleExplain`).
- **The Klipper firmware overlay** (`src/ai/klipper_integration.py`).
  - Lookup of the printer model's configuration.
  - Choice of pressure advance.
  - Input shaper settings, and an acceleration cap banded by the lower resonance frequency.
  - Speed floors and start G-code selection.
  - The `[section]` configuration snippet and the explanation bands (module `Klipper`).
- **The settings registry** (`src/ai/settings_metadata.py`).
  - A class whose setting table and dependency lists are updated in place.
  - Its queries.
  - The default dependency graph and its acyclicity (module `Metadata`).
- **The AI manager** (`src/ai/__init__.py`).
  - Profile generation with the optional firmware overlay.
  - Recommendation and explanation overrides for firmware-prefixed settings.
  - Registration of the firmware settings (module `AIManager`).
- **The profile generator's comparison and format conversion** (`src/profiles/profile_generator.py`).
  - The whitelist comparison of two stored process profiles.
  - Material temperature ranges.
  - Printer and material conversion to and from the Orca format, including the bed-shape text and Klipper detection (modules `ProfileCompare`, `ProfileConvert`).

`Values` holds the value model, with Python's arithmetic, comparison and rounding on it (`round` is half-to-even). `Inputs` holds the printer, material and requirement descriptors. These descriptors are parameters: in the source they are hard-coded stand-ins for database lookups.

Behaviour of the code worth knowing before reading the contracts:

- **Bucket mapping.** Importance 1 selects the same bucket as importance 2, because `<= 2` is tested before `<= 1`. The lowest quality, speed and strength buckets are never chosen (`RuleEngine.LevelOf`).
- **Which rules run.** Profile generation runs the AI engine's own `_apply_rules`. The rule engine is not on the generation path.
- **Consistency pass.** The AI engine runs its consistency pass once, before the explanations. No pass runs after the firmware overlay.
- **When the overlay runs.** The AI manager applies the firmware overlay when its caller passes `use_klipper`.
- **What the overlay sets.** From the printer's input-shaper configuration the overlay copies the frequencies and shaper types only. It sets no damping.
- **Explanation override.** The explanation override for a single `input_shaper_*` name never applies, because a one-setting dictionary cannot hold both frequencies (`AIManager`, `Klipper.OneKeyNeverExplainsShaper`).
- **Keys.** Settings are keyed by name. A key outside the named settings is `Other(name)`, and the per-setting entry points of the AI manager and the engine's `OrcaAdvice.RecommendSetting` require it to be well keyed: its name is no named setting's (`Values.WellKeyed`). A model key then stands for exactly one Python dictionary key.

## Model

| member | source | states |
|---|---|---|
| Values.Mul | src/ai/orca_ai.py:371 | the product, an integer only when both factors are integers |
| Values.Scale | src/ai/orca_ai.py:459 | multiplying by a float literal always gives the float product |
| Values.AddInt | src/ai/orca_ai.py:791-797 | adding an integer literal keeps the kind of number and adds its value |
| Values.Div | src/ai/orca_ai.py:461-463 | true division always gives a float |
| Values.PyMin | src/ai/orca_ai.py:553-577 | `min` of two numbers is one of them and no larger than either |
| Values.PyMax | src/ai/orca_ai.py:561-576 | `max` of two numbers is one of them and no smaller than either |
| Values.RoundHalfEven | src/ai/orca_ai.py:461-463 | `round` gives an integer at most one half away, and the even one on a tie |
| Values.RoundOfInteger | src/ai/orca_ai.py:461-463 | `round` of a whole number is that number |
| Values.MulValue | src/ai/orca_ai.py:371 | the product of two numbers stands for the product of their values |
| Values.LayerCountOfThickness | src/ai/orca_ai.py:459-463 | a thickness of `c` layers divided by the layer height rounds back to `c` |
| Values.ThicknessOverHeight | src/ai/orca_ai.py:461-463 | `lh * c / lh` is the float `c` for any non-zero layer height |
| Values.Round2 | src/ai/orca_ai.py:371-372 | `round(x, 2)` is within half a hundredth of `x` and has at most two decimals |
| Values.RoundV | src/ai/orca_ai.py:461-463 | `round` of a number is always an integer within one half of it |
| Values.Round2V | src/ai/orca_ai.py:453-459 | `round(v, 2)` is within half a hundredth of `v`, and gives an integer argument back unchanged |
| Values.Lower | src/ai/klipper_integration.py:385 | `lower()` keeps the length and lowers each character |
| Values.LowerOfLowercase | src/ai/klipper_integration.py:477 | a name without capital letters is its own lower-case form |
| Values.ContainsPart | src/profiles/profile_generator.py:762-764 | a text containing a longer string contains every part of it |
| Values.OnlyWritesTrans | src/ai/orca_ai.py:253-321 | two steps that write only named settings together write only the union of those settings |
| Values.OnlyWritesKeeps | src/ai/orca_ai.py:253-321 | a setting a step does not write keeps its value |
| Values.NamedKeyReserved | src/ai/__init__.py:155-167 | the name of every named setting is among the reserved names |
| Values.OtherNameUnique | src/ai/__init__.py:155-167 | a well-keyed `Other` key shares its name with no other key, so looking it up is looking its name up |
| Values.OnlyWritesWellKeyed | src/ai/klipper_integration.py:459-547 | a step that writes only named settings keeps every key of the profile well keyed |
| Inputs.Importance | src/ai/orca_ai.py:443-447 | a missing importance counts as 3, a given one as itself |
| Inputs.Purpose | src/ai/orca_ai.py:448 | a missing purpose counts as `visual` |
| OrcaAI.LayerCount | src/ai/orca_ai.py:460-463 | a thickness of `c` layers divided by a non-zero layer height rounds back to `c`, so the recomputed layer counts stay 6 and 5 |
| OrcaAI.DefaultSettings | src/ai/orca_ai.py:360-428 | layers at 40% and lines at 110% of the nozzle to two decimals, a first layer 1.5 times the layer, three walls, six top and five bottom layers whose thicknesses agree with the counts, the floored midpoints of the nozzle and bed ranges (inside the ranges), the filament's fan range, 0.8 mm or 5 mm retraction by extruder, no Z hop, supports off, skirt adhesion |
| OrcaAI.NewLayerHeight | src/ai/orca_ai.py:450-456 | quality over speed gives `round(max(0.25 * nozzle, 0.08), 2)`, speed over quality `round(min(0.75 * nozzle, 0.3), 2)`, a tie keeps the current height |
| OrcaAI.RecLayers | src/ai/orca_ai.py:450-463 | the layer block sets the new layer height, the first layer to `round(1.5 * h, 2)`, six top and five bottom layers with matching thicknesses, and changes nothing else |
| OrcaAI.WallCount | src/ai/orca_ai.py:465-469 | strength over material usage gives four walls, the reverse two, a tie keeps the count |
| OrcaAI.RecWalls | src/ai/orca_ai.py:465-471 | the wall block sets the wall count and the wall thickness as line width times count, and changes nothing else |
| OrcaAI.InfillChoice | src/ai/orca_ai.py:473-482 | strength 5 gives 40% cubic, strength 4 gives 30% gyroid, otherwise material usage 5 gives 10% gyroid, otherwise no change |
| OrcaAI.RecInfill | src/ai/orca_ai.py:473-482 | the infill block writes only the infill section, with the chosen infill |
| OrcaAI.RecSpeeds | src/ai/orca_ai.py:484-494 | speed importance 5 gives 70/100/35/70 mm/s, otherwise quality importance 5 gives 40/60/20/40 mm/s, otherwise no change; the travel speed is never touched |
| OrcaAI.RecTemperature | src/ai/orca_ai.py:496-508 | a functional part raises the temperature by 10 but not above the range maximum minus 5; a visual one lowers it by 5 but not below the minimum plus 5; nothing else changes |
| OrcaAI.PurposeCooling | src/ai/orca_ai.py:510-515 | PLA miniatures get full fan for all layers, functional PLA parts 80%, everything else keeps its cooling |
| OrcaAI.PurposeSupport | src/ai/orca_ai.py:517-523 | miniatures get supports at 60 degrees, functional parts at 45 degrees, others keep theirs |
| OrcaAI.PurposeAdhesion | src/ai/orca_ai.py:525-531 | large prints get a 10 mm brim, miniatures a 4 mm brim, others keep theirs |
| OrcaAI.ExperimentalFeatures | src/ai/orca_ai.py:533-538 | ironing is switched on for visual parts with quality importance 5, adaptive layers for accuracy importance 5; neither is switched off |
| OrcaAI.RecPurposeFeatures | src/ai/orca_ai.py:510-538 | the purpose blocks set cooling, support, adhesion and experimental sections as above and nothing else |
| OrcaAI.AdjustLayers | src/ai/orca_ai.py:450-463 | the in-place updates of the layer block compute its specification |
| OrcaAI.AdjustWalls | src/ai/orca_ai.py:465-471 | the in-place updates of the wall block compute its specification |
| OrcaAI.AdjustInfill | src/ai/orca_ai.py:473-482 | the in-place updates of the infill block compute its specification |
| OrcaAI.AdjustSpeeds | src/ai/orca_ai.py:484-494 | the in-place updates of the speed block compute its specification |
| OrcaAI.AdjustTemperature | src/ai/orca_ai.py:496-508 | the in-place updates of the temperature block compute its specification |
| OrcaAI.AdjustPurposeFeatures | src/ai/orca_ai.py:510-538 | the in-place updates of the purpose blocks compute their specification |
| OrcaAI.ApplyAiRecommendations | src/ai/orca_ai.py:430-540 | the recommendation stage is the six blocks in source order |
| OrcaAI.MaterialAdjusted | src/ai/orca_ai.py:550-566 | PETG gets 1.2 times the retraction capped at 8 mm and fan and print speed capped at 60; ABS fan capped at 30, no first-layer fan, a brim of at least 8 mm; TPU no retraction, print speed capped at 30 and outer wall at 15; other filaments unchanged |
| OrcaAI.PrinterAdjusted | src/ai/orca_ai.py:568-577 | a Bowden extruder retracts at least 5 mm at most at 45 mm/s; a delta travels at least at 200 mm/s with a first layer of at most 0.3 mm; nothing else changes |
| OrcaAI.PurposeAdjusted | src/ai/orca_ai.py:579-589 | miniatures get a 90% minimum wall flow and a 0.2 mm Z hop; large prints cubic infill above 15% density and grid otherwise, with the seam at the sharpest corner; others unchanged |
| OrcaAI.Ruled | src/ai/orca_ai.py:542-591 | the rule stage never changes the layer height or the line width |
| OrcaAI.ApplyMaterialRules | src/ai/orca_ai.py:550-566 | the in-place updates compute the material rules |
| OrcaAI.ApplyPrinterRules | src/ai/orca_ai.py:568-577 | the in-place updates compute the extruder and kinematics rules |
| OrcaAI.ApplyPurposeRules | src/ai/orca_ai.py:579-589 | the in-place updates compute the purpose rules |
| OrcaAI.ApplyRules | src/ai/orca_ai.py:542-591 | `_apply_rules` is the three rule groups in order |
| OrcaAI.Constraints | src/ai/orca_ai.py:593-619 | the consistency pass returns a consistent profile (walls, layer counts, support, adhesion and Z hop agree) and writes only the seven settings it re-derives |
| OrcaAI.ApplyConstraints | src/ai/orca_ai.py:593-619 | the in-place updates compute the consistency pass |
| OrcaAI.ConstraintsFixpoint | src/ai/orca_ai.py:593-619 | a consistent profile passes the consistency pass unchanged |
| OrcaAI.ConstraintsIdempotent | src/ai/orca_ai.py:593-619 | running the consistency pass twice is the same as once |
| OrcaAI.Generated | src/ai/orca_ai.py:292-307 | the generated profile is consistent and its layer height is the default one re-weighed by the requirements |
| OrcaAI.RecommendedKeepsLayer | src/ai/orca_ai.py:450-538 | the recommendation stage's layer height is the re-weighed one and the line width is kept |
| OrcaAI.LayerNoteOf | src/ai/orca_ai.py:635-636 | layers under 0.16 mm read finer, above 0.2 mm thicker |
| OrcaAI.InfillNoteOf | src/ai/orca_ai.py:647-651 | above 30% maximises strength, 15 to 30% balances, under 15% minimises material |
| OrcaAI.AdhesionNoteOf | src/ai/orca_ai.py:683-688 | skirt, brim and raft each get their own note, any other type none |
| OrcaAI.Explain | src/ai/orca_ai.py:621-690 | each explanation band is chosen by exactly the comparison the source's sentence tests |
| OrcaAI.SpeedNotesCover | src/ai/orca_ai.py:663-667 | every print speed gets at least one speed remark; 45 to 49 mm/s gets two, and the faster remark never comes with another |
| OrcaAI.MidpointReadsLower | src/ai/orca_ai.py:655-657 | the default temperature, the floored midpoint of the range, never reads as the higher end |
| OrcaAI.GenerateProfile | src/ai/orca_ai.py:253-321 | `generate_profile` returns the generated settings and their explanations |
| OrcaAI.Get | src/ai/orca_ai.py:374-428 | a setting outside the profile's keys has no value |
| OrcaAI.GetDefined | src/ai/orca_ai.py:374-428 | a profile holds every default key, each optional key exactly when a purpose rule set it, and nothing else |
| OrcaAIProperties.LayerHeightByImportance | src/ai/orca_ai.py:450-456 | the generated layer height is the fine one when quality outweighs speed, the coarse one when speed outweighs quality, and 40% of the nozzle on a tie |
| OrcaAIProperties.FineLayersForQuality | src/ai/orca_ai.py:450-453 | on a 0.4 mm nozzle with quality over speed the generated layer height is 0.1 mm |
| OrcaAIProperties.RecommendedShellInfill | src/ai/orca_ai.py:465-508 | after the recommendation stage the wall count, the infill density and the temperature are those of their blocks |
| OrcaAIProperties.RuledKeepsShellInfill | src/ai/orca_ai.py:542-591 | the rule stage keeps the wall count, the infill density and the filament temperatures |
| OrcaAIProperties.GeneratedShellAndInfill | src/ai/orca_ai.py:253-321 | the generated wall count is the weighed one against three walls, and the infill density the chosen one or the default 20% |
| OrcaAIProperties.StrengthMonotone | src/ai/orca_ai.py:465-482 | raising only the strength importance never lowers the wall count or the infill density of the generated profile |
| OrcaAIProperties.TemperatureByPurpose | src/ai/orca_ai.py:496-508 | functional parts print at most 5 degrees below the range maximum, visual ones at least 5 above the minimum, others at the floored midpoint |
| OrcaAIProperties.GeneratedIsConstrainedRules | src/ai/orca_ai.py:296-307 | the generated profile is the consistency pass applied to the ruled profile, whose layer height is not zero |
| OrcaAIProperties.PetgClamps | src/ai/orca_ai.py:551-555 | a generated PETG profile retracts at most 8 mm with fan and print speed at most 60 |
| OrcaAIProperties.AbsClamps | src/ai/orca_ai.py:556-610 | a generated ABS profile has fan at most 30, no first-layer fan, and a brim of at least 8 mm with no skirt lines |
| OrcaAIProperties.TpuNoRetraction | src/ai/orca_ai.py:562-617 | a generated TPU profile has no retraction and therefore no Z hop, even where the miniature rule had switched Z hop on, with print speed at most 30 and outer wall at most 15 |
| OrcaAIProperties.BowdenRetraction | src/ai/orca_ai.py:569-572 | a generated Bowden profile retracts at least 5 mm at most at 45 mm/s |
| OrcaAIProperties.DeltaKinematics | src/ai/orca_ai.py:574-577 | a generated delta profile travels at least at 200 mm/s with a first layer of at most 0.3 mm |
| OrcaAdvice.PatternIndex | src/ai/orca_ai.py:803-804 | the index of a listed pattern, or 0 for any other value |
| OrcaAdvice.PatternsDistinct | src/ai/orca_ai.py:802 | the five infill patterns the alternatives cycle through are pairwise different |
| OrcaAdvice.CyclePatterns | src/ai/orca_ai.py:807-827 | the loop yields the two patterns after the current one, cyclically |
| OrcaAdvice.Optional | src/ai/orca_ai.py:775-785 | an alternative is offered exactly when its guard holds |
| OrcaAdvice.GenerateAlternatives | src/ai/orca_ai.py:761-855 | the method computes the alternatives of the setting |
| OrcaAdvice.NumericAlternativesCount | src/ai/orca_ai.py:773-853 | layer height, infill density and print speed always get one or two alternatives |
| OrcaAdvice.LayerAlternativesOrdered | src/ai/orca_ai.py:773-785 | the first layer alternative is finer than the value and the last coarser, where they are offered |
| OrcaAdvice.TemperatureAlternatives | src/ai/orca_ai.py:829-839 | the temperature gets exactly 5 degrees below and above, of the value's own type |
| OrcaAdvice.InfillAlternativesBounded | src/ai/orca_ai.py:787-799 | the lower infill alternative is at least 5% and the higher at most 80% |
| OrcaAdvice.PatternAlternatives | src/ai/orca_ai.py:801-827 | the two pattern alternatives are distinct listed patterns different from the current one; an unlisted pattern gets triangles and cubic |
| OrcaAdvice.OtherAlternatives | src/ai/orca_ai.py:771-855 | every other setting gets no alternatives |
| OrcaAdvice.NumericSettings | src/ai/orca_ai.py:374-428 | the settings whose alternatives compare numbers are always numbers in a generated profile |
| OrcaAdvice.RecommendSetting | src/ai/orca_ai.py:692-759 | an absent setting gets no value, confidence 0 and no alternatives; a present one its generated value, confidence 0.85, the profile's explanation where there is one, and its alternatives |
| OrcaAdvice.LayerBand | src/ai/orca_ai.py:901-903 | at most 0.1 mm is very fine, up to 0.2 mm standard, above that coarse |
| OrcaAdvice.SpeedBand | src/ai/orca_ai.py:927-929 | under 40 mm/s slow, 40 to 60 balanced, above 60 fast |
| OrcaAdvice.InfillBand | src/ai/orca_ai.py:953-956 | at most 10% very low, up to 25% standard, up to 50% high, above very high |
| OrcaAdvice.ExplainSetting | src/ai/orca_ai.py:857-982 | a setting without metadata gets the unknown explanation; layer height, print speed and infill density their band and related settings; any other the generic one |
| OrcaAdvice.BandsMonotone | src/ai/orca_ai.py:898-956 | a larger value never falls in a lower band |
| OrcaAdvice.RelatedSettingsDistinct | src/ai/orca_ai.py:916-975 | the related settings are distinct and never include the setting itself |
| OrcaCompare.Term | src/ai/orca_ai.py:1136-1138 | a weighted term counts only when both profiles hold the setting |
| OrcaCompare.EstimatePrintTimeDifference | src/ai/orca_ai.py:1120-1155 | the accumulation computes the print time estimate: thicker layers and faster printing count against time with weights 0.4 and 0.3, more infill and walls for it with 0.15 and 0.1 |
| OrcaCompare.EstimateQualityDifference | src/ai/orca_ai.py:1157-1191 | the accumulation computes the quality estimate: thinner layers, slower print and outer-wall speeds and more walls improve it with weights 0.5, 0.2, 0.15 and 0.1 |
| OrcaCompare.EstimateStrengthDifference | src/ai/orca_ai.py:1193-1227 | the accumulation computes the strength estimate: more infill, walls, layer height and temperature with weights 0.4, 0.3, 0.1 and 0.1 |
| OrcaCompare.SelfChange | src/ai/orca_ai.py:1137 | a setting compared with itself changes by 0% |
| OrcaCompare.IdenticalProfilesNoDifference | src/ai/orca_ai.py:1120-1227 | a profile compared with itself differs by nothing in all three estimates |
| OrcaCompare.NoteOf | src/ai/orca_ai.py:1072-1095 | the four explained settings say lower exactly when the second value is smaller, and higher otherwise; any other setting just changed |
| OrcaCompare.ImpactOf | src/ai/orca_ai.py:1097-1118 | layer height, print speed and infill get an impact that reports a rise exactly when the relative change `(v2 - v1) / v1 * 100` is positive, quoting 0.8, 0.7 and 0.5 times its magnitude respectively; every other setting depends on the requirements |
| OrcaCompare.SignOfQuotient | src/ai/orca_ai.py:1100-1101 | the relative change is positive exactly when both values have the same sign and the second is beyond the first |
| OrcaCompare.DifferencesExact | src/ai/orca_ai.py:1036-1047 | every reported difference is a key of the first profile held by both with unequal values, carried with both values; every such key is reported |
| OrcaCompare.DifferencesDistinct | src/ai/orca_ai.py:1036-1047 | visiting each key once reports each difference at most once |
| OrcaCompare.NoDifferencesWithItself | src/ai/orca_ai.py:1036-1047 | a profile compared with itself has no differences |
| OrcaCompare.Abs | src/ai/orca_ai.py:1056-1060 | the absolute value of the estimate |
| OrcaCompare.SummaryOf | src/ai/orca_ai.py:1055-1062 | the summary says faster exactly for a negative time estimate, better and stronger exactly for positive estimates, quoting their magnitudes |
| OrcaCompare.CollectDifferences | src/ai/orca_ai.py:1035-1047 | the loop over the first profile's keys computes the list of differences |
| OrcaCompare.CompareProfiles | src/ai/orca_ai.py:984-1070 | `compare_profiles` visits every key of the first profile once, reports exactly the keys both profiles hold with unequal values, each once and with both values, and returns the three estimates and the summary drawn from them |
| OrcaCompare.DemonstrationEstimates | src/ai/orca_ai.py:1016-1032 | the two profiles built for the comparison (0.16 mm at 50 mm/s with 20% infill against 0.2 mm at 70 mm/s with 15%) differ by -25.75% in time, -110/7% in quality and -7.5% in strength: faster, lower and weaker |
| RuleEngine.LevelOf | src/ai/rule_engine.py:561-572 | an importance of 5 or more selects the top level, 4 the upper, 3 the middle, 2 or less the lower; the bottom level (`ultra_draft`, `ultra_slow`, `ultra_light`) is never selected because the `<= 2` test precedes `<= 1` |
| RuleEngine.Distance | src/ai/rule_engine.py:498 | the distance is `abs(x - y)`: non-negative and one of the two differences |
| RuleEngine.Nearest | src/ai/rule_engine.py:497-499 | the chosen size is at least as near to the nozzle as every size of the table, and every earlier size is strictly farther (Python's `min` keeps the first of equals) |
| RuleEngine.NozzleRuleFor | src/ai/rule_engine.py:493-501 | the nozzle rule used is an entry of the nozzle table and no entry has a size nearer to the nozzle |
| RuleEngine.ExactNozzle | src/ai/rule_engine.py:493-496 | a nozzle size listed in the table selects its own entry |
| RuleEngine.NozzleTies | src/ai/rule_engine.py:195-238 | a nozzle half-way between two listed sizes takes the earlier entry: 0.25 mm takes the 0.2 mm rule and 0.7 mm the 0.6 mm rule |
| RuleEngine.MaterialStage | src/ai/rule_engine.py:449-454 | a material type without rules leaves the settings as they were; the print speed is never touched |
| RuleEngine.MaterialStageSets | src/ai/rule_engine.py:456-482 | for a listed material exactly the eight material settings are written: the optimal nozzle and bed temperatures, cooling on with the optimal fan speed, the minimum fan speed as the initial one, retraction on with the distance and speed of the extruder kind |
| RuleEngine.NozzleStage | src/ai/rule_engine.py:505-509 | layer height and line width become those of the nearest nozzle rule; the print speed is kept |
| RuleEngine.NozzleStageFrame | src/ai/rule_engine.py:505-509 | the nozzle stage writes only the layer height and the line width |
| RuleEngine.PrinterStage | src/ai/rule_engine.py:519-523 | an unlisted printer type leaves the settings as they were; print speed, layer height and line width are kept |
| RuleEngine.PrinterStageSets | src/ai/rule_engine.py:525-532 | a listed printer type sets the travel speed to its maximum speed; a delta printer also sets Z hop on at 0.2 mm; any other type writes only the travel speed |
| RuleEngine.WithEntriesCopies | src/ai/rule_engine.py:549-550 | copying entries with distinct keys writes exactly those keys, each with its entry's value |
| RuleEngine.WithEntriesKeeps | src/ai/rule_engine.py:549-550 | a key no entry names keeps its value, or stays absent |
| RuleEngine.PurposeRulesShape | src/ai/rule_engine.py:239-273 | every purpose rule names each setting once, and only settings outside the drivers of the later stages |
| RuleEngine.PurposeStage | src/ai/rule_engine.py:542-546 | an unlisted purpose leaves the settings as they were; print speed, layer height and line width are kept |
| RuleEngine.PurposeStageCopies | src/ai/rule_engine.py:548-550 | a listed purpose copies each of its settings with its value and writes nothing else |
| RuleEngine.QualityStage | src/ai/rule_engine.py:578-592 | when a layer height is present it becomes `round(max_layer_height * factor, 2)` for the nearest nozzle rule and the quality level; the line width is kept |
| RuleEngine.QualitySpeeds | src/ai/rule_engine.py:594-602 | with a print speed, it is scaled by the level's factor and rounded, and the outer wall speed is derived from the new print speed; without one nothing changes |
| RuleEngine.QualityStageFrame | src/ai/rule_engine.py:578-605 | the quality stage writes only layer height, print speed, outer wall speed and ironing; without a print speed only layer height and ironing |
| RuleEngine.QualityStageSets | src/ai/rule_engine.py:594-605 | ironing is set to the level's flag, and with a print speed the two speeds are those of the level's factors |
| RuleEngine.SpeedStage | src/ai/rule_engine.py:628-644 | print speed is the level's, and the outer wall, inner wall, infill and travel speeds are it times the level's factors, rounded half to even; layer height and line width are kept |
| RuleEngine.SpeedStageFrame | src/ai/rule_engine.py:632-644 | the speed stage writes only the five speeds |
| RuleEngine.LayerCountsOfLevels | src/ai/rule_engine.py:343-379 | the reachable strength levels give 6/4, 5/4, 4/3 and 3/2 top/bottom layers from the bases 4 and 3 |
| RuleEngine.StrengthStage | src/ai/rule_engine.py:671-692 | the wall count is the level's; with a layer height, top and bottom thickness are the layer counts times the layer height; layer height, line width and all speeds are kept |
| RuleEngine.StrengthStageSets | src/ai/rule_engine.py:671-692 | the strength stage writes only strength settings: infill density and pattern of the level, and the level's layer counts when a layer height is present; without one only walls and infill |
| RuleEngine.Affect | src/ai/rule_engine.py:706-732 | re-deriving one affected setting keeps the settings the later steps read numeric and the layer height non-zero |
| RuleEngine.AffectAll | src/ai/rule_engine.py:701-732 | the whole dependency loop keeps the same readiness |
| RuleEngine.AffectEachThree | src/ai/rule_engine.py:706 | the affected settings of one driver are processed in list order |
| RuleEngine.AffectLayerStep | src/ai/rule_engine.py:707-716 | one layer step writes only its own setting: the initial layer is `round(1.5 * layer_height, 2)`; top or bottom layers become `round(thickness / layer_height)` when the thickness is present and are otherwise kept |
| RuleEngine.AffectWallStep | src/ai/rule_engine.py:718-720 | the wall thickness becomes wall count times line width when both are present; otherwise nothing changes |
| RuleEngine.AffectSpeedStep | src/ai/rule_engine.py:722-732 | an absent outer wall, inner wall or infill speed is filled in as the print speed times 0.5, 0.8 or 1.2, rounded; a present one is never overwritten |
| RuleEngine.LayerDriver | src/ai/rule_engine.py:381-383 | the layer height driver writes only initial layer height and layer counts, with the values above, and changes nothing without a layer height |
| RuleEngine.WallDriver | src/ai/rule_engine.py:385-391 | the line width and wall count drivers each write only the wall thickness, as wall count times line width |
| RuleEngine.SpeedDriver | src/ai/rule_engine.py:393-395 | the print speed driver only adds the missing speeds, from fixed factors 0.5, 0.8 and 1.2 |
| RuleEngine.TemperatureDriver | src/ai/rule_engine.py:397-399 | the temperature driver's one affected setting, `cooling`, matches no branch, so it changes nothing |
| RuleEngine.DependencyChain | src/ai/rule_engine.py:701 | the loop is the first four drivers in table order |
| RuleEngine.DependenciesFrame | src/ai/rule_engine.py:701-732 | the loop writes only derived settings and keeps every driver |
| RuleEngine.DependenciesLayers | src/ai/rule_engine.py:707-716 | after the loop the initial layer height and the layer counts are those of the layer height and thicknesses it found |
| RuleEngine.DependenciesWalls | src/ai/rule_engine.py:718-720 | after the loop the wall thickness is wall count times line width, or kept when one is missing |
| RuleEngine.DependenciesSpeeds | src/ai/rule_engine.py:722-732 | after the loop the print speed and every present speed are kept and every missing one is filled in |
| RuleEngine.DependenciesKeep | src/ai/rule_engine.py:701-732 | a setting that is not derived passes the loop unchanged |
| RuleEngine.AdhesionAndSupportSets | src/ai/rule_engine.py:734-746 | skirt zeroes the brim width, brim the skirt lines, raft both; a falsy support flag sets the support type to none; nothing else is written |
| RuleEngine.AdhesionAndSupportKeeps | src/ai/rule_engine.py:734-746 | every setting other than brim width, skirt lines and support type is kept |
| RuleEngine.ApplyMaterialRules | src/ai/rule_engine.py:442-484 | the method computes the material stage |
| RuleEngine.ApplyNozzleRules | src/ai/rule_engine.py:486-511 | the method computes the nozzle stage from the nearest nozzle rule |
| RuleEngine.ApplyPrinterRules | src/ai/rule_engine.py:513-534 | the method computes the printer stage |
| RuleEngine.ApplyPurposeRules | src/ai/rule_engine.py:536-552 | the method's copying loop computes the purpose stage |
| RuleEngine.ApplyQualityRules | src/ai/rule_engine.py:554-607 | the method computes the quality stage |
| RuleEngine.ApplySpeedRules | src/ai/rule_engine.py:609-646 | the method computes the speed stage |
| RuleEngine.ApplyStrengthRules | src/ai/rule_engine.py:648-694 | the method computes the strength stage |
| RuleEngine.AffectSetting | src/ai/rule_engine.py:706-732 | the method computes one affected setting's step |
| RuleEngine.ApplyDriver | src/ai/rule_engine.py:701-732 | the inner loop over one driver's affected settings computes that driver's step |
| RuleEngine.RunDependencyLoop | src/ai/rule_engine.py:698-732 | the outer loop over the dependency table computes the whole loop |
| RuleEngine.ApplyDependencies | src/ai/rule_engine.py:696-748 | the method computes the dependency stage: the loop, then the adhesion and support fixes |
| RuleEngine.QualityLayerHeightPositive | src/ai/rule_engine.py:587-592 | the layer height the quality stage chooses is positive for every level and nozzle, so the dependency loop never divides by zero |
| RuleEngine.Staged | src/ai/rule_engine.py:429-435 | after the seven stages the settings are ready for the dependency loop |
| RuleEngine.LayerCountRoundTrip | src/ai/rule_engine.py:691-692 | a thickness of `c` layers divided by the layer height rounds back to `c` |
| RuleEngine.StagedLayers | src/ai/rule_engine.py:429-435 | after the stages layer height, line width, wall count, layer counts and thicknesses are those of the quality, nozzle and strength levels |
| RuleEngine.StagedSpeeds | src/ai/rule_engine.py:429-435 | after the stages all five speeds are those of the speed level, whatever the quality stage did |
| RuleEngine.DependencyStageKeepsSpeeds | src/ai/rule_engine.py:722-732 | when all five speeds are present the dependency stage keeps them |
| RuleEngine.RuledSpeeds | src/ai/rule_engine.py:404-440 | `apply_rules` returns the five speeds of the speed level |
| RuleEngine.DependencyStageLayers | src/ai/rule_engine.py:707-716 | when the thicknesses are whole layer counts times the layer height, the dependency stage gives back those counts |
| RuleEngine.RuledLayers | src/ai/rule_engine.py:404-440 | `apply_rules` returns the quality layer height, the initial layer derived from it and the strength level's layer counts |
| RuleEngine.DependencyStageWalls | src/ai/rule_engine.py:718-720 | with a wall count and a line width the dependency stage keeps both and sets their product as wall thickness |
| RuleEngine.RuledWalls | src/ai/rule_engine.py:404-440 | `apply_rules` returns the strength level's wall count, the nozzle's line width and their product as wall thickness |
| RuleEngine.LateStagesKeep | src/ai/rule_engine.py:433-435 | the quality, speed and strength stages keep every setting they do not own |
| RuleEngine.StagedPurpose | src/ai/rule_engine.py:432-435 | a purpose setting no later stage owns survives the stages with the purpose's value |
| RuleEngine.RuledLargePrint | src/ai/rule_engine.py:264-273 | a large print comes out with a brim of 8 mm and no skirt lines |
| RuleEngine.DependencyStageAdhesion | src/ai/rule_engine.py:738-739 | a brim keeps its width and zeroes the skirt lines |
| RuleEngine.EarlyStagesKeep | src/ai/rule_engine.py:429-432 | the material, nozzle, printer and purpose stages keep every setting they do not write |
| RuleEngine.RuledKeeps | src/ai/rule_engine.py:404-440 | a caller's setting that no stage writes comes back unchanged |
| RuleEngine.ApplyStages | src/ai/rule_engine.py:429-435 | the method runs the seven stages in order |
| RuleEngine.ApplyRules | src/ai/rule_engine.py:404-440 | `apply_rules` computes the stages followed by the dependency stage |
| RuleExplain.Tier | src/ai/rule_engine.py:798-813 | the tier is the first bound the value does not exceed; the value is above every lower bound |
| RuleExplain.TierInterval | src/ai/rule_engine.py:798-813 | on a rising scale tier `k` holds exactly when the value lies above bound `k-1` and at most bound `k` |
| RuleExplain.TierMonotone | src/ai/rule_engine.py:869-884 | a larger value never falls in a lower tier |
| RuleExplain.ScalesAscend | src/ai/rule_engine.py:907-1008 | the layer, speed, infill and both retraction scales rise |
| RuleExplain.WallTier | src/ai/rule_engine.py:945-960 | at most one wall is the lowest tier; the middle tiers are exactly two, three and four walls |
| RuleExplain.WallTierOfWholeCount | src/ai/rule_engine.py:945-960 | on whole counts the wall tier is the tier on the scale 1, 2, 3, 4 |
| RuleExplain.WallTierOfFraction | src/ai/rule_engine.py:945-960 | a count of 2.5 walls reads as the top tier, because the middle tests are equalities |
| RuleExplain.Favour | src/ai/rule_engine.py:819-824 | the verdict favours the larger importance and is balanced on a tie |
| RuleExplain.FavourSwaps | src/ai/rule_engine.py:890-895 | swapping the two importances swaps the verdict |
| RuleExplain.TemperaturePositionOf | src/ai/rule_engine.py:836-850 | the temperature is below, above or at the middle of the material's range |
| RuleExplain.TemperatureReasonOf | src/ai/rule_engine.py:849-856 | a functional part or strength importance of at least 4 is explained by strength; a visual one, otherwise, by detail |
| RuleExplain.RetractionRemarkOf | src/ai/rule_engine.py:1013-1016 | PETG and exactly PETG gets the longer-retraction remark, TPU the shorter one |
| RuleExplain.GetExplanation | src/ai/rule_engine.py:750-791 | the six explained settings get their own explanation with the requirements they weigh; every other setting the generic one |
| RuleExplain.RetractionTiersByExtruder | src/ai/rule_engine.py:984-1008 | a retraction distance never reads longer on a Bowden extruder than on a direct drive |
| RuleExplain.DefaultRequirementsBalance | src/ai/rule_engine.py:815-824 | with the default importances a layer height reads as balanced |
| Metadata.ImpactOf | src/ai/settings_metadata.py:728 | a setting without an impact level counts as impact 0 |
| Metadata.DependenciesIn | src/ai/settings_metadata.py:733-743 | the dependency list of the setting's entry, or the empty list when the setting drives nothing |
| Metadata.DriverOnce | src/ai/settings_metadata.py:757-759 | one driver is reported once per entry that affects the target, and only that driver |
| Metadata.DriverDependents | src/ai/settings_metadata.py:757-759 | the inner loop computes the driver's reports |
| Metadata.DriverOnceCount | src/ai/settings_metadata.py:757-759 | the driver is reported exactly as often as its entries affect the target, so it is reported exactly when one does |
| Metadata.DependentsMembership | src/ai/settings_metadata.py:745-760 | a setting is among the dependents of the target exactly when one of its dependency entries affects the target |
| Metadata.DefaultEntryDescends | src/ai/settings_metadata.py:575-685 | every entry of the default graph names the setting it affects, which sits deeper than its driver |
| Metadata.DefaultEdgesDescend | src/ai/settings_metadata.py:575-685 | every edge of the default graph leads deeper |
| Metadata.PathDescends | src/ai/settings_metadata.py:575-685 | along any chain of dependencies of the default graph the depth strictly grows |
| Metadata.DefaultGraphAcyclic | src/ai/settings_metadata.py:575-685 | the default dependency graph has no cycle: no chain returns to its start |
| Metadata.DefaultDriversDistinct | src/ai/settings_metadata.py:575-685 | the default graph names each driving setting once, as a dictionary does |
| Metadata.SettingsMetadata.GetSetting | src/ai/settings_metadata.py:687-697 | a known setting's metadata, and none (`{}`) exactly for an unknown one |
| Metadata.SettingsMetadata.GetDependencies | src/ai/settings_metadata.py:733-743 | a setting that drives nothing has no dependencies |
| Metadata.SettingsMetadata.GetSettingsByCategory | src/ai/settings_metadata.py:699-713 | exactly the settings of the category, with their metadata |
| Metadata.SettingsMetadata.GetSettingsByImpact | src/ai/settings_metadata.py:715-731 | exactly the settings whose impact level, 0 when missing, lies in the closed range, with their metadata |
| Metadata.SettingsMetadata.GetDependentSettings | src/ai/settings_metadata.py:745-760 | the nested loop computes the dependents in graph order |
| Metadata.SettingsMetadata.AddSetting | src/ai/settings_metadata.py:771-786 | a new name is added at the end with its metadata and reported; a known one leaves the registry unchanged and fails |
| Metadata.SettingsMetadata.UpdateSetting | src/ai/settings_metadata.py:788-803 | a known name gets the new metadata and is reported; an unknown one leaves the registry unchanged and fails |
| Metadata.SettingsMetadata.AddDependency | src/ai/settings_metadata.py:805-820 | the graph becomes `Appended` of the old one: the dependency goes at the end of the setting's list, and a setting without a list gets one at the end of the drivers; every other list and the settings are unchanged; it always succeeds |
| Metadata.Appended | src/ai/settings_metadata.py:816-819 | appending keeps the drivers in place, adds a new driver at the end exactly when the setting had no list, and keeps the drivers distinct |
| Metadata.AppendedLists | src/ai/settings_metadata.py:816-819 | after appending, the setting's list is the old one plus the dependency, and every other list is unchanged |
| Klipper.ExactIndex | src/ai/klipper_integration.py:380-381 | the position of the first model whose name equals the requested name; every earlier model has another name, and the length when none matches |
| Klipper.PartialIndex | src/ai/klipper_integration.py:384-386 | the position of the first model whose name contains, or is contained in, the requested name; no earlier model matches that way |
| Klipper.PrinterConfigFor | src/ai/klipper_integration.py:367-395 | the chosen configuration is one of the configured models' or the empty configuration |
| Klipper.GetPrinterConfig | src/ai/klipper_integration.py:367-395 | the lookup loops compute exactly the configuration `PrinterConfigFor` specifies |
| Klipper.ExactModelWins | src/ai/klipper_integration.py:380-381 | with distinct model names, a model named exactly as requested is always the one chosen |
| Klipper.FirstPartialWins | src/ai/klipper_integration.py:384-386 | with no exact match, the first model in order whose name partially matches is chosen |
| Klipper.UnmatchedFallsBack | src/ai/klipper_integration.py:389-395 | with no match of either kind, `sonic_pad_default` is chosen when configured, else the first model, else the empty configuration |
| Klipper.EmptyNameSelectsFirst | src/ai/klipper_integration.py:384-386 | an empty model name is contained in every name, so the first configured model is chosen |
| Klipper.LooseNameTakesFirstMatch | src/ai/klipper_integration.py:384-386 | with the default models, "ender3 v2" selects the `ender3` configuration, not `ender3_v2`, because `ender3` comes first and is contained in it |
| Klipper.NoModelNamedLoosely | src/ai/klipper_integration.py:60-157 | no default model is named "ender3 v2", so that lookup goes through partial matching |
| Klipper.LooseNameMatchesEnder3 | src/ai/klipper_integration.py:384-386 | "ender3" is contained in "ender3 v2", a partial match |
| Klipper.MaterialPressureAdvance | src/ai/klipper_integration.py:397-417 | an unlisted material gets 0.03 on a direct drive and 0.05 on a Bowden extruder; a listed one gets its own value for the extruder type, and the same default when that value is missing |
| Klipper.DirectDriveNeedsLessAdvance | src/ai/klipper_integration.py:158-179 | with the default material table, every material, listed or not, gets a strictly smaller pressure advance on a direct drive than on a Bowden extruder |
| Klipper.StartGcodeLines | src/ai/klipper_integration.py:419-437 | without pressure advance the plain start G-code is returned, or none when it is not configured |
| Klipper.DefaultStartGcodeFeatures | src/ai/klipper_integration.py:180-229 | with the default templates, the start G-code sets pressure advance exactly when it is asked for, and sets the input shaper exactly when both features are asked for |
| Klipper.EndGcodeLines | src/ai/klipper_integration.py:439-447 | the configured end G-code, or no lines when none is configured |
| Klipper.ChosenConfigNumeric | src/ai/klipper_integration.py:367-395 | when every model's acceleration and shaper frequencies are numbers, so are the chosen configuration's |
| Klipper.WithAdvance | src/ai/klipper_integration.py:485-491 | sets pressure advance and its smooth time (default 0.04), and leaves the shaper frequencies and the speeds as they were |
| Klipper.WithShaper | src/ai/klipper_integration.py:494-499 | when the model has an input shaper, sets both frequencies (default 40) and both types (default `mzv`); otherwise leaves the frequencies as they were; never touches the speeds or pressure advance |
| Klipper.WithAccel | src/ai/klipper_integration.py:502-504 | sets the acceleration (default 4000), accel-to-decel (default 2000) and square corner velocity (default 5.0), and keeps everything set earlier |
| Klipper.AccelCap | src/ai/klipper_integration.py:507-521 | the acceleration cap is 10000 above 50 Hz, 6000 above 40 Hz, 4000 above 30 Hz and 2000 otherwise, each band in both directions |
| Klipper.FloorHalf | src/ai/klipper_integration.py:524 | Python's `// 2`: an integer for an integer argument and a float otherwise, never above half the value and less than one below it |
| Klipper.WithShaperCap | src/ai/klipper_integration.py:507-524 | with both shaper frequencies set, the acceleration becomes the smaller of itself and the cap of the lower frequency, and accel-to-decel becomes half of it; without them both stay; nothing else changes |
| Klipper.WithSpeedFloors | src/ai/klipper_integration.py:527-535 | speeds never decrease; from 8000 mm/s² the print speed is at least 80 and travel at least 200, from 5000 at least 60 and 180, and below that both are kept; nothing else changes |
| Klipper.WithGcode | src/ai/klipper_integration.py:538-545 | writing the firmware retraction flag and the G-code leaves every acceleration, shaper, speed and pressure-advance setting as it was |
| Klipper.SetAdvance | src/ai/klipper_integration.py:485-491 | the pressure-advance step the method takes is `WithAdvance` |
| Klipper.SetShaper | src/ai/klipper_integration.py:494-499 | the shaper step the method takes is `WithShaper` |
| Klipper.SetAccel | src/ai/klipper_integration.py:502-524 | the acceleration step, with its shaper cap, is `WithShaperCap` after `WithAccel`, and it starts from the model's acceleration |
| Klipper.SetSpeedFloors | src/ai/klipper_integration.py:527-535 | the speed step the method takes is `WithSpeedFloors` |
| Klipper.ApplyKlipperOptimizations | src/ai/klipper_integration.py:459-547 | the settings the method returns are the overlay of its input for the printer's model, as the steps above define it |
| Klipper.OverlayAdvance | src/ai/klipper_integration.py:477-491 | the overlaid pressure advance is the model's own, else the material table's for the printer's extruder; the smooth time is the model's or 0.04 |
| Klipper.OverlayAcceleration | src/ai/klipper_integration.py:502-524 | the overlaid acceleration is numeric; when both shaper frequencies end up set it is the smaller of the model's and the lower frequency's cap, with accel-to-decel at half of it; otherwise both are the model's values or their defaults |
| Klipper.OverlaySpeeds | src/ai/klipper_integration.py:527-535 | the overlay keeps the print speed present exactly when it was, never lowers it, and raises both speeds to the floors of the final acceleration's band |
| Klipper.OverlayGcode | src/ai/klipper_integration.py:538-545 | the overlay turns firmware retraction off and writes the start G-code (with both features) and the end G-code, each joined by newlines |
| Klipper.OverlayShaper | src/ai/klipper_integration.py:494-504 | the overlay sets the square corner velocity, and the model's shaper frequencies and types where the model has an input shaper; otherwise the frequencies stay as they were |
| Klipper.OverlayFrame | src/ai/klipper_integration.py:459-547 | every setting outside the keys the overlay owns passes through unchanged |
| Klipper.AdvanceSettled | src/ai/klipper_integration.py:485-491 | the pressure-advance step changes nothing once its values are in place |
| Klipper.ShaperSettled | src/ai/klipper_integration.py:494-499 | the shaper step changes nothing once its values are in place |
| Klipper.AccelSettled | src/ai/klipper_integration.py:502-524 | the acceleration step with its cap changes nothing once its values are in place |
| Klipper.SpeedsSettled | src/ai/klipper_integration.py:527-535 | the speed floors change nothing once the speeds meet them |
| Klipper.GcodeSettled | src/ai/klipper_integration.py:538-545 | the G-code step changes nothing once its values are in place |
| Klipper.OverlayIdempotent | src/ai/klipper_integration.py:459-547 | applying the optimisations twice gives the same settings as applying them once |
| Klipper.ConfigSnippet | src/ai/klipper_integration.py:549-599 | the snippet always starts with its two header lines |
| Klipper.GenerateKlipperConfig | src/ai/klipper_integration.py:549-599 | the lines the method builds are `ConfigSnippet` of the settings |
| Klipper.SectionNames | src/ai/klipper_integration.py:570-597 | the section headers of a snippet, in order, never more than its lines |
| Klipper.SectionNamesAppend | src/ai/klipper_integration.py:570-597 | the sections of two joined blocks are those of the first followed by those of the second |
| Klipper.NoSectionNames | src/ai/klipper_integration.py:564-567 | a block without a section header contributes no section |
| Klipper.SectionBlock | src/ai/klipper_integration.py:570-597 | a block of one header followed by entries is exactly that one section |
| Klipper.EntryValue | src/ai/klipper_integration.py:570-597 | the first value written for a name is an entry of the snippet, and no value means no entry has that name |
| Klipper.EntryValueAppend | src/ai/klipper_integration.py:570-597 | a name looked up in two joined blocks takes the first block's value when it has one, else the second's |
| Klipper.SnippetSections | src/ai/klipper_integration.py:569-597 | the snippet has the `extruder` section exactly when pressure advance is set, the `input_shaper` section exactly when both frequencies are, the `printer` section exactly when the acceleration is, in that order |
| Klipper.HeaderHasNoSection | src/ai/klipper_integration.py:564-567 | the header comment lines open no section |
| Klipper.SectionNamesOfParts | src/ai/klipper_integration.py:564-597 | the snippet's sections are those of its extruder, shaper and printer parts in order |
| Klipper.ExtruderEntries | src/ai/klipper_integration.py:570-576 | the extruder block writes `pressure_advance` (default 0.05) and `pressure_advance_smooth_time` (default 0.04) and nothing else |
| Klipper.ShaperEntries | src/ai/klipper_integration.py:579-587 | the shaper block writes both frequencies (default 40) and both types (default `mzv`) and nothing else |
| Klipper.PrinterEntries | src/ai/klipper_integration.py:590-597 | the printer block writes `max_accel` (default 4000), `max_accel_to_decel` (default 2000) and `square_corner_velocity` (default 5.0) and nothing else |
| Klipper.SnippetEntry | src/ai/klipper_integration.py:569-597 | a name in the snippet takes its value from the first block that is present and writes it |
| Klipper.SnippetAdvanceValues | src/ai/klipper_integration.py:570-576 | the snippet carries the profile's pressure advance and smooth time exactly when pressure advance is set |
| Klipper.SnippetShaperValues | src/ai/klipper_integration.py:579-587 | the snippet carries the profile's shaper frequencies and types exactly when both frequencies are set |
| Klipper.SnippetPrinterValues | src/ai/klipper_integration.py:590-597 | the snippet carries the profile's acceleration, accel-to-decel and corner velocity exactly when the acceleration is set |
| Klipper.AdvanceBand | src/ai/klipper_integration.py:616-625 | the pressure-advance explanation band: below 0.03, below 0.06, below 0.1, and from 0.1, each in both directions |
| Klipper.FrequencyBand | src/ai/klipper_integration.py:654-663 | the shaper-frequency band: above 50, above 40, above 30, and the rest, each in both directions |
| Klipper.AccelBand | src/ai/klipper_integration.py:677-686 | the acceleration band: from 10000, from 6000, from 3000, and below, each in both directions |
| Klipper.BandsMonotone | src/ai/klipper_integration.py:616-686 | a larger value never falls in a lower band, for all three bandings |
| Klipper.CapFollowsFrequencyBand | src/ai/klipper_integration.py:507-521 | the shaper's acceleration cap is chosen by the frequency band, and the cap's own acceleration band is that frequency band |
| Klipper.KlipperExplanations | src/ai/klipper_integration.py:601-696 | pressure advance, the input shaper and the acceleration are explained exactly when their settings are present (the shaper only with both frequencies), each note carrying the explained values |
| Klipper.ExplainKlipperSettings | src/ai/klipper_integration.py:601-696 | the explanations the method builds are `KlipperExplanations` of the settings |
| Klipper.ShaperNoteBand | src/ai/klipper_integration.py:636-667 | the shaper note is banded by the lower of the two frequencies, and names `mzv` for a missing shaper type |
| Klipper.OneKeyNeverExplainsShaper | src/ai/klipper_integration.py:636-637 | a single setting never yields a shaper explanation, since that needs both frequencies |
| Klipper.OverlayAccelWithinShaperBand | src/ai/klipper_integration.py:507-524 | after the overlay on a shaped printer, the acceleration's explanation band never exceeds the shaper's |
| AIManager.ProfileOf | src/ai/orca_ai.py:314-315 | the `settings` dictionary holds exactly the settings the engine produced, with their values, never a shaper frequency, and is fit for the firmware overlay |
| AIManager.RestrictReady | src/ai/__init__.py:106-108 | any part of the engine's settings can be handed to the firmware overlay: no shaper frequency and integer speeds |
| AIManager.OverlayExplainable | src/ai/__init__.py:116-118 | after the overlay every firmware setting the explanations compare is a number |
| AIManager.GenerateProfile | src/ai/__init__.py:73-121 | without the firmware optimisations, the engine's profile and explanations unchanged; with them, the overlaid settings, the engine's explanations, the firmware explanations of the overlaid settings and the snippet generated from them |
| AIManager.KlipperNotesOnlyAdd | src/ai/__init__.py:119 | the firmware explanations use only firmware keys, none of which the engine explains, so adding them replaces no engine explanation |
| AIManager.KlipperProfileKeeps | src/ai/__init__.py:106-108 | every setting the engine produced that the overlay does not own is still in the profile with its value |
| AIManager.KlipperProfileNotes | src/ai/__init__.py:106-119 | with the firmware optimisations, pressure advance and the acceleration are always explained, and the input shaper exactly when the printer's model configures one |
| AIManager.OrcaRecommendation | src/ai/__init__.py:149-152 | the engine's recommended value for a setting is the value the engine generates for it |
| AIManager.OneSettingNote | src/ai/__init__.py:170-176 | a single firmware setting is explained exactly when it is pressure advance or the acceleration, by the note the firmware explanations give it |
| AIManager.FirmwareNote | src/ai/__init__.py:170-176 | the explanation lookup by the setting's own name, then by `input_shaper`, gives `OneSettingNote` |
| AIManager.RecommendSetting | src/ai/__init__.py:123-178 | for a well-keyed setting and dictionary: outside the firmware names, or without the optimisations, the engine's recommendation unchanged; otherwise the overlaid value replaces the engine's when the overlay holds that setting, with the firmware note for it |
| AIManager.OverlayWellKeyed | src/ai/__init__.py:159-167 | the overlay of a well-keyed dictionary is well keyed, so `k in o` is the source's lookup of the setting's name |
| AIManager.FirmwareSettingsAreNotRecommended | src/ai/__init__.py:149-155 | the engine generates no firmware setting, so for each of them its own recommendation finds nothing, and the name carries a firmware prefix |
| AIManager.ExplainSetting | src/ai/__init__.py:180-213 | for a well-keyed setting: the engine's explanation always; for a firmware-prefixed name, additionally the firmware note for that setting alone, whatever the firmware switch |
| AIManager.AdvanceExplainedAlone | src/ai/__init__.py:203-209 | pressure advance explained alone gets the note of its own band |
| AIManager.AccelExplainedAlone | src/ai/__init__.py:203-209 | the acceleration explained alone gets the note of its own band |
| AIManager.Integrated | src/ai/__init__.py:64-71 | the registry after the offers still describes every setting it knew |
| AIManager.IntegrateKlipperSettings | src/ai/__init__.py:64-71 | the loop adds each firmware setting offered by `get_additional_settings` through `add_setting`, so the registry afterwards is `Integrated` of the old one, its name order grows by the new names and its dependencies stay |
| AIManager.IntegrationKeepsKnown | src/ai/settings_metadata.py:782-786 | a setting the registry already describes is never overwritten by an offer |
| AIManager.IntegrationNames | src/ai/__init__.py:64-71 | the registry afterwards describes exactly the names it knew and the names offered |
| AIManager.FirstOfferWins | src/ai/__init__.py:64-71 | a new name is described by the first offer carrying it; later offers of that name are ignored |
| ProfileCompare.Ratio | src/profiles/profile_generator.py:479 | the ratio is 1 when the first value is not positive, and otherwise the factor that takes the first value to the second |
| ProfileCompare.EffectOf | src/profiles/profile_generator.py:477-494 | only layer height, print speed and infill move the estimates; layer height moves quality exactly against time, print speed never raises quality, and infill moves time half as much as strength |
| ProfileCompare.LayerHeightDirection | src/profiles/profile_generator.py:477-481 | thinner layers lengthen the estimated print time and thicker ones raise the estimated quality, each in both directions |
| ProfileCompare.PrintSpeedDirection | src/profiles/profile_generator.py:483-488 | a faster print speed shortens the estimated time; the quality estimate falls exactly when the new speed is more than 1.2 times the old |
| ProfileCompare.NonPositiveBaseHasNoEffect | src/profiles/profile_generator.py:479-486 | a layer height or speed whose first value is not positive is compared at ratio 1 and moves no estimate |
| ProfileCompare.TotalsOnlyWeighted | src/profiles/profile_generator.py:459-494 | profiles that agree on the three weighted settings have all three estimates zero, whatever else differs |
| ProfileCompare.ImpactOf | src/profiles/profile_generator.py:566-592 | the impact is unknown exactly for a setting outside the seven compared ones |
| ProfileCompare.WordingFollowsChange | src/profiles/profile_generator.py:519-589 | for numbers that differ, the explanation's sentence is the one for a lowered value exactly when the value fell, infill's impact says increased exactly when it rose, the temperatures' say lowered exactly when they fell, and retraction always reports an effect |
| ProfileCompare.ImpactAgreesWithEstimate | src/profiles/profile_generator.py:568-576 | for layer height and print speed the stated impact is a print-time percentage equal to the size of that setting's time estimate, saying increased exactly when the estimate rises |
| ProfileCompare.DifferencesExact | src/profiles/profile_generator.py:459-474 | every listed difference is a compared setting both profiles hold with unequal values, carrying both values, and every such setting is listed |
| ProfileCompare.DifferencesInOrder | src/profiles/profile_generator.py:449-474 | the listed differences name exactly the differing settings, in the order of the important-settings list |
| ProfileCompare.NothingDiffersFromItself | src/profiles/profile_generator.py:459-494 | a profile compared with itself lists no difference and moves no estimate |
| ProfileCompare.SummaryOf | src/profiles/profile_generator.py:496-509 | the summary always states the size of the time estimate, faster exactly when it is negative, and adds the quality and strength clauses exactly when their estimate exceeds 5% either way, with their size and direction |
| ProfileCompare.EqualProfilesSummary | src/profiles/profile_generator.py:496-499 | no change is summarised as 0% slower with neither optional clause |
| ProfileCompare.Accumulate | src/profiles/profile_generator.py:476-494 | each estimate grows by exactly that setting's effect |
| ProfileCompare.VisitSetting | src/profiles/profile_generator.py:459-494 | one pass lists the setting and adds its effect exactly when the profiles differ on it |
| ProfileCompare.WalkSettings | src/profiles/profile_generator.py:447-494 | the loop produces exactly the differences and the estimate totals the specification functions define |
| ProfileCompare.CompareProcessProfiles | src/profiles/profile_generator.py:424-517 | an error exactly when either profile is missing or empty, saying which were found; otherwise the differing settings in order, the three estimate totals and their summary |
| ProfileCompare.CompareWithItself | src/profiles/profile_generator.py:424-517 | a stored profile compared with itself lists nothing and is summarised as no change |
| ProfileConvert.Get | src/profiles/profile_generator.py:669 | `get` gives the stored value for a present key and the default for a missing one |
| ProfileConvert.RangeOf | src/profiles/profile_generator.py:221-233 | a two-element list gives its ends in the order given; anything else gives the fallback pair |
| ProfileConvert.CreateMaterialRecord | src/profiles/profile_generator.py:209-233 | the stored material has all nine fields; its name, vendor, type, colour and diameter are the keyword arguments `name`, `vendor`, `material_type`, `color` and `diameter`, or the defaults 'New Material', 'Unknown', PLA, '#FFFFFF' and 1.75 |
| ProfileConvert.MaterialRecordKeys | src/profiles/profile_generator.py:209-233 | the stored material has exactly the five descriptive fields and the four range ends |
| ProfileConvert.MaterialRanges | src/profiles/profile_generator.py:218-233 | each range is stored end by end when it is a two-element list, and as 190 to 220 (print) or 50 to 60 (bed) otherwise, which is also what missing ranges give |
| ProfileConvert.ReversedRangeKept | src/profiles/profile_generator.py:221-223 | a reversed range is stored as given, so its minimum may exceed its maximum |
| ProfileConvert.ExportMaterial | src/profiles/profile_generator.py:696-707 | the exported material is typed `material`; its print temperature is 10 below the top of the range, its first-layer temperature that top, its bed temperature 5 above the bed range's bottom and its first-layer bed temperature the bed range's top |
| ProfileConvert.ExportedMaterialKeys | src/profiles/profile_generator.py:668-707 | an exported material has exactly six top-level fields and six settings |
| ProfileConvert.ImportMaterial | src/profiles/profile_generator.py:729-781 | the imported material is marked imported and takes name, vendor, type, colour and diameter from the profile or their defaults; each range spans the two temperatures widened by 10 (print) or 5 (bed) on each side |
| ProfileConvert.ImportedMaterialKeys | src/profiles/profile_generator.py:731-781 | an imported material has exactly ten fields |
| ProfileConvert.MaterialFieldsKept | src/profiles/profile_generator.py:666-781 | exporting a material and importing it again keeps its name, vendor, type, colour and diameter |
| ProfileConvert.MaterialRangesWidened | src/profiles/profile_generator.py:703-781 | the ranges do not survive export and import: the print range comes back as 20 below to 10 above the old top, and a bed range at least 5 wide keeps its bottom and gains 5 at the top |
| ProfileConvert.NatText | src/profiles/profile_generator.py:680 | `str` of a natural number is a non-empty string of digits |
| ProfileConvert.IntText | src/profiles/profile_generator.py:680 | `str` of an integer is a non-empty string of digits with an optional leading minus |
| ProfileConvert.ParseInt | src/profiles/profile_generator.py:746-747 | `int` reads every string of decimal digits as its value |
| ProfileConvert.IntTextParses | src/profiles/profile_generator.py:680-747 | `int` reads back every integer `str` writes |
| ProfileConvert.Split | src/profiles/profile_generator.py:745-747 | `split` always gives at least one piece |
| ProfileConvert.SplitWithout | src/profiles/profile_generator.py:745 | a string without the separator splits into itself alone |
| ProfileConvert.SplitAt | src/profiles/profile_generator.py:745 | a piece followed by the separator splits off as the first piece |
| ProfileConvert.Coordinates | src/profiles/profile_generator.py:746-747 | when every point is read, one coordinate per point |
| ProfileConvert.CoordinatesExact | src/profiles/profile_generator.py:746-747 | the coordinates are read exactly when every point has a readable coordinate, and they are listed in point order |
| ProfileConvert.Max | src/profiles/profile_generator.py:746-747 | `max` of a non-empty list is one of its elements and no element exceeds it |
| ProfileConvert.ParseBedShape | src/profiles/profile_generator.py:743-750 | a bed size is read only when every point has both coordinates |
| ProfileConvert.BedIsFarthestCorner | src/profiles/profile_generator.py:743-750 | a bed shape is read exactly when every point has two integer coordinates, and then the bed is the largest first and the largest second coordinate, each that of some point |
| ProfileConvert.ReadableExactly | src/profiles/profile_generator.py:746-747 | both coordinate lists are read exactly when every point has two integer coordinates |
| ProfileConvert.FarthestCoordinate | src/profiles/profile_generator.py:746-747 | the largest coordinate bounds that coordinate of every point and is that of one of them |
| ProfileConvert.DefaultBedShapeWritten | src/profiles/profile_generator.py:680-743 | the default shape read on import is the one the export writes for a 220 by 220 bed |
| ProfileConvert.DefaultBedShapeRead | src/profiles/profile_generator.py:743-748 | the default bed shape reads as 220 by 220 |
| ProfileConvert.BedSizeOf | src/profiles/profile_generator.py:744-750 | a bed shape that is not text falls back to 220 by 220 |
| ProfileConvert.ImportedBed | src/profiles/profile_generator.py:743-750 | without a bed shape the imported bed is 220 by 220; with one it is the size read from it |
| ProfileConvert.BedShapePoints | src/profiles/profile_generator.py:680 | the written bed shape consists of the four corners 0x0, Wx0, WxD and 0xD |
| ProfileConvert.ShapeRead | src/profiles/profile_generator.py:680-748 | a bed shape written from two integer texts reads back as the larger of 0 and each value |
| ProfileConvert.BedShapeRoundTrip | src/profiles/profile_generator.py:680-748 | exporting a bed of natural-number size and importing it gives the same size |
| ProfileConvert.NegativeWidthLost | src/profiles/profile_generator.py:680-748 | a negative width comes back as 0, because the corner at the origin is larger |
| ProfileConvert.UnreadableBedShape | src/profiles/profile_generator.py:744-750 | a shape whose point lacks a second coordinate cannot be read, and the bed falls back to 220 by 220 |
| ProfileConvert.PrinterTop | src/profiles/profile_generator.py:668-678 | an exported printer is typed `printer` and takes its name, vendor and model from the record or their defaults |
| ProfileConvert.PrinterSettings | src/profiles/profile_generator.py:679-694 | the exported settings write the bed as four corners, take height and nozzle from the record or their defaults, use the `klipper` flavour exactly for a Klipper printer and `marlin` otherwise, and have a start G-code exactly for Klipper |
| ProfileConvert.ExportedPrinterKeys | src/profiles/profile_generator.py:668-694 | an exported printer has exactly five top-level fields and eight settings, plus the start G-code for Klipper |
| ProfileConvert.DetectionByAdvanceSuffices | src/profiles/profile_generator.py:758-764 | Klipper is detected exactly when the flavour is `klipper` or the start G-code mentions PRESSURE_ADVANCE; the SET_PRESSURE_ADVANCE test adds nothing |
| ProfileConvert.ImportPrinter | src/profiles/profile_generator.py:729-764 | the imported printer is marked imported, takes the Klipper flag from detection and the bed from the shape, the other fields from the profile or their defaults, and a Bowden cartesian kinematics |
| ProfileConvert.ImportedPrinterKeys | src/profiles/profile_generator.py:731-764 | an imported printer has exactly ten fields |
| ProfileConvert.PrinterFieldsKept | src/profiles/profile_generator.py:666-764 | exporting a printer and importing it again keeps its name, vendor, model, height and nozzle, and its bed size when that is not negative |
| ProfileConvert.ExportedPrinterImportable | src/profiles/profile_generator.py:679-694 | every exported printer can be read back in |
| ProfileConvert.PrinterKlipperKept | src/profiles/profile_generator.py:684-764 | exporting a printer and importing it again keeps whether it runs Klipper |

## Left out

- Floating point: floats are reals. `round` is exact half-to-even on reals, and `round(x, 2)` rounds `100 x` that way. Binary representation error is not modelled.
- `OrcaAI.Generated`, with its callers `OrcaAI.GenerateProfile`, `OrcaAdvice.RecommendSetting`, `AIManager.OrcaRecommendation`, `AIManager.GenerateProfile` and `AIManager.RecommendSetting`, and the lemmas about them: they require `ChosenLayerHeight(nozzle, req) != 0.0`. For a nozzle so small that the chosen layer height rounds to 0 (below about 0.0125 mm on balanced requirements), the source raises `ZeroDivisionError` at `round(profile['top_thickness'] / profile['layer_height'])` (`src/ai/orca_ai.py:461`). This requirement replaces that error path, which is not modelled.
- Python's `TypeError`s: a comparison or arithmetic on a value that is not a number raises in the source. The model instead requires numbers where the source compares or computes (`IsNum`, `Comparable`, `OverlayReady`, `ExplainReady`, `Ready`).
- Explanation, summary and impact prose, and the G-code and snippet text: the model records which band, tier, sentence or template is chosen and which values it carries, not the sentences. `format` of those values is not modelled.
- `str.lower()` is modelled on ASCII letters only.
- `int()` on text is modelled as an optional sign followed by decimal digits. The surrounding white space and digit separators Python also accepts are not modelled.
- Database lookups, file I/O and clocks are parameters or left out. This covers the printer and material descriptors (hard-coded stand-ins in `src/ai/orca_ai.py:323-358`), `load_*`/`save_*` of the rule engine, the registry and the firmware configuration, and `AIManager.__init__`/`_initialize_components`.
- The registry: `load_metadata`, `save_metadata`, the default settings table, the default categories and `get_all_categories` are left out. The `Metadata.SettingsMetadata` constructor starts from an empty setting table over a given dependency graph.
- `OrcaAI.train_models` and its machine-learning dependencies are left out: derivation never uses them.
- `OrcaAI.compare_profiles` builds demonstration profiles and ignores its identifiers. The estimators are modelled over two given profiles, and the demonstration pair is a lemma. `AIManager.compare_profiles` only delegates to it.
- The façade's one-line delegations are the modelled operations themselves, so they get no member of their own:
  - `get_setting_metadata` and `get_settings_by_category` are `Metadata.SettingsMetadata.GetSetting` and `GetSettingsByCategory`;
  - `get_klipper_start_gcode` and `get_klipper_end_gcode` are `Klipper.StartGcodeLines` and `Klipper.EndGcodeLines` joined by newlines;
  - `get_klipper_config` is `Klipper.PrinterConfigFor`;
  - `get_additional_settings` is the `additionalSettings` field of `Klipper.KlipperConfig`, the list `AIManager.IntegrateKlipperSettings` is given.
- The generated profile's extra fields (`printer_id`, `material_id`, `nozzle_size`, `requirements`) are left out. So is the `base_profile_id` argument, which the AI engine does not use.
- `AIManager.GenerateProfile`: the firmware explanations are kept beside the engine's instead of merged into one dictionary. `AIManager.KlipperNotesOnlyAdd` shows the merge would override nothing.
- `AIManager.ExplainSetting` and `OrcaAdvice.ExplainSetting`: whether the setting registry was loaded is a `hasMetadata` parameter.
- `Inputs.PrinterInfo` and `Inputs.MaterialInfo`: the records always carry every field. The source's `.get` defaults for a missing key are not modelled: `direct_drive` (read as Bowden by the rule engine's material rules, but as direct drive by its retraction explanation and by the Klipper overlay), `printer_type` `'cartesian'`, `type` `'PLA'`, `temp_range_min`/`temp_range_max` 190/220 and `model` `''`. Nor is the resulting disagreement between those readers. The AI engine's own printer and material stand-ins always carry every key.
- `AIManager.RecommendSetting` and `AIManager.ExplainSetting`: they require a well-keyed setting (and, for the recommendation, a well-keyed dictionary). Without that, `Other("pressure_advance")` and `PressureAdvance` would be two keys for one Python name, which no Python dictionary allows.
- `AIManager.RecommendSetting`: the source's `current_settings.copy()` is modelled by value semantics, so the caller's dictionary is untouched by construction.
- Profile generator I/O:
  - template creation, listing and reading;
  - the file handling of `export_profile_to_orca` and `import_profile_from_orca`;
  - `generate_process_profile` and `optimize_process_profile` (database and manager glue).
- `import_date` is a wall-clock value and is not modelled.
- The `process` branch of the Orca conversion is not modelled, including the regular-expression extraction of pressure advance from start G-code (`src/profiles/profile_generator.py:783-804`).
- `ProfileConvert.ExportPrinter`: it requires the bed size entries to be integers (`BedSizeWritable`), where Python would format any value into the bed-shape text. A float bed size is not modelled.
- `ProfileConvert.ImportMaterial` and `ProfileConvert.ImportPrinter`: an Orca profile without a `settings` dictionary is modelled as one with an empty `settings`, as the source's `get('settings', {})` reads it.
- `ProfileConvert.CreateMaterialRecord`: only the record is modelled; the database insertion and the returned identifier are left out.
- The dictionaries that the conversions and `create_material_profile` build by successive assignment are modelled as values built at once (`ProfileConvert`).
- `Klipper.ApplyKlipperOptimizations`: the source mutates and returns the caller's dictionary. The model returns a new profile: the AI manager only ever uses the returned dictionary, or a copy.
- The shaper-type descriptions in `explain_klipper_settings` are prose and are not modelled.
- Each Klipper printer model keeps the fields the overlay reads. Its `display_name` and the damping ratios are left out, because nothing in the core reads them.
- `OrcaAI.Generated` and the overlay are modelled over the settings keys the core names (`Values.Key`). Any other dictionary key is `Other(name)`. That distinct named settings carry distinct names is a fact of the name table, not a proved lemma; `Values.OtherNameUnique` covers the `Other` keys.
