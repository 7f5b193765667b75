/**
 * The AI manager: it runs the AI engine's profile generation and, on
 * request, lays the Klipper firmware optimisations over the result, adds
 * the firmware configuration snippet and the firmware explanations; it
 * overrides single-setting recommendations and explanations for the
 * firmware settings; and it registers the firmware settings in the
 * settings registry.
 */
module AIManager {
  import opened Values
  import opened Inputs
  import opened Klipper
  import OrcaAI
  import OrcaAdvice
  import opened Metadata

  // ---------------------------------------------------------------------
  // The generated profile as a dictionary
  // ---------------------------------------------------------------------

  lemma AllDefined(s: OrcaAI.Settings)
    ensures forall k :: OrcaAI.Get(s, k).Some? ==> k in OrcaAI.DefaultKeys + OrcaAI.OptionalKeys
  {
    forall k | OrcaAI.Get(s, k).Some?
      ensures k in OrcaAI.DefaultKeys + OrcaAI.OptionalKeys
    {
      OrcaAI.GetDefined(s, k);
    }
  }

  /** The engine's settings under the given keys, as a dictionary. */
  function Restrict(s: OrcaAI.Settings, keys: set<Key>): (p: Profile)
    ensures forall k :: k in p <==> k in keys && OrcaAI.Get(s, k).Some?
    ensures forall k | k in p :: OrcaAI.Get(s, k) == Some(p[k])
  {
    map k | k in keys && OrcaAI.Get(s, k).Some? :: OrcaAI.Get(s, k).value
  }

  /** The engine's profile holds no shaper frequency, and its speeds are integers. */
  lemma RestrictReady(s: OrcaAI.Settings, keys: set<Key>)
    ensures OverlayReady(Restrict(s, keys))
  {
    RestrictedSpeeds(s, keys);
    RestrictedShaper(s, keys);
  }

  lemma RestrictedSpeeds(s: OrcaAI.Settings, keys: set<Key>)
    ensures PrintSpeed in Restrict(s, keys) ==> Restrict(s, keys)[PrintSpeed].I?
    ensures TravelSpeed in Restrict(s, keys) ==> Restrict(s, keys)[TravelSpeed].I?
  {
  }

  lemma RestrictedShaper(s: OrcaAI.Settings, keys: set<Key>)
    ensures InputShaperXFreq !in Restrict(s, keys) && InputShaperYFreq !in Restrict(s, keys)
  {
  }

  /**
   * The `settings` dictionary of a generated profile: every setting the
   * engine produced, with its value.  It never holds the shaper
   * frequencies, and its speeds are numbers, so it is always fit for the
   * firmware overlay.
   */
  function ProfileOf(s: OrcaAI.Settings): (p: Profile)
    ensures forall k :: k in p <==> OrcaAI.Get(s, k).Some?
    ensures forall k | k in p :: OrcaAI.Get(s, k) == Some(p[k])
    ensures InputShaperXFreq !in p && InputShaperYFreq !in p
    ensures OverlayReady(p)
  {
    AllDefined(s);
    RestrictReady(s, OrcaAI.DefaultKeys + OrcaAI.OptionalKeys);
    RestrictedShaper(s, OrcaAI.DefaultKeys + OrcaAI.OptionalKeys);
    Restrict(s, OrcaAI.DefaultKeys + OrcaAI.OptionalKeys)
  }

  // ---------------------------------------------------------------------
  // Profile generation
  // ---------------------------------------------------------------------

  /**
   * A generated profile: its settings, the engine's explanations, the
   * firmware explanations added to them, and the firmware snippet when
   * the firmware optimisations were applied.
   */
  datatype GeneratedProfile = GeneratedProfile(
    settings: Profile,
    explanations: OrcaAI.Explanations,
    klipperNotes: map<Key, KlipperNote>,
    klipperConfig: Option<seq<ConfigLine>>)

  /** What the firmware optimisations need: numeric model values and a numeric pressure advance. */
  predicate KlipperReady(cfg: KlipperConfig, printer: PrinterInfo, material: MaterialInfo) {
    NumericModels(cfg) && IsNum(AdvanceOf(cfg, ConfigOf(cfg, printer), printer, material))
  }

  /** After the overlay every explained firmware setting is a number, as the explanations compare them. */
  lemma OverlayExplainable(cfg: KlipperConfig, s: Profile, printer: PrinterInfo, material: MaterialInfo)
    requires KlipperReady(cfg, printer, material) && OverlayReady(s)
    ensures ExplainReady(Overlaid(cfg, s, printer, material))
  {
    OverlayAdvance(cfg, s, printer, material);
    OverlayAcceleration(cfg, s, printer, material);
  }

  /**
   * `generate_profile`: the engine's profile, then, when `useKlipper`
   * holds, the settings replaced by their firmware overlay, the snippet
   * generated from the new settings and the firmware explanations added.
   */
  method GenerateProfile(cfg: KlipperConfig, printer: PrinterInfo, material: MaterialInfo, nozzle: real,
                         req: Requirements, useKlipper: bool)
    returns (p: GeneratedProfile)
    requires OrcaAI.ChosenLayerHeight(nozzle, req) != 0.0
    requires useKlipper ==> KlipperReady(cfg, printer, material)
    ensures var g := OrcaAI.Generated(printer, material, nozzle, req);
      !useKlipper ==> p == GeneratedProfile(ProfileOf(g), OrcaAI.Explain(g, material), map[], None)
    ensures var g := OrcaAI.Generated(printer, material, nozzle, req);
      useKlipper ==>
        p.settings == Overlaid(cfg, ProfileOf(g), printer, material) &&
        p.explanations == OrcaAI.Explain(g, material) &&
        ExplainReady(p.settings) && p.klipperNotes == KlipperExplanations(p.settings) &&
        p.klipperConfig == Some(ConfigSnippet(p.settings))
  {
    var settings, explanations := OrcaAI.GenerateProfile(printer, material, nozzle, req);
    p := GeneratedProfile(ProfileOf(settings), explanations, map[], None);
    if useKlipper {
      var overlaid := ApplyKlipperOptimizations(cfg, p.settings, printer, material);
      var snippet := GenerateKlipperConfig(printer, overlaid);
      OverlayExplainable(cfg, p.settings, printer, material);
      var notes := ExplainKlipperSettings(overlaid);
      p := p.(settings := overlaid, klipperConfig := Some(snippet), klipperNotes := notes);
    }
  }

  /** The keys of the firmware explanations. */
  const KlipperNoteKeys: set<Key> := {PressureAdvance, InputShaper, MaxAccel}

  /**
   * The firmware explanations only add to the engine's: no key the engine
   * explains is a firmware one, so `update` overrides nothing.
   */
  lemma KlipperNotesOnlyAdd(s: Profile)
    requires ExplainReady(s)
    ensures KlipperExplanations(s).Keys <= KlipperNoteKeys
    ensures OrcaAI.ExplainedKeys * KlipperNoteKeys == {}
  {
  }

  /**
   * With the firmware optimisations, every setting the engine produced
   * and the overlay does not own is kept.
   */
  lemma KlipperProfileKeeps(cfg: KlipperConfig, g: OrcaAI.Settings, printer: PrinterInfo, material: MaterialInfo)
    requires KlipperReady(cfg, printer, material)
    ensures OnlyWrites(ProfileOf(g), Overlaid(cfg, ProfileOf(g), printer, material), OverlayKeys)
  {
    OverlayFrame(cfg, ProfileOf(g), printer, material);
  }

  /**
   * With the firmware optimisations, pressure advance and the acceleration
   * are always explained, and the input shaper exactly when the printer's
   * model configures one.
   */
  lemma KlipperProfileNotes(cfg: KlipperConfig, g: OrcaAI.Settings, printer: PrinterInfo, material: MaterialInfo)
    requires KlipperReady(cfg, printer, material)
    ensures var r := Overlaid(cfg, ProfileOf(g), printer, material);
      ExplainReady(r) &&
      PressureAdvance in KlipperExplanations(r) && MaxAccel in KlipperExplanations(r) &&
      (InputShaper in KlipperExplanations(r) <==> ConfigOf(cfg, printer).inputShaper.Some?)
  {
    var base := ProfileOf(g);
    OverlayExplainable(cfg, base, printer, material);
    OverlayAdvance(cfg, base, printer, material);
    OverlayAcceleration(cfg, base, printer, material);
  }

  // ---------------------------------------------------------------------
  // Single-setting advice
  // ---------------------------------------------------------------------

  /** Whether a setting's name starts with one of the firmware prefixes. */
  predicate KlipperPrefixed(k: Key) {
    IsPrefix("pressure_advance", Name(k)) || IsPrefix("input_shaper", Name(k)) || IsPrefix("max_accel", Name(k))
  }

  lemma NumericWhereAdvised(s: OrcaAI.Settings, k: Key)
    ensures OrcaAdvice.NumericAdvice(k) ==> OrcaAI.Get(s, k).Some? && IsNum(OrcaAI.Get(s, k).value)
  {
    if OrcaAdvice.NumericAdvice(k) {
      OrcaAdvice.NumericSettings(s, k);
    }
  }

  /** The engine's recommendation for one setting, as its recommendation method promises it. */
  function OrcaRecommendation(k: Key, printer: PrinterInfo, material: MaterialInfo, nozzle: real, req: Requirements)
    : (rec: OrcaAdvice.Recommendation)
    requires OrcaAI.ChosenLayerHeight(nozzle, req) != 0.0
    ensures rec.value == OrcaAI.Get(OrcaAI.Generated(printer, material, nozzle, req), k)
  {
    var g := OrcaAI.Generated(printer, material, nozzle, req);
    var v := OrcaAI.Get(g, k);
    NumericWhereAdvised(g, k);
    if v.None? then OrcaAdvice.Recommendation(None, 0.0, OrcaAdvice.NotFound, [])
    else
      OrcaAdvice.Recommendation(v, 0.85,
        if k in OrcaAI.ExplainedKeys then OrcaAdvice.ProfileExplanation else OrcaAdvice.GenericRecommendation,
        OrcaAdvice.Alternatives(k, v.value))
  }

  /** A recommendation and, where the firmware explains the setting, the firmware's explanation instead of the engine's. */
  datatype Advice = Advice(recommendation: OrcaAdvice.Recommendation, klipperNote: Option<KlipperNote>)

  /** The firmware explanation for one setting and its value, where there is one. */
  function OneSettingNote(k: Key, v: Value): (n: Option<KlipperNote>)
    requires ExplainReady(map[k := v])
    ensures n.Some? <==> k == PressureAdvance || k == MaxAccel
    ensures n.Some? ==> n.value == KlipperExplanations(map[k := v])[k]
  {
    var notes := KlipperExplanations(map[k := v]);
    if k in notes then Some(notes[k]) else None
  }

  /**
   * The firmware's explanation of one setting, looked up as both
   * `recommend_setting` and `explain_setting` do: by the setting's own
   * name, or by `input_shaper` for a shaper setting.
   */
  method FirmwareNote(k: Key, v: Value) returns (n: Option<KlipperNote>)
    requires ExplainReady(map[k := v])
    ensures n == OneSettingNote(k, v)
  {
    var notes := ExplainKlipperSettings(map[k := v]);
    n := None;
    if k in notes {
      n := Some(notes[k]);
    } else if InputShaper in notes && IsPrefix("input_shaper", Name(k)) {
      // a dictionary of one setting never holds both shaper frequencies
      OneKeyNeverExplainsShaper(k, v);
      assert false;
    }
  }

  /**
   * `recommend_setting`: the engine's recommendation, whose value is
   * replaced by the overlaid one when the firmware optimisations are on,
   * the name carries a firmware prefix and the overlay of the caller's
   * settings holds that setting; the firmware's explanation then replaces
   * the engine's where it has one.  The caller's settings are not changed.
   */
  method RecommendSetting(cfg: KlipperConfig, k: Key, printer: PrinterInfo, material: MaterialInfo, nozzle: real,
                          current: Profile, req: Requirements, useKlipper: bool)
    returns (a: Advice)
    requires OrcaAI.ChosenLayerHeight(nozzle, req) != 0.0
    requires WellKeyed(k) && WellKeyedProfile(current)
    requires useKlipper && KlipperPrefixed(k) ==>
      NumericModels(cfg) && OverlayReady(current) &&
      (k in Overlaid(cfg, current, printer, material) ==> ExplainReady(map[k := Overlaid(cfg, current, printer, material)[k]]))
    ensures var base := OrcaRecommendation(k, printer, material, nozzle, req);
      !(useKlipper && KlipperPrefixed(k)) ==> a == Advice(base, None)
    ensures var base := OrcaRecommendation(k, printer, material, nozzle, req);
      useKlipper && KlipperPrefixed(k) ==>
        var o := Overlaid(cfg, current, printer, material);
        (k !in o ==> a == Advice(base, None)) &&
        (k in o ==> a == Advice(base.(value := Some(o[k])), OneSettingNote(k, o[k])))
  {
    var rec := OrcaAdvice.RecommendSetting(k, printer, material, nozzle, req);
    a := Advice(rec, None);
    if useKlipper && KlipperPrefixed(k) {
      var optimized := ApplyKlipperOptimizations(cfg, current, printer, material);
      if k in optimized {
        var note := FirmwareNote(k, optimized[k]);
        a := Advice(a.recommendation.(value := Some(optimized[k])), note);
      }
    }
  }

  /**
   * The overlay writes only named settings, so the overlaid dictionary
   * still holds one entry per name and `k in o` above is Python's lookup
   * of the setting's name.
   */
  lemma OverlayWellKeyed(cfg: KlipperConfig, current: Profile, printer: PrinterInfo, material: MaterialInfo)
    requires NumericModels(cfg) && OverlayReady(current) && WellKeyedProfile(current)
    ensures WellKeyedProfile(Overlaid(cfg, current, printer, material))
  {
    OverlayFrame(cfg, current, printer, material);
    OnlyWritesWellKeyed(current, Overlaid(cfg, current, printer, material), OverlayKeys);
  }

  /**
   * The engine's profile has none of the firmware settings, so its own
   * recommendation for them finds nothing: with firmware optimisations
   * the overlaid value is given at confidence 0.
   */
  lemma FirmwareSettingsAreNotRecommended(k: Key, printer: PrinterInfo, material: MaterialInfo, nozzle: real, req: Requirements)
    requires OrcaAI.ChosenLayerHeight(nozzle, req) != 0.0
    requires k == PressureAdvance || k == MaxAccel || k == InputShaperXFreq || k == InputShaperYFreq
    ensures KlipperPrefixed(k)
    ensures OrcaRecommendation(k, printer, material, nozzle, req) == OrcaAdvice.Recommendation(None, 0.0, OrcaAdvice.NotFound, [])
  {
    FirmwareNamesPrefixed(k);
    FirmwareSettingsNotGenerated(OrcaAI.Generated(printer, material, nozzle, req), k);
  }

  lemma FirmwareSettingsNotGenerated(s: OrcaAI.Settings, k: Key)
    requires k == PressureAdvance || k == MaxAccel || k == InputShaperXFreq || k == InputShaperYFreq
    ensures OrcaAI.Get(s, k).None?
  {
  }

  lemma FirmwareNamesPrefixed(k: Key)
    requires k == PressureAdvance || k == MaxAccel || k == InputShaperXFreq || k == InputShaperYFreq
    ensures KlipperPrefixed(k)
  {
    if k == PressureAdvance {
      PrefixOfItself("pressure_advance");
    } else if k == MaxAccel {
      PrefixOfItself("max_accel");
    } else if k == InputShaperXFreq {
      PrefixOfJoined("input_shaper", "_x_freq");
    } else {
      PrefixOfJoined("input_shaper", "_y_freq");
    }
  }

  lemma PrefixOfItself(a: string)
    ensures IsPrefix(a, a)
  {
  }

  lemma PrefixOfJoined(a: string, b: string)
    ensures IsPrefix(a, a + b)
  {
    assert (a + b)[..|a|] == a;
  }

  /** A profile explanation, and the firmware's explanation of the value where it replaces the engine's sentence. */
  datatype ExplainedSetting = ExplainedSetting(base: OrcaAdvice.SettingExplanation, klipperNote: Option<KlipperNote>)

  /**
   * `explain_setting`: the engine's explanation, with the firmware's in
   * its place for a firmware-prefixed name the firmware explains.  This
   * does not depend on whether the firmware optimisations are in use.
   */
  method ExplainSetting(k: Key, v: Value, hasMetadata: bool) returns (e: ExplainedSetting)
    requires WellKeyed(k)
    requires hasMetadata && OrcaAdvice.BandedSetting(k) ==> IsNum(v)
    requires KlipperPrefixed(k) ==> ExplainReady(map[k := v])
    ensures e.base == OrcaAdvice.ExplainSetting(k, v, hasMetadata)
    ensures !KlipperPrefixed(k) ==> e.klipperNote.None?
    ensures KlipperPrefixed(k) ==> e.klipperNote == OneSettingNote(k, v)
  {
    e := ExplainedSetting(OrcaAdvice.ExplainSetting(k, v, hasMetadata), None);
    if KlipperPrefixed(k) {
      var note := FirmwareNote(k, v);
      e := e.(klipperNote := note);
    }
  }

  /** Pressure advance alone is explained by its band. */
  lemma AdvanceExplainedAlone(v: Value)
    requires IsNum(v)
    ensures ExplainReady(map[PressureAdvance := v])
    ensures OneSettingNote(PressureAdvance, v) == Some(AdvanceNote(v, AdvanceBand(Num(v))))
  {
    assert KlipperExplanations(map[PressureAdvance := v]) == map[PressureAdvance := AdvanceNote(v, AdvanceBand(Num(v)))];
  }

  /** The maximum acceleration alone is explained by its band. */
  lemma AccelExplainedAlone(v: Value)
    requires IsNum(v)
    ensures ExplainReady(map[MaxAccel := v])
    ensures OneSettingNote(MaxAccel, v) == Some(AccelNote(v, AccelBand(Num(v))))
  {
    assert KlipperExplanations(map[MaxAccel := v]) == map[MaxAccel := AccelNote(v, AccelBand(Num(v)))];
  }

  // ---------------------------------------------------------------------
  // Registering the firmware settings
  // ---------------------------------------------------------------------

  /** The registry after offering `offered` in order: each name is added only when it is not yet known. */
  function Integrated(known: map<string, SettingInfo>, offered: seq<(string, SettingInfo)>)
    : (r: map<string, SettingInfo>)
    ensures known.Keys <= r.Keys
  {
    if offered == [] then known
    else
      var before := Integrated(known, offered[..|offered| - 1]);
      var last := offered[|offered| - 1];
      if last.0 in before then before else before[last.0 := last.1]
  }

  /** The names the registry gains, in the order they are added. */
  function AddedNames(known: map<string, SettingInfo>, offered: seq<(string, SettingInfo)>): seq<string> {
    if offered == [] then []
    else
      var before := Integrated(known, offered[..|offered| - 1]);
      var last := offered[|offered| - 1];
      AddedNames(known, offered[..|offered| - 1]) + (if last.0 in before then [] else [last.0])
  }

  /** `_integrate_klipper_settings`: each offered setting is added to the registry. */
  method IntegrateKlipperSettings(registry: Metadata.SettingsMetadata, offered: seq<(string, SettingInfo)>)
    requires registry.Valid()
    modifies registry
    ensures registry.Valid()
    ensures registry.settings == Integrated(old(registry.settings), offered)
    ensures registry.names == old(registry.names) + AddedNames(old(registry.settings), offered)
    ensures registry.dependencies == old(registry.dependencies)
  {
    var i := 0;
    while i < |offered|
      invariant 0 <= i <= |offered|
      invariant registry.Valid()
      invariant registry.settings == Integrated(old(registry.settings), offered[..i])
      invariant registry.names == old(registry.names) + AddedNames(old(registry.settings), offered[..i])
      invariant registry.dependencies == old(registry.dependencies)
    {
      assert offered[..i + 1][..i] == offered[..i];
      var _ := registry.AddSetting(offered[i].0, offered[i].1);
      i := i + 1;
    }
    assert offered[..|offered|] == offered;
  }

  /** No setting the registry already describes is overwritten. */
  lemma {:induction false} IntegrationKeepsKnown(known: map<string, SettingInfo>, offered: seq<(string, SettingInfo)>)
    ensures forall n | n in known :: Integrated(known, offered)[n] == known[n]
  {
    if offered != [] {
      IntegrationKeepsKnown(known, offered[..|offered| - 1]);
    }
  }

  /** The names a sequence of offers carries. */
  function OfferedNames(offered: seq<(string, SettingInfo)>): set<string> {
    set i | 0 <= i < |offered| :: offered[i].0
  }

  lemma OfferedNamesFront(offered: seq<(string, SettingInfo)>)
    requires offered != []
    ensures OfferedNames(offered) == OfferedNames(offered[..|offered| - 1]) + {offered[|offered| - 1].0}
  {
    var front := offered[..|offered| - 1];
    forall n | n in OfferedNames(offered)
      ensures n in OfferedNames(front) + {offered[|offered| - 1].0}
    {
      var i :| 0 <= i < |offered| && offered[i].0 == n;
      if i < |front| {
        assert front[i].0 == n;
      }
    }
    forall n | n in OfferedNames(front)
      ensures n in OfferedNames(offered)
    {
      var i :| 0 <= i < |front| && front[i].0 == n;
      assert offered[i].0 == n;
    }
  }

  /** The registry afterwards describes exactly the known and the offered names. */
  lemma {:induction false} IntegrationNames(known: map<string, SettingInfo>, offered: seq<(string, SettingInfo)>)
    ensures Integrated(known, offered).Keys == known.Keys + OfferedNames(offered)
  {
    if offered != [] {
      IntegrationNames(known, offered[..|offered| - 1]);
      OfferedNamesFront(offered);
    }
  }

  /** A new name is described by the first offer carrying it; later offers of it are ignored. */
  lemma {:induction false} FirstOfferWins(known: map<string, SettingInfo>, offered: seq<(string, SettingInfo)>, j: nat)
    requires j < |offered| && offered[j].0 !in known
    requires forall i | 0 <= i < j :: offered[i].0 != offered[j].0
    ensures offered[j].0 in Integrated(known, offered)
    ensures Integrated(known, offered)[offered[j].0] == offered[j].1
  {
    var front := offered[..|offered| - 1];
    if j == |offered| - 1 {
      IntegrationNames(known, front);
      assert forall i | 0 <= i < |front| :: front[i].0 != offered[j].0 by {
        forall i | 0 <= i < |front|
          ensures front[i].0 != offered[j].0
        {
          assert front[i] == offered[i];
        }
      }
      assert offered[j].0 !in OfferedNames(front);
    } else {
      assert front[j] == offered[j];
      FirstOfferWins(known, front, j);
    }
  }
}
