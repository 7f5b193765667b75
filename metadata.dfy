/**
 * The settings registry: what is known about each setting (its category,
 * type, default and impact level) and the dependency graph between
 * settings.  The registry is an object whose dictionaries are updated in
 * place, so it is a class; a Python dictionary keeps its insertion order,
 * which the queries iterate in, so the setting names are kept in that
 * order beside the map.
 */
module Metadata {
  import opened Values

  /** The fields of a setting's metadata; descriptions are prose and left out. */
  datatype SettingInfo = SettingInfo(
    displayName: string,
    category: Option<string>,
    subcategory: Option<string>,
    dataType: string,
    defaultValue: Option<Value>,
    minValue: Option<Value>,
    maxValue: Option<Value>,
    impactLevel: Option<int>)

  /** `setting.get('impact_level', 0)`. */
  function ImpactOf(info: SettingInfo): (n: int)
    ensures info.impactLevel.None? ==> n == 0
    ensures info.impactLevel.Some? ==> n == info.impactLevel.value
  {
    if info.impactLevel.Some? then info.impactLevel.value else 0
  }

  /** One dependency entry of a driving setting: the setting it affects and how. */
  datatype Dependency = Dependency(affects: Option<string>, relationship: string, factor: Option<real>)

  /** A dictionary from driving settings to their dependency lists, in insertion order. */
  type Graph = seq<(string, seq<Dependency>)>

  predicate DistinctDrivers(g: Graph) {
    forall i, j | 0 <= i < j < |g| :: g[i].0 != g[j].0
  }

  /** `dependencies.get(name, [])`: the first entry of that name, or no dependencies. */
  function DependenciesIn(g: Graph, name: string): (ds: seq<Dependency>)
    ensures (forall i | 0 <= i < |g| :: g[i].0 != name) ==> ds == []
    ensures forall i | 0 <= i < |g| :: g[i].0 == name && (forall j | 0 <= j < i :: g[j].0 != name) ==> ds == g[i].1
  {
    if g == [] then []
    else if g[0].0 == name then g[0].1
    else
      assert forall i | 1 <= i < |g| :: g[1..][i - 1] == g[i];
      DependenciesIn(g[1..], name)
  }

  /** The driver's name once for every one of its entries that affects `target`, in list order. */
  function DriverOnce(driver: string, ds: seq<Dependency>, target: string): (r: seq<string>)
    ensures |r| <= |ds|
    ensures forall x | x in r :: x == driver
  {
    if ds == [] then []
    else (if ds[0].affects == Some(target) then [driver] else []) + DriverOnce(driver, ds[1..], target)
  }

  /** The inner loop of `get_dependent_settings`: the driver once per entry of its list that affects `target`. */
  method DriverDependents(driver: string, ds: seq<Dependency>, target: string) returns (r: seq<string>)
    ensures r == DriverOnce(driver, ds, target)
  {
    r := [];
    var j := 0;
    while j < |ds|
      invariant 0 <= j <= |ds|
      invariant r + DriverOnce(driver, ds[j..], target) == DriverOnce(driver, ds, target)
    {
      assert ds[j..][1..] == ds[j + 1..];
      if ds[j].affects == Some(target) {
        r := r + [driver];
      }
      j := j + 1;
    }
    assert ds[j..] == [];
  }

  /** The reverse lookup, as the nested loop of `get_dependent_settings` builds it. */
  function DependentsIn(g: Graph, target: string): seq<string> {
    if g == [] then [] else DriverOnce(g[0].0, g[0].1, target) + DependentsIn(g[1..], target)
  }

  /** The number of entries of `ds` that affect `target`. */
  function AffectCount(ds: seq<Dependency>, target: string): nat {
    if ds == [] then 0
    else (if ds[0].affects == Some(target) then 1 else 0) + AffectCount(ds[1..], target)
  }

  /** A driver's entries yield its name exactly once per entry that affects the target. */
  lemma {:induction false} DriverOnceCount(driver: string, ds: seq<Dependency>, target: string)
    ensures |DriverOnce(driver, ds, target)| == AffectCount(ds, target)
    ensures driver in DriverOnce(driver, ds, target) <==>
      exists j | 0 <= j < |ds| :: ds[j].affects == Some(target)
  {
    if ds != [] {
      DriverOnceCount(driver, ds[1..], target);
      if ds[0].affects != Some(target) {
        forall j | 1 <= j < |ds| && ds[j].affects == Some(target)
          ensures exists j' | 0 <= j' < |ds[1..]| :: ds[1..][j'].affects == Some(target)
        {
          assert ds[1..][j - 1] == ds[j];
        }
      }
      if exists j | 1 <= j < |ds| :: ds[j].affects == Some(target) {
      } else {
        forall j' | 0 <= j' < |ds[1..]|
          ensures ds[1..][j'].affects != Some(target)
        {
          assert ds[1..][j'] == ds[j' + 1];
        }
      }
    }
  }

  /**
   * A name is a dependent of `target` exactly when some driver of that
   * name has an entry affecting `target`.
   */
  lemma {:induction false} DependentsMembership(g: Graph, target: string, x: string)
    ensures x in DependentsIn(g, target) <==>
      exists i, j | 0 <= i < |g| && 0 <= j < |g[i].1| :: g[i].0 == x && g[i].1[j].affects == Some(target)
  {
    if g != [] {
      DependentsMembership(g[1..], target, x);
      DriverOnceCount(g[0].0, g[0].1, target);
      var rest := DependentsIn(g[1..], target);
      if x in rest {
        var i, j :| 0 <= i < |g[1..]| && 0 <= j < |g[1..][i].1| && g[1..][i].0 == x && g[1..][i].1[j].affects == Some(target);
        assert g[i + 1] == g[1..][i];
      }
      if exists i, j | 0 <= i < |g| && 0 <= j < |g[i].1| :: g[i].0 == x && g[i].1[j].affects == Some(target) {
        var i, j :| 0 <= i < |g| && 0 <= j < |g[i].1| && g[i].0 == x && g[i].1[j].affects == Some(target);
        if i > 0 {
          assert g[1..][i - 1] == g[i];
        }
      }
    }
  }

  /** A driver and the setting one of its entries affects. */
  predicate Edge(g: Graph, a: string, b: string) {
    exists i, j | 0 <= i < |g| && 0 <= j < |g[i].1| :: g[i].0 == a && g[i].1[j].affects == Some(b)
  }

  /** A chain of settings each affecting the next. */
  predicate IsPath(g: Graph, p: seq<string>) {
    forall i | 0 <= i < |p| - 1 :: Edge(g, p[i], p[i + 1])
  }

  /** The default dependency graph. */
  const DefaultDependencies: Graph := [
    ("layer_height", [
      Dependency(Some("initial_layer_height"), "multiplier", Some(1.5)),
      Dependency(Some("top_layers"), "inverse", None),
      Dependency(Some("bottom_layers"), "inverse", None),
      Dependency(Some("print_speed"), "inverse", None)]),
    ("nozzle_size", [
      Dependency(Some("layer_height"), "range", None),
      Dependency(Some("line_width"), "multiplier", Some(1.1))]),
    ("line_width", [
      Dependency(Some("wall_thickness"), "multiplier", None)]),
    ("print_speed", [
      Dependency(Some("outer_wall_speed"), "multiplier", Some(0.5)),
      Dependency(Some("inner_wall_speed"), "multiplier", Some(0.8)),
      Dependency(Some("infill_speed"), "multiplier", Some(1.2)),
      Dependency(Some("travel_speed"), "multiplier", Some(1.5))]),
    ("retraction_enable", [
      Dependency(Some("z_hop_enable"), "requirement", None)]),
    ("support_enable", [
      Dependency(Some("support_type"), "requirement", None),
      Dependency(Some("support_angle"), "requirement", None)]),
    ("adhesion_type", [
      Dependency(Some("skirt_line_count"), "conditional", None),
      Dependency(Some("brim_width"), "conditional", None)])
  ]

  /** How far down the default graph a setting sits: every edge goes down at least one level. */
  function Depth(name: string): nat {
    if name == "nozzle_size" || name == "retraction_enable" || name == "support_enable" || name == "adhesion_type" then 0
    else if name == "layer_height" || name == "line_width" then 1
    else if name == "print_speed" || name == "wall_thickness" then 2
    else 3
  }

  /** Each entry of the default graph affects a setting further down than its driver. */
  lemma DefaultEntryDescends(i: nat, j: nat)
    requires i < |DefaultDependencies| && j < |DefaultDependencies[i].1|
    ensures DefaultDependencies[i].1[j].affects.Some?
    ensures Depth(DefaultDependencies[i].0) < Depth(DefaultDependencies[i].1[j].affects.value)
  {
    var g := DefaultDependencies;
    if i == 0 {
      assert Depth("layer_height") == 1;
      assert j < 4;
    } else if i == 1 {
      assert Depth("nozzle_size") == 0;
    } else if i == 2 {
      assert Depth("line_width") == 1 && Depth("wall_thickness") == 2;
    } else if i == 3 {
      assert Depth("print_speed") == 2;
      assert j < 4;
    } else if i == 4 {
      assert Depth("retraction_enable") == 0;
    } else if i == 5 {
      assert Depth("support_enable") == 0;
    } else {
      assert Depth("adhesion_type") == 0;
    }
  }

  lemma DefaultEdgesDescend(a: string, b: string)
    requires Edge(DefaultDependencies, a, b)
    ensures Depth(a) < Depth(b)
  {
    var g := DefaultDependencies;
    var i, j :| 0 <= i < |g| && 0 <= j < |g[i].1| && g[i].0 == a && g[i].1[j].affects == Some(b);
    DefaultEntryDescends(i, j);
  }

  lemma {:induction false} PathDescends(p: seq<string>)
    requires IsPath(DefaultDependencies, p) && |p| >= 2
    ensures Depth(p[0]) < Depth(p[|p| - 1])
    decreases |p|
  {
    DefaultEdgesDescend(p[0], p[1]);
    if |p| > 2 {
      var q := p[1..];
      forall i | 0 <= i < |q| - 1
        ensures Edge(DefaultDependencies, q[i], q[i + 1])
      {
        assert q[i] == p[i + 1] && q[i + 1] == p[i + 2];
      }
      PathDescends(q);
    }
  }

  /** The default dependency graph has no cycle: no chain of effects leads back to where it started. */
  lemma DefaultGraphAcyclic(p: seq<string>)
    requires IsPath(DefaultDependencies, p) && |p| >= 2
    ensures p[0] != p[|p| - 1]
  {
    PathDescends(p);
  }

  lemma DefaultDriversDistinct()
    ensures DistinctDrivers(DefaultDependencies)
  {
  }

  /** The settings registry. */
  class SettingsMetadata {
    var settings: map<string, SettingInfo>
    /** The setting names in insertion order. */
    var names: seq<string>
    var dependencies: Graph

    ghost predicate Valid()
      reads this
    {
      (forall i, j | 0 <= i < j < |names| :: names[i] != names[j]) &&
      (forall n :: n in settings <==> n in names) &&
      DistinctDrivers(dependencies)
    }

    /** A registry holding what was loaded: no settings yet and the given dependency graph. */
    constructor(graph: Graph)
      requires DistinctDrivers(graph)
      ensures Valid()
      ensures settings == map[] && names == [] && dependencies == graph
    {
      settings := map[];
      names := [];
      dependencies := graph;
    }

    /** `get_setting`: the metadata of a known setting; an unknown one has none (`{}`). */
    function GetSetting(name: string): (r: Option<SettingInfo>)
      reads this
      ensures r.Some? <==> name in settings
      ensures r.Some? ==> r.value == settings[name]
    {
      if name in settings then Some(settings[name]) else None
    }

    /** `get_dependencies`: the dependency list of a setting, `[]` when it has none. */
    function GetDependencies(name: string): (ds: seq<Dependency>)
      reads this
      ensures (forall i | 0 <= i < |dependencies| :: dependencies[i].0 != name) ==> ds == []
    {
      DependenciesIn(dependencies, name)
    }

    /** `get_settings_by_category`: exactly the entries whose category is the argument. */
    method GetSettingsByCategory(category: string) returns (r: map<string, SettingInfo>)
      requires Valid()
      ensures forall n :: n in r <==> n in settings && settings[n].category == Some(category)
      ensures forall n | n in r :: r[n] == settings[n]
    {
      r := map[];
      var i := 0;
      while i < |names|
        invariant 0 <= i <= |names|
        invariant forall n :: n in r <==> n in names[..i] && settings[n].category == Some(category)
        invariant forall n | n in r :: r[n] == settings[n]
      {
        var n := names[i];
        if settings[n].category == Some(category) {
          r := r[n := settings[n]];
        }
        assert names[..i + 1] == names[..i] + [n];
        i := i + 1;
      }
      assert names[..i] == names;
    }

    /** `get_settings_by_impact`: impact levels within both bounds inclusive, a missing level counting as 0. */
    method GetSettingsByImpact(minImpact: int, maxImpact: int) returns (r: map<string, SettingInfo>)
      requires Valid()
      ensures forall n :: n in r <==> n in settings && minImpact <= ImpactOf(settings[n]) <= maxImpact
      ensures forall n | n in r :: r[n] == settings[n]
    {
      r := map[];
      var i := 0;
      while i < |names|
        invariant 0 <= i <= |names|
        invariant forall n :: n in r <==> n in names[..i] && minImpact <= ImpactOf(settings[n]) <= maxImpact
        invariant forall n | n in r :: r[n] == settings[n]
      {
        var n := names[i];
        var impact := ImpactOf(settings[n]);
        if minImpact <= impact <= maxImpact {
          r := r[n := settings[n]];
        }
        assert names[..i + 1] == names[..i] + [n];
        i := i + 1;
      }
      assert names[..i] == names;
    }

    /** `get_dependent_settings`: every driver once per entry of its list that affects `name`. */
    method GetDependentSettings(name: string) returns (r: seq<string>)
      ensures r == DependentsIn(dependencies, name)
    {
      r := [];
      var i := 0;
      while i < |dependencies|
        invariant 0 <= i <= |dependencies|
        invariant r + DependentsIn(dependencies[i..], name) == DependentsIn(dependencies, name)
      {
        var found := DriverDependents(dependencies[i].0, dependencies[i].1, name);
        assert dependencies[i..][0] == dependencies[i] && dependencies[i..][1..] == dependencies[i + 1..];
        assert DependentsIn(dependencies[i..], name) == found + DependentsIn(dependencies[i + 1..], name);
        assert (r + found) + DependentsIn(dependencies[i + 1..], name) == r + DependentsIn(dependencies[i..], name);
        r := r + found;
        i := i + 1;
      }
      assert dependencies[i..] == [];
    }

    /** `add_setting`: refuses a known name; otherwise inserts that one key at the end. */
    method AddSetting(name: string, info: SettingInfo) returns (added: bool)
      requires Valid()
      modifies this
      ensures Valid()
      ensures added <==> name !in old(settings)
      ensures added ==> settings == old(settings)[name := info] && names == old(names) + [name]
      ensures !added ==> settings == old(settings) && names == old(names)
      ensures dependencies == old(dependencies)
    {
      if name in settings {
        return false;
      }
      settings := settings[name := info];
      names := names + [name];
      return true;
    }

    /** `update_setting`: refuses an unknown name; otherwise replaces only that key. */
    method UpdateSetting(name: string, info: SettingInfo) returns (updated: bool)
      requires Valid()
      modifies this
      ensures Valid()
      ensures updated <==> name in old(settings)
      ensures updated ==> settings == old(settings)[name := info]
      ensures !updated ==> settings == old(settings)
      ensures names == old(names) && dependencies == old(dependencies)
    {
      if name !in settings {
        return false;
      }
      settings := settings[name := info];
      return true;
    }

    /**
     * `add_dependency`: appends to the end of the setting's list, creating
     * the list at the end of the dictionary when the setting had none;
     * always succeeds.
     */
    method AddDependency(name: string, dep: Dependency) returns (ok: bool)
      requires Valid()
      modifies this
      ensures Valid() && ok
      ensures dependencies == Appended(old(dependencies), name, dep)
      ensures DependenciesIn(dependencies, name) == DependenciesIn(old(dependencies), name) + [dep]
      ensures forall n | n != name :: DependenciesIn(dependencies, n) == DependenciesIn(old(dependencies), n)
      ensures settings == old(settings) && names == old(names)
    {
      dependencies := Appended(dependencies, name, dep);
      AppendedLists(old(dependencies), name, dep);
      return true;
    }
  }

  /** The graph with `dep` appended to `name`'s list, or a new list `[dep]` at the end. */
  function Appended(g: Graph, name: string, dep: Dependency): (r: Graph)
    ensures |r| == |g| || r == g + [(name, [dep])]
    ensures forall i | 0 <= i < |g| :: r[i].0 == g[i].0
    ensures (forall i | 0 <= i < |g| :: g[i].0 != name) ==> r == g + [(name, [dep])]
    ensures DistinctDrivers(g) ==> DistinctDrivers(r)
  {
    if g == [] then [(name, [dep])]
    else if g[0].0 == name then [(name, g[0].1 + [dep])] + g[1..]
    else [g[0]] + Appended(g[1..], name, dep)
  }

  lemma {:induction false} AppendedLists(g: Graph, name: string, dep: Dependency)
    ensures DependenciesIn(Appended(g, name, dep), name) == DependenciesIn(g, name) + [dep]
    ensures forall n | n != name :: DependenciesIn(Appended(g, name, dep), n) == DependenciesIn(g, n)
  {
    if g != [] && g[0].0 != name {
      AppendedLists(g[1..], name, dep);
      var r := Appended(g, name, dep);
      assert r[1..] == Appended(g[1..], name, dep);
    }
  }
}
