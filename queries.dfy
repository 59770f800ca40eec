/**
 * The production-graph queries of python/bot/bot.py over the static catalog: which buildings,
 * combat units and resources the bot's race (or every race) can make, which recipe produces a
 * target, which building runs a recipe, and what a building costs to construct.
 *
 * Where the source iterates a Python set or dict, the model iterates the underlying list in
 * its order. Contracts never say which of several matches a search returns, only that it
 * matches, and that a search comes back empty exactly when nothing matches.
 * Where the source reads the `id` field of a table entry, the model uses the entry's key;
 * the two agree on a `WellFormed` catalog.
 */
module Queries {
  import opened Wrappers
  import opened Catalog

  /* ---------------- get_static_buildings ---------------- */

  /** The construction ids `get_static_buildings` iterates: the race's own list, or every construction key. */
  function ScopeConstructionIds(cat: Catalog, myRace: bool): seq<int> {
    if myRace && RaceData(cat).Some? then RaceData(cat).value.constructions.GetOr([])
    else KeyList(cat.constructions)
  }

  /** Construction `cid` is a live construction of the catalog whose output is the live unit `k`. */
  predicate Builds(cat: Catalog, cid: int, k: int) {
    && !Ignored(cid)
    && !Ignored(k)
    && Lookup(cat.constructions, cid).Some?
    && Lookup(cat.constructions, cid).value.output == Some(k)
    && k in Keys(cat.units)
  }

  /** The unit the construction `cid` contributes to the building set, if any. */
  function BuildingOf(cat: Catalog, cid: int): (r: Option<Entry>)
    ensures forall k :: Builds(cat, cid, k) <==> r.Some? && r.value.key == k
    ensures r.Some? ==> Lookup(cat.units, r.value.key) == Some(r.value.proto)
  {
    if Ignored(cid) then None
    else
      match Lookup(cat.constructions, cid)
      case None => None
      case Some(c) =>
        if c.output.None? || Ignored(c.output.value) then None
        else
          match Lookup(cat.units, c.output.value)
          case None => None
          case Some(u) => Some(Entry(c.output.value, u))
  }

  /** The building table `get_static_buildings` fills while visiting `ids` in order. */
  function StaticBuildingsFrom(cat: Catalog, ids: seq<int>): (r: Table)
    ensures forall k :: k in Keys(r) <==> exists i :: 0 <= i < |ids| && Builds(cat, ids[i], k)
    ensures forall k :: k in Keys(r) ==> Lookup(r, k) == Lookup(cat.units, k)
  {
    if |ids| == 0 then []
    else
      var prev := StaticBuildingsFrom(cat, ids[..|ids| - 1]);
      assert forall i :: 0 <= i < |ids| - 1 ==> ids[..|ids| - 1][i] == ids[i];
      match BuildingOf(cat, ids[|ids| - 1])
      case None => prev
      case Some(e) => Put(prev, e.key, e.proto)
  }

  /** `get_static_buildings(my_race)`: unit id -> unit, for every unit some scoped construction builds. */
  function StaticBuildings(cat: Catalog, myRace: bool): Table {
    StaticBuildingsFrom(cat, ScopeConstructionIds(cat, myRace))
  }

  method GetStaticBuildings(cat: Catalog, myRace: bool) returns (res: Table)
    ensures res == StaticBuildings(cat, myRace)
  {
    var ids := ScopeConstructionIds(cat, myRace);
    res := [];
    var i := 0;
    while i < |ids|
      invariant 0 <= i <= |ids|
      invariant res == StaticBuildingsFrom(cat, ids[..i])
    {
      var cid := ids[i];
      assert ids[..i + 1][..i] == ids[..i];
      if !Ignored(cid) {
        var c := Lookup(cat.constructions, cid);
        if c.Some? && !(c.value.output.None? || Ignored(c.value.output.value)) {
          var outputId := c.value.output.value;
          var unit := Lookup(cat.units, outputId);
          if unit.Some? {
            res := Put(res, outputId, unit.value);
          }
        }
      }
      i := i + 1;
    }
    assert ids[..i] == ids;
  }

  /** The race's buildings are a sub-map of all buildings; neither holds an ignored unit or one only an ignored construction builds. */
  lemma RaceBuildingsWithinGlobal(cat: Catalog)
    ensures Keys(StaticBuildings(cat, true)) <= Keys(StaticBuildings(cat, false))
    ensures forall k :: k in Keys(StaticBuildings(cat, true)) ==>
              Lookup(StaticBuildings(cat, true), k) == Lookup(StaticBuildings(cat, false), k)
    ensures forall myRace, k :: k in Keys(StaticBuildings(cat, myRace)) ==>
              !Ignored(k) && exists cid :: Builds(cat, cid, k)
  {
    var race := ScopeConstructionIds(cat, true);
    var all := ScopeConstructionIds(cat, false);
    forall k | k in Keys(StaticBuildings(cat, true)) ensures k in Keys(StaticBuildings(cat, false)) {
      var i :| 0 <= i < |race| && Builds(cat, race[i], k);
      var cid := race[i];
      var j :| 0 <= j < |cat.constructions| && cat.constructions[j].key == cid;
      assert all[j] == cid;
    }
  }

  /* ---------------- recipes offered ---------------- */

  /** The non-ignored ids of `s`, in order. */
  function Live(s: seq<int>): (r: seq<int>)
    ensures forall x :: x in r <==> x in s && !Ignored(x)
  {
    if |s| == 0 then []
    else Live(s[..|s| - 1]) + (if Ignored(s[|s| - 1]) then [] else [s[|s| - 1]])
  }

  /** The non-ignored recipe ids the buildings of `t` list, building by building. */
  function OfferedRecipes(t: Table): (r: seq<int>)
    ensures forall rid :: rid in r <==> !Ignored(rid) && exists i :: 0 <= i < |t| && rid in t[i].proto.recipes
  {
    if |t| == 0 then []
    else
      assert forall i :: 0 <= i < |t| - 1 ==> t[..|t| - 1][i] == t[i];
      OfferedRecipes(t[..|t| - 1]) + Live(t[|t| - 1].proto.recipes)
  }

  /** The `allowed` recipe set of the lookups, and the recipe set of `get_static_combat/resources`. */
  function AllowedRecipes(cat: Catalog, myRace: bool): (r: seq<int>)
    ensures forall rid :: rid in r ==> !Ignored(rid)
  {
    if myRace then OfferedRecipes(StaticBuildings(cat, true)) else Live(KeyList(cat.recipes))
  }

  /** Recipe `rid` is present, live and lists `target` among its outputs. */
  predicate ProducesTarget(cat: Catalog, rid: int, target: int) {
    && !Ignored(rid)
    && Lookup(cat.recipes, rid).Some?
    && target in Lookup(cat.recipes, rid).value.outputs
  }

  /* ---------------- get_static_combat / get_static_resources ---------------- */

  /** Entry `k` of `target` survives the output filters: present, not ignored, and not the ATV when asked. */
  predicate Kept(target: Table, skipAtv: bool, k: int) {
    k in Keys(target) && !Ignored(k) && !(skipAtv && k == ATV_PROTO_ID)
  }

  /** The entries of `target` that some allowed recipe outputs, ignored ids (and the ATV, when asked) dropped. */
  function StaticOutputs(cat: Catalog, myRace: bool, target: Table, skipAtv: bool): (r: map<int, Proto>)
    ensures forall k :: k in r ==> !Ignored(k) && !(skipAtv && k == ATV_PROTO_ID)
    ensures forall k :: k in r <==>
              Kept(target, skipAtv, k) && exists rid :: rid in AllowedRecipes(cat, myRace) && ProducesTarget(cat, rid, k)
    ensures forall k :: k in r ==> Lookup(target, k) == Some(r[k])
  {
    map k | k in Keys(target) && Kept(target, skipAtv, k) && (exists rid :: rid in AllowedRecipes(cat, myRace) && ProducesTarget(cat, rid, k))
      :: Lookup(target, k).value
  }

  /** `get_static_combat(my_race)`. */
  function StaticCombat(cat: Catalog, myRace: bool): map<int, Proto> {
    StaticOutputs(cat, myRace, cat.units, true)
  }

  /** `get_static_resources(my_race)`. */
  function StaticResources(cat: Catalog, myRace: bool): map<int, Proto> {
    StaticOutputs(cat, myRace, cat.resources, false)
  }

  /** The inner loop over one recipe's output ids. */
  method AddOutputs(res0: map<int, Proto>, outs: seq<int>, target: Table, skipAtv: bool) returns (res: map<int, Proto>)
    requires forall k :: k in res0 ==> Lookup(target, k) == Some(res0[k])
    ensures forall k :: k in res <==> k in res0 || (k in outs && Kept(target, skipAtv, k))
    ensures forall k :: k in res ==> Lookup(target, k) == Some(res[k])
  {
    res := res0;
    var j := 0;
    while j < |outs|
      invariant 0 <= j <= |outs|
      invariant forall k :: k in res <==> k in res0 || (k in outs[..j] && Kept(target, skipAtv, k))
      invariant forall k :: k in res ==> Lookup(target, k) == Some(res[k])
    {
      var outId := outs[j];
      assert outs[..j + 1] == outs[..j] + [outId];
      if !Ignored(outId) && !(skipAtv && outId == ATV_PROTO_ID) {
        var entry := Lookup(target, outId);
        if entry.Some? {
          res := res[outId := entry.value];
        }
      }
      j := j + 1;
    }
    assert outs[..j] == outs;
  }

  /** `res` holds exactly the kept entries of `target` that one of the recipes `rids` outputs. */
  ghost predicate CollectedFrom(cat: Catalog, rids: seq<int>, target: Table, skipAtv: bool, res: map<int, Proto>) {
    && (forall k :: k in res <==> Kept(target, skipAtv, k) && exists rid :: rid in rids && ProducesTarget(cat, rid, k))
    && (forall k :: k in res ==> Lookup(target, k) == Some(res[k]))
  }

  /**
   * The loop shared by `get_static_combat` and `get_static_resources`: for each allowed recipe,
   * for each of its outputs, keep the catalog entry of `target` under that id.
   */
  method CollectOutputs(cat: Catalog, myRace: bool, target: Table, skipAtv: bool) returns (res: map<int, Proto>)
    ensures res == StaticOutputs(cat, myRace, target, skipAtv)
  {
    var recipeIds := AllowedRecipes(cat, myRace);
    res := map[];
    var i := 0;
    while i < |recipeIds|
      invariant 0 <= i <= |recipeIds|
      invariant CollectedFrom(cat, recipeIds[..i], target, skipAtv, res)
    {
      assert recipeIds[..i + 1] == recipeIds[..i] + [recipeIds[i]];
      res := AddRecipeOutputs(cat, recipeIds[..i], recipeIds[i], res, target, skipAtv);
      i := i + 1;
    }
    assert recipeIds[..i] == recipeIds;
    CollectedIsStatic(cat, myRace, recipeIds, target, skipAtv, res);
  }

  /** The body of the outer loop: the outputs of one more recipe, when it is live and present. */
  method AddRecipeOutputs(cat: Catalog, ghost done: seq<int>, rid: int, res0: map<int, Proto>, target: Table,
                          skipAtv: bool) returns (res: map<int, Proto>)
    requires CollectedFrom(cat, done, target, skipAtv, res0)
    ensures CollectedFrom(cat, done + [rid], target, skipAtv, res)
  {
    var r := Lookup(cat.recipes, rid);
    res := res0;
    if !Ignored(rid) && r.Some? {
      res := AddOutputs(res0, r.value.outputs, target, skipAtv);
    }
    forall k ensures k in res <==> Kept(target, skipAtv, k) && exists x :: x in done + [rid] && ProducesTarget(cat, x, k) {
      if k in res && !(exists x :: x in done && ProducesTarget(cat, x, k)) {
        assert rid in done + [rid] && ProducesTarget(cat, rid, k);
      }
      if Kept(target, skipAtv, k) && exists x :: x in done + [rid] && ProducesTarget(cat, x, k) {
        var x :| x in done + [rid] && ProducesTarget(cat, x, k);
        if x != rid {
          assert x in done;
        }
      }
    }
  }

  /** The collected map over all allowed recipes is the comprehension `StaticOutputs`. */
  lemma CollectedIsStatic(cat: Catalog, myRace: bool, recipeIds: seq<int>, target: Table, skipAtv: bool,
                          res: map<int, Proto>)
    requires recipeIds == AllowedRecipes(cat, myRace)
    requires CollectedFrom(cat, recipeIds, target, skipAtv, res)
    ensures res == StaticOutputs(cat, myRace, target, skipAtv)
  {
    CollectedKeys(cat, myRace, recipeIds, target, skipAtv, res);
  }

  lemma CollectedKeys(cat: Catalog, myRace: bool, recipeIds: seq<int>, target: Table, skipAtv: bool,
                      res: map<int, Proto>)
    requires recipeIds == AllowedRecipes(cat, myRace)
    requires CollectedFrom(cat, recipeIds, target, skipAtv, res)
    ensures res.Keys == StaticOutputs(cat, myRace, target, skipAtv).Keys
  {
    ghost var spec := StaticOutputs(cat, myRace, target, skipAtv);
    forall k ensures k in res <==> k in spec {
      if k in spec {
        var rid :| rid in recipeIds && ProducesTarget(cat, rid, k);
      }
    }
  }

  /** The race's combat units and resources are sub-maps of the global ones. */
  lemma RaceOutputsWithinGlobal(cat: Catalog, target: Table, skipAtv: bool)
    ensures forall k :: k in StaticOutputs(cat, true, target, skipAtv) ==>
              k in StaticOutputs(cat, false, target, skipAtv)
              && StaticOutputs(cat, true, target, skipAtv)[k] == StaticOutputs(cat, false, target, skipAtv)[k]
  {
    forall k | k in StaticOutputs(cat, true, target, skipAtv)
      ensures k in StaticOutputs(cat, false, target, skipAtv)
    {
      var rid :| rid in AllowedRecipes(cat, true) && ProducesTarget(cat, rid, k);
      var j :| 0 <= j < |cat.recipes| && cat.recipes[j].key == rid;
      assert KeyList(cat.recipes)[j] == rid;
      assert rid in AllowedRecipes(cat, false);
    }
  }

  /* ---------------- get_recipe_for_resource / get_recipes_for_combat ---------------- */

  /** The first id of `allowed` naming a live recipe that outputs `target`. */
  function FirstProducer(cat: Catalog, allowed: seq<int>, target: int): (r: Option<Entry>)
    ensures r.Some? ==> r.value.key in allowed && ProducesTarget(cat, r.value.key, target)
                        && Lookup(cat.recipes, r.value.key) == Some(r.value.proto)
    ensures r.None? <==> forall i :: 0 <= i < |allowed| ==> !ProducesTarget(cat, allowed[i], target)
  {
    if |allowed| == 0 then None
    else
      assert forall i :: 1 <= i < |allowed| ==> allowed[i] == allowed[1..][i - 1];
      var rid := allowed[0];
      var r := Lookup(cat.recipes, rid);
      if !Ignored(rid) && r.Some? && target in r.value.outputs then Some(Entry(rid, r.value))
      else FirstProducer(cat, allowed[1..], target)
  }

  /**
   * `get_recipe_for_resource(target, my_race)`, and `get_recipes_for_combat`, which has the same
   * body: no recipe for an ignored target; otherwise an allowed, live recipe with `target` among
   * its outputs, and none exactly when no allowed recipe has it.
   */
  function ProducingRecipe(cat: Catalog, target: int, myRace: bool): (r: Option<Entry>)
    ensures Ignored(target) ==> r.None?
    ensures r.Some? ==> r.value.key in AllowedRecipes(cat, myRace) && ProducesTarget(cat, r.value.key, target)
                        && Lookup(cat.recipes, r.value.key) == Some(r.value.proto)
    ensures r.None? && !Ignored(target) ==>
              forall rid :: rid in AllowedRecipes(cat, myRace) ==> !ProducesTarget(cat, rid, target)
  {
    if Ignored(target) then None else FirstProducer(cat, AllowedRecipes(cat, myRace), target)
  }

  /** The search loop of `get_recipe_for_resource` and `get_recipes_for_combat`, with its early return. */
  method FindProducingRecipe(cat: Catalog, target: int, myRace: bool) returns (r: Option<Entry>)
    ensures r == ProducingRecipe(cat, target, myRace)
  {
    if Ignored(target) {
      return None;
    }
    var allowed := AllowedRecipes(cat, myRace);
    var i := 0;
    while i < |allowed|
      invariant 0 <= i <= |allowed|
      invariant FirstProducer(cat, allowed[i..], target) == FirstProducer(cat, allowed, target)
    {
      var rid := allowed[i];
      assert allowed[i..][1..] == allowed[i + 1..];
      if !Ignored(rid) {
        var recipe := Lookup(cat.recipes, rid);
        if recipe.Some? && target in recipe.value.outputs {
          return Some(Entry(rid, recipe.value));
        }
      }
      i := i + 1;
    }
    return None;
  }

  /* ---------------- get_buildings_for_recipe ---------------- */

  /** The units `get_buildings_for_recipe` searches: the race's buildings, or every unit. */
  function SearchUnits(cat: Catalog, myRace: bool): (t: Table)
    ensures forall i :: 0 <= i < |t| ==> t[i].key in Keys(cat.units)
  {
    var t := if myRace then StaticBuildings(cat, true) else cat.units;
    assert forall i :: 0 <= i < |t| ==> t[i].key in Keys(t);
    t
  }

  /** Unit `u` is live (by its own `id`) and lists recipe `rid`. */
  predicate Offers(u: Entry, rid: int) {
    !IgnoredId(u.proto.id) && rid in u.proto.recipes
  }

  function FirstOffering(t: Table, rid: int): (r: Option<Entry>)
    ensures r.Some? ==> r.value in t && Offers(r.value, rid)
    ensures r.None? <==> forall i :: 0 <= i < |t| ==> !Offers(t[i], rid)
  {
    if |t| == 0 then None
    else
      assert forall i :: 1 <= i < |t| ==> t[i] == t[1..][i - 1];
      if Offers(t[0], rid) then Some(t[0]) else FirstOffering(t[1..], rid)
  }

  /**
   * `get_buildings_for_recipe(rid, my_race)`: none for an ignored recipe; otherwise a live unit
   * of the searched table that lists `rid`, and none exactly when no searched unit does.
   */
  function BuildingsForRecipe(cat: Catalog, rid: int, myRace: bool): (r: Option<Entry>)
    ensures Ignored(rid) ==> r.None?
    ensures r.Some? ==> r.value in SearchUnits(cat, myRace) && Offers(r.value, rid) && r.value.key in Keys(cat.units)
    ensures r.None? && !Ignored(rid) ==>
              forall i :: 0 <= i < |SearchUnits(cat, myRace)| ==> !Offers(SearchUnits(cat, myRace)[i], rid)
  {
    if Ignored(rid) then None else FirstOffering(SearchUnits(cat, myRace), rid)
  }

  /** The search loop of `get_buildings_for_recipe`, with its early return. */
  method FindOffering(units: Table, rid: int) returns (r: Option<Entry>)
    ensures r == FirstOffering(units, rid)
  {
    var i := 0;
    while i < |units|
      invariant 0 <= i <= |units|
      invariant FirstOffering(units[i..], rid) == FirstOffering(units, rid)
    {
      var u := units[i];
      assert units[i..][1..] == units[i + 1..];
      if !IgnoredId(u.proto.id) && rid in u.proto.recipes {
        return Some(u);
      }
      i := i + 1;
    }
    return None;
  }

  /** `get_buildings_for_recipe(rid, my_race)` as the source runs it. */
  method FindBuilding(cat: Catalog, rid: int, myRace: bool) returns (r: Option<Entry>)
    ensures r == BuildingsForRecipe(cat, rid, myRace)
  {
    if Ignored(rid) {
      return None;
    }
    var units := cat.units;
    if myRace {
      units := GetStaticBuildings(cat, true);
    }
    r := FindOffering(units, rid);
  }

  /* ---------------- get_building_inputs / get_construction_cost ---------------- */

  /** Construction entry `c` is live (by its own `id`) and outputs building `bid`. */
  predicate ConstructsUnit(c: Entry, bid: int) {
    !IgnoredId(c.proto.id) && c.proto.output == Some(bid)
  }

  function FirstConstruction(t: Table, bid: int): (r: Option<nat>)
    ensures r.Some? ==> r.value < |t| && ConstructsUnit(t[r.value], bid)
                        && forall j :: 0 <= j < r.value ==> !ConstructsUnit(t[j], bid)
    ensures r.None? <==> forall i :: 0 <= i < |t| ==> !ConstructsUnit(t[i], bid)
  {
    if |t| == 0 then None
    else if ConstructsUnit(t[0], bid) then Some(0)
    else
      assert forall i :: 1 <= i < |t| ==> t[i] == t[1..][i - 1];
      match FirstConstruction(t[1..], bid)
      case None => None
      case Some(j) => Some(j + 1)
  }

  /**
   * `get_building_inputs(bid)`, which `get_construction_cost` returns unchanged: nothing for an
   * ignored building or one no live construction outputs, otherwise the inputs of the first
   * live construction that outputs it.
   */
  function BuildingInputs(cat: Catalog, bid: int): (r: seq<(int, int)>)
    ensures (Ignored(bid) || forall i :: 0 <= i < |cat.constructions| ==> !ConstructsUnit(cat.constructions[i], bid))
              ==> r == []
    ensures !Ignored(bid) ==>
              forall i :: 0 <= i < |cat.constructions| && ConstructsUnit(cat.constructions[i], bid)
                          && (forall j :: 0 <= j < i ==> !ConstructsUnit(cat.constructions[j], bid))
                          ==> r == cat.constructions[i].proto.inputs
  {
    if Ignored(bid) then []
    else
      match FirstConstruction(cat.constructions, bid)
      case None => []
      case Some(i) => cat.constructions[i].proto.inputs
  }

  /** The search loop of `get_building_inputs`, with its early return. */
  method FindBuildingInputs(cat: Catalog, bid: int) returns (r: seq<(int, int)>)
    ensures r == BuildingInputs(cat, bid)
  {
    if Ignored(bid) {
      return [];
    }
    var cons := cat.constructions;
    var i := 0;
    while i < |cons|
      invariant 0 <= i <= |cons|
      invariant forall j :: 0 <= j < i ==> !ConstructsUnit(cons[j], bid)
    {
      var c := cons[i].proto;
      if !IgnoredId(c.id) && c.output == Some(bid) {
        return c.inputs;
      }
      i := i + 1;
    }
    return [];
  }

  /* ---------------- get_building_for_combat / get_resource_producers ---------------- */

  /**
   * `get_building_for_combat(target, my_race)`, and the single building behind
   * `get_resource_producers`: the building that runs the recipe found for `target`.
   */
  function BuildingFor(cat: Catalog, target: int, myRace: bool): (r: Option<Entry>)
    ensures r.Some? ==> ProducingRecipe(cat, target, myRace).Some?
                        && Offers(r.value, ProducingRecipe(cat, target, myRace).value.key)
                        && r.value in SearchUnits(cat, myRace)
    ensures ProducingRecipe(cat, target, myRace).None? ==> r.None?
    ensures ProducingRecipe(cat, target, myRace).Some?
            && (exists i :: 0 <= i < |SearchUnits(cat, myRace)|
                           && Offers(SearchUnits(cat, myRace)[i], ProducingRecipe(cat, target, myRace).value.key))
            ==> r.Some?
  {
    match ProducingRecipe(cat, target, myRace)
    case None => None
    case Some(recipe) => BuildingsForRecipe(cat, recipe.key, myRace)
  }

  /** `get_resource_producers(rid, my_race)`: at most one building, keyed by its id. */
  function ResourceProducers(cat: Catalog, rid: int, myRace: bool): (r: map<int, Proto>)
    ensures |r| <= 1
    ensures r == map[] <==> BuildingFor(cat, rid, myRace).None?
    ensures forall b :: b in r ==> BuildingFor(cat, rid, myRace) == Some(Entry(b, r[b]))
  {
    match BuildingFor(cat, rid, myRace)
    case None => map[]
    case Some(b) =>
      assert map[b.key := b.proto].Keys == {b.key};
      map[b.key := b.proto]
  }

  /* ---------------- _construction_for_building ---------------- */

  /** Construction `c` matches building `bid` by `int(c.get("output", 0))` and has an id to return. */
  predicate ConstructionMatches(c: Entry, bid: int) {
    c.proto.output.GetOr(0) == bid && c.proto.id.Some?
  }

  /**
   * `_construction_for_building(bid)`: the id of the first construction whose output (0 when
   * absent) is `bid`; one without an id raises inside the `try` and is skipped; 0 when none.
   */
  function ConstructionForBuilding(t: Table, bid: int): (r: int)
    ensures (forall i :: 0 <= i < |t| ==> !ConstructionMatches(t[i], bid)) ==> r == 0
    ensures forall i :: 0 <= i < |t| && ConstructionMatches(t[i], bid)
                        && (forall j :: 0 <= j < i ==> !ConstructionMatches(t[j], bid))
                        ==> t[i].proto.id == Some(r)
  {
    if |t| == 0 then 0
    else if ConstructionMatches(t[0], bid) then t[0].proto.id.value
    else
      assert forall i :: 1 <= i < |t| ==> t[i] == t[1..][i - 1];
      ConstructionForBuilding(t[1..], bid)
  }

  /** The loop of `_construction_for_building`, with its early return. */
  method FindConstructionForBuilding(t: Table, bid: int) returns (r: int)
    ensures r == ConstructionForBuilding(t, bid)
  {
    var i := 0;
    while i < |t|
      invariant 0 <= i <= |t|
      invariant ConstructionForBuilding(t[i..], bid) == ConstructionForBuilding(t, bid)
    {
      assert t[i..][1..] == t[i + 1..];
      var c := t[i].proto;
      if c.output.GetOr(0) == bid && c.id.Some? {
        return c.id.value;
      }
      i := i + 1;
    }
    return 0;
  }
}
