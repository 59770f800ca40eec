/**
 * The recursive plan resolver `get_full_plan_recursive` (python/bot/bot.py:392-449).
 *
 * Starting from a combat unit, it walks resource -> recipe -> building edges and threads three
 * accumulators: the set of (building, recipe) pairs to run, the base-resource totals, and the
 * set of buildings whose construction cost has been expanded. A resource already on the current
 * production path is a cycle and counts as base; a building's construction cost is expanded once,
 * the first time the building is seen, with a fresh path.
 *
 * `Expand`, `BuildingAdded` and `ExpandAll` are the three closures as functions of the
 * accumulators; they terminate by the measure (buildings not yet visited, produced ids not yet on
 * the path). The class `Planner` runs the same closures on mutable fields.
 */
module Resolver {
  import opened Wrappers
  import opened Catalog
  import opened Names
  import opened Queries
  import opened Costs
  import opened Collections

  /** The closures' shared state: `buildings_recipes`, `base_resources`, `visited_buildings`. */
  datatype PlanState = PlanState(pairs: set<(int, int)>, base: map<int, int>, visited: set<int>)

  const EMPTY_STATE: PlanState := PlanState({}, map[], {})

  const NO_IDS: set<int> := {}

  function UnitIds(cat: Catalog): set<int> {
    Keys(cat.units)
  }

  /** Every id some recipe lists among its outputs: the only ids a production path can hold. */
  function OutputIds(cat: Catalog): set<int> {
    set i, j | 0 <= i < |cat.recipes| && 0 <= j < |cat.recipes[i].proto.outputs| :: cat.recipes[i].proto.outputs[j]
  }

  lemma ProducedIsOutput(cat: Catalog, target: int, myRace: bool)
    requires ProducingRecipe(cat, target, myRace).Some?
    ensures target in OutputIds(cat)
  {
    var r := ProducingRecipe(cat, target, myRace).value;
    var i :| 0 <= i < |cat.recipes| && cat.recipes[i] == Entry(r.key, r.proto);
    var j :| 0 <= j < |r.proto.outputs| && r.proto.outputs[j] == target;
    assert cat.recipes[i].proto.outputs[j] == target;
  }

  /** `add_base_resource(rid, q)`. */
  function BaseAdded(s: PlanState, rid: int, q: int): (r: PlanState)
    ensures r.pairs == s.pairs && r.visited == s.visited
    ensures r.base.Keys == s.base.Keys + {rid}
    ensures r.base[rid] == Get0(s.base, rid) + q
    ensures forall k :: k in s.base && k != rid ==> r.base[k] == s.base[k]
  {
    s.(base := s.base[rid := Get0(s.base, rid) + q])
  }

  /** The accumulators only grow: pairs and visited buildings are kept, base totals never drop. */
  predicate Grows(s: PlanState, r: PlanState) {
    && s.pairs <= r.pairs
    && s.visited <= r.visited
    && (forall k :: k in s.base ==> k in r.base && s.base[k] <= r.base[k])
  }

  /** Every base-resource total is positive. */
  predicate Positive(s: PlanState) {
    forall k :: k in s.base ==> s.base[k] > 0
  }

  /** Building `b` is one of the searched units, live, and lists recipe `rid`. */
  predicate RunsRecipe(cat: Catalog, myRace: bool, b: int, rid: int) {
    exists i :: 0 <= i < |SearchUnits(cat, myRace)| && SearchUnits(cat, myRace)[i].key == b
                && Offers(SearchUnits(cat, myRace)[i], rid)
  }

  /** A recorded pair names an allowed, live, present recipe and a building that runs it. */
  predicate PairOk(cat: Catalog, myRace: bool, p: (int, int)) {
    && p.1 in AllowedRecipes(cat, myRace)
    && !Ignored(p.1)
    && Lookup(cat.recipes, p.1).Some?
    && RunsRecipe(cat, myRace, p.0, p.1)
  }

  /** Every pair is sound and its building visited; visited ids are units. */
  predicate Sound(cat: Catalog, myRace: bool, s: PlanState) {
    && (forall p :: p in s.pairs ==> PairOk(cat, myRace, p) && p.0 in s.visited)
    && s.visited <= UnitIds(cat)
  }

  /**
   * `_expand_resource(rid, q, path)`: nothing for q <= 0; base for a cycle, a resource without a
   * recipe, or a recipe without a building; otherwise record the building and expand the recipe's
   * inputs, scaled by q, one level further down the path.
   */
  function Expand(cat: Catalog, myRace: bool, rid: int, q: int, path: set<int>, s: PlanState): (r: PlanState)
    decreases UnitIds(cat) - s.visited, OutputIds(cat) - path, 2, 0
    ensures Grows(s, r)
    ensures Positive(s) ==> Positive(r)
    ensures q <= 0 ==> r == s
    ensures (q > 0 && (rid in path || ProducingRecipe(cat, rid, myRace).None?
                       || BuildingsForRecipe(cat, ProducingRecipe(cat, rid, myRace).value.key, myRace).None?))
              ==> r == BaseAdded(s, rid, q)
  {
    if q <= 0 then s
    else if rid in path then BaseAdded(s, rid, q)
    else
      match ProducingRecipe(cat, rid, myRace)
      case None => BaseAdded(s, rid, q)
      case Some(recipe) =>
        match BuildingsForRecipe(cat, recipe.key, myRace)
        case None => BaseAdded(s, rid, q)
        case Some(b) =>
          ProducedIsOutput(cat, rid, myRace);
          var s1 := BuildingAdded(cat, myRace, b.key, Some(recipe.key), s);
          assert UnitIds(cat) - s1.visited <= UnitIds(cat) - s.visited;
          ExpandAll(cat, myRace, recipe.proto.inputs, q, path + {rid}, s1)
  }

  /**
   * `add_building(bid, rid)`: record the pair when a recipe is given; expand the construction cost
   * only the first time the building is seen, each input with a fresh, empty path.
   */
  function BuildingAdded(cat: Catalog, myRace: bool, bid: int, rid: Option<int>, s: PlanState): (r: PlanState)
    requires bid in UnitIds(cat)
    decreases UnitIds(cat) - s.visited, NO_IDS, 1, 0
    ensures Grows(s, r)
    ensures Positive(s) ==> Positive(r)
    ensures rid.Some? ==> (bid, rid.value) in r.pairs
    ensures bid in r.visited
    ensures bid in s.visited ==> r == s.(pairs := if rid.Some? then s.pairs + {(bid, rid.value)} else s.pairs)
    ensures bid !in s.visited ==> bid in r.visited - s.visited
  {
    var s1 := if rid.Some? then s.(pairs := s.pairs + {(bid, rid.value)}) else s;
    if bid in s1.visited then s1
    else ExpandAll(cat, myRace, BuildingInputs(cat, bid), 1, {}, s1.(visited := s1.visited + {bid}))
  }

  /** The loop over an inputs dict: expand each (id, n) with quantity n * mult, in order. */
  function ExpandAll(cat: Catalog, myRace: bool, xs: seq<(int, int)>, mult: int, path: set<int>, s: PlanState): (r: PlanState)
    decreases UnitIds(cat) - s.visited, OutputIds(cat) - path, 3, |xs|
    ensures Grows(s, r)
    ensures Positive(s) ==> Positive(r)
  {
    if |xs| == 0 then s
    else
      var s1 := ExpandAll(cat, myRace, xs[..|xs| - 1], mult, path, s);
      assert UnitIds(cat) - s1.visited <= UnitIds(cat) - s.visited;
      Expand(cat, myRace, xs[|xs| - 1].0, xs[|xs| - 1].1 * mult, path, s1)
  }

  /* ---------------- soundness of the recorded pairs ---------------- */

  lemma {:induction false} ExpandSound(cat: Catalog, myRace: bool, rid: int, q: int, path: set<int>, s: PlanState)
    requires Sound(cat, myRace, s)
    ensures Sound(cat, myRace, Expand(cat, myRace, rid, q, path, s))
    decreases UnitIds(cat) - s.visited, OutputIds(cat) - path, 2, 0
  {
    if q > 0 && rid !in path {
      match ProducingRecipe(cat, rid, myRace)
      case None =>
      case Some(recipe) =>
        match BuildingsForRecipe(cat, recipe.key, myRace)
        case None =>
        case Some(b) =>
          ProducedIsOutput(cat, rid, myRace);
          var units := SearchUnits(cat, myRace);
          var i :| 0 <= i < |units| && units[i] == b;
          assert RunsRecipe(cat, myRace, b.key, recipe.key);
          BuildingAddedSound(cat, myRace, b.key, Some(recipe.key), s);
          var s1 := BuildingAdded(cat, myRace, b.key, Some(recipe.key), s);
          assert UnitIds(cat) - s1.visited <= UnitIds(cat) - s.visited;
          ExpandAllSound(cat, myRace, recipe.proto.inputs, q, path + {rid}, s1);
    }
  }

  lemma {:induction false} BuildingAddedSound(cat: Catalog, myRace: bool, bid: int, rid: Option<int>, s: PlanState)
    requires bid in UnitIds(cat)
    requires Sound(cat, myRace, s)
    requires rid.Some? ==> PairOk(cat, myRace, (bid, rid.value))
    ensures Sound(cat, myRace, BuildingAdded(cat, myRace, bid, rid, s))
    decreases UnitIds(cat) - s.visited, NO_IDS, 1, 0
  {
    var s1 := if rid.Some? then s.(pairs := s.pairs + {(bid, rid.value)}) else s;
    if bid !in s1.visited {
      var s2 := s1.(visited := s1.visited + {bid});
      assert Sound(cat, myRace, s2);
      ExpandAllSound(cat, myRace, BuildingInputs(cat, bid), 1, {}, s2);
    }
  }

  lemma {:induction false} ExpandAllSound(cat: Catalog, myRace: bool, xs: seq<(int, int)>, mult: int, path: set<int>, s: PlanState)
    requires Sound(cat, myRace, s)
    ensures Sound(cat, myRace, ExpandAll(cat, myRace, xs, mult, path, s))
    decreases UnitIds(cat) - s.visited, OutputIds(cat) - path, 3, |xs|
  {
    if |xs| > 0 {
      ExpandAllSound(cat, myRace, xs[..|xs| - 1], mult, path, s);
      var s1 := ExpandAll(cat, myRace, xs[..|xs| - 1], mult, path, s);
      assert UnitIds(cat) - s1.visited <= UnitIds(cat) - s.visited;
      ExpandSound(cat, myRace, xs[|xs| - 1].0, xs[|xs| - 1].1 * mult, path, s1);
    }
  }

  /* ---------------- the whole plan ---------------- */

  /**
   * The body of `get_full_plan_recursive`: record the root building with the unit's recipe (or
   * with none), then expand the recipe's inputs scaled by `qty`, each with a fresh path.
   */
  function FullPlanState(cat: Catalog, combat: int, qty: int, myRace: bool): (r: PlanState)
    ensures Positive(r)
  {
    var recipe := ProducingRecipe(cat, combat, myRace);
    var s1 :=
      match BuildingFor(cat, combat, myRace)
      case None => EMPTY_STATE
      case Some(b) =>
        BuildingAdded(cat, myRace, b.key, if recipe.Some? then Some(recipe.value.key) else None, EMPTY_STATE);
    match recipe
    case None => s1
    case Some(u) => ExpandAll(cat, myRace, u.proto.inputs, qty, {}, s1)
  }

  /** Every pair of the plan names a building that runs an allowed, live recipe, and was visited. */
  lemma FullPlanSound(cat: Catalog, combat: int, qty: int, myRace: bool)
    ensures Sound(cat, myRace, FullPlanState(cat, combat, qty, myRace))
  {
    var recipe := ProducingRecipe(cat, combat, myRace);
    var s1 := EMPTY_STATE;
    if BuildingFor(cat, combat, myRace).Some? {
      var b := BuildingFor(cat, combat, myRace).value;
      var units := SearchUnits(cat, myRace);
      var i :| 0 <= i < |units| && units[i] == b;
      assert RunsRecipe(cat, myRace, b.key, recipe.value.key);
      BuildingAddedSound(cat, myRace, b.key, Some(recipe.value.key), EMPTY_STATE);
      s1 := BuildingAdded(cat, myRace, b.key, Some(recipe.value.key), EMPTY_STATE);
    }
    if recipe.Some? {
      ExpandAllSound(cat, myRace, recipe.value.proto.inputs, qty, {}, s1);
    }
  }

  /** The root building, when there is one, is recorded together with the unit's recipe. */
  lemma FullPlanHasRoot(cat: Catalog, combat: int, qty: int, myRace: bool)
    ensures BuildingFor(cat, combat, myRace).Some? ==>
              (BuildingFor(cat, combat, myRace).value.key, ProducingRecipe(cat, combat, myRace).value.key)
                in FullPlanState(cat, combat, qty, myRace).pairs
    ensures BuildingFor(cat, combat, myRace).None? && ProducingRecipe(cat, combat, myRace).None? ==>
              FullPlanState(cat, combat, qty, myRace) == EMPTY_STATE
  {
    var recipe := ProducingRecipe(cat, combat, myRace);
    if BuildingFor(cat, combat, myRace).Some? {
      var b := BuildingFor(cat, combat, myRace).value;
      var s1 := BuildingAdded(cat, myRace, b.key, Some(recipe.value.key), EMPTY_STATE);
      assert (b.key, recipe.value.key) in s1.pairs;
      var r := ExpandAll(cat, myRace, recipe.value.proto.inputs, qty, {}, s1);
      assert Grows(s1, r);
    }
  }

  /** An ignored resource has no recipe, so whenever it is reached it is counted as base. */
  lemma IgnoredGoesToBase(cat: Catalog, myRace: bool, rid: int, q: int, path: set<int>, s: PlanState)
    requires Ignored(rid) && q > 0
    ensures Expand(cat, myRace, rid, q, path, s) == BaseAdded(s, rid, q)
  {
  }

  /* ---------------- sorting the pairs ---------------- */

  predicate PairLess(a: (int, int), b: (int, int)) {
    a.0 < b.0 || (a.0 == b.0 && a.1 < b.1)
  }

  /** Ascending in Python's tuple order, without repeats. */
  predicate StrictlySorted(xs: seq<(int, int)>) {
    forall i, j :: 0 <= i < j < |xs| ==> PairLess(xs[i], xs[j])
  }

  /** Two strictly sorted sequences with the same elements are equal: `sorted(list(s))` is determined by `s`. */
  lemma {:induction false} SortedUnique(xs: seq<(int, int)>, ys: seq<(int, int)>)
    requires StrictlySorted(xs) && StrictlySorted(ys)
    requires forall p :: p in xs <==> p in ys
    ensures xs == ys
  {
    assert |xs| > 0 ==> xs[0] in ys;
    assert |ys| > 0 ==> ys[0] in xs;
    if |xs| > 0 && |ys| > 0 {
      assert xs[0] == ys[0] by {
        var i :| 0 <= i < |ys| && ys[i] == xs[0];
        var j :| 0 <= j < |xs| && xs[j] == ys[0];
        assert i == 0 || PairLess(ys[0], xs[0]);
        assert j == 0 || PairLess(xs[0], ys[0]);
      }
      forall p ensures p in xs[1..] <==> p in ys[1..] {
        if p in xs[1..] {
          var i :| 1 <= i < |xs| && xs[i] == p;
          assert PairLess(xs[0], p);
          assert p in xs;
          assert p in ys;
          var k :| 0 <= k < |ys| && ys[k] == p;
          assert k != 0;
          assert ys[1..][k - 1] == p;
        }
        if p in ys[1..] {
          var i :| 1 <= i < |ys| && ys[i] == p;
          assert PairLess(ys[0], p);
          assert p in ys;
          assert p in xs;
          var k :| 0 <= k < |xs| && xs[k] == p;
          assert k != 0;
          assert xs[1..][k - 1] == p;
        }
      }
      SortedUnique(xs[1..], ys[1..]);
      assert xs == [xs[0]] + xs[1..];
      assert ys == [ys[0]] + ys[1..];
    }
  }

  /** Insert `p` at its place in a strictly sorted sequence, unless it is already there. */
  function InsertPair(xs: seq<(int, int)>, p: (int, int)): (r: seq<(int, int)>)
    requires StrictlySorted(xs)
    ensures StrictlySorted(r)
    ensures forall x :: x in r <==> x in xs || x == p
  {
    if |xs| == 0 then [p]
    else if xs[0] == p then xs
    else if PairLess(p, xs[0]) then
      assert forall i :: 0 <= i < |xs| ==> PairLess(p, xs[i]);
      [p] + xs
    else
      var rest := InsertPair(xs[1..], p);
      assert forall x :: x in rest ==> PairLess(xs[0], x) by {
        forall x | x in rest ensures PairLess(xs[0], x) {
          if x != p {
            var i :| 1 <= i < |xs| && xs[i] == x;
          }
        }
      }
      assert xs == [xs[0]] + xs[1..];
      [xs[0]] + rest
  }

  /** `sorted(list(pairs))`. */
  method SortPairs(pairs: set<(int, int)>) returns (xs: seq<(int, int)>)
    ensures StrictlySorted(xs)
    ensures forall p :: p in xs <==> p in pairs
  {
    xs := [];
    var todo := pairs;
    while todo != {}
      invariant todo <= pairs
      invariant StrictlySorted(xs)
      invariant forall p :: p in xs <==> p in pairs && p !in todo
      decreases |todo|
    {
      NonEmptyHasElement(todo);
      var p :| p in todo;
      xs := InsertPair(xs, p);
      todo := todo - {p};
    }
    forall p ensures p in xs <==> p in pairs {
      assert p !in todo;
    }
  }

  /** One more input: the loop's state after `i + 1` inputs is `Expand` of its state after `i`. */
  lemma ExpandAllStep(cat: Catalog, myRace: bool, xs: seq<(int, int)>, i: nat, mult: int, path: set<int>, s: PlanState)
    requires i < |xs|
    ensures ExpandAll(cat, myRace, xs[..i + 1], mult, path, s)
            == Expand(cat, myRace, xs[i].0, xs[i].1 * mult, path, ExpandAll(cat, myRace, xs[..i], mult, path, s))
  {
    assert xs[..i + 1][..i] == xs[..i];
    assert xs[..i + 1][i] == xs[i];
  }

  /** Visiting more buildings leaves fewer unvisited. */
  lemma SubsetDifference(u: set<int>, v0: set<int>, v1: set<int>)
    requires v0 <= v1
    ensures u - v1 <= u - v0
  {
  }

  /* ---------------- the planner object ---------------- */

  /** The three closures of `get_full_plan_recursive` over their shared mutable accumulators. */
  class Planner {
    const cat: Catalog
    const myRace: bool
    var pairs: set<(int, int)>
    var base: map<int, int>
    var visited: set<int>

    function State(): PlanState
      reads this
    {
      PlanState(pairs, base, visited)
    }

    constructor (cat: Catalog, myRace: bool)
      ensures this.cat == cat && this.myRace == myRace
      ensures State() == EMPTY_STATE
    {
      this.cat := cat;
      this.myRace := myRace;
      pairs, base, visited := {}, map[], {};
    }

    /** `add_base_resource(rid, q)`. */
    method AddBaseResource(rid: int, q: int)
      modifies this
      ensures State() == BaseAdded(old(State()), rid, q)
    {
      base := base[rid := Get0(base, rid) + q];
    }

    /** `add_building(bid, rid)`. */
    method AddBuilding(bid: int, rid: Option<int>)
      requires bid in UnitIds(cat)
      modifies this
      decreases UnitIds(cat) - visited, NO_IDS, 1, 0
      ensures State() == BuildingAdded(cat, myRace, bid, rid, old(State()))
    {
      if rid.Some? {
        pairs := pairs + {(bid, rid.value)};
      }
      if bid in visited {
        return;
      }
      visited := visited + {bid};
      var inputs := FindBuildingInputs(cat, bid);
      assert UnitIds(cat) - visited < UnitIds(cat) - old(visited) by {
        assert bid in UnitIds(cat) - old(visited) && bid !in UnitIds(cat) - visited;
      }
      ExpandInputs(inputs, 1, {});
    }

    /** `_expand_resource(rid, q, path)`. */
    method ExpandResource(rid: int, q: int, path: set<int>)
      modifies this
      decreases UnitIds(cat) - visited, OutputIds(cat) - path, 2, 0
      ensures State() == Expand(cat, myRace, rid, q, path, old(State()))
    {
      if q <= 0 {
        return;
      }
      if rid in path {
        AddBaseResource(rid, q);
        return;
      }
      var r := FindProducingRecipe(cat, rid, myRace);
      if r.None? {
        AddBaseResource(rid, q);
        return;
      }
      var b := FindBuilding(cat, r.value.key, myRace);
      if b.None? {
        AddBaseResource(rid, q);
        return;
      }
      ProducedIsOutput(cat, rid, myRace);
      assert NO_IDS < OutputIds(cat) - path by {
        assert rid in OutputIds(cat) - path;
      }
      AddBuilding(b.value.key, Some(r.value.key));
      assert OutputIds(cat) - (path + {rid}) < OutputIds(cat) - path by {
        assert rid in OutputIds(cat) - path && rid !in OutputIds(cat) - (path + {rid});
      }
      ExpandInputs(r.value.proto.inputs, q, path + {rid});
    }

    /** The loop over an inputs dict: `_expand_resource(in_id, in_qty * mult, path)` for each entry, in order. */
    method ExpandInputs(xs: seq<(int, int)>, mult: int, path: set<int>)
      modifies this
      decreases UnitIds(cat) - visited, OutputIds(cat) - path, 4, 0
      ensures State() == ExpandAll(cat, myRace, xs, mult, path, old(State()))
    {
      ghost var start := State();
      var i := 0;
      while i < |xs|
        invariant 0 <= i <= |xs|
        invariant State() == ExpandAll(cat, myRace, xs[..i], mult, path, start)
      {
        SubsetDifference(UnitIds(cat), start.visited, visited);
        ExpandInput(xs, i, mult, path, start);
        i := i + 1;
      }
      assert xs[..i] == xs;
    }

    /** One pass of the inputs loop: expand input `i` after the first `i` have been expanded from `s`. */
    method ExpandInput(xs: seq<(int, int)>, i: nat, mult: int, path: set<int>, ghost s: PlanState)
      requires i < |xs|
      requires State() == ExpandAll(cat, myRace, xs[..i], mult, path, s)
      modifies this
      decreases UnitIds(cat) - visited, OutputIds(cat) - path, 3, 0
      ensures State() == ExpandAll(cat, myRace, xs[..i + 1], mult, path, s)
    {
      ExpandAllStep(cat, myRace, xs, i, mult, path, s);
      ExpandResource(xs[i].0, xs[i].1 * mult, path);
    }
  }

  /** The dict `get_full_plan_recursive` returns. */
  datatype FullPlan = FullPlan(
    combatId: int,
    combatName: Option<string>,
    rootBuildingId: Option<int>,
    rootBuildingName: Option<string>,
    buildings: seq<(int, int)>,
    baseResources: map<int, int>)

  /**
   * `get_full_plan_recursive(combat_id, qty, my_race)`. The names come from `ix`, which stands for
   * the module-level `ID_TO_NAME`: `Names.IndexOf(Names.Registrations(cat))`, as
   * `Names.BuildNameIndex(cat)` computes it.
   */
  method GetFullPlanRecursive(cat: Catalog, ix: NameIndex, combat: int, qty: int, myRace: bool) returns (plan: FullPlan)
    ensures plan.combatId == combat && plan.combatName == Id2Name(ix, combat)
    ensures plan.rootBuildingId == (if BuildingFor(cat, combat, myRace).Some? then Some(BuildingFor(cat, combat, myRace).value.key) else None)
    ensures plan.rootBuildingName == (if BuildingFor(cat, combat, myRace).Some? then BuildingFor(cat, combat, myRace).value.proto.name else None)
    ensures StrictlySorted(plan.buildings)
    ensures forall p :: p in plan.buildings <==> p in FullPlanState(cat, combat, qty, myRace).pairs
    ensures plan.baseResources == FullPlanState(cat, combat, qty, myRace).base
  {
    var planner := new Planner(cat, myRace);
    var root := None;
    var recipe := FindProducingRecipe(cat, combat, myRace);
    if recipe.Some? {
      root := FindBuilding(cat, recipe.value.key, myRace);
    }
    assert root == BuildingFor(cat, combat, myRace);
    if root.Some? {
      planner.AddBuilding(root.value.key, if recipe.Some? then Some(recipe.value.key) else None);
    }
    if recipe.Some? {
      planner.ExpandInputs(recipe.value.proto.inputs, qty, {});
    }
    var sorted := SortPairs(planner.pairs);
    plan := FullPlan(combat, Id2Name(ix, combat),
                     if root.Some? then Some(root.value.key) else None,
                     if root.Some? then root.value.proto.name else None,
                     sorted, planner.base);
  }
}
