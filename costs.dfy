/**
 * Resource costs as id -> quantity maps (python/bot/bot.py:320-365): scaling, merging, the cost
 * of one combat unit, and the one-level build plan for a combat unit.
 */
module Costs {
  import opened Wrappers
  import opened Catalog
  import opened Names
  import opened Queries
  import opened Collections

  type Cost = map<int, int>

  /** `d.get(k, 0)`. */
  function Get0(c: Cost, k: int): int {
    if k in c then c[k] else 0
  }

  /** A JSON `inputs` object as a dict: every listed id, the last quantity listed for it. */
  function AsCost(s: seq<(int, int)>): (c: Cost)
    ensures forall k :: k in c <==> exists i :: 0 <= i < |s| && s[i].0 == k
    ensures forall i :: 0 <= i < |s| && (forall j :: i < j < |s| ==> s[j].0 != s[i].0) ==> c[s[i].0] == s[i].1
  {
    if |s| == 0 then map[]
    else
      var prefix := s[..|s| - 1];
      assert forall i :: 0 <= i < |s| - 1 ==> prefix[i] == s[i];
      AsCost(prefix)[s[|s| - 1].0 := s[|s| - 1].1]
  }

  /** `scale_cost(c, f)`: the same ids, every quantity multiplied by `f`. */
  function ScaleCost(c: Cost, f: int): (r: Cost)
    ensures r.Keys == c.Keys
    ensures forall k :: k in c ==> r[k] == c[k] * f
  {
    map k | k in c :: c[k] * f
  }

  /** Every id some cost of `ds` mentions. */
  function UnionKeys(ds: seq<Cost>): (ks: set<int>)
    ensures forall k :: k in ks <==> exists i :: 0 <= i < |ds| && k in ds[i]
  {
    if |ds| == 0 then {}
    else
      assert forall i :: 0 <= i < |ds| - 1 ==> ds[..|ds| - 1][i] == ds[i];
      UnionKeys(ds[..|ds| - 1]) + ds[|ds| - 1].Keys
  }

  /** The total quantity of `k` over the costs of `ds`, absent counting as 0. */
  function SumAt(ds: seq<Cost>, k: int): int {
    if |ds| == 0 then 0 else SumAt(ds[..|ds| - 1], k) + Get0(ds[|ds| - 1], k)
  }

  /** What `merge_costs(*ds)` returns: every id of any argument, mapped to the sum of its quantities. */
  function Merge(ds: seq<Cost>): Cost {
    map k | k in UnionKeys(ds) :: SumAt(ds, k)
  }

  /** The inner loop of `merge_costs`: add one dict into the accumulator. */
  method AddInto(acc: Cost, d: Cost) returns (out: Cost)
    ensures out.Keys == acc.Keys + d.Keys
    ensures forall k :: k in out ==> out[k] == Get0(acc, k) + Get0(d, k)
  {
    out := acc;
    var todo := d.Keys;
    while todo != {}
      invariant todo <= d.Keys
      invariant out.Keys == acc.Keys + (d.Keys - todo)
      invariant forall k :: k in out ==> out[k] == Get0(acc, k) + (if k in d && k !in todo then d[k] else 0)
      decreases todo
    {
      NonEmptyHasInt(todo);
      var k :| k in todo;
      out := out[k := Get0(out, k) + d[k]];
      todo := todo - {k};
    }
  }

  /** `merge_costs(*ds)`. */
  method MergeCosts(ds: seq<Cost>) returns (out: Cost)
    ensures out == Merge(ds)
  {
    out := map[];
    var i := 0;
    while i < |ds|
      invariant 0 <= i <= |ds|
      invariant out == Merge(ds[..i])
    {
      var next := AddInto(out, ds[i]);
      MergeSnoc(ds[..i], ds[i]);
      assert ds[..i + 1] == ds[..i] + [ds[i]];
      MapsEqual(next, Merge(ds[..i + 1]));
      out := next;
      i := i + 1;
    }
    assert ds[..i] == ds;
  }

  /** A merge holds, for each id, its sum; an id it lacks sums to 0. */
  lemma Get0Merge(ds: seq<Cost>, k: int)
    ensures Get0(Merge(ds), k) == SumAt(ds, k)
  {
    if k !in UnionKeys(ds) {
      SumAtAbsent(ds, k);
    }
  }

  lemma MergeSnoc(ds: seq<Cost>, d: Cost)
    ensures Merge(ds + [d]).Keys == Merge(ds).Keys + d.Keys
    ensures forall k :: k in Merge(ds + [d]) ==> Merge(ds + [d])[k] == Get0(Merge(ds), k) + Get0(d, k)
  {
    var e := ds + [d];
    assert e[..|e| - 1] == ds;
    assert UnionKeys(e) == UnionKeys(ds) + d.Keys;
    forall k | k in Merge(e) ensures Merge(e)[k] == Get0(Merge(ds), k) + Get0(d, k) {
      assert SumAt(e, k) == SumAt(ds, k) + Get0(d, k);
      Get0Merge(ds, k);
    }
  }

  lemma {:induction false} SumAtAbsent(ds: seq<Cost>, k: int)
    requires k !in UnionKeys(ds)
    ensures SumAt(ds, k) == 0
  {
    if |ds| > 0 {
      SumAtAbsent(ds[..|ds| - 1], k);
    }
  }

  lemma {:induction false} SumAtConcat(ds: seq<Cost>, es: seq<Cost>, k: int)
    ensures SumAt(ds + es, k) == SumAt(ds, k) + SumAt(es, k)
  {
    if |es| == 0 {
      assert ds + es == ds;
    } else {
      assert (ds + es)[..|ds + es| - 1] == ds + es[..|es| - 1];
      SumAtConcat(ds, es[..|es| - 1], k);
    }
  }

  lemma SumAtSingle(c: Cost, k: int)
    ensures SumAt([c], k) == Get0(c, k)
  {
    assert [c][..0] == [];
  }

  /** Taking one cost out of the list takes exactly its quantity out of the sum. */
  lemma SumAtRemove(ds: seq<Cost>, j: nat, k: int)
    requires j < |ds|
    ensures SumAt(ds, k) == SumAt(ds[..j] + ds[j + 1..], k) + Get0(ds[j], k)
  {
    assert ds == ds[..j] + [ds[j]] + ds[j + 1..];
    SumAtConcat(ds[..j] + [ds[j]], ds[j + 1..], k);
    SumAtConcat(ds[..j], [ds[j]], k);
    SumAtConcat(ds[..j], ds[j + 1..], k);
    SumAtSingle(ds[j], k);
  }

  lemma {:induction false} SumAtPermutation(ds: seq<Cost>, es: seq<Cost>, k: int)
    requires multiset(ds) == multiset(es)
    ensures SumAt(ds, k) == SumAt(es, k)
  {
    if |ds| > 0 {
      var d := ds[|ds| - 1];
      var j := RemoveLast(ds, es);
      SumAtPermutation(ds[..|ds| - 1], es[..j] + es[j + 1..], k);
      SumAtRemove(es, j, k);
    } else {
      assert |es| == 0;
    }
  }

  /** The last cost of `ds` sits at some `j` in its permutation `es`, and the rests are permutations too. */
  lemma RemoveLast(ds: seq<Cost>, es: seq<Cost>) returns (j: nat)
    requires multiset(ds) == multiset(es) && |ds| > 0
    ensures j < |es| && es[j] == ds[|ds| - 1]
    ensures multiset(ds[..|ds| - 1]) == multiset(es[..j] + es[j + 1..])
  {
    var d := ds[|ds| - 1];
    var init := ds[..|ds| - 1];
    assert ds == init + [d];
    assert multiset(ds) == multiset(init) + multiset{d};
    assert d in multiset(es);
    j :| 0 <= j < |es| && es[j] == d;
    var rest := es[..j] + es[j + 1..];
    assert es == es[..j] + [d] + es[j + 1..];
    assert multiset(es) == multiset(es[..j]) + multiset{d} + multiset(es[j + 1..]);
    assert multiset(rest) == multiset(es[..j]) + multiset(es[j + 1..]);
    forall x ensures multiset(init)[x] == multiset(rest)[x] {
      assert multiset(ds)[x] == multiset(es)[x];
    }
  }

  /** `merge_costs` does not depend on the order of its arguments. */
  lemma MergeOrderIrrelevant(ds: seq<Cost>, es: seq<Cost>)
    requires multiset(ds) == multiset(es)
    ensures Merge(ds) == Merge(es)
  {
    forall k ensures k in UnionKeys(ds) <==> k in UnionKeys(es) {
      if k in UnionKeys(ds) {
        var i :| 0 <= i < |ds| && k in ds[i];
        assert ds[i] in multiset(es);
        var j :| 0 <= j < |es| && es[j] == ds[i];
      }
      if k in UnionKeys(es) {
        var i :| 0 <= i < |es| && k in es[i];
        assert es[i] in multiset(ds);
        var j :| 0 <= j < |ds| && ds[j] == es[i];
      }
    }
    forall k ensures SumAt(ds, k) == SumAt(es, k) {
      SumAtPermutation(ds, es, k);
    }
  }

  /** A merge of one cost is that cost. */
  lemma MergeSingle(c: Cost)
    ensures Merge([c]) == c
  {
    assert UnionKeys([c]) == c.Keys;
    forall k | k in c ensures Merge([c])[k] == c[k] {
      SumAtSingle(c, k);
    }
    MapsEqual(Merge([c]), c);
  }

  /** `merge_costs(a, b)`: the ids of either, each mapped to the sum of its two quantities. */
  lemma MergePair(a: Cost, b: Cost)
    ensures Merge([a, b]).Keys == a.Keys + b.Keys
    ensures forall k :: k in Merge([a, b]) ==> Merge([a, b])[k] == Get0(a, k) + Get0(b, k)
  {
    MergeSingle(a);
    MergeSnoc([a], b);
    assert [a] + [b] == [a, b];
  }

  /** Merging with `{}`, on either side, and merging nothing behave as the identity. */
  lemma MergeIdentity(c: Cost)
    ensures Merge([]) == map[]
    ensures Merge([c]) == c
    ensures Merge([c, map[]]) == c
    ensures Merge([map[], c]) == c
  {
    var empty: Cost := map[];
    MergeSingle(c);
    MergePair(c, empty);
    MergePair(empty, c);
    MapsEqual(Merge([c, empty]), c);
    MapsEqual(Merge([empty, c]), c);
  }

  lemma UnionKeysConcat(ds: seq<Cost>, es: seq<Cost>)
    ensures UnionKeys(ds + es) == UnionKeys(ds) + UnionKeys(es)
  {
    forall k | k in UnionKeys(ds + es) ensures k in UnionKeys(ds) + UnionKeys(es) {
      var i :| 0 <= i < |ds + es| && k in (ds + es)[i];
      if i >= |ds| { assert es[i - |ds|] == (ds + es)[i]; }
    }
    forall k | k in UnionKeys(es) ensures k in UnionKeys(ds + es) {
      var i :| 0 <= i < |es| && k in es[i];
      assert (ds + es)[|ds| + i] == es[i];
    }
    forall k | k in UnionKeys(ds) ensures k in UnionKeys(ds + es) {
      var i :| 0 <= i < |ds| && k in ds[i];
      assert (ds + es)[i] == ds[i];
    }
  }

  /** Merging the two halves separately and then merging the results is merging everything. */
  lemma MergeFlattens(ds: seq<Cost>, es: seq<Cost>)
    ensures Merge([Merge(ds), Merge(es)]) == Merge(ds + es)
  {
    var m := Merge([Merge(ds), Merge(es)]);
    MergePair(Merge(ds), Merge(es));
    UnionKeysConcat(ds, es);
    forall k | k in m ensures m[k] == Merge(ds + es)[k] {
      SumAtConcat(ds, es, k);
      Get0Merge(ds, k);
      Get0Merge(es, k);
    }
    MapsEqual(m, Merge(ds + es));
  }

  /** Merging is associative. */
  lemma MergeAssociative(a: Cost, b: Cost, c: Cost)
    ensures Merge([Merge([a, b]), c]) == Merge([a, Merge([b, c])])
  {
    MergeIdentity(a);
    MergeIdentity(c);
    MergeFlattens([a, b], [c]);
    MergeFlattens([a], [b, c]);
    assert [a, b] + [c] == [a] + [b, c];
  }

  /** Scaling the merge is merging the scaled costs. */
  lemma {:induction false} ScaleDistributesOverMerge(ds: seq<Cost>, f: int)
    ensures ScaleCost(Merge(ds), f) == Merge(seq(|ds|, i requires 0 <= i < |ds| => ScaleCost(ds[i], f)))
  {
    var scaled := seq(|ds|, i requires 0 <= i < |ds| => ScaleCost(ds[i], f));
    forall k ensures k in UnionKeys(ds) <==> k in UnionKeys(scaled) {
      if k in UnionKeys(ds) {
        var i :| 0 <= i < |ds| && k in ds[i];
        assert k in scaled[i];
      }
    }
    forall k ensures SumAt(scaled, k) == SumAt(ds, k) * f {
      SumAtScaled(ds, f, k);
    }
  }

  lemma {:induction false} SumAtScaled(ds: seq<Cost>, f: int, k: int)
    ensures SumAt(seq(|ds|, i requires 0 <= i < |ds| => ScaleCost(ds[i], f)), k) == SumAt(ds, k) * f
  {
    var scaled := seq(|ds|, i requires 0 <= i < |ds| => ScaleCost(ds[i], f));
    if |ds| > 0 {
      var prefix := ds[..|ds| - 1];
      assert scaled[..|ds| - 1] == seq(|prefix|, i requires 0 <= i < |prefix| => ScaleCost(prefix[i], f));
      SumAtScaled(prefix, f, k);
      calc {
        SumAt(scaled, k);
        SumAt(scaled[..|ds| - 1], k) + Get0(scaled[|ds| - 1], k);
        SumAt(prefix, k) * f + Get0(ds[|ds| - 1], k) * f;
        { MulDistributes(SumAt(prefix, k), Get0(ds[|ds| - 1], k), f); }
        (SumAt(prefix, k) + Get0(ds[|ds| - 1], k)) * f;
      }
    }
  }

  lemma MulDistributes(a: int, b: int, f: int)
    ensures a * f + b * f == (a + b) * f
  {
  }

  /** Scaling by 1 changes nothing; scaling twice is scaling by the product. */
  lemma ScaleLaws(c: Cost, f: int, g: int)
    ensures ScaleCost(c, 1) == c
    ensures ScaleCost(ScaleCost(c, f), g) == ScaleCost(c, f * g)
  {
    forall k | k in c ensures c[k] * f * g == c[k] * (f * g) {
      MulAssociates(c[k], f, g);
    }
  }

  lemma MulAssociates(a: int, b: int, c: int)
    ensures a * b * c == a * (b * c)
  {
  }

  /* ---------------- get_combat_cost / get_build_plan_for_combat ---------------- */

  /**
   * `get_combat_cost(combat, qty, my_race)`: nothing when no recipe makes the unit, otherwise the
   * recipe's inputs, each quantity multiplied by `qty`.
   */
  function CombatCost(cat: Catalog, combat: int, qty: int, myRace: bool): (c: Cost)
    ensures ProducingRecipe(cat, combat, myRace).None? ==> c == map[]
    ensures ProducingRecipe(cat, combat, myRace).Some? ==>
              var inputs := ProducingRecipe(cat, combat, myRace).value.proto.inputs;
              c.Keys == AsCost(inputs).Keys && forall k :: k in c ==> c[k] == AsCost(inputs)[k] * qty
  {
    match ProducingRecipe(cat, combat, myRace)
    case None => map[]
    case Some(r) => ScaleCost(AsCost(r.proto.inputs), qty)
  }

  /** The producers map of a build plan: each cost id that has a producing building, mapped to it. */
  function Producers(cat: Catalog, total: Cost, myRace: bool): (p: map<int, int>)
    ensures p.Keys <= total.Keys
    ensures forall rid :: rid in total && BuildingFor(cat, rid, myRace).Some? <==> rid in p
    ensures forall rid :: rid in p ==> BuildingFor(cat, rid, myRace).value.key == p[rid]
  {
    map rid | rid in total && BuildingFor(cat, rid, myRace).Some? :: BuildingFor(cat, rid, myRace).value.key
  }

  /** The producers loop of `get_build_plan_for_combat`. */
  method FindProducers(cat: Catalog, total: Cost, myRace: bool) returns (p: map<int, int>)
    ensures p == Producers(cat, total, myRace)
  {
    p := map[];
    var todo := total.Keys;
    while todo != {}
      invariant todo <= total.Keys
      invariant forall rid :: rid in p <==> rid in total && rid !in todo && BuildingFor(cat, rid, myRace).Some?
      invariant forall rid :: rid in p ==> p[rid] == BuildingFor(cat, rid, myRace).value.key
      decreases todo
    {
      NonEmptyHasInt(todo);
      var rid :| rid in todo;
      var prod := ResourceProducers(cat, rid, myRace);
      if prod != map[] {
        var b :| b in prod;
        p := p[rid := b];
      }
      todo := todo - {rid};
    }
    ghost var spec := Producers(cat, total, myRace);
    forall rid ensures rid in p <==> rid in spec {
      assert rid !in todo;
    }
    MapsEqual(p, spec);
  }

  datatype CombatPlan =
    | CombatPlan(
        combatId: int,
        combatName: Option<string>,
        buildingId: int,
        buildingName: Option<string>,
        recipeId: Option<int>,
        recipeName: Option<string>,
        buildingCost: Cost,
        combatCost: Cost,
        totalCost: Cost,
        producers: map<int, int>)
    | MissingBuildingOrRecipe(combatId: int, combatName: Option<string>)

  /** Merging a cost scaled by one with another adds the two quantity by quantity. */
  lemma MergeTwo(a: Cost, b: Cost)
    ensures Merge([ScaleCost(a, 1), b]).Keys == a.Keys + b.Keys
    ensures forall k :: k in Merge([ScaleCost(a, 1), b]) ==> Merge([ScaleCost(a, 1), b])[k] == Get0(a, k) + Get0(b, k)
  {
    ScaleLaws(a, 1, 1);
    MergeSnoc([a], b);
    MergeIdentity(a);
    assert [a] + [b] == [a, b];
  }

  /**
   * `get_build_plan_for_combat(combat, qty, my_race)`. The names come from `ix`, which stands for
   * the module-level `ID_TO_NAME`: `Names.IndexOf(Names.Registrations(cat))`, as
   * `Names.BuildNameIndex(cat)` computes it.
   */
  function BuildPlanForCombat(cat: Catalog, ix: NameIndex, combat: int, qty: int, myRace: bool): (p: CombatPlan)
    ensures p.combatId == combat && p.combatName == Id2Name(ix, combat)
    ensures p.MissingBuildingOrRecipe? <==> BuildingFor(cat, combat, myRace).None?
    ensures p.CombatPlan? ==>
              && ProducingRecipe(cat, combat, myRace).Some?
              && BuildingFor(cat, combat, myRace).Some?
              && p.buildingId == BuildingFor(cat, combat, myRace).value.key
              && p.buildingName == BuildingFor(cat, combat, myRace).value.proto.name
              && p.recipeId == ProducingRecipe(cat, combat, myRace).value.proto.id
              && p.recipeName == ProducingRecipe(cat, combat, myRace).value.proto.name
              && Offers(BuildingFor(cat, combat, myRace).value, ProducingRecipe(cat, combat, myRace).value.key)
              && p.buildingCost == AsCost(BuildingInputs(cat, p.buildingId))
              && p.combatCost == CombatCost(cat, combat, qty, myRace)
              && p.totalCost.Keys == p.buildingCost.Keys + p.combatCost.Keys
              && (forall k :: k in p.totalCost ==> p.totalCost[k] == Get0(p.buildingCost, k) + Get0(p.combatCost, k))
              && p.producers == Producers(cat, p.totalCost, myRace)
  {
    var b := BuildingFor(cat, combat, myRace);
    var r := ProducingRecipe(cat, combat, myRace);
    if r.None? || b.None? then MissingBuildingOrRecipe(combat, Id2Name(ix, combat))
    else
      var buildingCost := AsCost(BuildingInputs(cat, b.value.key));
      var unitCost := CombatCost(cat, combat, qty, myRace);
      var total := Merge([ScaleCost(buildingCost, 1), unitCost]);
      MergeTwo(buildingCost, unitCost);
      CombatPlan(combat, Id2Name(ix, combat), b.value.key, b.value.proto.name, r.value.proto.id, r.value.proto.name,
                 buildingCost, unitCost, total, Producers(cat, total, myRace))
  }

  /** `get_build_plan_for_combat` as the source runs it, with its loops; `ix` as above. */
  method GetBuildPlanForCombat(cat: Catalog, ix: NameIndex, combat: int, qty: int, myRace: bool) returns (p: CombatPlan)
    ensures p == BuildPlanForCombat(cat, ix, combat, qty, myRace)
  {
    var r := FindProducingRecipe(cat, combat, myRace);
    var b: Option<Entry> := None;
    if r.Some? {
      b := FindBuilding(cat, r.value.key, myRace);
    }
    if r.None? || b.None? {
      return MissingBuildingOrRecipe(combat, Id2Name(ix, combat));
    }
    var buildingInputs := FindBuildingInputs(cat, b.value.key);
    var buildingCost := AsCost(buildingInputs);
    var unitCost := ScaleCost(AsCost(r.value.proto.inputs), qty);
    var total := MergeCosts([ScaleCost(buildingCost, 1), unitCost]);
    var producers := FindProducers(cat, total, myRace);
    p := CombatPlan(combat, Id2Name(ix, combat), b.value.key, b.value.proto.name, r.value.proto.id,
                    r.value.proto.name, buildingCost, unitCost, total, producers);
  }
}
