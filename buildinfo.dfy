/**
 * `build_info_unified(entity_type, recipe_type)` (python/bot/build_dependencies.py:80-168): invert a
 * producer group into an index of entity id -> the entity's name, one requirement per distinct
 * producer (with its pretty inputs and `placeOver`), and the recipes the entity itself lists.
 */
module BuildInfo {
  import opened Wrappers
  import opened Text
  import opened Dicts
  import opened JsonValues
  import opened Dependencies
  import opened Collections

  /* ---------------- outputs of a producer ---------------- */

  /** The single `output`, when it is an int. */
  function SingleOut(fields: seq<(string, Json)>): seq<int> {
    match Field(fields, "output")
    case Some(v) => if IsInt(v) then [AsInt(v)] else []
    case None => []
  }

  /** The int-convertible keys of an `outputs` dict, in order. */
  function DictOuts(fields: seq<(string, Json)>): seq<int> {
    match Field(fields, "outputs")
    case Some(JObj(o)) => DKeyList(IntKeyed(o))
    case _ => []
  }

  /** `outs_ids`: the single int `output`, then the int keys of an `outputs` dict. */
  function OutIds(fields: seq<(string, Json)>): seq<int> {
    SingleOut(fields) + DictOuts(fields)
  }

  /** A producer lists `k` exactly when `k` is its int `output` or a key of its `outputs` dict. */
  lemma OutIdsExact(fields: seq<(string, Json)>, k: int)
    ensures k in OutIds(fields) <==>
              (Field(fields, "output").Some? && IsInt(Field(fields, "output").value)
               && AsInt(Field(fields, "output").value) == k)
              || (Field(fields, "outputs").Some? && Field(fields, "outputs").value.JObj?
                  && exists i :: 0 <= i < |Field(fields, "outputs").value.fields|
                                 && ParseInt(Field(fields, "outputs").value.fields[i].0) == Some(k))
  {
    var o := Field(fields, "outputs");
    if o.Some? && o.value.JObj? {
      IntKeyedKeys(o.value.fields, k);
      var d := IntKeyed(o.value.fields);
      assert k in DKeyList(d) <==> k in DKeys(d) by {
        if k in DKeys(d) {
          var i :| 0 <= i < |d| && d[i].0 == k;
          assert DKeyList(d)[i] == k;
        }
      }
    }
  }

  /** A producer entry lists entity `k` among its outputs. */
  predicate Produces(item: (int, Json), k: int) {
    item.1.JObj? && k in OutIds(item.1.fields)
  }

  /** A producer entry carries non-empty, convertible inputs. */
  predicate HasInputs(item: (int, Json)) {
    item.1.JObj? && InputsOf(item.1.fields).Some? && InputsOf(item.1.fields).value != []
  }

  /* ---------------- the producer scan ---------------- */

  /** `produced_by_map.setdefault(out_id, []).append(pid)` for every output, in order. */
  function AppendAll(d: Dict<seq<int>>, outs: seq<int>, pid: int): Dict<seq<int>> {
    if |outs| == 0 then d
    else DAppend(AppendAll(d, outs[..|outs| - 1], pid), outs[|outs| - 1], pid)
  }

  /** After the appends, a key lists `x` exactly when it did before, or `x` is the producer and the key one of its outputs. */
  lemma {:induction false} AppendAllSpec(d: Dict<seq<int>>, outs: seq<int>, pid: int, k: int, x: int)
    ensures k in DKeys(AppendAll(d, outs, pid)) <==> k in DKeys(d) || k in outs
    ensures x in DGet(AppendAll(d, outs, pid), k).GetOr([]) <==>
              x in DGet(d, k).GetOr([]) || (x == pid && k in outs)
  {
    AppendAllKeys(d, outs, pid, k);
    AppendAllLists(d, outs, pid, k, x);
  }

  lemma {:induction false} AppendAllKeys(d: Dict<seq<int>>, outs: seq<int>, pid: int, k: int)
    ensures k in DKeys(AppendAll(d, outs, pid)) <==> k in DKeys(d) || k in outs
  {
    if |outs| > 0 {
      var prefix := outs[..|outs| - 1];
      assert AppendAll(d, outs, pid) == DAppend(AppendAll(d, prefix, pid), outs[|outs| - 1], pid);
      AppendAllKeys(d, prefix, pid, k);
      InSnoc(outs, k);
    }
  }

  lemma {:induction false} AppendAllLists(d: Dict<seq<int>>, outs: seq<int>, pid: int, k: int, x: int)
    ensures x in DGet(AppendAll(d, outs, pid), k).GetOr([]) <==>
              x in DGet(d, k).GetOr([]) || (x == pid && k in outs)
  {
    if |outs| > 0 {
      var prefix := outs[..|outs| - 1];
      var last := outs[|outs| - 1];
      assert AppendAll(d, outs, pid) == DAppend(AppendAll(d, prefix, pid), last, pid);
      AppendAllLists(d, prefix, pid, k, x);
      DAppendHas(AppendAll(d, prefix, pid), last, pid, k, x);
      InSnoc(outs, k);
    }
  }

  /** One append adds `x` to key `k`'s list exactly when it is the appended producer and `k` the key. */
  lemma DAppendHas(d: Dict<seq<int>>, key: int, pid: int, k: int, x: int)
    ensures x in DGet(DAppend(d, key, pid), k).GetOr([]) <==> x in DGet(d, k).GetOr([]) || (x == pid && k == key)
  {
    if k == key {
      var before := DGet(d, k).GetOr([]);
      assert x in before + [pid] <==> x in before || x == pid;
    }
  }

  /** The producer group's three maps; `inputs_candidates` is never read and is not kept. */
  datatype Scan = Scan(producedBy: Dict<seq<int>>, producerInputs: Dict<Dict<int>>)

  /** One producer entry; None where its inputs do not convert and the script fails. */
  function ScanStep(st: Option<Scan>, item: (int, Json)): Option<Scan> {
    match st
    case None => None
    case Some(sc) =>
      match item.1
      case JObj(f) =>
        (match InputsOf(f)
         case None => None
         case Some(rin) =>
           Some(Scan(AppendAll(sc.producedBy, OutIds(f), item.0),
                     if rin != [] then DPut(sc.producerInputs, item.0, rin) else sc.producerInputs)))
      case _ => st
  }

  function ScanFrom(items: Dict<Json>): Option<Scan> {
    if |items| == 0 then Some(Scan([], []))
    else ScanStep(ScanFrom(items[..|items| - 1]), items[|items| - 1])
  }

  /** The scan fails exactly when some producer object has inputs that do not convert. */
  lemma {:induction false} ScanFromFails(items: Dict<Json>)
    ensures ScanFrom(items).Some? <==>
              forall i :: 0 <= i < |items| && items[i].1.JObj? ==> InputsOf(items[i].1.fields).Some?
  {
    if |items| > 0 {
      var prefix := items[..|items| - 1];
      assert forall i :: 0 <= i < |prefix| ==> prefix[i] == items[i];
      ScanFromFails(prefix);
    }
  }

  /** What one entry does to the producer lists. */
  lemma ScanStepProducedBy(sc: Scan, item: (int, Json))
    requires ScanStep(Some(sc), item).Some?
    ensures ScanStep(Some(sc), item).value.producedBy ==
              if item.1.JObj? then AppendAll(sc.producedBy, OutIds(item.1.fields), item.0) else sc.producedBy
  {
  }

  /** What one entry does to the stored inputs. */
  lemma ScanStepInputs(sc: Scan, item: (int, Json))
    requires ScanStep(Some(sc), item).Some?
    ensures ScanStep(Some(sc), item).value.producerInputs ==
              if HasInputs(item) then DPut(sc.producerInputs, item.0, InputsOf(item.1.fields).value)
              else sc.producerInputs
  {
  }

  /** A successful scan has a successful prefix, one step short. */
  lemma ScanFromSnoc(items: Dict<Json>)
    requires |items| > 0 && ScanFrom(items).Some?
    ensures ScanFrom(items[..|items| - 1]).Some?
    ensures ScanFrom(items) == ScanStep(ScanFrom(items[..|items| - 1]), items[|items| - 1])
  {
  }

  /** Some producer object among `items` lists `k`. */
  predicate SomeProduces(items: Dict<Json>, k: int) {
    exists i :: 0 <= i < |items| && Produces(items[i], k)
  }

  /** Some producer object among `items`, under id `x`, lists `k`. */
  predicate SomeProducesAs(items: Dict<Json>, k: int, x: int) {
    exists i :: 0 <= i < |items| && items[i].0 == x && Produces(items[i], k)
  }

  /** Some entry among `items`, under id `pid`, has non-empty convertible inputs. */
  predicate SomeHasInputs(items: Dict<Json>, pid: int) {
    exists i :: 0 <= i < |items| && items[i].0 == pid && HasInputs(items[i])
  }

  lemma SomeProducesSnoc(items: Dict<Json>, k: int)
    requires |items| > 0
    ensures SomeProduces(items, k) <==> SomeProduces(items[..|items| - 1], k) || Produces(items[|items| - 1], k)
  {
    ExistsSnoc(items, items[..|items| - 1], item => Produces(item, k));
  }

  lemma SomeProducesAsSnoc(items: Dict<Json>, k: int, x: int)
    requires |items| > 0
    ensures SomeProducesAs(items, k, x) <==>
              SomeProducesAs(items[..|items| - 1], k, x) || (items[|items| - 1].0 == x && Produces(items[|items| - 1], k))
  {
    ExistsSnoc(items, items[..|items| - 1], (item: (int, Json)) => item.0 == x && Produces(item, k));
  }

  lemma SomeHasInputsSnoc(items: Dict<Json>, x: int)
    requires |items| > 0
    ensures SomeHasInputs(items, x) <==>
              SomeHasInputs(items[..|items| - 1], x) || (items[|items| - 1].0 == x && HasInputs(items[|items| - 1]))
  {
    ExistsSnoc(items, items[..|items| - 1], (item: (int, Json)) => item.0 == x && HasInputs(item));
  }

  /** An entity has a producer list exactly when some producer object lists it. */
  lemma {:induction false} ScanFromKeys(items: Dict<Json>, k: int)
    requires ScanFrom(items).Some?
    ensures k in DKeys(ScanFrom(items).value.producedBy) <==> SomeProduces(items, k)
  {
    if |items| > 0 {
      var prefix := items[..|items| - 1];
      var last := items[|items| - 1];
      ScanFromSnoc(items);
      var sc := ScanFrom(prefix).value;
      ScanFromKeys(prefix, k);
      ScanStepProducedBy(sc, last);
      SomeProducesSnoc(items, k);
      if last.1.JObj? {
        AppendAllSpec(sc.producedBy, OutIds(last.1.fields), last.0, k, 0);
      }
    }
  }

  /** An entity's producer list holds exactly the ids of the producer objects that list it. */
  lemma {:induction false} ScanFromProducers(items: Dict<Json>, k: int, x: int)
    requires ScanFrom(items).Some?
    ensures x in DGet(ScanFrom(items).value.producedBy, k).GetOr([]) <==> SomeProducesAs(items, k, x)
  {
    if |items| > 0 {
      var prefix := items[..|items| - 1];
      var last := items[|items| - 1];
      ScanFromSnoc(items);
      var sc := ScanFrom(prefix).value;
      ScanFromProducers(prefix, k, x);
      ScanStepProducedBy(sc, last);
      SomeProducesAsSnoc(items, k, x);
      if last.1.JObj? {
        AppendAllSpec(sc.producedBy, OutIds(last.1.fields), last.0, k, x);
      }
    }
  }

  /** A producer's own inputs are stored exactly when some entry under its id has non-empty inputs. */
  lemma {:induction false} ScanFromInputsKeys(items: Dict<Json>, pid: int)
    requires ScanFrom(items).Some?
    ensures pid in DKeys(ScanFrom(items).value.producerInputs) <==> SomeHasInputs(items, pid)
  {
    if |items| > 0 {
      var prefix := items[..|items| - 1];
      var last := items[|items| - 1];
      ScanFromSnoc(items);
      var sc := ScanFrom(prefix).value;
      ScanFromInputsKeys(prefix, pid);
      ScanStepInputs(sc, last);
      SomeHasInputsSnoc(items, pid);
      if HasInputs(last) {
        DPutSpec(sc.producerInputs, last.0, InputsOf(last.1.fields).value);
      }
    }
  }

  /** The stored inputs are those of the last entry under the id with non-empty inputs. */
  lemma {:induction false} ScanFromInputsLastWins(items: Dict<Json>, i: nat)
    requires ScanFrom(items).Some?
    requires i < |items| && HasInputs(items[i])
    requires forall j :: i < j < |items| ==> !(items[j].0 == items[i].0 && HasInputs(items[j]))
    ensures DGet(ScanFrom(items).value.producerInputs, items[i].0) == InputsOf(items[i].1.fields)
  {
    var prefix := items[..|items| - 1];
    var last := items[|items| - 1];
    ScanFromSnoc(items);
    var sc := ScanFrom(prefix).value;
    ScanStepInputs(sc, last);
    if HasInputs(last) {
      DPutSpec(sc.producerInputs, last.0, InputsOf(last.1.fields).value);
    }
    if i < |items| - 1 {
      assert prefix[i] == items[i];
      ScanFromInputsLastWins(prefix, i);
    }
  }

  /** The inner loop `for out_id in outs_ids`. */
  method AppendProducer(d0: Dict<seq<int>>, outs: seq<int>, pid: int) returns (d: Dict<seq<int>>)
    ensures d == AppendAll(d0, outs, pid)
  {
    d := d0;
    var i := 0;
    while i < |outs|
      invariant 0 <= i <= |outs|
      invariant d == AppendAll(d0, outs[..i], pid)
    {
      assert outs[..i + 1][..i] == outs[..i];
      d := DAppend(d, outs[i], pid);
      i := i + 1;
    }
    assert outs[..i] == outs;
  }

  /** The body of the producer loop for one object entry: its converted inputs and its output ids. */
  method ReadProducer(f: seq<(string, Json)>) returns (rin: Option<Dict<int>>, outs: seq<int>)
    ensures rin == InputsOf(f)
    ensures outs == OutIds(f)
  {
    var r := FieldOr(f, "inputs", JObj([]));
    rin := Some([]);
    if r.JObj? {
      var keyed := NormaliseIntKeys(r.fields);
      rin := Counts(keyed);
    }
    outs := [];
    var single := Field(f, "output");
    if single.Some? && IsInt(single.value) {
      outs := outs + [AsInt(single.value)];
    }
    var dict := Field(f, "outputs");
    if dict.Some? && dict.value.JObj? {
      var keyed := NormaliseIntKeys(dict.value.fields);
      outs := outs + DKeyList(keyed);
    }
  }

  /** The producer loop over the recipe group. */
  method ScanProducers(items: Dict<Json>) returns (r: Option<Scan>)
    ensures r == ScanFrom(items)
  {
    var producedBy: Dict<seq<int>> := [];
    var producerInputs: Dict<Dict<int>> := [];
    var i := 0;
    while i < |items|
      invariant 0 <= i <= |items|
      invariant ScanFrom(items[..i]) == Some(Scan(producedBy, producerInputs))
    {
      assert items[..i + 1][..i] == items[..i];
      assert ScanFrom(items[..i + 1]) == ScanStep(Some(Scan(producedBy, producerInputs)), items[i]);
      match items[i].1 {
        case JObj(f) =>
          var rin, outs := ReadProducer(f);
          if rin.None? {
            ScanFailureSticks(items, i + 1);
            return None;
          }
          if rin.value != [] {
            producerInputs := DPut(producerInputs, items[i].0, rin.value);
          }
          producedBy := AppendProducer(producedBy, outs, items[i].0);
        case _ =>
      }
      i := i + 1;
    }
    assert items[..i] == items;
    r := Some(Scan(producedBy, producerInputs));
  }

  lemma {:induction false} ScanFailureSticks(items: Dict<Json>, n: nat)
    requires n <= |items| && ScanFrom(items[..n]) == None
    ensures ScanFrom(items) == None
    decreases |items| - n
  {
    if n < |items| {
      assert items[..n + 1][..n] == items[..n];
      ScanFailureSticks(items, n + 1);
    } else {
      assert items[..n] == items;
    }
  }

  /* ---------------- the entity's own recipes ---------------- */

  /** The int-convertible members of a `recipes` list, in order. */
  function RecipeIdsOf(rs: seq<Json>): (r: seq<int>)
    ensures forall x :: x in r <==> exists i :: 0 <= i < |rs| && IntOf(rs[i]) == Some(x)
  {
    if |rs| == 0 then []
    else
      var prefix := rs[..|rs| - 1];
      assert forall i :: 0 <= i < |prefix| ==> prefix[i] == rs[i];
      RecipeIdsOf(prefix) + (match IntOf(rs[|rs| - 1]) case Some(x) => [x] case None => [])
  }

  /** The inner loop collecting `acc`. */
  method ConvertRecipes(rs: seq<Json>) returns (acc: seq<int>)
    ensures acc == RecipeIdsOf(rs)
  {
    acc := [];
    var i := 0;
    while i < |rs|
      invariant 0 <= i <= |rs|
      invariant acc == RecipeIdsOf(rs[..i])
    {
      assert rs[..i + 1][..i] == rs[..i];
      var x := IntOf(rs[i]);
      if x.Some? {
        acc := acc + [x.value];
      }
      i := i + 1;
    }
    assert rs[..i] == rs;
  }

  /** The recipes an entity object lists, when it has a `recipes` list. */
  function ListedRecipes(v: Json): seq<int> {
    match v
    case JObj(f) =>
      (match Field(f, "recipes")
       case Some(JList(rs)) => RecipeIdsOf(rs)
       case _ => [])
    case _ => []
  }

  /** `own_recipes` as a value. */
  function OwnRecipesFrom(items: Dict<Json>): Dict<seq<int>> {
    if |items| == 0 then []
    else
      var d := OwnRecipesFrom(items[..|items| - 1]);
      var last := items[|items| - 1];
      if |ListedRecipes(last.1)| > 0 then DPut(d, last.0, ListedRecipes(last.1)) else d
  }

  /** The `own_recipes` loop. */
  method CollectOwnRecipes(items: Dict<Json>) returns (own: Dict<seq<int>>)
    ensures own == OwnRecipesFrom(items)
  {
    own := [];
    var i := 0;
    while i < |items|
      invariant 0 <= i <= |items|
      invariant own == OwnRecipesFrom(items[..i])
    {
      assert items[..i + 1][..i] == items[..i];
      var acc: seq<int> := [];
      match items[i].1 {
        case JObj(f) =>
          var recs := Field(f, "recipes");
          if recs.Some? && recs.value.JList? {
            acc := ConvertRecipes(recs.value.items);
          }
        case _ =>
      }
      assert acc == ListedRecipes(items[i].1);
      if acc != [] {
        own := DPut(own, items[i].0, acc);
      }
      i := i + 1;
    }
    assert items[..i] == items;
  }

  /** An entry under id `eid` that lists a convertible recipe. */
  predicate ListsRecipes(item: (int, Json), eid: int) {
    item.0 == eid && |ListedRecipes(item.1)| > 0
  }

  /** Some entry among `items`, under id `eid`, lists a convertible recipe. */
  predicate SomeListsRecipes(items: Dict<Json>, eid: int) {
    exists i :: 0 <= i < |items| && ListsRecipes(items[i], eid)
  }

  lemma SomeListsRecipesSnoc(items: Dict<Json>, eid: int)
    requires |items| > 0
    ensures SomeListsRecipes(items, eid) <==>
              SomeListsRecipes(items[..|items| - 1], eid) || ListsRecipes(items[|items| - 1], eid)
  {
    ExistsSnoc(items, items[..|items| - 1], item => ListsRecipes(item, eid));
  }

  /** An entity has own recipes exactly when some entry under its id lists a convertible one. */
  lemma {:induction false} OwnRecipesKeys(items: Dict<Json>, eid: int)
    ensures eid in DKeys(OwnRecipesFrom(items)) <==> SomeListsRecipes(items, eid)
  {
    if |items| > 0 {
      var prefix := items[..|items| - 1];
      var last := items[|items| - 1];
      OwnRecipesKeys(prefix, eid);
      SomeListsRecipesSnoc(items, eid);
      var lr := ListedRecipes(last.1);
      if lr != [] {
        DPutSpec(OwnRecipesFrom(prefix), last.0, lr);
      }
    }
  }

  /** The stored list is that of the last entry under the id that lists a convertible recipe. */
  lemma {:induction false} OwnRecipesLastWins(items: Dict<Json>, i: nat)
    requires i < |items| && |ListedRecipes(items[i].1)| > 0
    requires forall j :: i < j < |items| ==> !(items[j].0 == items[i].0 && |ListedRecipes(items[j].1)| > 0)
    ensures DGet(OwnRecipesFrom(items), items[i].0) == Some(ListedRecipes(items[i].1))
  {
    var prefix := items[..|items| - 1];
    var last := items[|items| - 1];
    var lr := ListedRecipes(last.1);
    if i == |items| - 1 {
      DPutGet(OwnRecipesFrom(prefix), last.0, lr);
    } else {
      assert prefix[i] == items[i];
      assert forall j :: i < j < |prefix| ==> prefix[j] == items[j];
      OwnRecipesLastWins(prefix, i);
      if |lr| > 0 {
        DPutOther(OwnRecipesFrom(prefix), last.0, lr, items[i].0);
      }
    }
  }

  /* ---------------- sorted(set(...)) ---------------- */

  predicate Increasing(xs: seq<int>) {
    forall i, j :: 0 <= i < j < |xs| ==> xs[i] < xs[j]
  }

  function InsertInt(xs: seq<int>, x: int): (r: seq<int>)
    requires Increasing(xs)
    ensures Increasing(r)
    ensures forall y :: y in r <==> y in xs || y == x
  {
    if |xs| == 0 then [x]
    else if xs[0] == x then xs
    else if x < xs[0] then [x] + xs
    else
      var rest := InsertInt(xs[1..], x);
      assert forall y :: y in rest ==> xs[0] < y by {
        forall y | y in rest ensures xs[0] < y {
          if y != x {
            var i :| 1 <= i < |xs| && xs[i] == y;
          }
        }
      }
      assert xs == [xs[0]] + xs[1..];
      var r := [xs[0]] + rest;
      assert forall j :: 0 < j < |r| ==> r[j] == rest[j - 1] && rest[j - 1] in rest;
      r
  }

  /** `sorted(set(xs))`. */
  function SortedSet(xs: seq<int>): (r: seq<int>)
    ensures Increasing(r)
    ensures forall y :: y in r <==> y in xs
  {
    if |xs| == 0 then []
    else
      var prefix := xs[..|xs| - 1];
      assert forall y :: y in xs <==> y in prefix || y == xs[|xs| - 1] by {
        assert xs == prefix + [xs[|xs| - 1]];
      }
      InsertInt(SortedSet(prefix), xs[|xs| - 1])
  }

  /** An increasing sequence is determined by its elements. */
  lemma {:induction false} IncreasingUnique(xs: seq<int>, ys: seq<int>)
    requires Increasing(xs) && Increasing(ys)
    requires forall y :: y in xs <==> y in ys
    ensures xs == ys
  {
    assert |xs| > 0 ==> xs[0] in xs && xs[0] in ys;
    assert |ys| > 0 ==> ys[0] in ys && ys[0] in xs;
    if |xs| > 0 && |ys| > 0 {
      assert xs[0] == ys[0] by {
        var i :| 0 <= i < |ys| && ys[i] == xs[0];
        var j :| 0 <= j < |xs| && xs[j] == ys[0];
      }
      forall y ensures y in xs[1..] <==> y in ys[1..] {
        if y in xs[1..] {
          var i :| 1 <= i < |xs| && xs[i] == y;
          assert y in xs;
          assert y in ys;
          var k :| 0 <= k < |ys| && ys[k] == y;
          assert k != 0;
          assert ys[1..][k - 1] == y;
        }
        if y in ys[1..] {
          var i :| 1 <= i < |ys| && ys[i] == y;
          assert y in ys;
          assert y in xs;
          var k :| 0 <= k < |xs| && xs[k] == y;
          assert k != 0;
          assert xs[1..][k - 1] == y;
        }
      }
      IncreasingUnique(xs[1..], ys[1..]);
      assert xs == [xs[0]] + xs[1..];
      assert ys == [ys[0]] + ys[1..];
    }
  }

  /** The members of `ks` that are in `s`, in order. */
  function Common(ks: seq<int>, s: set<int>): (r: seq<int>)
    ensures forall x :: x in r <==> x in ks && x in s
  {
    if |ks| == 0 then []
    else
      var prefix := ks[..|ks| - 1];
      assert forall x :: x in ks <==> x in prefix || x == ks[|ks| - 1] by {
        assert ks == prefix + [ks[|ks| - 1]];
      }
      Common(prefix, s) + (if ks[|ks| - 1] in s then [ks[|ks| - 1]] else [])
  }

  /** `candidate_ids = sorted(ent_ids.intersection(produced_by_map.keys()))`. */
  function Candidates(entItems: Dict<Json>, st: Scan): seq<int> {
    SortedSet(Common(DKeyList(st.producedBy), DKeys(entItems)))
  }

  /* ---------------- the report ---------------- */

  datatype Requirement = Requirement(id: int, name: string, inputs: seq<PrettyInput>, placeOver: Option<int>)

  datatype RecipeRef = RecipeRef(id: int, name: string)

  datatype Node = Node(name: string, requirements: seq<Requirement>, recipes: Option<seq<RecipeRef>>)

  /** A producer's own inputs, else its `recipe_inputs` entry, else `{}`. */
  function RequirementInputs(st: Scan, recipeInputs: Dict<Dict<int>>, rid: int): Dict<int> {
    match DGet(st.producerInputs, rid)
    case Some(c) => c
    case None => DGet(recipeInputs, rid).GetOr([])
  }

  /** The producer object's `placeOver`, when it is an int. */
  function PlaceOver(recItems: Dict<Json>, rid: int): Option<int> {
    var o: Option<Json> := DGet(recItems, rid);
    if o.Some? && o.value.JObj? then
      match Field(o.value.fields, "placeOver")
      case Some(v) => if IsInt(v) then Some(AsInt(v)) else None
      case None => None
    else None
  }

  function RequirementFor(names: Dict<(string, string)>, recipeInputs: Dict<Dict<int>>, recItems: Dict<Json>,
                          st: Scan, rid: int): Requirement {
    Requirement(rid, GetName(names, rid), PrettyInputs(names, RequirementInputs(st, recipeInputs, rid)),
                PlaceOver(recItems, rid))
  }

  function Requirements(names: Dict<(string, string)>, recipeInputs: Dict<Dict<int>>, recItems: Dict<Json>,
                        st: Scan, producers: seq<int>): seq<Requirement> {
    seq(|producers|, i requires 0 <= i < |producers| => RequirementFor(names, recipeInputs, recItems, st, producers[i]))
  }

  function RecipeRefs(names: Dict<(string, string)>, ids: seq<int>): seq<RecipeRef> {
    seq(|ids|, i requires 0 <= i < |ids| => RecipeRef(ids[i], GetName(names, ids[i])))
  }

  /** The requirements carry exactly the producer ids, in order, each with its own requirement. */
  lemma RequirementsIds(names: Dict<(string, string)>, recipeInputs: Dict<Dict<int>>, recItems: Dict<Json>,
                        st: Scan, producers: seq<int>)
    ensures ReqIds(Requirements(names, recipeInputs, recItems, st, producers)) == producers
    ensures forall q :: q in Requirements(names, recipeInputs, recItems, st, producers) ==>
              q == RequirementFor(names, recipeInputs, recItems, st, q.id)
  {
    var r := Requirements(names, recipeInputs, recItems, st, producers);
    assert |ReqIds(r)| == |producers|;
    assert forall i :: 0 <= i < |producers| ==> ReqIds(r)[i] == producers[i];
  }

  function NodeFor(names: Dict<(string, string)>, recipeInputs: Dict<Dict<int>>, recItems: Dict<Json>,
                   st: Scan, own: Dict<seq<int>>, eid: int): Node {
    Node(GetName(names, eid),
         Requirements(names, recipeInputs, recItems, st, SortedSet(DGet(st.producedBy, eid).GetOr([]))),
         match DGet(own, eid)
         case Some(acc) => Some(RecipeRefs(names, SortedSet(acc)))
         case None => None)
  }

  function InfoOf(names: Dict<(string, string)>, recipeInputs: Dict<Dict<int>>, recItems: Dict<Json>,
                  st: Scan, own: Dict<seq<int>>, cands: seq<int>): Dict<Node> {
    seq(|cands|, i requires 0 <= i < |cands| => (cands[i], NodeFor(names, recipeInputs, recItems, st, own, cands[i])))
  }

  /**
   * The report has exactly the candidates as its keys, in their order, each with its own node;
   * for ascending candidates no key repeats.
   */
  lemma InfoOfKeys(names: Dict<(string, string)>, recipeInputs: Dict<Dict<int>>, recItems: Dict<Json>,
                   st: Scan, own: Dict<seq<int>>, cands: seq<int>)
    ensures DKeyList(InfoOf(names, recipeInputs, recItems, st, own, cands)) == cands
    ensures forall e :: e in InfoOf(names, recipeInputs, recItems, st, own, cands) ==>
              e.1 == NodeFor(names, recipeInputs, recItems, st, own, e.0)
    ensures Increasing(cands) ==> DistinctKeys(InfoOf(names, recipeInputs, recItems, st, own, cands))
  {
    var r := InfoOf(names, recipeInputs, recItems, st, own, cands);
    assert |DKeyList(r)| == |cands|;
    assert forall i :: 0 <= i < |cands| ==> DKeyList(r)[i] == cands[i];
  }

  /**
   * `build_info_unified(entity_type, recipe_type)`: `{}` when either group is unresolved; None
   * where a producer's inputs do not convert and the script fails.
   */
  function BuildInfoUnified(norm: Norm, names: Dict<(string, string)>, recipeInputs: Dict<Dict<int>>,
                            entityType: string, recipeType: string): (r: Option<Dict<Node>>)
    ensures ResolveGroup(norm, entityType).None? || ResolveGroup(norm, recipeType).None? ==> r == Some([])
  {
    var ent := ResolveGroup(norm, entityType);
    var rec := ResolveGroup(norm, recipeType);
    if ent.None? || rec.None? then Some([])
    else
      var recItems := GroupItems(norm, rec.value);
      var entItems := GroupItems(norm, ent.value);
      match ScanFrom(recItems)
      case None => None
      case Some(st) => Some(InfoOf(names, recipeInputs, recItems, st, OwnRecipesFrom(entItems), Candidates(entItems, st)))
  }

  /* ---------------- the loops that build the report ---------------- */

  /** The requirements loop over `sorted(set(producer_ids))`. */
  method BuildRequirements(names: Dict<(string, string)>, recipeInputs: Dict<Dict<int>>, recItems: Dict<Json>,
                           st: Scan, producers: seq<int>) returns (reqs: seq<Requirement>)
    ensures reqs == Requirements(names, recipeInputs, recItems, st, producers)
  {
    reqs := [];
    var i := 0;
    while i < |producers|
      invariant 0 <= i <= |producers|
      invariant reqs == Requirements(names, recipeInputs, recItems, st, producers[..i])
    {
      RequirementsSnoc(names, recipeInputs, recItems, st, producers, i);
      var req := BuildRequirement(names, recipeInputs, recItems, st, producers[i]);
      reqs := reqs + [req];
      i := i + 1;
    }
    assert producers[..i] == producers;
  }

  lemma RequirementsSnoc(names: Dict<(string, string)>, recipeInputs: Dict<Dict<int>>, recItems: Dict<Json>,
                         st: Scan, producers: seq<int>, i: nat)
    requires i < |producers|
    ensures Requirements(names, recipeInputs, recItems, st, producers[..i + 1]) ==
              Requirements(names, recipeInputs, recItems, st, producers[..i]) +
              [RequirementFor(names, recipeInputs, recItems, st, producers[i])]
  {
    var a := Requirements(names, recipeInputs, recItems, st, producers[..i + 1]);
    var b := Requirements(names, recipeInputs, recItems, st, producers[..i]);
    var c := b + [RequirementFor(names, recipeInputs, recItems, st, producers[i])];
    assert |a| == |c|;
    forall j | 0 <= j < |a| ensures a[j] == c[j] {
      var x := producers[..i + 1][j];
      assert a[j] == RequirementFor(names, recipeInputs, recItems, st, x);
      if j < i {
        assert producers[..i][j] == x;
        assert c[j] == b[j];
      } else {
        assert x == producers[i];
      }
    }
  }

  /** One requirement: the producer's name, its inputs or the recipe's, and an int `placeOver`. */
  method BuildRequirement(names: Dict<(string, string)>, recipeInputs: Dict<Dict<int>>, recItems: Dict<Json>,
                          st: Scan, rid: int) returns (req: Requirement)
    ensures req == RequirementFor(names, recipeInputs, recItems, st, rid)
  {
    var rName := GetName(names, rid);
    var rInputs := DGet(st.producerInputs, rid);
    var inputs: Dict<int>;
    if rInputs.None? {
      inputs := DGet(recipeInputs, rid).GetOr([]);
    } else {
      inputs := rInputs.value;
    }
    var placeOver: Option<int> := None;
    var recipeObj := DGet(recItems, rid);
    if recipeObj.Some? && recipeObj.value.JObj? {
      var po := Field(recipeObj.value.fields, "placeOver");
      if po.Some? && IsInt(po.value) {
        placeOver := Some(AsInt(po.value));
      }
    }
    var pretty := ToPrettyInputs(names, inputs);
    req := Requirement(rid, rName, pretty, placeOver);
  }

  /** The body of the `for eid in candidate_ids` loop. */
  method BuildNode(names: Dict<(string, string)>, recipeInputs: Dict<Dict<int>>, recItems: Dict<Json>,
                   st: Scan, own: Dict<seq<int>>, eid: int) returns (node: Node)
    ensures node == NodeFor(names, recipeInputs, recItems, st, own, eid)
  {
    var name := GetName(names, eid);
    var producerIds := DGet(st.producedBy, eid).GetOr([]);
    var reqs := BuildRequirements(names, recipeInputs, recItems, st, SortedSet(producerIds));
    var recipes: Option<seq<RecipeRef>> := None;
    var acc := DGet(own, eid);
    if acc.Some? {
      recipes := Some(RecipeRefs(names, SortedSet(acc.value)));
    }
    node := Node(name, reqs, recipes);
  }

  /** `build_info_unified(entity_type, recipe_type)`. */
  method GetBuildInfoUnified(norm: Norm, names: Dict<(string, string)>, recipeInputs: Dict<Dict<int>>,
                             entityType: string, recipeType: string) returns (r: Option<Dict<Node>>)
    ensures r == BuildInfoUnified(norm, names, recipeInputs, entityType, recipeType)
  {
    var ent := FindGroup(norm, entityType);
    var rec := FindGroup(norm, recipeType);
    if ent.None? || rec.None? {
      return Some([]);
    }
    var recItems := GroupItems(norm, rec.value);
    var scan := ScanProducers(recItems);
    if scan.None? {
      return None;
    }
    var st := scan.value;
    var entItems := GroupItems(norm, ent.value);
    var cands := Candidates(entItems, st);
    var own := CollectOwnRecipes(entItems);
    var out := BuildNodes(names, recipeInputs, recItems, st, own, cands);
    r := Some(out);
  }

  /** The `for eid in candidate_ids` loop: one node per candidate, in candidate order. */
  method BuildNodes(names: Dict<(string, string)>, recipeInputs: Dict<Dict<int>>, recItems: Dict<Json>,
                    st: Scan, own: Dict<seq<int>>, cands: seq<int>) returns (out: Dict<Node>)
    requires Increasing(cands)
    ensures out == InfoOf(names, recipeInputs, recItems, st, own, cands)
  {
    out := [];
    var i := 0;
    while i < |cands|
      invariant 0 <= i <= |cands|
      invariant out == InfoOf(names, recipeInputs, recItems, st, own, cands[..i])
    {
      var node := BuildNode(names, recipeInputs, recItems, st, own, cands[i]);
      InfoOfSnoc(names, recipeInputs, recItems, st, own, cands, i);
      assert cands[i] !in DKeys(out) by {
        forall j | 0 <= j < |out| ensures out[j].0 != cands[i] {
          assert out[j].0 == cands[j];
        }
      }
      DPutNew(out, cands[i], node);
      out := DPut(out, cands[i], node);
      i := i + 1;
    }
    assert cands[..i] == cands;
  }

  lemma InfoOfSnoc(names: Dict<(string, string)>, recipeInputs: Dict<Dict<int>>, recItems: Dict<Json>,
                   st: Scan, own: Dict<seq<int>>, cands: seq<int>, i: nat)
    requires i < |cands|
    ensures InfoOf(names, recipeInputs, recItems, st, own, cands[..i + 1]) ==
              InfoOf(names, recipeInputs, recItems, st, own, cands[..i]) +
              [(cands[i], NodeFor(names, recipeInputs, recItems, st, own, cands[i]))]
  {
    var a := InfoOf(names, recipeInputs, recItems, st, own, cands[..i + 1]);
    var b := InfoOf(names, recipeInputs, recItems, st, own, cands[..i]);
    var c := b + [(cands[i], NodeFor(names, recipeInputs, recItems, st, own, cands[i]))];
    assert |a| == |c|;
    forall j | 0 <= j < |a| ensures a[j] == c[j] {
      var x := cands[..i + 1][j];
      assert a[j] == (x, NodeFor(names, recipeInputs, recItems, st, own, x));
      if j < i {
        assert cands[..i][j] == x;
        assert c[j] == b[j];
      } else {
        assert x == cands[i];
      }
    }
  }

  /** The three reports the script writes. */
  datatype Reports = Reports(buildings: Dict<Node>, combat: Dict<Node>, resources: Dict<Node>)

  /** The script's module-level work once the document is loaded; None where it fails. */
  function AllReports(norm: Norm): Option<Reports> {
    var names := IdNames(norm);
    match RecipeInputs(norm)
    case None => None
    case Some(ri) =>
      match BuildInfoUnified(norm, names, ri, "Unit", "Construction")
      case None => None
      case Some(b) =>
        match BuildInfoUnified(norm, names, ri, "Unit", "Recipe")
        case None => None
        case Some(c) =>
          match BuildInfoUnified(norm, names, ri, "Resource", "Recipe")
          case None => None
          case Some(res) => Some(Reports(b, c, res))
  }

  method BuildReports(norm: Norm) returns (r: Option<Reports>)
    ensures r == AllReports(norm)
  {
    var names := BuildIdToName(norm);
    var ri := BuildRecipeInputs(norm);
    if ri.None? {
      return None;
    }
    var b := GetBuildInfoUnified(norm, names, ri.value, "Unit", "Construction");
    if b.None? {
      return None;
    }
    var c := GetBuildInfoUnified(norm, names, ri.value, "Unit", "Recipe");
    if c.None? {
      return None;
    }
    var res := GetBuildInfoUnified(norm, names, ri.value, "Resource", "Recipe");
    if res.None? {
      return None;
    }
    r := Some(Reports(b.value, c.value, res.value));
  }

  /* ---------------- properties of the report ---------------- */

  /** Both groups resolved, the producer scan succeeded with `st`, and the report is `out`. */
  predicate Built(norm: Norm, names: Dict<(string, string)>, recipeInputs: Dict<Dict<int>>,
                  entityType: string, recipeType: string,
                  entItems: Dict<Json>, recItems: Dict<Json>, st: Scan, out: Dict<Node>) {
    && ResolveGroup(norm, entityType).Some?
    && ResolveGroup(norm, recipeType).Some?
    && entItems == GroupItems(norm, ResolveGroup(norm, entityType).value)
    && recItems == GroupItems(norm, ResolveGroup(norm, recipeType).value)
    && ScanFrom(recItems) == Some(st)
    && BuildInfoUnified(norm, names, recipeInputs, entityType, recipeType) == Some(out)
  }

  lemma BuiltIsInfo(norm: Norm, names: Dict<(string, string)>, recipeInputs: Dict<Dict<int>>,
                    entityType: string, recipeType: string,
                    entItems: Dict<Json>, recItems: Dict<Json>, st: Scan, out: Dict<Node>)
    requires Built(norm, names, recipeInputs, entityType, recipeType, entItems, recItems, st, out)
    ensures out == InfoOf(names, recipeInputs, recItems, st, OwnRecipesFrom(entItems), Candidates(entItems, st))
  {
  }

  /**
   * The report lists, in ascending order, exactly the entity ids that some producer object names
   * as its int `output` or among its `outputs` keys.
   */
  lemma InfoKeys(norm: Norm, names: Dict<(string, string)>, recipeInputs: Dict<Dict<int>>,
                 entityType: string, recipeType: string,
                 entItems: Dict<Json>, recItems: Dict<Json>, st: Scan, out: Dict<Node>)
    requires Built(norm, names, recipeInputs, entityType, recipeType, entItems, recItems, st, out)
    ensures Increasing(DKeyList(out))
    ensures forall eid :: eid in DKeys(out) <==> eid in DKeys(entItems) && SomeProduces(recItems, eid)
  {
    BuiltIsInfo(norm, names, recipeInputs, entityType, recipeType, entItems, recItems, st, out);
    var cands := Candidates(entItems, st);
    assert DKeyList(out) == cands;
    forall eid ensures eid in DKeys(out) <==> eid in DKeys(entItems) && SomeProduces(recItems, eid) {
      ScanFromKeys(recItems, eid);
      assert eid in DKeys(out) <==> eid in cands by {
        if eid in cands {
          var j :| 0 <= j < |cands| && cands[j] == eid;
          assert out[j].0 == eid;
        }
      }
      var pb := st.producedBy;
      assert eid in DKeyList(pb) <==> eid in DKeys(pb) by {
        if eid in DKeys(pb) {
          var j :| 0 <= j < |pb| && pb[j].0 == eid;
          assert DKeyList(pb)[j] == eid;
        }
      }
    }
  }

  function ReqIds(reqs: seq<Requirement>): seq<int> {
    seq(|reqs|, i requires 0 <= i < |reqs| => reqs[i].id)
  }

  /**
   * An entity is named by `get_name`, and its requirements hold one entry per distinct producer
   * id that lists it, in ascending order.
   */
  lemma InfoRequirements(norm: Norm, names: Dict<(string, string)>, recipeInputs: Dict<Dict<int>>,
                         entityType: string, recipeType: string,
                         entItems: Dict<Json>, recItems: Dict<Json>, st: Scan, out: Dict<Node>, j: nat)
    requires Built(norm, names, recipeInputs, entityType, recipeType, entItems, recItems, st, out)
    requires j < |out|
    ensures out[j].1.name == GetName(names, out[j].0)
    ensures Increasing(ReqIds(out[j].1.requirements))
    ensures forall x :: x in ReqIds(out[j].1.requirements) <==> SomeProducesAs(recItems, out[j].0, x)
  {
    BuiltIsInfo(norm, names, recipeInputs, entityType, recipeType, entItems, recItems, st, out);
    var eid := out[j].0;
    var producers := SortedSet(DGet(st.producedBy, eid).GetOr([]));
    assert ReqIds(out[j].1.requirements) == producers;
    forall x ensures x in producers <==> SomeProducesAs(recItems, eid, x) {
      ScanFromProducers(recItems, eid, x);
    }
  }

  /** The object entry under `rid` that `recipe_obj` reads holds an int `placeOver` equal to `n`. */
  predicate IntPlaceOver(v: Json, n: int) {
    v.JObj? && Field(v.fields, "placeOver").Some? && IsInt(Field(v.fields, "placeOver").value)
    && AsInt(Field(v.fields, "placeOver").value) == n
  }

  /**
   * A requirement's inputs are its producer's own non-empty inputs (those of the last entry under
   * its id that has some), else its `recipe_inputs` entry, else none; `placeOver` is present
   * exactly where the producer object under `rid` holds an int, and it is that int.
   */
  lemma RequirementSources(names: Dict<(string, string)>, recipeInputs: Dict<Dict<int>>, recItems: Dict<Json>,
                           st: Scan, rid: int)
    requires ScanFrom(recItems) == Some(st)
    ensures var req := RequirementFor(names, recipeInputs, recItems, st, rid);
            && req.id == rid
            && req.name == GetName(names, rid)
            && (!SomeHasInputs(recItems, rid) ==>
                  req.inputs == PrettyInputs(names, DGet(recipeInputs, rid).GetOr([])))
            && (forall i :: 0 <= i < |recItems| && recItems[i].0 == rid && HasInputs(recItems[i])
                            && (forall k :: i < k < |recItems| ==> !(recItems[k].0 == rid && HasInputs(recItems[k]))) ==>
                  req.inputs == PrettyInputs(names, InputsOf(recItems[i].1.fields).value))
            && (req.placeOver.Some? ==>
                  exists i :: 0 <= i < |recItems| && recItems[i].0 == rid && IntPlaceOver(recItems[i].1, req.placeOver.value))
            && (forall n :: DGet(recItems, rid).Some? && IntPlaceOver(DGet(recItems, rid).value, n) ==>
                  req.placeOver == Some(n))
  {
    RequirementInputsFrom(names, recipeInputs, recItems, st, rid);
    RequirementPlaceOver(names, recipeInputs, recItems, st, rid);
  }

  lemma RequirementInputsFrom(names: Dict<(string, string)>, recipeInputs: Dict<Dict<int>>, recItems: Dict<Json>,
                              st: Scan, rid: int)
    requires ScanFrom(recItems) == Some(st)
    ensures var req := RequirementFor(names, recipeInputs, recItems, st, rid);
            && (!SomeHasInputs(recItems, rid) ==>
                  req.inputs == PrettyInputs(names, DGet(recipeInputs, rid).GetOr([])))
            && (forall i :: 0 <= i < |recItems| && recItems[i].0 == rid && HasInputs(recItems[i])
                            && (forall k :: i < k < |recItems| ==> !(recItems[k].0 == rid && HasInputs(recItems[k]))) ==>
                  req.inputs == PrettyInputs(names, InputsOf(recItems[i].1.fields).value))
  {
    ScanFromInputsKeys(recItems, rid);
    forall i | 0 <= i < |recItems| && recItems[i].0 == rid && HasInputs(recItems[i])
               && (forall k :: i < k < |recItems| ==> !(recItems[k].0 == rid && HasInputs(recItems[k])))
      ensures DGet(st.producerInputs, rid) == InputsOf(recItems[i].1.fields)
    {
      ScanFromInputsLastWins(recItems, i);
    }
  }

  lemma RequirementPlaceOver(names: Dict<(string, string)>, recipeInputs: Dict<Dict<int>>, recItems: Dict<Json>,
                             st: Scan, rid: int)
    ensures var req := RequirementFor(names, recipeInputs, recItems, st, rid);
            && (req.placeOver.Some? ==>
                  exists i :: 0 <= i < |recItems| && recItems[i].0 == rid && IntPlaceOver(recItems[i].1, req.placeOver.value))
            && (forall n :: DGet(recItems, rid).Some? && IntPlaceOver(DGet(recItems, rid).value, n) ==>
                  req.placeOver == Some(n))
  {
    var o := DGet(recItems, rid);
    if o.Some? && o.value.JObj? {
      var i :| 0 <= i < |recItems| && recItems[i].0 == rid && recItems[i].1 == o.value;
    }
  }

  /**
   * The `recipes` field is present exactly when some entry under the entity's id lists an
   * int-convertible recipe; it then holds that entry's ids, deduplicated, ascending, each with its
   * name.
   */
  lemma InfoRecipes(norm: Norm, names: Dict<(string, string)>, recipeInputs: Dict<Dict<int>>,
                    entityType: string, recipeType: string,
                    entItems: Dict<Json>, recItems: Dict<Json>, st: Scan, out: Dict<Node>, j: nat)
    requires Built(norm, names, recipeInputs, entityType, recipeType, entItems, recItems, st, out)
    requires j < |out|
    ensures out[j].1.recipes.Some? <==> SomeListsRecipes(entItems, out[j].0)
    ensures out[j].1.recipes.Some? ==>
              && Increasing(RefIds(out[j].1.recipes.value))
              && (forall m :: 0 <= m < |out[j].1.recipes.value| ==>
                    out[j].1.recipes.value[m].name == GetName(names, out[j].1.recipes.value[m].id))
    ensures forall i :: 0 <= i < |entItems| && ListsRecipes(entItems[i], out[j].0)
                        && (forall k :: i < k < |entItems| ==> !ListsRecipes(entItems[k], out[j].0)) ==>
              && out[j].1.recipes.Some?
              && forall x :: x in RefIds(out[j].1.recipes.value) <==> x in ListedRecipes(entItems[i].1)
  {
    InfoRecipesPresent(norm, names, recipeInputs, entityType, recipeType, entItems, recItems, st, out, j);
    InfoRecipesSorted(norm, names, recipeInputs, entityType, recipeType, entItems, recItems, st, out, j);
    InfoRecipesLast(norm, names, recipeInputs, entityType, recipeType, entItems, recItems, st, out, j);
  }

  lemma InfoRecipesPresent(norm: Norm, names: Dict<(string, string)>, recipeInputs: Dict<Dict<int>>,
                    entityType: string, recipeType: string,
                    entItems: Dict<Json>, recItems: Dict<Json>, st: Scan, out: Dict<Node>, j: nat)
    requires Built(norm, names, recipeInputs, entityType, recipeType, entItems, recItems, st, out)
    requires j < |out|
    ensures out[j].1.recipes.Some? <==> SomeListsRecipes(entItems, out[j].0)
  {
    BuiltIsInfo(norm, names, recipeInputs, entityType, recipeType, entItems, recItems, st, out);
    OwnRecipesKeys(entItems, out[j].0);
  }

  lemma InfoRecipesSorted(norm: Norm, names: Dict<(string, string)>, recipeInputs: Dict<Dict<int>>,
                    entityType: string, recipeType: string,
                    entItems: Dict<Json>, recItems: Dict<Json>, st: Scan, out: Dict<Node>, j: nat)
    requires Built(norm, names, recipeInputs, entityType, recipeType, entItems, recItems, st, out)
    requires j < |out|
    ensures out[j].1.recipes.Some? ==>
              && Increasing(RefIds(out[j].1.recipes.value))
              && (forall m :: 0 <= m < |out[j].1.recipes.value| ==>
                    out[j].1.recipes.value[m].name == GetName(names, out[j].1.recipes.value[m].id))
  {
    BuiltIsInfo(norm, names, recipeInputs, entityType, recipeType, entItems, recItems, st, out);
    var own := OwnRecipesFrom(entItems);
    assert out[j].1 == NodeFor(names, recipeInputs, recItems, st, own, out[j].0);
    if DGet(own, out[j].0).Some? {
      RefIdsOfRefs(names, SortedSet(DGet(own, out[j].0).value));
    }
  }

  lemma InfoRecipesLast(norm: Norm, names: Dict<(string, string)>, recipeInputs: Dict<Dict<int>>,
                    entityType: string, recipeType: string,
                    entItems: Dict<Json>, recItems: Dict<Json>, st: Scan, out: Dict<Node>, j: nat)
    requires Built(norm, names, recipeInputs, entityType, recipeType, entItems, recItems, st, out)
    requires j < |out|
    ensures forall i :: 0 <= i < |entItems| && ListsRecipes(entItems[i], out[j].0)
                        && (forall k :: i < k < |entItems| ==> !ListsRecipes(entItems[k], out[j].0)) ==>
              && out[j].1.recipes.Some?
              && forall x :: x in RefIds(out[j].1.recipes.value) <==> x in ListedRecipes(entItems[i].1)
  {
    BuiltIsInfo(norm, names, recipeInputs, entityType, recipeType, entItems, recItems, st, out);
    var eid := out[j].0;
    var own := OwnRecipesFrom(entItems);
    assert out[j].1 == NodeFor(names, recipeInputs, recItems, st, own, eid);
    forall i | 0 <= i < |entItems| && ListsRecipes(entItems[i], eid)
               && (forall k :: i < k < |entItems| ==> !ListsRecipes(entItems[k], eid))
      ensures && out[j].1.recipes.Some?
              && forall x :: x in RefIds(out[j].1.recipes.value) <==> x in ListedRecipes(entItems[i].1)
    {
      var lr := ListedRecipes(entItems[i].1);
      OwnRecipesLastWins(entItems, i);
      assert out[j].1.recipes == Some(RecipeRefs(names, SortedSet(lr)));
      RefIdsOfRefs(names, SortedSet(lr));
    }
  }

  /** The recipe references carry exactly the given ids, in order, each named by `get_name`. */
  lemma RefIdsOfRefs(names: Dict<(string, string)>, ids: seq<int>)
    ensures RefIds(RecipeRefs(names, ids)) == ids
    ensures forall q :: q in RecipeRefs(names, ids) ==> q.name == GetName(names, q.id)
  {
    var r := RefIds(RecipeRefs(names, ids));
    assert |r| == |ids|;
    assert forall i :: 0 <= i < |ids| ==> r[i] == ids[i];
  }

  function RefIds(refs: seq<RecipeRef>): seq<int> {
    seq(|refs|, i requires 0 <= i < |refs| => refs[i].id)
  }
}
