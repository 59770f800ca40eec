/**
 * The shared helpers and indexes of the catalog report builder (python/bot/build_dependencies.py):
 * the normalised document, case-insensitive group resolution, integer-key normalisation, the
 * global id -> name index with its `str(id)` fallback, the pretty inputs list, and the
 * `recipe_inputs` index of every recipe's inputs.
 */
module Dependencies {
  import opened Wrappers
  import opened Text
  import opened Dicts
  import opened JsonValues
  import opened Collections

  /** The normalised document: each top-level group with its entries, keyed by integer id. */
  type Norm = seq<(string, Dict<Json>)>

  function GroupNames(norm: Norm): set<string> {
    set i | 0 <= i < |norm| :: norm[i].0
  }

  /** `norm.get(g, {})`. */
  function GroupItems(norm: Norm, g: string): (r: Dict<Json>)
    ensures g !in GroupNames(norm) ==> r == []
    ensures forall i :: 0 <= i < |norm| && norm[i].0 == g && (forall j :: 0 <= j < i ==> norm[j].0 != g) ==>
              r == norm[i].1
  {
    if |norm| == 0 then []
    else if norm[0].0 == g then norm[0].1
    else
      var r := GroupItems(norm[1..], g);
      assert forall i :: 1 <= i < |norm| ==> norm[i] == norm[1..][i - 1];
      assert g in GroupNames(norm[1..]) ==> g in GroupNames(norm) by {
        if g in GroupNames(norm[1..]) {
          var i :| 0 <= i < |norm[1..]| && norm[1..][i].0 == g;
          assert norm[i + 1].0 == g;
        }
      }
      r
  }

  /** The position of the first group whose lower-cased name is `low`, or `|norm|` when there is none. */
  function FirstFoldedAt(norm: Norm, low: string): (i: nat)
    ensures i <= |norm|
    ensures i < |norm| ==> Lower(norm[i].0) == low
    ensures forall j :: 0 <= j < i ==> Lower(norm[j].0) != low
  {
    if |norm| == 0 then 0
    else if Lower(norm[0].0) == low then 0
    else
      var tail := norm[1..];
      var i := FirstFoldedAt(tail, low);
      assert forall j :: 1 <= j < i + 1 ==> norm[j] == tail[j - 1];
      i + 1
  }

  /** The first group whose lower-cased name is `low`. */
  function FirstFolded(norm: Norm, low: string): (r: Option<string>)
    ensures r.Some? ==> exists i :: 0 <= i < |norm| && norm[i].0 == r.value && Lower(norm[i].0) == low
                                   && forall j :: 0 <= j < i ==> Lower(norm[j].0) != low
    ensures r.None? <==> forall i :: 0 <= i < |norm| ==> Lower(norm[i].0) != low
  {
    var i := FirstFoldedAt(norm, low);
    if i < |norm| then Some(norm[i].0) else None
  }

  /** The loop of `resolve_group`, with its early return. */
  method FindFolded(norm: Norm, low: string) returns (r: Option<string>)
    ensures r == FirstFolded(norm, low)
  {
    var i := 0;
    while i < |norm|
      invariant 0 <= i <= |norm|
      invariant forall j :: 0 <= j < i ==> Lower(norm[j].0) != low
      invariant i <= FirstFoldedAt(norm, low)
    {
      if Lower(norm[i].0) == low {
        return Some(norm[i].0);
      }
      i := i + 1;
    }
    return None;
  }

  /**
   * `resolve_group(name)`: the name itself when it is a group, else the first group equal to it
   * ignoring case, else None.
   */
  function ResolveGroup(norm: Norm, name: string): (r: Option<string>)
    ensures name in GroupNames(norm) ==> r == Some(name)
    ensures r.Some? ==> r.value in GroupNames(norm) && Lower(r.value) == Lower(name)
    ensures r.None? <==> forall i :: 0 <= i < |norm| ==> Lower(norm[i].0) != Lower(name)
    ensures name !in GroupNames(norm) && r.Some? ==>
              exists i :: 0 <= i < |norm| && norm[i].0 == r.value
                          && forall j :: 0 <= j < i ==> Lower(norm[j].0) != Lower(name)
  {
    if name in GroupNames(norm) then
      var i :| 0 <= i < |norm| && norm[i].0 == name;
      Some(name)
    else
      var r := FirstFolded(norm, Lower(name));
      if r.Some? then
        var i :| 0 <= i < |norm| && norm[i].0 == r.value && Lower(norm[i].0) == Lower(name)
                  && forall j :: 0 <= j < i ==> Lower(norm[j].0) != Lower(name);
        r
      else r
  }

  /** `resolve_group(name)` as the source runs it. */
  method FindGroup(norm: Norm, name: string) returns (r: Option<string>)
    ensures r == ResolveGroup(norm, name)
  {
    if name in GroupNames(norm) {
      return Some(name);
    }
    r := FindFolded(norm, Lower(name));
  }

  /* ---------------- integer keys ---------------- */

  /** `normalise_int_keys(d)` as a value: each key `int(k)` accepts is assigned its value, in order. */
  function IntKeyed(d: seq<(string, Json)>): Dict<Json> {
    if |d| == 0 then []
    else
      var r := IntKeyed(d[..|d| - 1]);
      match ParseInt(d[|d| - 1].0)
      case None => r
      case Some(k) => DPut(r, k, d[|d| - 1].1)
  }

  /** `normalise_int_keys(d)`. */
  method NormaliseIntKeys(d: seq<(string, Json)>) returns (out: Dict<Json>)
    ensures out == IntKeyed(d)
  {
    out := [];
    var i := 0;
    while i < |d|
      invariant 0 <= i <= |d|
      invariant out == IntKeyed(d[..i])
    {
      assert d[..i + 1][..i] == d[..i];
      var ki := ParseInt(d[i].0);
      if ki.Some? {
        out := DPut(out, ki.value, d[i].1);
      }
      i := i + 1;
    }
    assert d[..i] == d;
  }

  /** Exactly the keys that convert to an int survive. */
  lemma {:induction false} IntKeyedKeys(d: seq<(string, Json)>, k: int)
    ensures k in DKeys(IntKeyed(d)) <==> exists i :: 0 <= i < |d| && ParseInt(d[i].0) == Some(k)
  {
    if |d| > 0 {
      var prefix := d[..|d| - 1];
      IntKeyedKeys(prefix, k);
      if ParseInt(d[|d| - 1].0).Some? {
        DPutKeys(IntKeyed(prefix), ParseInt(d[|d| - 1].0).value, d[|d| - 1].1);
      }
      ExistsSnoc(d, prefix, (e: (string, Json)) => ParseInt(e.0) == Some(k));
    }
  }

  /** A surviving key holds the value of the last entry whose key converts to it, unchanged. */
  lemma {:induction false} IntKeyedLastWins(d: seq<(string, Json)>, i: nat)
    requires i < |d| && ParseInt(d[i].0).Some?
    requires forall j :: i < j < |d| ==> ParseInt(d[j].0) != ParseInt(d[i].0)
    ensures DGet(IntKeyed(d), ParseInt(d[i].0).value) == Some(d[i].1)
  {
    var prefix := d[..|d| - 1];
    DPutSpec(IntKeyed(prefix), ParseInt(d[|d| - 1].0).GetOr(0), d[|d| - 1].1);
    if i < |d| - 1 {
      assert prefix[i] == d[i];
      IntKeyedLastWins(prefix, i);
    }
  }

  /** `{k: int(v) for k, v in d.items()}`, None where some `int(v)` raises. */
  function Counts(d: Dict<Json>): (r: Option<Dict<int>>)
    ensures r.Some? <==> forall i :: 0 <= i < |d| ==> IntOf(d[i].1).Some?
    ensures r.Some? ==> |r.value| == |d|
    ensures r.Some? ==> forall i :: 0 <= i < |d| ==> r.value[i] == (d[i].0, IntOf(d[i].1).value)
  {
    if |d| == 0 then Some([])
    else
      var prefix := d[..|d| - 1];
      assert forall i :: 0 <= i < |prefix| ==> prefix[i] == d[i];
      match Counts(prefix)
      case None => None
      case Some(c) =>
        match IntOf(d[|d| - 1].1)
        case None => None
        case Some(n) => Some(c + [(d[|d| - 1].0, n)])
  }

  /** An object's `inputs` with int keys and int counts; `{}` when it is not a dict. */
  function InputsOf(fields: seq<(string, Json)>): Option<Dict<int>> {
    match FieldOr(fields, "inputs", JObj([]))
    case JObj(rin) => Counts(IntKeyed(rin))
    case _ => Some([])
  }

  /* ---------------- names ---------------- */

  /** The assignment one entry contributes to `id_to_name`: an object with a string name. */
  function NameRegOf(item: (int, Json), grp: string): seq<(int, (string, string))> {
    match item.1
    case JObj(f) =>
      (match Field(f, "name")
       case Some(JStr(nm)) => [(item.0, (nm, grp))]
       case _ => [])
    case _ => []
  }

  /** One group's contributions to `id_to_name`, in entry order. */
  function GroupNameRegs(items: Dict<Json>, grp: string): seq<(int, (string, string))> {
    if |items| == 0 then []
    else GroupNameRegs(items[..|items| - 1], grp) + NameRegOf(items[|items| - 1], grp)
  }

  /** Every assignment the `id_to_name` loop performs, group after group. */
  function NameRegs(norm: Norm): seq<(int, (string, string))> {
    if |norm| == 0 then []
    else NameRegs(norm[..|norm| - 1]) + GroupNameRegs(norm[|norm| - 1].1, norm[|norm| - 1].0)
  }

  /** `id_to_name`: id -> (name, group). */
  function IdNames(norm: Norm): Dict<(string, string)> {
    FromPairs(NameRegs(norm))
  }

  lemma FromPairsSnoc<V>(ps: seq<(int, V)>, p: (int, V))
    ensures FromPairs(ps + [p]) == DPut(FromPairs(ps), p.0, p.1)
  {
    assert (ps + [p])[..|ps|] == ps;
  }

  /** The inner loop of `id_to_name` over one group's entries. */
  method RegisterGroup(ghost done0: seq<(int, (string, string))>, names0: Dict<(string, string)>,
                       items: Dict<Json>, grp: string)
    returns (names: Dict<(string, string)>)
    requires names0 == FromPairs(done0)
    ensures names == FromPairs(done0 + GroupNameRegs(items, grp))
  {
    names := names0;
    ghost var done := done0;
    var j := 0;
    while j < |items|
      invariant 0 <= j <= |items|
      invariant done == done0 + GroupNameRegs(items[..j], grp)
      invariant names == FromPairs(done)
    {
      assert items[..j + 1][..j] == items[..j];
      assert GroupNameRegs(items[..j + 1], grp) == GroupNameRegs(items[..j], grp) + NameRegOf(items[j], grp);
      AppendAssoc(done0, GroupNameRegs(items[..j], grp), NameRegOf(items[j], grp));
      names := RegisterEntry(done, names, items[j], grp);
      done := done + NameRegOf(items[j], grp);
      j := j + 1;
    }
    assert items[..j] == items;
  }

  /** One entry of the inner loop: an object with a string `name` is registered under its id. */
  method RegisterEntry(ghost done: seq<(int, (string, string))>, names0: Dict<(string, string)>,
                       item: (int, Json), grp: string)
    returns (names: Dict<(string, string)>)
    requires names0 == FromPairs(done)
    ensures names == FromPairs(done + NameRegOf(item, grp))
  {
    names := names0;
    match item.1 {
      case JObj(f) =>
        var nm := Field(f, "name");
        if nm.Some? && nm.value.JStr? {
          FromPairsSnoc(done, (item.0, (nm.value.s, grp)));
          names := DPut(names, item.0, (nm.value.s, grp));
        } else {
          assert done + NameRegOf(item, grp) == done;
        }
      case _ =>
        assert done + NameRegOf(item, grp) == done;
    }
  }

  /** The loop that fills `id_to_name`. */
  method BuildIdToName(norm: Norm) returns (names: Dict<(string, string)>)
    ensures names == IdNames(norm)
  {
    names := [];
    var g := 0;
    while g < |norm|
      invariant 0 <= g <= |norm|
      invariant names == FromPairs(NameRegs(norm[..g]))
    {
      assert norm[..g + 1][..g] == norm[..g];
      names := RegisterGroup(NameRegs(norm[..g]), names, norm[g].1, norm[g].0);
      g := g + 1;
    }
    assert norm[..g] == norm;
  }

  /** `get_name(eid)`: the registered name, else `str(eid)`. */
  function GetName(names: Dict<(string, string)>, eid: int): string {
    match DGet(names, eid)
    case Some(p) => p.0
    case None => IntToString(eid)
  }

  /** An id nobody registered is named by its own decimal spelling, which reads back as the id. */
  lemma GetNameFallback(norm: Norm, eid: int)
    requires forall i :: 0 <= i < |NameRegs(norm)| ==> NameRegs(norm)[i].0 != eid
    ensures GetName(IdNames(norm), eid) == IntToString(eid)
    ensures ParseInt(GetName(IdNames(norm), eid)) == Some(eid)
  {
    FromPairsKeys(NameRegs(norm), eid);
    IntToStringRoundTrip(eid);
  }

  /** An id's name is the name of the last entry registered under it. */
  lemma GetNameLastWins(norm: Norm, i: nat)
    requires i < |NameRegs(norm)|
    requires forall j :: i < j < |NameRegs(norm)| ==> NameRegs(norm)[j].0 != NameRegs(norm)[i].0
    ensures GetName(IdNames(norm), NameRegs(norm)[i].0) == NameRegs(norm)[i].1.0
  {
    FromPairsLastWins(NameRegs(norm), i);
  }

  /** A group registers exactly its object entries with a string name, under that group. */
  lemma {:induction false} GroupNameRegsExact(items: Dict<Json>, grp: string, r: (int, (string, string)))
    ensures r in GroupNameRegs(items, grp) <==>
              r.1.1 == grp && exists i :: 0 <= i < |items| && items[i].0 == r.0 && items[i].1.JObj?
                                         && Field(items[i].1.fields, "name") == Some(JStr(r.1.0))
  {
    if |items| > 0 {
      var prefix := items[..|items| - 1];
      GroupNameRegsExact(prefix, grp, r);
      assert forall i :: 0 <= i < |prefix| ==> prefix[i] == items[i];
    }
  }

  /* ---------------- pretty inputs and the recipe inputs index ---------------- */

  datatype PrettyInput = PrettyInput(id: int, name: string, count: int)

  /** `to_pretty_inputs(inputs)` as a value: one entry per input, in input order. */
  function PrettyInputs(names: Dict<(string, string)>, inputs: Dict<int>): (r: seq<PrettyInput>)
    ensures |r| == |inputs|
    ensures forall i :: 0 <= i < |inputs| ==>
              r[i] == PrettyInput(inputs[i].0, GetName(names, inputs[i].0), inputs[i].1)
  {
    if |inputs| == 0 then []
    else
      var prefix := inputs[..|inputs| - 1];
      assert forall i :: 0 <= i < |prefix| ==> prefix[i] == inputs[i];
      var last := inputs[|inputs| - 1];
      PrettyInputs(names, prefix) + [PrettyInput(last.0, GetName(names, last.0), last.1)]
  }

  /** `to_pretty_inputs(inputs)`. */
  method ToPrettyInputs(names: Dict<(string, string)>, inputs: Dict<int>) returns (pretty: seq<PrettyInput>)
    ensures pretty == PrettyInputs(names, inputs)
  {
    pretty := [];
    var i := 0;
    while i < |inputs|
      invariant 0 <= i <= |inputs|
      invariant pretty == PrettyInputs(names, inputs[..i])
    {
      assert inputs[..i + 1][..i] == inputs[..i];
      var resName := GetName(names, inputs[i].0);
      pretty := pretty + [PrettyInput(inputs[i].0, resName, inputs[i].1)];
      i := i + 1;
    }
    assert inputs[..i] == inputs;
  }

  /** One entry of the `recipe_inputs` loop: an object is indexed under its id with its inputs. */
  function RecipeInputsStep(ri: Option<Dict<Dict<int>>>, item: (int, Json)): Option<Dict<Dict<int>>> {
    match ri
    case None => None
    case Some(d) =>
      match item.1
      case JObj(f) =>
        (match InputsOf(f)
         case None => None
         case Some(c) => Some(DPut(d, item.0, c)))
      case _ => ri
  }

  /** The `recipe_inputs` loop as a value; None where a count does not convert and the load fails. */
  function RecipeInputsFrom(items: Dict<Json>): Option<Dict<Dict<int>>> {
    if |items| == 0 then Some([])
    else RecipeInputsStep(RecipeInputsFrom(items[..|items| - 1]), items[|items| - 1])
  }

  /** The recipe group as the index reads it: `resolve_group("Recipe") or "Recipe"`. */
  function RecipeGroup(norm: Norm): string {
    ResolveGroup(norm, "Recipe").GetOr("Recipe")
  }

  /** `recipe_inputs`. */
  function RecipeInputs(norm: Norm): Option<Dict<Dict<int>>> {
    RecipeInputsFrom(GroupItems(norm, RecipeGroup(norm)))
  }

  /** The loop that fills `recipe_inputs`. */
  method BuildRecipeInputs(norm: Norm) returns (ri: Option<Dict<Dict<int>>>)
    ensures ri == RecipeInputs(norm)
  {
    var g := FindGroup(norm, "Recipe");
    ri := IndexRecipeInputs(GroupItems(norm, g.GetOr("Recipe")));
  }

  /** The loop of `recipe_inputs` over the recipe group's entries. */
  method IndexRecipeInputs(items: Dict<Json>) returns (ri: Option<Dict<Dict<int>>>)
    ensures ri == RecipeInputsFrom(items)
  {
    var acc: Dict<Dict<int>> := [];
    var i := 0;
    while i < |items|
      invariant 0 <= i <= |items|
      invariant RecipeInputsFrom(items[..i]) == Some(acc)
    {
      assert items[..i + 1][..i] == items[..i];
      assert RecipeInputsFrom(items[..i + 1]) == RecipeInputsStep(Some(acc), items[i]);
      match items[i].1 {
        case JObj(f) =>
          var c := InputsOf(f);
          if c.None? {
            assert RecipeInputsFrom(items[..i + 1]) == None;
            RecipeInputsFailureSticks(items, i + 1);
            return None;
          }
          acc := DPut(acc, items[i].0, c.value);
        case _ =>
      }
      i := i + 1;
    }
    assert items[..i] == items;
    ri := Some(acc);
  }

  /** Once a prefix fails to load, every longer prefix fails too. */
  lemma {:induction false} RecipeInputsFailureSticks(items: Dict<Json>, n: nat)
    requires n <= |items| && RecipeInputsFrom(items[..n]) == None
    ensures RecipeInputsFrom(items) == None
    decreases |items| - n
  {
    if n < |items| {
      assert items[..n + 1][..n] == items[..n];
      RecipeInputsFailureSticks(items, n + 1);
    } else {
      assert items[..n] == items;
    }
  }

  /** Indexed in the recipe group: an entry that is an object. */
  predicate IndexedRecipe(item: (int, Json), rid: int) {
    item.0 == rid && item.1.JObj?
  }

  /** Every object entry of the recipe group is indexed under its own id. */
  lemma {:induction false} RecipeInputsKeys(items: Dict<Json>, rid: int)
    requires RecipeInputsFrom(items).Some?
    ensures rid in DKeys(RecipeInputsFrom(items).value) <==>
              exists i :: 0 <= i < |items| && IndexedRecipe(items[i], rid)
  {
    if |items| > 0 {
      var prefix := items[..|items| - 1];
      RecipeInputsKeys(prefix, rid);
      var last := items[|items| - 1];
      if last.1.JObj? {
        DPutKeys(RecipeInputsFrom(prefix).value, last.0, InputsOf(last.1.fields).GetOr([]));
      }
      ExistsSnoc(items, prefix, (e: (int, Json)) => IndexedRecipe(e, rid));
    }
  }

  /** An indexed id holds the inputs of the last object entry under it. */
  lemma {:induction false} RecipeInputsLastWins(items: Dict<Json>, i: nat)
    requires RecipeInputsFrom(items).Some?
    requires i < |items| && items[i].1.JObj?
    requires forall j :: i < j < |items| ==> !IndexedRecipe(items[j], items[i].0)
    ensures InputsOf(items[i].1.fields).Some?
    ensures DGet(RecipeInputsFrom(items).value, items[i].0) == InputsOf(items[i].1.fields)
  {
    var prefix := items[..|items| - 1];
    var last := items[|items| - 1];
    assert RecipeInputsFrom(prefix).Some?;
    if last.1.JObj? {
      DPutSpec(RecipeInputsFrom(prefix).value, last.0, InputsOf(last.1.fields).GetOr([]));
    }
    if i < |items| - 1 {
      assert prefix[i] == items[i];
      RecipeInputsLastWins(prefix, i);
    }
  }
}
