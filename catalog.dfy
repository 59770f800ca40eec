/**
 * The static prototype catalog the bot loads once at start-up (python/bot/bot.py:7-22), as an
 * immutable value. Each of the six categories is a JSON object mapping a string-encoded id to a
 * prototype object; here it is a table of entries in JSON order, keyed by the integer id.
 */
module Catalog {
  import opened Wrappers

  /**
   * One prototype object, reduced to the fields the core reads. A field the source reads with
   * `obj.get(field, default)` holds that default when absent; a field it indexes with
   * `obj[field]` is optional, and `WellFormed` says where it must be present.
   */
  datatype Proto = Proto(
    id: Option<int>,
    name: Option<string>,
    output: Option<int>,              // Construction: the unit it builds
    inputs: seq<(int, int)>,          // Construction, Recipe: resource id -> quantity, in JSON order
    outputs: seq<int>,                // Recipe: the keys of its `outputs` object, in JSON order
    recipes: seq<int>,                // Unit: the recipes a building can run
    constructions: Option<seq<int>>)  // Race: the constructions its players may build

  datatype Entry = Entry(key: int, proto: Proto)

  type Table = seq<Entry>

  datatype Category = Upgrade | Recipe | Construction | Resource | Race | Unit

  datatype Catalog = Catalog(
    upgrades: Table,
    recipes: Table,
    constructions: Table,
    resources: Table,
    races: Table,
    units: Table)

  function TableOf(cat: Catalog, c: Category): Table {
    match c
    case Upgrade => cat.upgrades
    case Recipe => cat.recipes
    case Construction => cat.constructions
    case Resource => cat.resources
    case Race => cat.races
    case Unit => cat.units
  }

  const RACE_NAME: string := "technocracy"

  /** The neutral transport unit, never offered as a combat unit. */
  const ATV_PROTO_ID: int := 3039831041

  /** Obsolete or placeholder prototypes that every query treats as nonexistent. */
  const IGNORED_IDS: set<int> := {
    3145327874, 3000128952, 3778878457, 3356655882,
    3709603756, 2867524795, 3360801550, 3226437573
  }

  /** `_ignored(x)` for an integer id. */
  predicate Ignored(x: int) {
    x in IGNORED_IDS
  }

  function Keys(t: Table): set<int> {
    set i | 0 <= i < |t| :: t[i].key
  }

  /** `table.get(str(k))`: the first entry under key `k`. */
  function Lookup(t: Table, k: int): (r: Option<Proto>)
    ensures r.Some? <==> k in Keys(t)
    ensures r.Some? ==> exists i :: 0 <= i < |t| && t[i] == Entry(k, r.value)
  {
    if |t| == 0 then None
    else if t[0].key == k then Some(t[0].proto)
    else
      var r := Lookup(t[1..], k);
      assert forall i :: 0 <= i < |t| - 1 ==> t[1..][i] == t[i + 1];
      assert k in Keys(t) ==> k in Keys(t[1..]) by {
        if k in Keys(t) {
          var i :| 0 <= i < |t| && t[i].key == k;
          assert t[1..][i - 1].key == k;
        }
      }
      r
  }

  /** The keys of a table in JSON order (`table.keys()`). */
  function KeyList(t: Table): seq<int> {
    seq(|t|, i requires 0 <= i < |t| => t[i].key)
  }

  /** A key is listed by `table.keys()` exactly when the table has an entry under it. */
  lemma KeyListMembers(t: Table)
    ensures forall k :: k in KeyList(t) <==> k in Keys(t)
  {
    forall k | k in Keys(t) ensures k in KeyList(t) {
      var i :| 0 <= i < |t| && t[i].key == k;
      assert KeyList(t)[i] == k;
    }
  }

  /** Every entry carries its own key as its `id`. */
  predicate IdsMatchKeys(t: Table) {
    forall i :: 0 <= i < |t| ==> t[i].proto.id == Some(t[i].key)
  }

  /**
   * The shape the source relies on without checking: `unit["id"]`, `c["output"]`,
   * `race_data["name"]` and `race_data["constructions"]` would raise KeyError otherwise.
   */
  predicate WellFormed(cat: Catalog) {
    && IdsMatchKeys(cat.upgrades)
    && IdsMatchKeys(cat.recipes)
    && IdsMatchKeys(cat.constructions)
    && IdsMatchKeys(cat.resources)
    && IdsMatchKeys(cat.races)
    && IdsMatchKeys(cat.units)
    && (forall i :: 0 <= i < |cat.constructions| ==> cat.constructions[i].proto.output.Some?)
    && (forall i :: 0 <= i < |cat.races| ==>
          cat.races[i].proto.name.Some? && cat.races[i].proto.constructions.Some?)
  }

  /**
   * A race the loop of `get_race_id` returns from: named RACE_NAME and carrying an id. The source
   * reads `race_data["id"]` unchecked; on a `WellFormed` catalog every race carries one.
   */
  predicate IsOwnRace(e: Entry) {
    e.proto.name == Some(RACE_NAME) && e.proto.id.Some?
  }

  /** `get_race_id()`: the id of the first race named RACE_NAME. */
  function RaceIdIn(races: Table): (r: Option<int>)
    ensures r.Some? ==> exists i :: 0 <= i < |races| && IsOwnRace(races[i]) && races[i].proto.id == r
                                  && forall j :: 0 <= j < i ==> !IsOwnRace(races[j])
    ensures r.None? ==> forall i :: 0 <= i < |races| && races[i].proto.name == Some(RACE_NAME) ==>
                                  races[i].proto.id.None?
  {
    if |races| == 0 then None
    else if races[0].proto.name == Some(RACE_NAME) && races[0].proto.id.Some? then races[0].proto.id
    else
      var r := RaceIdIn(races[1..]);
      assert forall i :: 1 <= i < |races| ==> races[i] == races[1..][i - 1];
      r
  }

  /** The loop of `get_race_id`, with its early return. */
  method GetRaceId(races: Table) returns (r: Option<int>)
    ensures r == RaceIdIn(races)
  {
    var i := 0;
    while i < |races|
      invariant 0 <= i <= |races|
      invariant RaceIdIn(races[i..]) == RaceIdIn(races)
    {
      assert races[i..][1..] == races[i + 1..];
      var race := races[i].proto;
      if race.name == Some(RACE_NAME) && race.id.Some? {
        return race.id;
      }
      i := i + 1;
    }
    return None;
  }

  /** `PROTOTYPES["Race"].get(str(RACE))`: the bot's own race, if the catalog has it. */
  function RaceData(cat: Catalog): Option<Proto> {
    match RaceIdIn(cat.races)
    case None => None
    case Some(id) => Lookup(cat.races, id)
  }

  lemma RaceDataIsNamedRace(cat: Catalog)
    requires WellFormed(cat)
    ensures RaceData(cat).Some? ==> RaceData(cat).value.name.Some? && RaceData(cat).value.constructions.Some?
    ensures RaceData(cat).None? <==>
              forall i :: 0 <= i < |cat.races| ==> cat.races[i].proto.name != Some(RACE_NAME)
  {
    var r := RaceIdIn(cat.races);
    if r.Some? {
      var i :| 0 <= i < |cat.races| && cat.races[i].proto.name == Some(RACE_NAME) && cat.races[i].proto.id == r;
      assert cat.races[i].key == r.value;
      assert r.value in Keys(cat.races);
      var p := Lookup(cat.races, r.value).value;
      var j :| 0 <= j < |cat.races| && cat.races[j] == Entry(r.value, p);
    }
  }

  /** `_ignored(obj.get("id"))`: an absent id is never ignored. */
  predicate IgnoredId(id: Option<int>) {
    id.Some? && Ignored(id.value)
  }

  lemma KeysCons(e: Entry, t: Table)
    ensures Keys([e] + t) == {e.key} + Keys(t)
  {
    var u := [e] + t;
    forall x | x in Keys(u) ensures x in {e.key} + Keys(t) {
      var i :| 0 <= i < |u| && u[i].key == x;
      if i > 0 { assert t[i - 1].key == x; }
    }
    forall x | x in Keys(t) ensures x in Keys(u) {
      var i :| 0 <= i < |t| && t[i].key == x;
      assert u[i + 1].key == x;
    }
    assert u[0].key == e.key;
  }

  /** `d[k] = p` on an insertion-ordered dict: a present key keeps its position, a new one goes last. */
  function Put(t: Table, k: int, p: Proto): (r: Table)
    ensures Keys(r) == Keys(t) + {k}
    ensures Lookup(r, k) == Some(p)
    ensures forall j :: j != k ==> Lookup(r, j) == Lookup(t, j)
  {
    if |t| == 0 then
      assert [Entry(k, p)][0].key == k;
      [Entry(k, p)]
    else
      assert t == [t[0]] + t[1..];
      KeysCons(t[0], t[1..]);
      if t[0].key == k then
        KeysCons(Entry(k, p), t[1..]);
        [Entry(k, p)] + t[1..]
      else
        var rest := Put(t[1..], k, p);
        KeysCons(t[0], rest);
        [t[0]] + rest
  }
}
