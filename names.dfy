/**
 * The global id <-> name index of python/bot/bot.py:32-49 and its lookups `id2name` and
 * `name2id`. Categories register in a fixed order; construction and recipe names get a
 * suffix; `ID_TO_NAME` keeps the last name registered for an id, `NAME_TO_ID` the first id
 * registered under a name.
 */
module Names {
  import opened Wrappers
  import opened Catalog
  import opened Collections

  /** The category registration order; it decides which id a shared name resolves to. */
  const REGISTRATION_ORDER: seq<Category> := [Upgrade, Recipe, Construction, Resource, Race, Unit]

  function Suffix(c: Category): string {
    match c
    case Construction => "-construction"
    case Recipe => "-recipe"
    case _ => ""
  }

  datatype NameIndex = NameIndex(idToName: map<int, string>, nameToId: map<string, int>)

  const EMPTY_INDEX: NameIndex := NameIndex(map[], map[])

  /** One registration: the id's name is overwritten, a name keeps the id it had first. */
  function Register(ix: NameIndex, id: int, name: string): NameIndex {
    NameIndex(
      ix.idToName[id := name],
      if name in ix.nameToId then ix.nameToId else ix.nameToId[name := id])
  }

  /** The (id, name) registrations one table contributes, in table order; an entry without an id
      or a name contributes none. */
  function TableRegistrations(t: Table, suffix: string): seq<(int, string)> {
    if |t| == 0 then []
    else TableRegistrations(t[..|t| - 1], suffix) + ObjectRegistrations(t[|t| - 1].proto, suffix)
  }

  /** What one object registers: nothing without an id or a name, else its id and suffixed name. */
  function ObjectRegistrations(p: Proto, suffix: string): seq<(int, string)> {
    if p.id.Some? && p.name.Some? then [(p.id.value, p.name.value + suffix)] else []
  }

  /** The registrations of the first `n` categories of REGISTRATION_ORDER, in visiting order. */
  function CategoryRegistrations(cat: Catalog, n: nat): seq<(int, string)>
    requires n <= |REGISTRATION_ORDER|
  {
    if n == 0 then []
    else
      CategoryRegistrations(cat, n - 1)
        + TableRegistrations(TableOf(cat, REGISTRATION_ORDER[n - 1]), Suffix(REGISTRATION_ORDER[n - 1]))
  }

  /** Every registration the module-level loop performs, in the order it performs them. */
  function Registrations(cat: Catalog): seq<(int, string)> {
    CategoryRegistrations(cat, |REGISTRATION_ORDER|)
  }

  function IndexOf(regs: seq<(int, string)>): NameIndex {
    if |regs| == 0 then EMPTY_INDEX
    else Register(IndexOf(regs[..|regs| - 1]), regs[|regs| - 1].0, regs[|regs| - 1].1)
  }

  /** The module-level loop that fills ID_TO_NAME and NAME_TO_ID. */
  method BuildNameIndex(cat: Catalog) returns (ix: NameIndex)
    ensures ix == IndexOf(Registrations(cat))
  {
    ix := EMPTY_INDEX;
    var c := 0;
    while c < |REGISTRATION_ORDER|
      invariant 0 <= c <= |REGISTRATION_ORDER|
      invariant ix == IndexOf(CategoryRegistrations(cat, c))
    {
      var top := REGISTRATION_ORDER[c];
      ix := RegisterTable(CategoryRegistrations(cat, c), ix, TableOf(cat, top), top);
      CategoryRegistrationsStep(cat, c);
      c := c + 1;
    }
  }

  lemma CategoryRegistrationsStep(cat: Catalog, c: nat)
    requires c < |REGISTRATION_ORDER|
    ensures CategoryRegistrations(cat, c + 1)
         == CategoryRegistrations(cat, c)
            + TableRegistrations(TableOf(cat, REGISTRATION_ORDER[c]), Suffix(REGISTRATION_ORDER[c]))
  {
  }

  /** The inner loop over one category's objects, continuing from the registrations `done0`. */
  method RegisterTable(ghost done0: seq<(int, string)>, ix0: NameIndex, table: Table, top: Category)
    returns (ix: NameIndex)
    requires ix0 == IndexOf(done0)
    ensures ix == IndexOf(done0 + TableRegistrations(table, Suffix(top)))
  {
    ix := ix0;
    ghost var done := done0;
    var j := 0;
    while j < |table|
      invariant 0 <= j <= |table|
      invariant done == done0 + TableRegistrations(table[..j], Suffix(top))
      invariant ix == IndexOf(done)
    {
      TableRegistrationsSnoc(table, j, Suffix(top));
      AppendAssoc(done0, TableRegistrations(table[..j], Suffix(top)), ObjectRegistrations(table[j].proto, Suffix(top)));
      ix := RegisterObject(done, ix, table[j].proto, top);
      done := done + ObjectRegistrations(table[j].proto, Suffix(top));
      j := j + 1;
    }
    assert table[..j] == table;
  }

  /** One object of the inner loop: skipped without an id or a name, otherwise registered with its suffix. */
  method RegisterObject(ghost done: seq<(int, string)>, ix0: NameIndex, obj: Proto, top: Category)
    returns (ix: NameIndex)
    requires ix0 == IndexOf(done)
    ensures ix == IndexOf(done + ObjectRegistrations(obj, Suffix(top)))
  {
    ix := ix0;
    if obj.id.Some? && obj.name.Some? {
      var name := obj.name.value;
      if top == Construction {
        name := name + "-construction";
      }
      if top == Recipe {
        name := name + "-recipe";
      }
      assert name == obj.name.value + Suffix(top);
      IndexOfSnoc(done, (obj.id.value, name));
      ix := Register(ix, obj.id.value, name);
    } else {
      assert done + ObjectRegistrations(obj, Suffix(top)) == done;
    }
  }

  lemma IndexOfSnoc(regs: seq<(int, string)>, r: (int, string))
    ensures IndexOf(regs + [r]) == Register(IndexOf(regs), r.0, r.1)
  {
    assert (regs + [r])[..|regs|] == regs;
  }

  lemma TableRegistrationsSnoc(t: Table, j: nat, suffix: string)
    requires j < |t|
    ensures TableRegistrations(t[..j + 1], suffix) == TableRegistrations(t[..j], suffix) + ObjectRegistrations(t[j].proto, suffix)
  {
    assert t[..j + 1][..j] == t[..j];
  }

  /** `name2id(name)`. */
  function Name2Id(ix: NameIndex, name: string): Option<int> {
    if name in ix.nameToId then Some(ix.nameToId[name]) else None
  }

  /** `id2name(id)` for an integer id. */
  function Id2Name(ix: NameIndex, id: int): Option<string> {
    if id in ix.idToName then Some(ix.idToName[id]) else None
  }

  /** A name resolves exactly when some registration used it, and to the id of the first one. */
  lemma {:induction false} FirstRegistrationWins(regs: seq<(int, string)>, name: string)
    ensures Name2Id(IndexOf(regs), name).Some? <==> exists i :: 0 <= i < |regs| && regs[i].1 == name
    ensures forall i :: 0 <= i < |regs| && regs[i].1 == name && (forall j :: 0 <= j < i ==> regs[j].1 != name) ==>
              Name2Id(IndexOf(regs), name) == Some(regs[i].0)
  {
    if |regs| > 0 {
      var prefix := regs[..|regs| - 1];
      FirstRegistrationWins(prefix, name);
      assert forall i :: 0 <= i < |prefix| ==> prefix[i] == regs[i];
    }
  }

  /** An id has a name exactly when some registration used it, and it is the name of the last one. */
  lemma {:induction false} LastRegistrationWins(regs: seq<(int, string)>, id: int)
    ensures Id2Name(IndexOf(regs), id).Some? <==> exists i :: 0 <= i < |regs| && regs[i].0 == id
    ensures forall i :: 0 <= i < |regs| && regs[i].0 == id && (forall j :: i < j < |regs| ==> regs[j].0 != id) ==>
              Id2Name(IndexOf(regs), id) == Some(regs[i].1)
  {
    if |regs| > 0 {
      var prefix := regs[..|regs| - 1];
      LastRegistrationWins(prefix, id);
      assert forall i :: 0 <= i < |prefix| ==> prefix[i] == regs[i];
    }
  }

  /** A table registers exactly its entries that have both an id and a name, with the suffix appended. */
  lemma {:induction false} TableRegistrationsExact(t: Table, suffix: string, id: int, name: string)
    ensures (id, name) in TableRegistrations(t, suffix) <==>
              exists i :: 0 <= i < |t| && t[i].proto.id == Some(id) && t[i].proto.name.Some?
                          && name == t[i].proto.name.value + suffix
  {
    if |t| > 0 {
      var prefix := t[..|t| - 1];
      TableRegistrationsExact(prefix, suffix, id, name);
      assert forall i :: 0 <= i < |prefix| ==> prefix[i] == t[i];
    }
  }

  /** Registration visits the categories in REGISTRATION_ORDER, one whole table after another. */
  lemma RegistrationsInOrder(cat: Catalog)
    ensures Registrations(cat) ==
              TableRegistrations(cat.upgrades, "")
              + TableRegistrations(cat.recipes, "-recipe")
              + TableRegistrations(cat.constructions, "-construction")
              + TableRegistrations(cat.resources, "")
              + TableRegistrations(cat.races, "")
              + TableRegistrations(cat.units, "")
  {
    var u := TableRegistrations(cat.upgrades, "");
    var r := TableRegistrations(cat.recipes, "-recipe");
    var c := TableRegistrations(cat.constructions, "-construction");
    var s := TableRegistrations(cat.resources, "");
    var a := TableRegistrations(cat.races, "");
    var n := TableRegistrations(cat.units, "");
    assert CategoryRegistrations(cat, 1) == u;
    assert CategoryRegistrations(cat, 2) == u + r;
    assert CategoryRegistrations(cat, 3) == u + r + c;
    assert CategoryRegistrations(cat, 4) == u + r + c + s;
    assert CategoryRegistrations(cat, 5) == u + r + c + s + a;
    assert CategoryRegistrations(cat, 6) == u + r + c + s + a + n;
  }
}
