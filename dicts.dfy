/**
 * A Python dict with integer keys, as the sequence of its items in insertion order. Assigning an
 * existing key replaces its value in place; assigning a new key appends it.
 */
module Dicts {
  import opened Wrappers

  type Dict<V> = seq<(int, V)>

  function DKeys<V>(d: Dict<V>): set<int> {
    set i | 0 <= i < |d| :: d[i].0
  }

  /** `list(d.keys())`. */
  function DKeyList<V>(d: Dict<V>): seq<int> {
    seq(|d|, i requires 0 <= i < |d| => d[i].0)
  }

  /** A key is listed by `d.keys()` exactly when `d` has an item under it. */
  lemma DKeyListMembers<V>(d: Dict<V>)
    ensures forall k :: k in DKeyList(d) <==> k in DKeys(d)
  {
    forall k | k in DKeys(d) ensures k in DKeyList(d) {
      var i :| 0 <= i < |d| && d[i].0 == k;
      assert DKeyList(d)[i] == k;
    }
  }

  predicate DistinctKeys<V>(d: Dict<V>) {
    forall i, j :: 0 <= i < j < |d| ==> d[i].0 != d[j].0
  }

  /** `d.get(k)`: the value of the first item under `k`. */
  function DGet<V(==)>(d: Dict<V>, k: int): (r: Option<V>)
    ensures r.Some? <==> k in DKeys(d)
    ensures r.Some? ==> exists i :: 0 <= i < |d| && d[i].0 == k && d[i].1 == r.value
  {
    if |d| == 0 then None
    else if d[0].0 == k then Some(d[0].1)
    else
      var r := DGet(d[1..], k);
      assert forall i :: 0 <= i < |d| - 1 ==> d[1..][i] == d[i + 1];
      assert k in DKeys(d) ==> k in DKeys(d[1..]) by {
        if k in DKeys(d) {
          var i :| 0 <= i < |d| && d[i].0 == k;
          assert d[1..][i - 1].0 == k;
        }
      }
      r
  }

  lemma DKeysCons<V>(x: (int, V), d: Dict<V>)
    ensures DKeys([x] + d) == {x.0} + DKeys(d)
  {
    var u := [x] + d;
    forall k | k in DKeys(u) ensures k in {x.0} + DKeys(d) {
      var i :| 0 <= i < |u| && u[i].0 == k;
      if i > 0 { assert d[i - 1].0 == k; }
    }
    forall k | k in DKeys(d) ensures k in DKeys(u) {
      var i :| 0 <= i < |d| && d[i].0 == k;
      assert u[i + 1].0 == k;
    }
    assert u[0].0 == x.0;
  }

  /** `d[k] = v`. */
  function DPut<V(==)>(d: Dict<V>, k: int, v: V): Dict<V> {
    if |d| == 0 then [(k, v)]
    else if d[0].0 == k then [(k, v)] + d[1..]
    else [d[0]] + DPut(d[1..], k, v)
  }

  /** After `d[k] = v`, `k` holds `v`, every other key is unchanged, and a new key goes last. */
  lemma DPutSpec<V>(d: Dict<V>, k: int, v: V)
    ensures DKeys(DPut(d, k, v)) == DKeys(d) + {k}
    ensures DGet(DPut(d, k, v), k) == Some(v)
    ensures forall j :: j != k ==> DGet(DPut(d, k, v), j) == DGet(d, j)
    ensures k !in DKeys(d) ==> DPut(d, k, v) == d + [(k, v)]
  {
    DPutKeys(d, k, v);
    DPutGet(d, k, v);
    forall j | j != k
      ensures DGet(DPut(d, k, v), j) == DGet(d, j)
    {
      DPutOther(d, k, v, j);
    }
    if k !in DKeys(d) {
      DPutNew(d, k, v);
    }
  }

  lemma {:induction false} DPutKeys<V>(d: Dict<V>, k: int, v: V)
    ensures DKeys(DPut(d, k, v)) == DKeys(d) + {k}
  {
    if |d| == 0 {
      assert [(k, v)][0].0 == k;
    } else {
      assert d == [d[0]] + d[1..];
      DKeysCons(d[0], d[1..]);
      if d[0].0 == k {
        DKeysCons((k, v), d[1..]);
      } else {
        DPutKeys(d[1..], k, v);
        DKeysCons(d[0], DPut(d[1..], k, v));
      }
    }
  }

  lemma {:induction false} DPutGet<V>(d: Dict<V>, k: int, v: V)
    ensures DGet(DPut(d, k, v), k) == Some(v)
  {
    if |d| > 0 && d[0].0 != k {
      DPutGet(d[1..], k, v);
      var r := [d[0]] + DPut(d[1..], k, v);
      assert r[1..] == DPut(d[1..], k, v);
    }
  }

  lemma {:induction false} DPutOther<V>(d: Dict<V>, k: int, v: V, j: int)
    requires j != k
    ensures DGet(DPut(d, k, v), j) == DGet(d, j)
  {
    if |d| == 0 {
      assert [(k, v)][1..] == [];
    } else if d[0].0 == k {
      var r := [(k, v)] + d[1..];
      assert r[1..] == d[1..];
    } else {
      DPutOther(d[1..], k, v, j);
      var r := [d[0]] + DPut(d[1..], k, v);
      assert r[1..] == DPut(d[1..], k, v);
    }
  }

  lemma {:induction false} DPutNew<V>(d: Dict<V>, k: int, v: V)
    requires k !in DKeys(d)
    ensures DPut(d, k, v) == d + [(k, v)]
  {
    if |d| > 0 {
      assert d == [d[0]] + d[1..];
      DKeysCons(d[0], d[1..]);
      DPutNew(d[1..], k, v);
      assert [d[0]] + (d[1..] + [(k, v)]) == d + [(k, v)];
    }
  }

  /** The dict a sequence of assignments `d[k] = v` builds from `{}`. */
  function FromPairs<V(==)>(ps: seq<(int, V)>): Dict<V> {
    if |ps| == 0 then []
    else DPut(FromPairs(ps[..|ps| - 1]), ps[|ps| - 1].0, ps[|ps| - 1].1)
  }

  /** A key is present exactly when some assignment used it. */
  lemma {:induction false} FromPairsKeys<V>(ps: seq<(int, V)>, k: int)
    ensures k in DKeys(FromPairs(ps)) <==> exists i :: 0 <= i < |ps| && ps[i].0 == k
  {
    if |ps| > 0 {
      var prefix := ps[..|ps| - 1];
      FromPairsKeys(prefix, k);
      DPutKeys(FromPairs(prefix), ps[|ps| - 1].0, ps[|ps| - 1].1);
      if exists i :: 0 <= i < |ps| && ps[i].0 == k {
        var i :| 0 <= i < |ps| && ps[i].0 == k;
        if i < |prefix| {
          assert prefix[i] == ps[i];
        }
      }
      if exists i :: 0 <= i < |prefix| && prefix[i].0 == k {
        var i :| 0 <= i < |prefix| && prefix[i].0 == k;
        assert prefix[i] == ps[i];
      }
    }
  }

  /** A key holds the last value assigned to it. */
  lemma {:induction false} FromPairsLastWins<V>(ps: seq<(int, V)>, i: nat)
    requires i < |ps|
    requires forall j :: i < j < |ps| ==> ps[j].0 != ps[i].0
    ensures DGet(FromPairs(ps), ps[i].0) == Some(ps[i].1)
  {
    var prefix := ps[..|ps| - 1];
    DPutSpec(FromPairs(prefix), ps[|ps| - 1].0, ps[|ps| - 1].1);
    if i < |ps| - 1 {
      assert prefix[i] == ps[i];
      FromPairsLastWins(prefix, i);
    }
  }

  /** `d.setdefault(k, []).append(x)`. */
  function DAppend(d: Dict<seq<int>>, k: int, x: int): (r: Dict<seq<int>>)
    ensures DKeys(r) == DKeys(d) + {k}
    ensures DGet(r, k) == Some(DGet(d, k).GetOr([]) + [x])
    ensures forall j :: j != k ==> DGet(r, j) == DGet(d, j)
  {
    DPutSpec(d, k, DGet(d, k).GetOr([]) + [x]);
    DPut(d, k, DGet(d, k).GetOr([]) + [x])
  }
}
