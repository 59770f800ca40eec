/** Small facts about finite sets and maps that the loops over dict keys rely on. */
module Collections {

  lemma EmptyIfNoMembers<T>(s: set<T>)
    requires forall x :: x !in s
    ensures s == {}
  {
    var e: set<T> := {};
    forall x ensures x in s <==> x in e {}
  }

  /** A non-empty set has an element to pick (the step behind `for k in d` over a set of keys). */
  lemma NonEmptyHasElement<T>(s: set<T>)
    requires s != {}
    ensures exists x :: x in s
  {
    if forall x :: x !in s {
      EmptyIfNoMembers(s);
    }
  }

  /** The same step for a set of ids, whose elements are not boxed. */
  lemma NonEmptyHasInt(s: set<int>)
    requires s != {}
    ensures exists x :: x in s
  {
    if forall x :: x !in s {
      EmptyIfNoMembers(s);
    }
  }

  /** Some element of a list satisfies `p` exactly when one before the last does, or the last does. */
  lemma ExistsSnoc<T>(xs: seq<T>, prefix: seq<T>, p: T -> bool)
    requires |xs| > 0 && prefix == xs[..|xs| - 1]
    ensures (exists i :: 0 <= i < |xs| && p(xs[i])) <==>
              (exists i :: 0 <= i < |prefix| && p(prefix[i])) || p(xs[|xs| - 1])
  {
    if exists i :: 0 <= i < |xs| && p(xs[i]) {
      var i :| 0 <= i < |xs| && p(xs[i]);
      if i < |prefix| {
        assert prefix[i] == xs[i];
      }
    }
    if exists i :: 0 <= i < |prefix| && p(prefix[i]) {
      var i :| 0 <= i < |prefix| && p(prefix[i]);
      assert prefix[i] == xs[i];
    }
  }

  /** A value is in a non-empty list exactly when it is before the last element or is the last. */
  lemma InSnoc<T>(xs: seq<T>, x: T)
    requires |xs| > 0
    ensures x in xs <==> x in xs[..|xs| - 1] || x == xs[|xs| - 1]
  {
    assert xs == xs[..|xs| - 1] + [xs[|xs| - 1]];
  }

  /** Appending in steps is appending at once. */
  lemma AppendAssoc<T>(a: seq<T>, b: seq<T>, c: seq<T>)
    ensures a + (b + c) == (a + b) + c
  {
  }

  /** Two int maps with the same keys and the same value at each key are equal. */
  lemma MapsEqual(a: map<int, int>, b: map<int, int>)
    requires a.Keys == b.Keys
    requires forall k :: k in a ==> a[k] == b[k]
    ensures a == b
  {
    assert forall k :: k in a.Keys ==> a[k] == b[k];
  }
}
