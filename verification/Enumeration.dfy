/** Lists without repetition, and lists that enumerate a set in some order. */
module Enumeration {
  ghost predicate Distinct<T>(s: seq<T>) {
    forall i, j :: 0 <= i < j < |s| ==> s[i] != s[j]
  }

  /** order is one of the orders in which a loop may walk through elems. */
  ghost predicate Lists<T(!new)>(order: seq<T>, elems: set<T>) {
    (forall x :: x in order <==> x in elems) && Distinct(order)
  }

  lemma DistinctAppend<T>(a: seq<T>, b: seq<T>)
    requires Distinct(a) && Distinct(b) && forall x :: x in a ==> x !in b
    ensures Distinct(a + b)
  {
    var s := a + b;
    forall i, j | 0 <= i < j < |s| ensures s[i] != s[j] {
      if i < |a| <= j { assert s[i] in a && s[j] in b; }
    }
  }

  lemma DistinctInit<T>(s: seq<T>)
    requires Distinct(s) && s != []
    ensures Distinct(s[..|s| - 1]) && s[|s| - 1] !in s[..|s| - 1]
    ensures s == s[..|s| - 1] + [s[|s| - 1]]
  {}

  /** One more element is enumerated. */
  lemma ListsMore<T(!new)>(order: seq<T>, elems: set<T>, x: T)
    requires Lists(order, elems) && x !in elems
    ensures Lists(order + [x], elems + {x})
  {
    DistinctAppend(order, [x]);
  }
}
