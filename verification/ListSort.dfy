/** Python's list sort as the dispatcher uses it: stable, ascending, by a key.
    The main fact is that a stable sort commutes with every filter, which is what makes a
    longer planning horizon harmless. */
module ListSort {

  type Key = (int, int)

  predicate KeyLeq(a: Key, b: Key) {
    a.0 < b.0 || (a.0 == b.0 && a.1 <= b.1)
  }

  function Filter<T(!new)>(s: seq<T>, p: T -> bool): (r: seq<T>)
    ensures |r| <= |s|
  {
    if s == [] then []
    else if p(s[|s| - 1]) then Filter(s[..|s| - 1], p) + [s[|s| - 1]]
    else Filter(s[..|s| - 1], p)
  }

  /** Places x behind every element whose key is not larger. */
  function Insert<T(!new)>(s: seq<T>, x: T, key: T -> Key): (r: seq<T>)
    ensures |r| == |s| + 1
  {
    if s == [] || KeyLeq(key(s[|s| - 1]), key(x)) then s + [x]
    else Insert(s[..|s| - 1], x, key) + [s[|s| - 1]]
  }

  /** Sorting after an append is an insertion, because the sort is stable. */
  function StableSort<T(!new)>(s: seq<T>, key: T -> Key): (r: seq<T>)
    ensures |r| == |s|
  {
    if s == [] then [] else Insert(StableSort(s[..|s| - 1], key), s[|s| - 1], key)
  }

  ghost predicate SortedBy<T(!new)>(s: seq<T>, key: T -> Key) {
    forall i, j :: 0 <= i < j < |s| ==> KeyLeq(key(s[i]), key(s[j]))
  }

  lemma {:induction false} FilterElements<T(!new)>(s: seq<T>, p: T -> bool)
    ensures forall x :: x in Filter(s, p) <==> x in s && p(x)
  {
    if s != [] {
      FilterElements(s[..|s| - 1], p);
      assert s == s[..|s| - 1] + [s[|s| - 1]];
    }
  }

  lemma {:induction false} FilterAppend<T(!new)>(s: seq<T>, t: seq<T>, p: T -> bool)
    ensures Filter(s + t, p) == Filter(s, p) + Filter(t, p)
  {
    if t == [] {
      assert s + t == s;
    } else {
      var t' := t[..|t| - 1];
      FilterAppend(s, t', p);
      assert (s + t)[..|s + t| - 1] == s + t';
    }
  }

  lemma {:induction false} FilterAll<T(!new)>(s: seq<T>, p: T -> bool)
    requires forall x :: x in s ==> p(x)
    ensures Filter(s, p) == s
  {
    if s != [] {
      FilterAll(s[..|s| - 1], p);
      assert s == s[..|s| - 1] + [s[|s| - 1]];
    }
  }

  lemma {:induction false} FilterNone<T(!new)>(s: seq<T>, p: T -> bool)
    requires forall x :: x in s ==> !p(x)
    ensures Filter(s, p) == []
  {
    if s != [] {
      FilterNone(s[..|s| - 1], p);
    }
  }

  lemma {:induction false} FilterTwice<T(!new)>(s: seq<T>, p: T -> bool, q: T -> bool)
    requires forall x :: p(x) ==> q(x)
    ensures Filter(Filter(s, q), p) == Filter(s, p)
  {
    if s != [] {
      var s', x := s[..|s| - 1], s[|s| - 1];
      FilterTwice(s', p, q);
      FilterAppend(Filter(s', q), [x], p);
    }
  }

  lemma {:induction false} FilterMonotone<T(!new)>(s: seq<T>, p: T -> bool, q: T -> bool)
    ensures |Filter(Filter(s, q), p)| <= |Filter(s, p)|
  {
    if s != [] {
      var s', x := s[..|s| - 1], s[|s| - 1];
      FilterMonotone(s', p, q);
      FilterAppend(Filter(s', q), [x], p);
    }
  }

  lemma {:induction false} InsertElements<T(!new)>(s: seq<T>, x: T, key: T -> Key)
    ensures multiset(Insert(s, x, key)) == multiset(s) + multiset{x}
    ensures forall y :: y in Insert(s, x, key) <==> y in s || y == x
  {
    if !(s == [] || KeyLeq(key(s[|s| - 1]), key(x))) {
      InsertElements(s[..|s| - 1], x, key);
      assert s == s[..|s| - 1] + [s[|s| - 1]];
    }
    assert forall y :: y in Insert(s, x, key) <==> y in multiset(Insert(s, x, key));
  }

  lemma {:induction false} InsertSorted<T(!new)>(s: seq<T>, x: T, key: T -> Key)
    requires SortedBy(s, key)
    ensures SortedBy(Insert(s, x, key), key)
  {
    if s == [] {
    } else if KeyLeq(key(s[|s| - 1]), key(x)) {
      SortedAppend(s, x, key);
    } else {
      var s', l := s[..|s| - 1], s[|s| - 1];
      InsertSorted(s', x, key);
      InsertElements(s', x, key);
      forall y | y in Insert(s', x, key) ensures KeyLeq(key(y), key(l)) {}
      SortedAppend(Insert(s', x, key), l, key);
    }
  }

  lemma SortedAppend<T(!new)>(s: seq<T>, x: T, key: T -> Key)
    requires SortedBy(s, key)
    requires s == [] || KeyLeq(key(s[|s| - 1]), key(x)) || forall y :: y in s ==> KeyLeq(key(y), key(x))
    ensures SortedBy(s + [x], key)
    ensures forall y :: y in s ==> KeyLeq(key(y), key(x))
  {
    forall y | y in s ensures KeyLeq(key(y), key(x)) {
      var i :| 0 <= i < |s| && s[i] == y;
      if i < |s| - 1 {
        assert KeyLeq(key(s[i]), key(s[|s| - 1]));
      }
    }
    var r := s + [x];
    forall i, j | 0 <= i < j < |r| ensures KeyLeq(key(r[i]), key(r[j])) {
      assert r[i] == s[i];
      if j < |s| { assert r[j] == s[j]; }
    }
  }

  /** The sort is an ordered rearrangement of its argument. */
  lemma {:induction false} SortFacts<T(!new)>(s: seq<T>, key: T -> Key)
    ensures SortedBy(StableSort(s, key), key)
    ensures multiset(StableSort(s, key)) == multiset(s)
    ensures forall y :: y in StableSort(s, key) <==> y in s
  {
    if s != [] {
      SortFacts(s[..|s| - 1], key);
      InsertSorted(StableSort(s[..|s| - 1], key), s[|s| - 1], key);
      InsertElements(StableSort(s[..|s| - 1], key), s[|s| - 1], key);
      assert s == s[..|s| - 1] + [s[|s| - 1]];
    }
  }

  lemma {:induction false} FilterInsert<T(!new)>(s: seq<T>, x: T, key: T -> Key, p: T -> bool)
    requires SortedBy(s, key)
    ensures Filter(Insert(s, x, key), p) == if p(x) then Insert(Filter(s, p), x, key) else Filter(s, p)
  {
    if s == [] || KeyLeq(key(s[|s| - 1]), key(x)) {
      SortedAppend(s, x, key);
      FilterAppend(s, [x], p);
      FilterElements(s, p);
      var f := Filter(s, p);
      if f != [] {
        assert f[|f| - 1] in s;
      }
    } else {
      var s', l := s[..|s| - 1], s[|s| - 1];
      FilterInsert(s', x, key, p);
      FilterAppend(Insert(s', x, key), [l], p);
      if p(x) && p(l) {
        assert Filter(s, p)[..|Filter(s, p)| - 1] == Filter(s', p);
      } else if p(x) {
        assert Filter(s, p) == Filter(s', p);
      }
    }
  }

  /** Any selection of a sorted list is the sorted selection: stability, for every predicate. */
  lemma {:induction false} FilterSort<T(!new)>(s: seq<T>, key: T -> Key, p: T -> bool)
    ensures Filter(StableSort(s, key), p) == StableSort(Filter(s, p), key)
  {
    if s != [] {
      var s', x := s[..|s| - 1], s[|s| - 1];
      FilterSort(s', key, p);
      SortFacts(s', key);
      FilterInsert(StableSort(s', key), x, key, p);
      if p(x) {
        assert Filter(s, p)[..|Filter(s, p)| - 1] == Filter(s', p);
      }
    }
  }

  /** On a sorted list, selecting everything below a bound is taking a prefix. */
  lemma {:induction false} FilterIsPrefix<T(!new)>(s: seq<T>, key: T -> Key, p: T -> bool)
    requires SortedBy(s, key)
    requires forall x, y :: KeyLeq(key(x), key(y)) && p(y) ==> p(x)
    ensures Filter(s, p) <= s
  {
    if s != [] {
      var s', x := s[..|s| - 1], s[|s| - 1];
      FilterIsPrefix(s', key, p);
      if p(x) {
        forall y | y in s ensures p(y) {
          var i :| 0 <= i < |s| && s[i] == y;
        }
        FilterAll(s, p);
      }
    }
  }

  lemma FilterRest<T(!new)>(s: seq<T>, f: seq<T>, p: T -> bool)
    requires f == Filter(s, p) && f <= s
    ensures forall x :: x in s[|f|..] ==> !p(x)
  {
    var rest := s[|f|..];
    assert s == f + rest;
    FilterAppend(f, rest, p);
    FilterElements(s, p);
    FilterAll(f, p);
    assert Filter(rest, p) == [];
    FilterElements(rest, p);
  }

  /** For a predicate that is closed towards smaller keys, sorting the selection gives a prefix
      of the sorted list, and nothing selected is left behind it. */
  lemma SortedSelectionIsPrefix<T(!new)>(s: seq<T>, key: T -> Key, p: T -> bool)
    requires forall x, y :: KeyLeq(key(x), key(y)) && p(y) ==> p(x)
    ensures StableSort(Filter(s, p), key) <= StableSort(s, key)
    ensures forall x :: x in StableSort(s, key)[|Filter(s, p)|..] ==> !p(x)
  {
    FilterSort(s, key, p);
    SortFacts(s, key);
    FilterIsPrefix(StableSort(s, key), key, p);
    FilterRest(StableSort(s, key), StableSort(Filter(s, p), key), p);
  }

  lemma {:induction false} SortIdentity<T(!new)>(s: seq<T>, key: T -> Key)
    requires SortedBy(s, key)
    ensures StableSort(s, key) == s
  {
    if s != [] {
      SortIdentity(s[..|s| - 1], key);
      assert |s| > 1 ==> KeyLeq(key(s[|s| - 2]), key(s[|s| - 1]));
    }
  }

  /** r relates every element to every later one. */
  ghost predicate Pairwise<T(!new)>(s: seq<T>, r: (T, T) -> bool) {
    forall i, j :: 0 <= i < j < |s| ==> r(s[i], s[j])
  }

  lemma {:induction false} PairwiseFilter<T(!new)>(s: seq<T>, p: T -> bool, r: (T, T) -> bool)
    requires Pairwise(s, r)
    ensures Pairwise(Filter(s, p), r)
  {
    if s != [] {
      var f, x := Filter(s[..|s| - 1], p), s[|s| - 1];
      PairwiseFilter(s[..|s| - 1], p, r);
      FilterElements(s[..|s| - 1], p);
      forall y | y in f ensures r(y, x) {
        var i :| 0 <= i < |s| - 1 && s[..|s| - 1][i] == y;
        assert s[i] == y;
      }
    }
  }

  lemma {:induction false} PairwiseInsert<T(!new)>(s: seq<T>, x: T, key: T -> Key, r: (T, T) -> bool)
    requires Pairwise(s, r)
    requires forall y :: y in s ==> r(x, y) && r(y, x)
    ensures Pairwise(Insert(s, x, key), r)
  {
    if !(s == [] || KeyLeq(key(s[|s| - 1]), key(x))) {
      var s', l := s[..|s| - 1], s[|s| - 1];
      PairwiseInsert(s', x, key, r);
      InsertElements(s', x, key);
      forall y | y in Insert(s', x, key) ensures r(y, l) {
        if y in s' {
          var i :| 0 <= i < |s'| && s'[i] == y;
          assert s[i] == y;
        }
      }
    }
  }

  /** Sorting keeps every symmetric relation between the elements. */
  lemma {:induction false} PairwiseSort<T(!new)>(s: seq<T>, key: T -> Key, r: (T, T) -> bool)
    requires Pairwise(s, r)
    requires forall x, y :: r(x, y) ==> r(y, x)
    ensures Pairwise(StableSort(s, key), r)
  {
    if s != [] {
      var s', x := s[..|s| - 1], s[|s| - 1];
      PairwiseSort(s', key, r);
      SortFacts(s', key);
      forall y | y in StableSort(s', key) ensures r(x, y) && r(y, x) {
        assert y in s';
        var i :| 0 <= i < |s'| && s'[i] == y;
        assert r(s[i], s[|s| - 1]);
      }
      PairwiseInsert(StableSort(s', key), x, key, r);
    }
  }
}
