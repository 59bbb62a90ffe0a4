/** Python's list.sort(key=..., reverse=True) on a key of at most three numbers
    (a bool in a key counts as 0 or 1). The sort is stable: elements whose keys
    are equal keep their relative order, which decides the order of ties in
    every ranking of the funnel. */
module Sorting {

  /** A sort key, compared lexicographically as Python compares tuples. */
  datatype SortKey = SortKey(primary: real, secondary: real, tertiary: real)

  /** a ranks at least as high as b in a descending sort. */
  predicate KeyGeq(a: SortKey, b: SortKey)
  {
    a.primary > b.primary ||
    (a.primary == b.primary &&
     (a.secondary > b.secondary || (a.secondary == b.secondary && a.tertiary >= b.tertiary)))
  }

  ghost predicate SortedDesc<T>(s: seq<T>, key: T -> SortKey)
  {
    forall i, j :: 0 <= i < j < |s| ==> KeyGeq(key(s[i]), key(s[j]))
  }

  /** Insert x in front of the first element it ranks at least as high as. */
  function Insert<T>(x: T, s: seq<T>, key: T -> SortKey): seq<T>
  {
    if s == [] then [x]
    else if KeyGeq(key(x), key(s[0])) then [x] + s
    else [s[0]] + Insert(x, s[1..], key)
  }

  /** Stable descending sort: each element is inserted ahead of the later
      elements it ties with, so ties keep their input order. */
  function SortDesc<T>(s: seq<T>, key: T -> SortKey): seq<T>
  {
    if s == [] then [] else Insert(s[0], SortDesc(s[1..], key), key)
  }

  lemma {:induction false} InsertPermutes<T>(x: T, s: seq<T>, key: T -> SortKey)
    ensures multiset(Insert(x, s, key)) == multiset(s) + multiset{x}
    decreases |s|
  {
    if s != [] && !KeyGeq(key(x), key(s[0])) {
      InsertPermutes(x, s[1..], key);
      assert s == [s[0]] + s[1..];
    }
  }

  lemma {:induction false} InsertSorted<T>(x: T, s: seq<T>, key: T -> SortKey)
    requires SortedDesc(s, key)
    ensures SortedDesc(Insert(x, s, key), key)
    decreases |s|
  {
    if s != [] && !KeyGeq(key(x), key(s[0])) {
      var rest := s[1..];
      InsertSorted(x, rest, key);
      InsertPermutes(x, rest, key);
      var r := Insert(x, rest, key);
      forall j | 0 <= j < |r|
        ensures KeyGeq(key(s[0]), key(r[j]))
      {
        assert r[j] in multiset(r);
        if r[j] != x {
          assert r[j] in multiset(rest);
          var m :| 0 <= m < |rest| && rest[m] == r[j];
          assert s[m + 1] == r[j];
        }
      }
    }
  }

  /** The sorted list is a permutation of the input, ranked by descending key. */
  lemma {:induction false} SortDescCorrect<T>(s: seq<T>, key: T -> SortKey)
    ensures multiset(SortDesc(s, key)) == multiset(s)
    ensures |SortDesc(s, key)| == |s|
    ensures SortedDesc(SortDesc(s, key), key)
    decreases |s|
  {
    if s != [] {
      SortDescCorrect(s[1..], key);
      InsertPermutes(s[0], SortDesc(s[1..], key), key);
      InsertSorted(s[0], SortDesc(s[1..], key), key);
      assert s == [s[0]] + s[1..];
      assert |SortDesc(s, key)| == |multiset(SortDesc(s, key))|;
    }
  }

  lemma SortDescMember<T>(s: seq<T>, key: T -> SortKey, x: T)
    ensures x in SortDesc(s, key) <==> x in s
  {
    SortDescCorrect(s, key);
    assert x in SortDesc(s, key) <==> x in multiset(SortDesc(s, key));
    assert x in s <==> x in multiset(s);
  }

  /** The elements carrying a given key, in their order. */
  function WithKey<T>(s: seq<T>, key: T -> SortKey, k: SortKey): seq<T>
  {
    if s == [] then []
    else (if key(s[0]) == k then [s[0]] else []) + WithKey(s[1..], key, k)
  }

  lemma {:induction false} WithKeyInsert<T>(x: T, s: seq<T>, key: T -> SortKey, k: SortKey)
    ensures WithKey(Insert(x, s, key), key, k) ==
            (if key(x) == k then [x] else []) + WithKey(s, key, k)
    decreases |s|
  {
    if s == [] {
      assert WithKey([x], key, k) == (if key(x) == k then [x] else []) + WithKey([x][1..], key, k);
    } else if KeyGeq(key(x), key(s[0])) {
      assert ([x] + s)[1..] == s;
    } else {
      var t := Insert(x, s[1..], key);
      assert ([s[0]] + t)[1..] == t;
      WithKeyInsert(x, s[1..], key, k);
      assert key(s[0]) != key(x);
    }
  }

  /** Stability: for every key, the elements with that key appear in the
      sorted output in exactly their input order. */
  lemma {:induction false} SortDescStable<T>(s: seq<T>, key: T -> SortKey, k: SortKey)
    ensures WithKey(SortDesc(s, key), key, k) == WithKey(s, key, k)
    decreases |s|
  {
    if s != [] {
      SortDescStable(s[1..], key, k);
      WithKeyInsert(s[0], SortDesc(s[1..], key), key, k);
    }
  }
}
