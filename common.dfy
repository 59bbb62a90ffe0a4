/** Shared vocabulary of the screener model: optional values (pandas NaN and
    Python None), the arithmetic helpers the Python code gets from builtins,
    and the "loop that appends survivors" pattern every funnel stage uses. */
module Common {

  /** A value that may be missing: pandas NaN, Python None or an absent key. */
  datatype Option<+T> = None | Some(value: T)

  function Abs(x: real): (r: real)
    ensures r >= 0.0
    ensures r == x || r == -x
  {
    if x < 0.0 then -x else x
  }

  function Max(a: real, b: real): (r: real)
    ensures r >= a && r >= b
    ensures r == a || r == b
  {
    if a >= b then a else b
  }

  function Min(a: real, b: real): (r: real)
    ensures r <= a && r <= b
    ensures r == a || r == b
  {
    if a <= b then a else b
  }

  function MinNat(a: nat, b: nat): nat
  {
    if a <= b then a else b
  }

  /** Python's int() applied to a float: truncation toward zero. */
  function Trunc(x: real): (n: int)
    ensures x >= 0.0 ==> 0 <= n && n as real <= x < n as real + 1.0
    ensures x < 0.0 ==> n <= 0 && n as real - 1.0 < x <= n as real
  {
    if x >= 0.0 then x.Floor else -((-x).Floor)
  }

  /** Python's round(x, 2): to two decimals, ties to the even neighbour. The
      rounding is done on the exact real value. */
  function Round2(x: real): (r: real)
    ensures Abs(r - x) <= 0.005
    ensures (r * 100.0).Floor as real == r * 100.0
    ensures Abs(r - x) == 0.005 ==> (r * 100.0).Floor % 2 == 0
  {
    var y := x * 100.0;
    var f := y.Floor;
    var frac := y - f as real;
    var n := if frac < 0.5 then f
             else if frac > 0.5 then f + 1
             else if f % 2 == 0 then f else f + 1;
    n as real / 100.0
  }

  /** Rounding never crosses a price on the cent grid: a value at or below
      cents / 100 rounds to at most it. */
  lemma Round2Below(x: real, cents: int)
    requires x <= cents as real / 100.0
    ensures Round2(x) <= cents as real / 100.0
  {
    var y := x * 100.0;
    var f := y.Floor;
    assert y <= cents as real;
    assert f <= cents;
    if f < cents {
      assert f + 1 <= cents;
    }
  }

  /** ... and a value at or above cents / 100 rounds to at least it. */
  lemma Round2Above(x: real, cents: int)
    requires x >= cents as real / 100.0
    ensures Round2(x) >= cents as real / 100.0
  {
    var y := x * 100.0;
    assert y >= cents as real;
    assert y.Floor >= cents;
  }

  /** x as a percentage of base, as x / base * 100; not a number (None)
      when base is 0. */
  function PercentOf(x: real, base: real): (p: Option<real>)
    ensures p.None? <==> base == 0.0
    ensures p.Some? ==> p.value * base == x * 100.0
    ensures p.Some? && base > 0.0 ==> (p.value > 0.0 <==> x > 0.0) && (p.value < 0.0 <==> x < 0.0)
  {
    if base == 0.0 then None else Some(x / base * 100.0)
  }

  /** 1.0 for True and 0.0 for False, as Python orders booleans in a sort key. */
  function BoolKey(b: bool): real
  {
    if b then 1.0 else 0.0
  }

  /** Sum of a sequence, peeled from the end so loops that accumulate left to
      right match it step by step. */
  function Sum(s: seq<real>): real
  {
    if s == [] then 0.0 else Sum(s[..|s| - 1]) + s[|s| - 1]
  }

  function Mean(s: seq<real>): real
    requires |s| > 0
  {
    Sum(s) / |s| as real
  }

  lemma {:induction false} SumAppend(a: seq<real>, b: seq<real>)
    ensures Sum(a + b) == Sum(a) + Sum(b)
    decreases |b|
  {
    if b == [] {
      assert a + b == a;
    } else {
      assert (a + b)[..|a + b| - 1] == a + b[..|b| - 1];
      SumAppend(a, b[..|b| - 1]);
    }
  }

  lemma {:induction false} SumNonNegative(s: seq<real>)
    requires forall i :: 0 <= i < |s| ==> s[i] >= 0.0
    ensures Sum(s) >= 0.0
    decreases |s|
  {
    if s != [] {
      SumNonNegative(s[..|s| - 1]);
    }
  }

  /** The last n elements (pandas tail(n)); all of s when it is shorter. */
  function LastN<T>(s: seq<T>, n: nat): (r: seq<T>)
    ensures |r| == MinNat(|s|, n)
    ensures forall i :: 0 <= i < |r| ==> r[i] == s[|s| - |r| + i]
  {
    if |s| <= n then s else s[|s| - n..]
  }

  /** The first n elements (Python s[:n] for n >= 0). */
  function Take<T>(s: seq<T>, n: nat): (r: seq<T>)
    ensures |r| == MinNat(|s|, n)
    ensures forall i :: 0 <= i < |r| ==> r[i] == s[i]
  {
    if |s| <= n then s else s[..n]
  }

  /** r is s with some elements left out: the order of what remains, and
      how often each element occurs, are those of s. */
  predicate IsSubsequence<T(==)>(r: seq<T>, s: seq<T>)
    decreases |s|
  {
    if r == [] then true
    else if s == [] then false
    else if r[0] == s[0] then IsSubsequence(r[1..], s[1..])
    else IsSubsequence(r, s[1..])
  }

  /** Concatenation is associative. */
  lemma ConcatAssoc<T>(a: seq<T>, b: seq<T>, c: seq<T>)
    ensures a + (b + c) == (a + b) + c
  {
  }

  /** The elements after the head of x followed by s are those of s. */
  lemma ConsTail<T>(x: T, s: seq<T>)
    ensures ([x] + s)[1..] == s
    ensures forall k :: 1 <= k < |s| + 1 ==> ([x] + s)[k] == s[k - 1]
  {
  }

  /** Leaving out one more element at the end keeps a subsequence. */
  lemma {:induction false} SubsequenceSkipLast<T>(r: seq<T>, s: seq<T>, x: T)
    requires IsSubsequence(r, s)
    ensures IsSubsequence(r, s + [x])
    decreases |s|
  {
    if r != [] {
      assert (s + [x])[1..] == s[1..] + [x];
      if r[0] == s[0] {
        SubsequenceSkipLast(r[1..], s[1..], x);
      } else {
        SubsequenceSkipLast(r, s[1..], x);
      }
    }
  }

  /** Leaving out one more element at the front keeps a subsequence. */
  lemma {:induction false} SubsequenceSkipFirst<T>(r: seq<T>, s: seq<T>, x: T)
    requires IsSubsequence(r, s)
    ensures IsSubsequence(r, [x] + s)
    decreases |s|, 1
  {
    assert ([x] + s)[1..] == s;
    if r != [] && r[0] == x {
      SubsequenceDropHead(r, s);
    }
  }

  /** Dropping the first element of a subsequence keeps a subsequence. */
  lemma {:induction false} SubsequenceDropHead<T>(r: seq<T>, s: seq<T>)
    requires r != [] && IsSubsequence(r, s)
    ensures IsSubsequence(r[1..], s)
    decreases |s|, 0
  {
    assert s == [s[0]] + s[1..];
    if r[0] == s[0] {
      SubsequenceSkipFirst(r[1..], s[1..], s[0]);
    } else {
      SubsequenceDropHead(r, s[1..]);
      SubsequenceSkipFirst(r[1..], s[1..], s[0]);
    }
  }

  /** Keeping one more element at the end keeps a subsequence. */
  lemma {:induction false} SubsequenceKeepLast<T>(r: seq<T>, s: seq<T>, x: T)
    requires IsSubsequence(r, s)
    ensures IsSubsequence(r + [x], s + [x])
    decreases |s|
  {
    assert (r + [x])[0] == if r == [] then x else r[0];
    if s == [] {
      assert r == [];
      assert [x][1..] == [];
    } else {
      assert (s + [x])[1..] == s[1..] + [x];
      if r == [] {
        if x != s[0] {
          SubsequenceKeepLast(r, s[1..], x);
        }
      } else if r[0] == s[0] {
        assert (r + [x])[1..] == r[1..] + [x];
        SubsequenceKeepLast(r[1..], s[1..], x);
      } else {
        SubsequenceKeepLast(r, s[1..], x);
      }
    }
  }

  function OptionToSeq<T>(o: Option<T>): (r: seq<T>)
    ensures |r| <= 1
  {
    match o
    case None => []
    case Some(v) => [v]
  }

  /** What a loop of the form
        for x in xs: y = f(x); if y: out.append(y)
      leaves in out. */
  function FilterMap<A, B>(xs: seq<A>, f: A -> Option<B>): (r: seq<B>)
    ensures |r| <= |xs|
  {
    if xs == [] then []
    else FilterMap(xs[..|xs| - 1], f) + OptionToSeq(f(xs[|xs| - 1]))
  }

  /** One more iteration of such a loop appends f(xs[i]) if it is present. */
  lemma FilterMapStep<A, B>(xs: seq<A>, f: A -> Option<B>, i: nat)
    requires i < |xs|
    ensures FilterMap(xs[..i + 1], f) == FilterMap(xs[..i], f) + OptionToSeq(f(xs[i]))
  {
    assert xs[..i + 1][..i] == xs[..i];
  }

  /** An element survives exactly when some input maps to it. */
  lemma {:induction false} FilterMapMember<A, B>(xs: seq<A>, f: A -> Option<B>, y: B)
    ensures y in FilterMap(xs, f) <==> exists i :: 0 <= i < |xs| && f(xs[i]) == Some(y)
    decreases |xs|
  {
    if xs != [] {
      var init, last := xs[..|xs| - 1], xs[|xs| - 1];
      FilterMapMember(init, f, y);
      assert FilterMap(xs, f) == FilterMap(init, f) + OptionToSeq(f(last));
      assert y in OptionToSeq(f(last)) <==> f(last) == Some(y);
      if y in FilterMap(init, f) {
        var i :| 0 <= i < |init| && f(init[i]) == Some(y);
        assert xs[i] == init[i];
      }
      if exists i :: 0 <= i < |xs| && f(xs[i]) == Some(y) {
        var i :| 0 <= i < |xs| && f(xs[i]) == Some(y);
        if i < |init| {
          assert init[i] == xs[i];
        }
      }
    }
  }

  /** Every survivor of FilterMap satisfies whatever f promises of its results. */
  lemma FilterMapAll<A, B>(xs: seq<A>, f: A -> Option<B>, p: B -> bool)
    requires forall x :: f(x).Some? ==> p(f(x).value)
    ensures forall k :: 0 <= k < |FilterMap(xs, f)| ==> p(FilterMap(xs, f)[k])
  {
    forall k | 0 <= k < |FilterMap(xs, f)|
      ensures p(FilterMap(xs, f)[k])
    {
      var y := FilterMap(xs, f)[k];
      FilterMapMember(xs, f, y);
      var i :| 0 <= i < |xs| && f(xs[i]) == Some(y);
      assert f(xs[i]) == Some(y);
    }
  }

  /** Survivors keep the order of their inputs: when the inputs are in
      strictly increasing rank and each survivor has its input's rank, the
      survivors are in strictly increasing rank too. */
  lemma {:induction false} FilterMapRanked<A, B>(xs: seq<A>, f: A -> Option<B>, rankOf: A -> nat, rank: B -> nat)
    requires forall i, j :: 0 <= i < j < |xs| ==> rankOf(xs[i]) < rankOf(xs[j])
    requires forall x :: f(x).Some? ==> rank(f(x).value) == rankOf(x)
    ensures forall a, b :: 0 <= a < b < |FilterMap(xs, f)| ==> rank(FilterMap(xs, f)[a]) < rank(FilterMap(xs, f)[b])
    decreases |xs|
  {
    if xs != [] {
      var init, last := xs[..|xs| - 1], xs[|xs| - 1];
      FilterMapRanked(init, f, rankOf, rank);
      var prefix := FilterMap(init, f);
      assert FilterMap(xs, f) == prefix + OptionToSeq(f(last));
      forall a | 0 <= a < |prefix|
        ensures rank(prefix[a]) < rankOf(last)
      {
        FilterMapMember(init, f, prefix[a]);
        var i :| 0 <= i < |init| && f(init[i]) == Some(prefix[a]);
        assert init[i] == xs[i];
      }
    }
  }

  /** When no input maps to a value, nothing survives. */
  lemma {:induction false} FilterMapEmpty<A, B>(xs: seq<A>, f: A -> Option<B>)
    requires forall i :: 0 <= i < |xs| ==> f(xs[i]).None?
    ensures FilterMap(xs, f) == []
    decreases |xs|
  {
    if xs != [] {
      FilterMapEmpty(xs[..|xs| - 1], f);
    }
  }
}
