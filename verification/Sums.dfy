/** Shared vocabulary of the allocation and sharding models: minimum and maximum,
    sums of integer and real columns, index lists.

    A sum runs either over a whole column or over a list of row indices; the
    lemmas are the few laws the models need about them (concatenation, pointwise
    sums and differences, scaling, monotonicity). */
module Sums {

  function Min(a: int, b: int): (m: int)
    ensures m <= a && m <= b && (m == a || m == b)
  {
    if a < b then a else b
  }

  function Max(a: int, b: int): (m: int)
    ensures a <= m && b <= m && (m == a || m == b)
  {
    if a < b then b else a
  }

  function Sum(s: seq<int>): int {
    if s == [] then 0 else Sum(s[..|s| - 1]) + s[|s| - 1]
  }

  function RealSum(s: seq<real>): real {
    if s == [] then 0.0 else RealSum(s[..|s| - 1]) + s[|s| - 1]
  }

  function Iota(n: nat): (r: seq<nat>)
    ensures |r| == n && forall k :: 0 <= k < n ==> r[k] == k
  {
    seq(n, k => k)
  }

  /** Where a value first occurs. */
  function IndexIn<T(==)>(s: seq<T>, x: T): (k: nat)
    requires x in s
    ensures k < |s| && s[k] == x
  {
    if s[0] == x then 0 else 1 + IndexIn(s[1..], x)
  }

  /** Every index of the list is a row of an `n`-row column. */
  predicate InRange(idxs: seq<nat>, n: nat) {
    forall k :: 0 <= k < |idxs| ==> idxs[k] < n
  }

  predicate Distinct<T(==)>(s: seq<T>) {
    forall a, b :: 0 <= a < b < |s| ==> s[a] != s[b]
  }

  function SumAt(s: seq<int>, idxs: seq<nat>): int
    requires InRange(idxs, |s|)
  {
    if idxs == [] then 0 else s[idxs[0]] + SumAt(s, idxs[1..])
  }

  function RealSumAt(s: seq<real>, idxs: seq<nat>): real
    requires InRange(idxs, |s|)
  {
    if idxs == [] then 0.0 else s[idxs[0]] + RealSumAt(s, idxs[1..])
  }

  function Add(a: seq<int>, b: seq<int>): (c: seq<int>)
    requires |a| == |b|
    ensures |c| == |a|
  {
    seq(|a|, i requires 0 <= i < |a| => a[i] + b[i])
  }

  function Sub(a: seq<int>, b: seq<int>): (c: seq<int>)
    requires |a| == |b|
    ensures |c| == |a|
  {
    seq(|a|, i requires 0 <= i < |a| => a[i] - b[i])
  }

  function Scale(c: real, s: seq<real>): (r: seq<real>)
    ensures |r| == |s|
  {
    seq(|s|, i requires 0 <= i < |s| => c * s[i])
  }

  lemma {:induction false} SumSnoc(s: seq<int>, x: int)
    ensures Sum(s + [x]) == Sum(s) + x
  {
    assert (s + [x])[..|s|] == s;
  }

  lemma {:induction false} SumAdd(a: seq<int>, b: seq<int>)
    requires |a| == |b|
    ensures Sum(Add(a, b)) == Sum(a) + Sum(b)
  {
    if a != [] {
      var n := |a| - 1;
      assert Add(a, b)[..n] == Add(a[..n], b[..n]);
      SumAdd(a[..n], b[..n]);
    }
  }

  lemma {:induction false} SumSub(a: seq<int>, b: seq<int>)
    requires |a| == |b|
    ensures Sum(Sub(a, b)) == Sum(a) - Sum(b)
  {
    if a != [] {
      var n := |a| - 1;
      assert Sub(a, b)[..n] == Sub(a[..n], b[..n]);
      SumSub(a[..n], b[..n]);
    }
  }

  lemma {:induction false} SumUpdate(s: seq<int>, i: nat, v: int)
    requires i < |s|
    ensures Sum(s[i := v]) == Sum(s) - s[i] + v
  {
    var n := |s| - 1;
    if i == n {
      assert s[i := v][..n] == s[..n];
    } else {
      assert s[i := v][..n] == s[..n][i := v];
      SumUpdate(s[..n], i, v);
    }
  }

  lemma {:induction false} SumNonNegative(s: seq<int>)
    requires forall i :: 0 <= i < |s| ==> 0 <= s[i]
    ensures 0 <= Sum(s)
    ensures forall i :: 0 <= i < |s| ==> s[i] <= Sum(s)
  {
    if s != [] {
      SumNonNegative(s[..|s| - 1]);
    }
  }

  lemma {:induction false} SumZero(s: seq<int>)
    requires forall i :: 0 <= i < |s| ==> s[i] == 0
    ensures Sum(s) == 0
  {
    if s != [] {
      SumZero(s[..|s| - 1]);
    }
  }

  lemma {:induction false} RealSumNonNegative(s: seq<real>)
    requires forall i :: 0 <= i < |s| ==> 0.0 <= s[i]
    ensures 0.0 <= RealSum(s)
    ensures forall i :: 0 <= i < |s| ==> s[i] <= RealSum(s)
  {
    if s != [] {
      RealSumNonNegative(s[..|s| - 1]);
    }
  }

  lemma ScaleTake(c: real, s: seq<real>, n: nat)
    requires n <= |s|
    ensures Scale(c, s)[..n] == Scale(c, s[..n])
  {
    forall i | 0 <= i < n
      ensures Scale(c, s)[..n][i] == Scale(c, s[..n])[i]
    {
      assert s[..n][i] == s[i];
    }
  }

  lemma {:induction false} RealSumScale(c: real, s: seq<real>)
    ensures RealSum(Scale(c, s)) == c * RealSum(s)
  {
    if s != [] {
      var n := |s| - 1;
      ScaleTake(c, s, n);
      RealSumScale(c, s[..n]);
    }
  }

  lemma {:induction false} RealSumZero(s: seq<real>)
    requires forall i :: 0 <= i < |s| ==> s[i] == 0.0
    ensures RealSum(s) == 0.0
  {
    if s != [] {
      RealSumZero(s[..|s| - 1]);
    }
  }

  /** Rounding every term down cannot raise the total. */
  lemma {:induction false} FloorSumBelow(s: seq<real>, f: seq<int>)
    requires |s| == |f|
    requires forall i :: 0 <= i < |s| ==> f[i] as real <= s[i]
    ensures Sum(f) as real <= RealSum(s)
  {
    if s != [] {
      var n := |s| - 1;
      FloorSumBelow(s[..n], f[..n]);
    }
  }

  lemma {:induction false} SumAtConcat(s: seq<int>, a: seq<nat>, b: seq<nat>)
    requires InRange(a, |s|) && InRange(b, |s|)
    ensures InRange(a + b, |s|)
    ensures SumAt(s, a + b) == SumAt(s, a) + SumAt(s, b)
  {
    if a == [] {
      assert a + b == b;
    } else {
      assert (a + b)[1..] == a[1..] + b;
      SumAtConcat(s, a[1..], b);
    }
  }

  lemma {:induction false} RealSumAtConcat(s: seq<real>, a: seq<nat>, b: seq<nat>)
    requires InRange(a, |s|) && InRange(b, |s|)
    ensures InRange(a + b, |s|)
    ensures RealSumAt(s, a + b) == RealSumAt(s, a) + RealSumAt(s, b)
  {
    if a == [] {
      assert a + b == b;
    } else {
      assert (a + b)[1..] == a[1..] + b;
      RealSumAtConcat(s, a[1..], b);
    }
  }

  /** Summing a column of ones counts the indices. */
  lemma {:induction false} SumAtConstant(s: seq<int>, idxs: seq<nat>, v: int)
    requires InRange(idxs, |s|)
    requires forall k :: 0 <= k < |idxs| ==> s[idxs[k]] == v
    ensures SumAt(s, idxs) == v * |idxs|
  {
    if idxs != [] {
      SumAtConstant(s, idxs[1..], v);
    }
  }

  lemma {:induction false} RealSumAtBelow(s: seq<real>, idxs: seq<nat>)
    requires InRange(idxs, |s|)
    requires forall k :: 0 <= k < |idxs| ==> s[idxs[k]] <= 1.0
    ensures RealSumAt(s, idxs) <= |idxs| as real
  {
    if idxs != [] {
      RealSumAtBelow(s, idxs[1..]);
    }
  }

  lemma {:induction false} RealSumAtZero(s: seq<real>, idxs: seq<nat>)
    requires InRange(idxs, |s|)
    requires forall k :: 0 <= k < |idxs| ==> s[idxs[k]] == 0.0
    ensures RealSumAt(s, idxs) == 0.0
  {
    if idxs != [] {
      RealSumAtZero(s, idxs[1..]);
    }
  }

  lemma {:induction false} RealSumAtScale(c: real, s: seq<real>, idxs: seq<nat>)
    requires InRange(idxs, |s|)
    ensures RealSumAt(Scale(c, s), idxs) == c * RealSumAt(s, idxs)
  {
    if idxs != [] {
      RealSumAtScale(c, s, idxs[1..]);
    }
  }

  lemma {:induction false} RealSumAtConstant(s: seq<real>, idxs: seq<nat>, v: real)
    requires InRange(idxs, |s|)
    requires forall k :: 0 <= k < |idxs| ==> s[idxs[k]] == v
    ensures RealSumAt(s, idxs) == v * |idxs| as real
  {
    if idxs != [] {
      RealSumAtConstant(s, idxs[1..], v);
    }
  }
}
