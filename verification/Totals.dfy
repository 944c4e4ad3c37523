/** Sums, counts and means over the rows that meet a condition.

    A condition is a function on row numbers, and the sum runs over the rows one by
    one.  The theorems about group statistics are stated with these, so that they
    say nothing about how a model collects the rows of a group.  `Without` is the
    one operation on row lists the models share: taking a row out. */
module Totals {
  import opened Sums

  type Condition = nat -> bool

  /** Sum of the values of the first `n` rows that meet the condition. */
  function SumWhere(values: seq<real>, keep: Condition, n: nat): real
    requires n <= |values|
  {
    if n == 0 then 0.0 else SumWhere(values, keep, n - 1) + if keep(n - 1) then values[n - 1] else 0.0
  }

  /** How many of the first `n` rows meet the condition. */
  function CountWhere(keep: Condition, n: nat): nat {
    if n == 0 then 0 else CountWhere(keep, n - 1) + if keep(n - 1) then 1 else 0
  }

  /** Mean of the values whose row meets the condition; zero if there are none. */
  function MeanWhere(values: seq<real>, keep: Condition): real {
    var count := CountWhere(keep, |values|);
    if count == 0 then 0.0 else SumWhere(values, keep, |values|) / count as real
  }

  /** The rows that carry a key. */
  function Carries<T(==)>(ids: seq<T>, g: T): Condition {
    (r: nat) => r < |ids| && ids[r] == g
  }

  /** The rows that carry a row's key, with or without the row itself. */
  function PeersOf<T(==)>(ids: seq<T>, i: nat, loo: bool): Condition
    requires i < |ids|
  {
    (r: nat) => r < |ids| && ids[r] == ids[i] && (loo ==> r != i)
  }

  lemma {:induction false} CountAgree(keep: Condition, keep': Condition, n: nat)
    requires forall r: nat :: r < n ==> keep(r) == keep'(r)
    ensures CountWhere(keep, n) == CountWhere(keep', n)
  {
    if n > 0 {
      CountAgree(keep, keep', n - 1);
    }
  }

  lemma {:induction false} SumAgree(values: seq<real>, values': seq<real>, keep: Condition, keep': Condition, n: nat)
    requires n <= |values| == |values'|
    requires forall r: nat :: r < n ==> (if keep(r) then values[r] else 0.0) == (if keep'(r) then values'[r] else 0.0)
    ensures SumWhere(values, keep, n) == SumWhere(values', keep', n)
  {
    if n > 0 {
      SumAgree(values, values', keep, keep', n - 1);
    }
  }

  /** A stretch of rows that all meet the condition, or all fail it. */
  lemma {:induction false} CountStretch(keep: Condition, n: nat, width: nat, met: bool)
    requires forall r: nat :: n <= r < n + width ==> keep(r) == met
    ensures CountWhere(keep, n + width) == CountWhere(keep, n) + if met then width else 0
  {
    if width > 0 {
      CountStretch(keep, n, width - 1, met);
    }
  }

  lemma {:induction false} CountNone(keep: Condition, n: nat)
    requires forall r: nat :: r < n ==> !keep(r)
    ensures CountWhere(keep, n) == 0
  {
    if n > 0 {
      CountNone(keep, n - 1);
    }
  }

  /** `rows` without row `i`. */
  function Without(rows: seq<nat>, i: nat): seq<nat> {
    if rows == [] then []
    else if rows[0] == i then Without(rows[1..], i)
    else [rows[0]] + Without(rows[1..], i)
  }

  lemma {:induction false} WithoutLaws(rows: seq<nat>, i: nat)
    requires Distinct(rows)
    ensures Distinct(Without(rows, i))
    ensures forall r: nat :: r in Without(rows, i) <==> r in rows && r != i
    ensures |Without(rows, i)| == if i in rows then |rows| - 1 else |rows|
  {
    if rows != [] {
      var rest := rows[1..];
      assert rows == [rows[0]] + rest;
      assert rows[0] !in rest;
      WithoutLaws(rest, i);
    }
  }

  lemma {:induction false} SumWithout(values: seq<real>, rows: seq<nat>, i: nat)
    requires Distinct(rows) && InRange(rows, |values|) && i < |values|
    ensures InRange(Without(rows, i), |values|)
    ensures RealSumAt(values, Without(rows, i)) == RealSumAt(values, rows) - (if i in rows then values[i] else 0.0)
  {
    if rows != [] {
      var rest := rows[1..];
      assert rows == [rows[0]] + rest;
      assert rows[0] !in rest;
      SumWithout(values, rest, i);
      if rows[0] != i {
        assert Without(rows, i)[1..] == Without(rest, i);
      }
    }
  }

  /** The list holds exactly the first `n` rows that meet the condition. */
  ghost predicate ListsWhere(rows: seq<nat>, keep: Condition, n: nat) {
    Distinct(rows) && forall r: nat :: r in rows <==> r < n && keep(r)
  }

  lemma ListsFewer(rows: seq<nat>, keep: Condition, n: nat)
    requires n > 0 && ListsWhere(rows, keep, n)
    ensures ListsWhere(Without(rows, n - 1), keep, n - 1)
    ensures |Without(rows, n - 1)| == |rows| - if keep(n - 1) then 1 else 0
  {
    WithoutLaws(rows, n - 1);
  }

  lemma HeadListed(rows: seq<nat>)
    ensures rows != [] ==> rows[0] in rows
  {
  }

  /** Summing over such a list, in whatever order, is summing over the rows. */
  lemma {:induction false} SumOverList(values: seq<real>, rows: seq<nat>, keep: Condition, n: nat)
    requires n <= |values| && ListsWhere(rows, keep, n)
    ensures InRange(rows, |values|)
    ensures RealSumAt(values, rows) == SumWhere(values, keep, n)
    decreases n
  {
    forall k | 0 <= k < |rows| ensures rows[k] < |values| {
      assert rows[k] in rows;
    }
    if n == 0 {
      HeadListed(rows);
    } else {
      ListsFewer(rows, keep, n);
      SumOverList(values, Without(rows, n - 1), keep, n - 1);
      SumWithout(values, rows, n - 1);
    }
  }

  lemma {:induction false} CountOfList(rows: seq<nat>, keep: Condition, n: nat)
    requires ListsWhere(rows, keep, n)
    ensures |rows| == CountWhere(keep, n)
    decreases n
  {
    if n == 0 {
      HeadListed(rows);
    } else {
      ListsFewer(rows, keep, n);
      CountOfList(Without(rows, n - 1), keep, n - 1);
    }
  }

  lemma {:induction false} MeanOfList(values: seq<real>, rows: seq<nat>, keep: Condition)
    requires ListsWhere(rows, keep, |values|)
    ensures InRange(rows, |values|)
    ensures rows != [] ==> RealSumAt(values, rows) / |rows| as real == MeanWhere(values, keep)
    ensures rows == [] ==> MeanWhere(values, keep) == 0.0
  {
    SumOverList(values, rows, keep, |values|);
    CountOfList(rows, keep, |values|);
  }
}
