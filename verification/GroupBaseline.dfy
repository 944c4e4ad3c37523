/** Per-prompt baseline and variance, and the group-relative advantage. */
module GroupBaseline {
  // `calculate_baseline_and_std_per_prompt` and the advantage `reward - baseline`.
  // The mask is all ones, as the callers pass it.  The source's std is the square
  // root of the variance here, so one is zero exactly when the other is.

  import opened Sums
  import opened Options
  import opened Grouping
  import opened Totals

  type Prompt = seq<int>

  // ----- specification -----

  function Group(prompts: seq<Prompt>, i: nat): seq<nat>
    requires i < |prompts|
  {
    RowsOf(prompts, prompts[i])
  }

  /** The rows a row is compared with: its group, or the group without itself. */
  function Peers(prompts: seq<Prompt>, i: nat, loo: bool): seq<nat>
    requires i < |prompts|
  {
    if loo then Without(Group(prompts, i), i) else Group(prompts, i)
  }

  function Squares(values: seq<real>): (r: seq<real>)
    ensures |r| == |values|
  {
    seq(|values|, k requires 0 <= k < |values| => values[k] * values[k])
  }

  function Mean(values: seq<real>, rows: seq<nat>): real
    requires rows != [] && InRange(rows, |values|)
  {
    RealSumAt(values, rows) / |rows| as real
  }

  /** (E[x^2] - E[x]^2) * n / (n - 1), from the sum, the sum of squares and n. */
  function VarianceFrom(sum: real, squares: real, n: real): real
    requires n >= 2.0
  {
    (squares / n - (sum / n) * (sum / n)) * (n / (n - 1.0))
  }

  /** Unbiased variance over a list of rows. */
  function Variance(values: seq<real>, rows: seq<nat>): real
    requires |rows| >= 2 && InRange(rows, |values|)
  {
    VarianceFrom(RealSumAt(values, rows), RealSumAt(Squares(values), rows), |rows| as real)
  }

  ghost predicate Batch(prompts: seq<Prompt>, values: seq<real>) {
    |prompts| == |values|
  }

  function BaselineAt(prompts: seq<Prompt>, rewards: seq<real>, loo: bool, i: nat): real
    requires Batch(prompts, rewards) && i < |prompts|
  {
    PeersLaws(prompts, i, loo);
    if |Group(prompts, i)| <= 1 then rewards[i] else Mean(rewards, Peers(prompts, i, loo))
  }

  /** With fewer than two peers the source's 0 * inf is a NaN it replaces by zero. */
  function VarianceAt(prompts: seq<Prompt>, values: seq<real>, loo: bool, i: nat): real
    requires Batch(prompts, values) && i < |prompts|
  {
    PeersLaws(prompts, i, loo);
    var peers := Peers(prompts, i, loo);
    if |peers| <= 1 then 0.0 else Variance(values, peers)
  }

  function AdvantageAt(prompts: seq<Prompt>, rewards: seq<real>, loo: bool, i: nat): real
    requires Batch(prompts, rewards) && i < |prompts|
  {
    rewards[i] - BaselineAt(prompts, rewards, loo, i)
  }

  // ----- index lists -----

  lemma GroupLaws(prompts: seq<Prompt>, i: nat)
    requires i < |prompts|
    ensures Distinct(Group(prompts, i)) && InRange(Group(prompts, i), |prompts|)
    ensures i in Group(prompts, i) && |Group(prompts, i)| >= 1
    ensures forall r: nat :: r in Group(prompts, i) <==> r < |prompts| && prompts[r] == prompts[i]
  {
    RowsOfLaws(prompts, prompts[i]);
  }

  lemma PeersLaws(prompts: seq<Prompt>, i: nat, loo: bool)
    requires i < |prompts|
    ensures InRange(Peers(prompts, i, loo), |prompts|)
    ensures |Peers(prompts, i, loo)| == |Group(prompts, i)| - (if loo then 1 else 0)
    ensures forall r: nat :: r in Peers(prompts, i, loo) <==>
              r < |prompts| && prompts[r] == prompts[i] && (loo ==> r != i)
  {
    GroupLaws(prompts, i);
    WithoutLaws(Group(prompts, i), i);
    var peers := Peers(prompts, i, loo);
    forall k | 0 <= k < |peers| ensures peers[k] < |prompts| {
      assert peers[k] in peers;
      assert peers[k] in Group(prompts, i);
    }
  }

  /** The peers are the rows of the same prompt, without the row itself under
      leave-one-out. */
  lemma PeersListed(prompts: seq<Prompt>, i: nat, loo: bool)
    requires i < |prompts|
    ensures ListsWhere(Peers(prompts, i, loo), PeersOf(prompts, i, loo), |prompts|)
  {
    GroupLaws(prompts, i);
    PeersLaws(prompts, i, loo);
    WithoutLaws(Group(prompts, i), i);
  }

  /** Row by row: the baseline is the mean reward of the peers, or the row's own
      reward if it has none. */
  lemma {:induction false} BaselineIsPeerMean(prompts: seq<Prompt>, rewards: seq<real>, loo: bool, i: nat)
    requires Batch(prompts, rewards) && i < |prompts|
    ensures BaselineAt(prompts, rewards, loo, i) ==
            if CountWhere(PeersOf(prompts, i, loo), |prompts|) == 0 then rewards[i]
            else MeanWhere(rewards, PeersOf(prompts, i, loo))
  {
    var peers := Peers(prompts, i, loo);
    PeersLaws(prompts, i, loo);
    GroupLaws(prompts, i);
    PeersListed(prompts, i, loo);
    MeanOfList(rewards, peers, PeersOf(prompts, i, loo));
    CountOfList(peers, PeersOf(prompts, i, loo), |prompts|);
    if |peers| == 1 && !loo {
      assert peers == [i];
      assert RealSumAt(rewards, [i]) == rewards[i];
    }
  }

  /** So the advantage is the reward less the mean reward of the peers, and zero
      without peers. */
  lemma {:induction false} AdvantageIsPeerGap(prompts: seq<Prompt>, rewards: seq<real>, loo: bool, i: nat)
    requires Batch(prompts, rewards) && i < |prompts|
    ensures AdvantageAt(prompts, rewards, loo, i) ==
            if CountWhere(PeersOf(prompts, i, loo), |prompts|) == 0 then 0.0
            else rewards[i] - MeanWhere(rewards, PeersOf(prompts, i, loo))
  {
    BaselineIsPeerMean(prompts, rewards, loo, i);
  }

  // ----- advantages -----

  function Stretched(n: real, x: real): real
    requires n >= 2.0
  {
    n / (n - 1.0) * x
  }

  /** Leaving a row out of its own baseline stretches its advantage by n / (n - 1). */
  lemma LeaveOneOutStretches(prompts: seq<Prompt>, rewards: seq<real>, i: nat)
    requires Batch(prompts, rewards) && i < |prompts| && |Group(prompts, i)| >= 2
    ensures AdvantageAt(prompts, rewards, true, i)
            == Stretched(|Group(prompts, i)| as real, AdvantageAt(prompts, rewards, false, i))
  {
    var rows := Group(prompts, i);
    GroupLaws(prompts, i);
    PeersLaws(prompts, i, true);
    SumWithout(rewards, rows, i);
    StretchAlgebra(RealSumAt(rewards, rows), rewards[i], |rows| as real);
  }

  lemma StretchAlgebra(s: real, r: real, n: real)
    requires n >= 2.0
    ensures r - (s - r) / (n - 1.0) == Stretched(n, r - s / n)
  {
    var d := n - 1.0;
    var lhs := r - (s - r) / d;
    var q := s / n;
    assert q * n == s;
    assert (s - r) / d * d == s - r;
    assert lhs * d == r * d - (s - r) == n * r - s;
    var rhs := n / d * (r - q);
    assert n / d * d == n;
    assert rhs * d == (n / d * d) * (r - q) == n * r - n * q;
    CancelFactor(lhs, rhs, d);
  }

  lemma CancelFactor(x: real, y: real, d: real)
    requires d != 0.0 && x * d == y * d
    ensures x == y
  {
    assert (x - y) * d == 0.0;
  }

  /** A column of advantages over the whole batch. */
  function Advantages(prompts: seq<Prompt>, rewards: seq<real>, loo: bool): (a: seq<real>)
    requires Batch(prompts, rewards)
    ensures |a| == |rewards|
  {
    seq(|rewards|, i requires 0 <= i < |rewards| => AdvantageAt(prompts, rewards, loo, i))
  }

  function Centered(c: real, total: real, n: real, b: real): real {
    c * (total - n * b)
  }

  lemma {:induction false} SumShifted(values: seq<real>, shifted: seq<real>, rows: seq<nat>, c: real, b: real)
    requires |values| == |shifted| && InRange(rows, |values|)
    requires forall k :: 0 <= k < |rows| ==> shifted[rows[k]] == c * (values[rows[k]] - b)
    ensures RealSumAt(shifted, rows) == Centered(c, RealSumAt(values, rows), |rows| as real, b)
  {
    if rows != [] {
      SumShifted(values, shifted, rows[1..], c, b);
    }
  }

  /** Under either baseline the advantages of a prompt group cancel. */
  lemma AdvantagesSumToZero(prompts: seq<Prompt>, rewards: seq<real>, loo: bool, i: nat)
    requires Batch(prompts, rewards) && i < |prompts|
    ensures InRange(Group(prompts, i), |rewards|)
    ensures RealSumAt(Advantages(prompts, rewards, loo), Group(prompts, i)) == 0.0
  {
    var rows := Group(prompts, i);
    GroupLaws(prompts, i);
    var n := |rows| as real;
    var adv := Advantages(prompts, rewards, loo);
    var mean := Mean(rewards, rows);
    var c := if loo && |rows| >= 2 then n / (n - 1.0) else 1.0;
    forall k | 0 <= k < |rows| ensures adv[rows[k]] == c * (rewards[rows[k]] - mean) {
      SameGroup(prompts, i, k);
      if |rows| == 1 {
        assert rows == [rows[k]];
        assert RealSumAt(rewards, [rows[k]]) == rewards[rows[k]];
      } else if loo {
        LeaveOneOutStretches(prompts, rewards, rows[k]);
      }
    }
    SumShifted(rewards, adv, rows, c, mean);
    CenteredTotal(c, RealSumAt(rewards, rows), n);
  }

  lemma CenteredTotal(c: real, total: real, n: real)
    requires n > 0.0
    ensures Centered(c, total, n, total / n) == 0.0
  {
    assert n * (total / n) == total;
  }

  lemma SameGroup(prompts: seq<Prompt>, i: nat, k: nat)
    requires i < |prompts| && k < |Group(prompts, i)|
    ensures Group(prompts, i)[k] < |prompts|
    ensures Group(prompts, Group(prompts, i)[k]) == Group(prompts, i)
  {
    GroupLaws(prompts, i);
    assert Group(prompts, i)[k] in Group(prompts, i);
  }

  /** Inside a group the advantage ranks rows as the reward does. */
  lemma AdvantageFollowsReward(prompts: seq<Prompt>, rewards: seq<real>, loo: bool, i: nat, j: nat)
    requires Batch(prompts, rewards) && i < |prompts| && j < |prompts|
    requires prompts[i] == prompts[j] && rewards[i] > rewards[j]
    ensures AdvantageAt(prompts, rewards, loo, i) > AdvantageAt(prompts, rewards, loo, j)
  {
    var rows := Group(prompts, i);
    GroupLaws(prompts, i);
    assert i in rows && j in rows;
    if loo {
      LeaveOneOutStretches(prompts, rewards, i);
      LeaveOneOutStretches(prompts, rewards, j);
      StretchOrder(|rows| as real, AdvantageAt(prompts, rewards, false, i), AdvantageAt(prompts, rewards, false, j));
    }
  }

  lemma StretchOrder(n: real, x: real, y: real)
    requires n >= 2.0 && x > y
    ensures Stretched(n, x) > Stretched(n, y)
  {
    var c := n / (n - 1.0);
    assert c > 0.0;
    assert c * (x - y) > 0.0;
  }

  // ----- variance -----

  function Square(x: real): real {
    x * x
  }

  /** Sum of squared deviations from `m`. */
  function Deviation(values: seq<real>, rows: seq<nat>, m: real): real
    requires InRange(rows, |values|)
  {
    if rows == [] then 0.0
    else Square(values[rows[0]] - m) + Deviation(values, rows[1..], m)
  }

  function Expanded(sum: real, squares: real, n: real, m: real): real {
    squares - 2.0 * m * sum + n * (m * m)
  }

  lemma {:induction false} DeviationExpands(values: seq<real>, rows: seq<nat>, m: real)
    requires InRange(rows, |values|)
    ensures Deviation(values, rows, m)
            == Expanded(RealSumAt(values, rows), RealSumAt(Squares(values), rows), |rows| as real, m)
  {
    if rows != [] {
      var rest, x := rows[1..], values[rows[0]];
      DeviationExpands(values, rest, m);
      var s, q, n := RealSumAt(values, rest), RealSumAt(Squares(values), rest), |rest| as real;
      assert RealSumAt(values, rows) == x + s && RealSumAt(Squares(values), rows) == x * x + q;
      assert |rows| as real == n + 1.0;
      ExpandStep(s, q, n, m, x);
    }
  }

  lemma ExpandStep(s: real, q: real, n: real, m: real, x: real)
    ensures Expanded(x + s, x * x + q, n + 1.0, m) == Square(x - m) + Expanded(s, q, n, m)
  {
    assert (x - m) * (x - m) == x * x - 2.0 * m * x + m * m;
    assert 2.0 * m * (x + s) == 2.0 * m * x + 2.0 * m * s;
    assert (n + 1.0) * (m * m) == n * (m * m) + m * m;
  }

  lemma {:induction false} DeviationZero(values: seq<real>, rows: seq<nat>, m: real)
    requires InRange(rows, |values|)
    ensures Deviation(values, rows, m) >= 0.0
    ensures Deviation(values, rows, m) == 0.0 <==> forall k :: 0 <= k < |rows| ==> values[rows[k]] == m
  {
    if rows != [] {
      var rest := rows[1..];
      DeviationZero(values, rest, m);
      SquareZero(values[rows[0]] - m);
      if values[rows[0]] == m {
        assert forall k :: 1 <= k < |rows| ==> rows[k] == rest[k - 1];
        assert forall k :: 0 <= k < |rest| ==> rest[k] == rows[k + 1];
        assert Deviation(values, rows, m) == Deviation(values, rest, m);
      } else {
        assert Deviation(values, rows, m) > 0.0;
      }
    }
  }

  lemma {:induction false} SquareZero(d: real)
    ensures d == 0.0 ==> Square(d) == 0.0
    ensures d != 0.0 ==> Square(d) > 0.0
    decreases d < 0.0
  {
    if d < 0.0 {
      SquareZero(0.0 - d);
      assert d * d == (0.0 - d) * (0.0 - d);
    } else {
      var e := d;
      ProductSign(d, e, Square(d));
    }
  }

  lemma ProductSign(x: real, y: real, product: real)
    requires product == x * y
    ensures x == 0.0 ==> product == 0.0
    ensures x > 0.0 && y > 0.0 ==> product > 0.0
  {
  }

  /** The computed variance is the mean squared deviation, so never negative, and
      zero exactly when the rewards are all equal. */
  lemma {:induction false} VarianceIsDeviation(values: seq<real>, rows: seq<nat>)
    requires |rows| >= 2 && InRange(rows, |values|)
    ensures Variance(values, rows) == Deviation(values, rows, Mean(values, rows)) / (|rows| as real - 1.0)
  {
    DeviationExpands(values, rows, Mean(values, rows));
    VarianceAlgebra(RealSumAt(values, rows), RealSumAt(Squares(values), rows), |rows| as real);
  }

  lemma VarianceAlgebra(s: real, q: real, n: real)
    requires n >= 2.0
    ensures VarianceFrom(s, q, n) == Expanded(s, q, n, s / n) / (n - 1.0)
  {
    var d, m := n - 1.0, s / n;
    assert m * n == s;
    assert 2.0 * m * s == 2.0 * n * (m * m);
    var x := q / n - m * m;
    assert x * n == q - n * (m * m);
    assert x * (n / d) == (x * n) / d;
  }

  function Deviations(values: seq<real>, m: real): (d: seq<real>)
    ensures |d| == |values|
  {
    seq(|values|, k requires 0 <= k < |values| => (values[k] - m) * (values[k] - m))
  }

  lemma {:induction false} DeviationAsSum(values: seq<real>, rows: seq<nat>, m: real)
    requires InRange(rows, |values|)
    ensures Deviation(values, rows, m) == RealSumAt(Deviations(values, m), rows)
  {
    if rows != [] {
      DeviationAsSum(values, rows[1..], m);
    }
  }

  /** Row by row: the variance is the squared deviation of the peers from their mean
      over their number minus one, and zero with fewer than two peers. */
  lemma {:induction false} VarianceIsPeerDeviation(prompts: seq<Prompt>, values: seq<real>, loo: bool, i: nat)
    requires Batch(prompts, values) && i < |prompts|
    ensures var peers := PeersOf(prompts, i, loo);
            var count := CountWhere(peers, |prompts|);
            VarianceAt(prompts, values, loo, i) ==
            if count <= 1 then 0.0
            else SumWhere(Deviations(values, MeanWhere(values, peers)), peers, |values|) / (count as real - 1.0)
  {
    var rows, peers := Peers(prompts, i, loo), PeersOf(prompts, i, loo);
    PeersLaws(prompts, i, loo);
    PeersListed(prompts, i, loo);
    CountOfList(rows, peers, |prompts|);
    if |rows| >= 2 {
      VarianceIsDeviation(values, rows);
      MeanOfList(values, rows, peers);
      DeviationAsSum(values, rows, Mean(values, rows));
      SumOverList(Deviations(values, Mean(values, rows)), rows, peers, |values|);
    }
  }

  lemma VarianceZeroIffEqual(values: seq<real>, rows: seq<nat>)
    requires |rows| >= 2 && InRange(rows, |values|)
    ensures Variance(values, rows) >= 0.0
    ensures Variance(values, rows) == 0.0 <==>
              forall a, b :: 0 <= a < |rows| && 0 <= b < |rows| ==> values[rows[a]] == values[rows[b]]
  {
    var m := Mean(values, rows);
    VarianceIsDeviation(values, rows);
    DeviationZero(values, rows, m);
    QuotientSign(Deviation(values, rows, m), |rows| as real - 1.0);
    if forall a, b :: 0 <= a < |rows| && 0 <= b < |rows| ==> values[rows[a]] == values[rows[b]] {
      ConstantMean(values, rows);
    }
  }

  lemma QuotientSign(x: real, d: real)
    requires d > 0.0
    ensures x >= 0.0 ==> x / d >= 0.0
    ensures x / d == 0.0 <==> x == 0.0
  {
  }

  lemma ConstantMean(values: seq<real>, rows: seq<nat>)
    requires rows != [] && InRange(rows, |values|)
    requires forall a, b :: 0 <= a < |rows| && 0 <= b < |rows| ==> values[rows[a]] == values[rows[b]]
    ensures forall k :: 0 <= k < |rows| ==> values[rows[k]] == Mean(values, rows)
  {
    RealSumAtConstant(values, rows, values[rows[0]]);
    MeanOfConstant(values[rows[0]], |rows| as real);
  }

  lemma MeanOfConstant(v: real, n: real)
    requires n > 0.0
    ensures v * n / n == v
  {
  }

  // ----- the zero-std gate -----

  /** All rewards of the row's group are equal. */
  ghost predicate AllEqual(prompts: seq<Prompt>, values: seq<real>, i: nat)
    requires Batch(prompts, values) && i < |prompts|
  {
    forall r: nat, t: nat :: r < |prompts| && t < |prompts| && prompts[r] == prompts[i] && prompts[t] == prompts[i] ==>
      values[r] == values[t]
  }

  /** Under the plain baseline a row's variance is zero exactly when its whole group
      scored the same, which is exactly when every advantage of the group is zero:
      the zero-std gate drops precisely the groups that carry no gradient. */
  lemma PlainGateIsExact(prompts: seq<Prompt>, rewards: seq<real>, i: nat)
    requires Batch(prompts, rewards) && i < |prompts|
    ensures VarianceAt(prompts, rewards, false, i) == 0.0 <==> AllEqual(prompts, rewards, i)
    ensures VarianceAt(prompts, rewards, false, i) == 0.0 <==>
              forall r: nat :: r < |prompts| && prompts[r] == prompts[i] ==>
                AdvantageAt(prompts, rewards, false, r) == 0.0
  {
    var rows := Group(prompts, i);
    GroupLaws(prompts, i);
    GroupsByRows(prompts, rewards, i);
    if |rows| >= 2 {
      VarianceZeroIffEqual(rewards, rows);
    }
    EqualGroupHasNoAdvantage(prompts, rewards, i);
  }

  lemma PlainAdvantage(prompts: seq<Prompt>, rewards: seq<real>, i: nat, r: nat)
    requires Batch(prompts, rewards) && i < |prompts| && r < |prompts| && prompts[r] == prompts[i]
    ensures Group(prompts, i) != [] && InRange(Group(prompts, i), |rewards|)
    ensures AdvantageAt(prompts, rewards, false, r) ==
            if |Group(prompts, i)| == 1 then 0.0 else rewards[r] - Mean(rewards, Group(prompts, i))
  {
    GroupLaws(prompts, i);
    assert r in Group(prompts, i);
  }

  lemma EqualGroupHasNoAdvantage(prompts: seq<Prompt>, rewards: seq<real>, i: nat)
    requires Batch(prompts, rewards) && i < |prompts|
    ensures AllEqual(prompts, rewards, i) <==>
              forall r: nat :: r < |prompts| && prompts[r] == prompts[i] ==>
                AdvantageAt(prompts, rewards, false, r) == 0.0
  {
    var rows := Group(prompts, i);
    GroupLaws(prompts, i);
    GroupsByRows(prompts, rewards, i);
    assert i in rows;
    var m := Mean(rewards, rows);
    if AllEqual(prompts, rewards, i) {
      ConstantMean(rewards, rows);
    }
    forall r: nat | r < |prompts| && prompts[r] == prompts[i]
      ensures AdvantageAt(prompts, rewards, false, r) == if |rows| == 1 then 0.0 else rewards[r] - m
      ensures r in rows
    {
      PlainAdvantage(prompts, rewards, i, r);
    }
  }

  /** Equality over the group's rows and over its index list are the same. */
  lemma GroupsByRows(prompts: seq<Prompt>, values: seq<real>, i: nat)
    requires Batch(prompts, values) && i < |prompts|
    ensures InRange(Group(prompts, i), |values|)
    ensures AllEqual(prompts, values, i) <==>
              forall a, b :: 0 <= a < |Group(prompts, i)| && 0 <= b < |Group(prompts, i)| ==>
                values[Group(prompts, i)[a]] == values[Group(prompts, i)[b]]
  {
    var rows := Group(prompts, i);
    GroupLaws(prompts, i);
    assert forall a :: 0 <= a < |rows| ==> rows[a] in rows;
    if forall a, b :: 0 <= a < |rows| && 0 <= b < |rows| ==> values[rows[a]] == values[rows[b]] {
      forall r: nat, t: nat | r < |prompts| && t < |prompts| && prompts[r] == prompts[i] && prompts[t] == prompts[i]
        ensures values[r] == values[t]
      {
        assert r in rows && t in rows;
      }
    }
  }

  /** Every other row of the group scored the same. */
  ghost predicate PeersAgree(prompts: seq<Prompt>, values: seq<real>, i: nat)
    requires Batch(prompts, values) && i < |prompts|
  {
    forall r: nat, t: nat ::
      (r < |prompts| && r != i && prompts[r] == prompts[i] && t < |prompts| && t != i && prompts[t] == prompts[i]) ==>
        values[r] == values[t]
  }

  /** Leave-one-out judges each row by its peers: a row's variance is zero exactly
      when it has at most one peer or its peers all scored the same, whatever it
      scored itself. */
  lemma LeaveOneOutGate(prompts: seq<Prompt>, rewards: seq<real>, i: nat)
    requires Batch(prompts, rewards) && i < |prompts|
    ensures VarianceAt(prompts, rewards, true, i) == 0.0 <==>
              || |Group(prompts, i)| <= 2
              || PeersAgree(prompts, rewards, i)
  {
    var peers := Peers(prompts, i, true);
    PeersLaws(prompts, i, true);
    if |peers| >= 2 {
      VarianceZeroIffEqual(rewards, peers);
      assert forall a :: 0 <= a < |peers| ==> peers[a] in peers;
      if forall a, b :: 0 <= a < |peers| && 0 <= b < |peers| ==> rewards[peers[a]] == rewards[peers[b]] {
        forall r: nat, t: nat | r < |prompts| && r != i && prompts[r] == prompts[i] &&
                                t < |prompts| && t != i && prompts[t] == prompts[i]
          ensures rewards[r] == rewards[t]
        {
          assert r in peers && t in peers;
        }
      }
    }
  }

  /** So under leave-one-out the gate can drop a row whose advantage is not zero:
      the only success of a group of three. */
  lemma LeaveOneOutDropsSignal()
    ensures var prompts: seq<Prompt> := [[7], [7], [7]];
            && VarianceAt(prompts, [1.0, 0.0, 0.0], true, 0) == 0.0
            && AdvantageAt(prompts, [1.0, 0.0, 0.0], true, 0) == 1.0
  {
    var prompts: seq<Prompt> := [[7], [7], [7]];
    var rewards := [1.0, 0.0, 0.0];
    FailedPeers(prompts, rewards);
    GroupLaws(prompts, 0);
    assert 0 in Group(prompts, 0) && 1 in Group(prompts, 0);
    LeaveOneOutGate(prompts, rewards, 0);
  }

  lemma {:induction false} FailedPeers(prompts: seq<Prompt>, rewards: seq<real>)
    requires Batch(prompts, rewards) && prompts != [] && forall k :: 0 < k < |rewards| ==> rewards[k] == 0.0
    ensures InRange(Peers(prompts, 0, true), |rewards|)
    ensures forall k :: 0 <= k < |Peers(prompts, 0, true)| ==> rewards[Peers(prompts, 0, true)[k]] == 0.0
    ensures RealSumAt(rewards, Peers(prompts, 0, true)) == 0.0
  {
    PeersLaws(prompts, 0, true);
    var peers := Peers(prompts, 0, true);
    forall k | 0 <= k < |peers|
      ensures rewards[peers[k]] == 0.0
    {
      assert peers[k] in peers;
    }
    RealSumAtZero(rewards, peers);
  }

  // ----- the loop of the source -----

  ghost predicate UniqueRows(prompts: seq<Prompt>, uniq: seq<Prompt>) {
    && Distinct(uniq)
    && forall p :: p in uniq <==> p in prompts
  }

  /** One row of the masked matrix product: the group's sum, without the row itself
      under leave-one-out. */
  method MaskedRowSum(values: seq<real>, rows: seq<nat>, i: nat, loo: bool) returns (total: real)
    requires Distinct(rows) && InRange(rows, |values|) && i in rows
    ensures InRange(Without(rows, i), |values|)
    ensures total == RealSumAt(values, if loo then Without(rows, i) else rows)
  {
    total := 0.0;
    for k := 0 to |rows|
      invariant total == RealSumAt(values, rows[..k]) - (if loo && i in rows[..k] then values[i] else 0.0)
    {
      assert rows[..k + 1] == rows[..k] + [rows[k]];
      assert rows[k] !in rows[..k];
      RealSumAtConcat(values, rows[..k], [rows[k]]);
      assert RealSumAt(values, [rows[k]]) == values[rows[k]];
      var mask := if loo && rows[k] == i then 0.0 else 1.0;
      total := total + mask * values[rows[k]];
    }
    assert rows[..|rows|] == rows;
    SumWithout(values, rows, i);
  }

  /** Baseline and variance of one row, from the three masked sums. */
  method RowStatistics(prompts: seq<Prompt>, rewards: seq<real>, stdRewards: seq<real>, loo: bool, i: nat)
    returns (baseline: real, variance: real)
    requires Batch(prompts, rewards) && Batch(prompts, stdRewards) && i < |prompts|
    ensures baseline == BaselineAt(prompts, rewards, loo, i)
    ensures variance == VarianceAt(prompts, stdRewards, loo, i)
  {
    var promptIdx := RowsOf(prompts, prompts[i]);
    GroupLaws(prompts, i);
    PeersLaws(prompts, i, loo);
    if |promptIdx| <= 1 {
      return rewards[i], 0.0;
    }
    var numValid := (|promptIdx| - (if loo then 1 else 0)) as real;
    var total := MaskedRowSum(rewards, promptIdx, i, loo);
    baseline := total / numValid;
    var stdTotal := MaskedRowSum(stdRewards, promptIdx, i, loo);
    var sqTotal := MaskedRowSum(Squares(stdRewards), promptIdx, i, loo);
    if numValid == 1.0 {
      variance := 0.0;
    } else {
      variance := VarianceFrom(stdTotal, sqTotal, numValid);
    }
  }

  /** The assignments of one prompt's rows. */
  method FillGroup(prompts: seq<Prompt>, rewards: seq<real>, stdRewards: seq<real>, loo: bool, promptIdx: seq<nat>,
                   baseline0: seq<real>, variance0: seq<real>)
    returns (baseline: seq<real>, variance: seq<real>)
    requires Batch(prompts, rewards) && Batch(prompts, stdRewards) && InRange(promptIdx, |prompts|)
    requires |baseline0| == |variance0| == |prompts|
    ensures |baseline| == |variance| == |prompts|
    ensures forall i: nat :: i < |prompts| && i in promptIdx ==>
              && baseline[i] == BaselineAt(prompts, rewards, loo, i)
              && variance[i] == VarianceAt(prompts, stdRewards, loo, i)
    ensures forall i: nat :: i < |prompts| && i !in promptIdx ==>
              baseline[i] == baseline0[i] && variance[i] == variance0[i]
  {
    baseline, variance := baseline0, variance0;
    for k := 0 to |promptIdx|
      invariant |baseline| == |variance| == |prompts|
      invariant forall i: nat :: i < |prompts| && i in promptIdx[..k] ==>
        && baseline[i] == BaselineAt(prompts, rewards, loo, i)
        && variance[i] == VarianceAt(prompts, stdRewards, loo, i)
      invariant forall i: nat :: i < |prompts| && i !in promptIdx[..k] ==>
        baseline[i] == baseline0[i] && variance[i] == variance0[i]
    {
      var i := promptIdx[k];
      assert promptIdx[..k + 1] == promptIdx[..k] + [i];
      var b, v := RowStatistics(prompts, rewards, stdRewards, loo, i);
      baseline, variance := baseline[i := b], variance[i := v];
    }
    assert promptIdx[..|promptIdx|] == promptIdx;
  }

  /** `calculate_baseline_and_std_per_prompt`; `uniq` is the distinct prompts in
      whatever order they are listed. */
  method CalculateBaselineAndVariance(prompts: seq<Prompt>, uniq: seq<Prompt>, rewards: seq<real>, loo: bool,
                                      stdRewards0: Option<seq<real>>)
    returns (baseline: seq<real>, variance: seq<real>)
    requires Batch(prompts, rewards) && UniqueRows(prompts, uniq)
    requires stdRewards0.Some? ==> Batch(prompts, stdRewards0.value)
    ensures |baseline| == |variance| == |prompts|
    ensures forall i :: 0 <= i < |prompts| ==> baseline[i] == BaselineAt(prompts, rewards, loo, i)
    ensures forall i :: 0 <= i < |prompts| ==>
              variance[i] == VarianceAt(prompts, if stdRewards0.Some? then stdRewards0.value else rewards, loo, i)
  {
    var stdRewards := if stdRewards0.Some? then stdRewards0.value else rewards;
    baseline := seq(|rewards|, _ => 0.0);
    variance := seq(|rewards|, _ => 0.0);
    for u := 0 to |uniq|
      invariant |baseline| == |variance| == |prompts|
      invariant forall i: nat :: i < |prompts| && prompts[i] in uniq[..u] ==>
        && baseline[i] == BaselineAt(prompts, rewards, loo, i)
        && variance[i] == VarianceAt(prompts, stdRewards, loo, i)
    {
      var promptIdx := RowsOf(prompts, uniq[u]);
      RowsOfLaws(prompts, uniq[u]);
      assert uniq[..u + 1] == uniq[..u] + [uniq[u]];
      baseline, variance := FillGroup(prompts, rewards, stdRewards, loo, promptIdx, baseline, variance);
    }
    assert uniq[..|uniq|] == uniq;
    assert forall i: nat :: i < |prompts| ==> prompts[i] in uniq;
  }
}
