/** `_apportion`: hand out `remainder` rows in proportion to the group weights,
    never more than a group's headroom. */
module Apportionment {
  // A round is a function from the headroom and the rows left to the rows each
  // group receives; `Rounds` iterates any such function.  The laws of the
  // iteration are proved for an arbitrary round, those of the three kinds of
  // round separately.

  import opened Sums
  import opened Sorting
  import opened Totals

  // ----- iterating rounds -----

  function ActiveUpTo(h: seq<nat>, n: nat): seq<nat>
    requires n <= |h|
  {
    if n == 0 then []
    else if h[n - 1] > 0 then ActiveUpTo(h, n - 1) + [n - 1]
    else ActiveUpTo(h, n - 1)
  }

  /** Groups that can still take a row, ascending. */
  function Active(h: seq<nat>): seq<nat> {
    ActiveUpTo(h, |h|)
  }

  lemma {:induction false} ActiveUpToMembers(h: seq<nat>, n: nat)
    requires n <= |h|
    ensures forall i: nat :: i in ActiveUpTo(h, n) <==> i < n && h[i] > 0
    ensures Distinct(ActiveUpTo(h, n)) && InRange(ActiveUpTo(h, n), n)
    ensures forall a, b :: 0 <= a < b < |ActiveUpTo(h, n)| ==> ActiveUpTo(h, n)[a] < ActiveUpTo(h, n)[b]
  {
    if n > 0 {
      ActiveUpToMembers(h, n - 1);
    }
  }

  lemma ActiveMembers(h: seq<nat>)
    ensures forall i: nat :: i in Active(h) <==> i < |h| && h[i] > 0
    ensures Distinct(Active(h)) && InRange(Active(h), |h|)
    ensures forall a, b :: 0 <= a < b < |Active(h)| ==> Active(h)[a] < Active(h)[b]
  {
    ActiveUpToMembers(h, |h|);
  }

  /** A round that makes progress and stays within headroom and budget. */
  predicate Feasible(give: seq<nat>, h: seq<nat>, remainder: nat) {
    && |give| == |h|
    && (forall i :: 0 <= i < |h| ==> give[i] <= h[i])
    && 1 <= Sum(give) <= remainder
  }

  type Round = (seq<nat>, nat) -> seq<nat>

  function Less(h: seq<nat>, give: seq<nat>): (r: seq<nat>)
    requires |h| == |give|
    requires forall i :: 0 <= i < |h| ==> give[i] <= h[i]
    ensures |r| == |h|
  {
    seq(|h|, i requires 0 <= i < |h| => h[i] - give[i])
  }

  function Plus(a: seq<nat>, b: seq<nat>): (r: seq<nat>)
    requires |a| == |b|
    ensures |r| == |a|
  {
    seq(|a|, i requires 0 <= i < |a| => a[i] + b[i])
  }

  /** Rows each group receives from the remaining rounds. */
  function Rounds(round: Round, h: seq<nat>, remainder: nat): (extra: seq<nat>)
    ensures |extra| == |h|
    decreases remainder, 1
  {
    if remainder == 0 || Active(h) == [] then seq(|h|, _ => 0) else NextRound(round, h, remainder)
  }

  /** Rows each group receives from a round and all that follow it. */
  function NextRound(round: Round, h: seq<nat>, remainder: nat): (extra: seq<nat>)
    ensures |extra| == |h|
    decreases remainder, 0
  {
    var give := round(h, remainder);
    if !Feasible(give, h, remainder) then seq(|h|, _ => 0)
    else Plus(give, Rounds(round, Less(h, give), remainder - Sum(give)))
  }

  lemma RoundsUnfold(round: Round, h: seq<nat>, remainder: nat)
    requires remainder > 0 && Active(h) != [] && Feasible(round(h, remainder), h, remainder)
    ensures var give := round(h, remainder);
            Rounds(round, h, remainder) == Plus(give, Rounds(round, Less(h, give), remainder - Sum(give)))
  {
    assert Rounds(round, h, remainder) == NextRound(round, h, remainder);
  }

  /** `round` is feasible whenever there is a row to give and a group to take it. */
  ghost predicate Progresses(round: Round, n: nat) {
    forall h: seq<nat>, r: nat :: |h| == n && r > 0 && Active(h) != [] ==> Feasible(round(h, r), h, r)
  }

  /** Exactly min(remainder, total headroom) rows are spent, within every headroom. */
  lemma {:induction false} RoundsConserve(round: Round, h: seq<nat>, remainder: nat)
    requires Progresses(round, |h|)
    ensures forall i :: 0 <= i < |h| ==> Rounds(round, h, remainder)[i] <= h[i]
    ensures Sum(Rounds(round, h, remainder)) == Min(remainder, Sum(h))
    decreases remainder
  {
    SumNonNegative(h);
    if remainder == 0 {
      SumZero(Rounds(round, h, remainder));
    } else if Active(h) == [] {
      ActiveMembers(h);
      assert forall i: nat :: i < |h| ==> i !in Active(h);
      SumZero(Rounds(round, h, remainder));
      SumZero(h);
    } else {
      var give := round(h, remainder);
      assert Feasible(give, h, remainder);
      RoundsUnfold(round, h, remainder);
      var rest := Rounds(round, Less(h, give), remainder - Sum(give));
      RoundsConserve(round, Less(h, give), remainder - Sum(give));
      assert Plus(give, rest) == Add(give, rest);
      SumAdd(give, rest);
      assert Less(h, give) == Sub(h, give);
      SumSub(h, give);
    }
  }

  /** If no round favours j over an unfilled i, neither does their sum. */
  lemma {:induction false} RoundsFavour(round: Round, h: seq<nat>, remainder: nat, i: nat, j: nat)
    requires Progresses(round, |h|) && i < |h| && j < |h|
    requires forall h': seq<nat>, r: nat :: |h'| == |h| && Feasible(round(h', r), h', r) ==>
               round(h', r)[i] >= round(h', r)[j] || round(h', r)[i] == h'[i]
    ensures Rounds(round, h, remainder)[i] >= Rounds(round, h, remainder)[j]
            || Rounds(round, h, remainder)[i] == h[i]
    decreases remainder
  {
    if remainder > 0 && Active(h) != [] {
      var give := round(h, remainder);
      assert Feasible(give, h, remainder);
      RoundsUnfold(round, h, remainder);
      RoundsFavour(round, Less(h, give), remainder - Sum(give), i, j);
      RoundsConserve(round, Less(h, give), remainder - Sum(give));
    }
  }

  /** If every round serves j only once i is exhausted, so does their sum. */
  lemma {:induction false} RoundsStarve(round: Round, h: seq<nat>, remainder: nat, i: nat, j: nat)
    requires Progresses(round, |h|) && i < |h| && j < |h|
    requires forall h': seq<nat>, r: nat :: |h'| == |h| && Feasible(round(h', r), h', r) ==>
               round(h', r)[j] > 0 ==> h'[i] == 0
    ensures Rounds(round, h, remainder)[j] > 0 ==> Rounds(round, h, remainder)[i] == h[i]
    decreases remainder
  {
    if remainder > 0 && Active(h) != [] {
      var give := round(h, remainder);
      assert Feasible(give, h, remainder);
      RoundsUnfold(round, h, remainder);
      RoundsStarve(round, Less(h, give), remainder - Sum(give), i, j);
      RoundsConserve(round, Less(h, give), remainder - Sum(give));
    }
  }

  /** What the first round gives is never taken back. */
  lemma {:induction false} RoundsKeepFirst(round: Round, h: seq<nat>, remainder: nat, i: nat)
    requires Progresses(round, |h|) && remainder > 0 && Active(h) != [] && i < |h|
    ensures |round(h, remainder)| == |h|
    ensures Rounds(round, h, remainder)[i] >= round(h, remainder)[i]
  {
    assert Feasible(round(h, remainder), h, remainder);
    RoundsUnfold(round, h, remainder);
  }

  lemma {:induction false} RoundsAgree(round: Round, round': Round, h: seq<nat>, remainder: nat)
    requires forall h': seq<nat>, r: nat :: |h'| == |h| ==> round(h', r) == round'(h', r)
    ensures Rounds(round, h, remainder) == Rounds(round', h, remainder)
    decreases remainder
  {
    if remainder > 0 && Active(h) != [] {
      var give := round(h, remainder);
      assert give == round'(h, remainder);
      assert Rounds(round, h, remainder) == NextRound(round, h, remainder);
      assert Rounds(round', h, remainder) == NextRound(round', h, remainder);
      if Feasible(give, h, remainder) {
        RoundsAgree(round, round', Less(h, give), remainder - Sum(give));
      }
    }
  }

  // ----- the single-row rounds -----

  /** One row to each of the first `k` groups of `order`. */
  function OneEach(order: seq<nat>, k: nat, n: nat): (give: seq<nat>)
    requires k <= |order|
    ensures |give| == n
  {
    seq(n, i requires 0 <= i < n => if i in order[..k] then 1 else 0)
  }

  lemma {:induction false} OneEachTotal(order: seq<nat>, k: nat, n: nat)
    requires k <= |order| && InRange(order, n) && Distinct(order)
    ensures Sum(OneEach(order, k, n)) == k
  {
    var give := OneEach(order, k, n);
    if k == 0 {
      SumZero(give);
    } else {
      var prev := OneEach(order, k - 1, n);
      OneEachTotal(order, k - 1, n);
      var last := order[k - 1];
      assert order[..k] == order[..k - 1] + [last];
      assert last !in order[..k - 1];
      assert give == prev[last := 1];
      SumUpdate(prev, last, 1);
    }
  }

  function RoundRobin(h: seq<nat>, remainder: nat): seq<nat> {
    OneEach(Active(h), Min(remainder, |Active(h)|), |h|)
  }

  lemma RoundRobinFeasible(h: seq<nat>, remainder: nat)
    requires remainder > 0 && Active(h) != []
    ensures Feasible(RoundRobin(h, remainder), h, remainder)
  {
    ActiveMembers(h);
    OneEachTotal(Active(h), Min(remainder, |Active(h)|), |h|);
    assert forall i: nat :: i in Active(h)[..Min(remainder, |Active(h)|)] ==> i in Active(h);
  }

  /** The round robin serves earlier groups first. */
  lemma RoundRobinFavours(h: seq<nat>, remainder: nat, i: nat, j: nat)
    requires i < j < |h| && h[i] > 0
    ensures RoundRobin(h, remainder)[i] >= RoundRobin(h, remainder)[j]
  {
    ActiveMembers(h);
    var order, k := Active(h), Min(remainder, |Active(h)|);
    if j in order[..k] {
      var b :| 0 <= b < k && order[b] == j;
      assert i in order;
      var a :| 0 <= a < |order| && order[a] == i;
      assert a < b;
      assert order[..k][a] == i;
    }
  }

  /** Larger key first, ties to the smaller index. */
  predicate Ahead(keys: seq<real>, i: nat, j: nat)
    requires i < |keys| && j < |keys|
  {
    keys[i] > keys[j] || (keys[i] == keys[j] && i < j)
  }

  lemma AheadOneWay(keys: seq<real>, i: nat, j: nat)
    requires i < |keys| && j < |keys|
    ensures !(Ahead(keys, i, j) && Ahead(keys, j, i))
  {
  }

  function KeyOf(shares: seq<real>, i: nat): real {
    if i < |shares| then shares[i] else 0.0
  }

  /** The fallback's order: larger share first, ties to the smaller index. */
  function ByShare(shares: seq<real>): (nat, nat) -> bool {
    (a: nat, b: nat) =>
      KeyOf(shares, a) > KeyOf(shares, b) || (KeyOf(shares, a) == KeyOf(shares, b) && a <= b)
  }

  function FallbackOrder(shares: seq<real>, h: seq<nat>): seq<nat> {
    Sort(ByShare(shares), Active(h))
  }

  function Fallback(shares: seq<real>, h: seq<nat>, remainder: nat): seq<nat> {
    var order := FallbackOrder(shares, h);
    OneEach(order, Min(remainder, |order|), |h|)
  }

  lemma FallbackOrderLaws(shares: seq<real>, h: seq<nat>)
    requires |shares| == |h|
    ensures var order := FallbackOrder(shares, h);
            && InRange(order, |h|) && Distinct(order)
            && |order| == |Active(h)|
            && (forall i: nat :: i in order <==> i < |h| && h[i] > 0)
            && (forall a, b :: 0 <= a < b < |order| ==> Ahead(shares, order[a], order[b]))
  {
    var le := ByShare(shares);
    var order := FallbackOrder(shares, h);
    ActiveMembers(h);
    SortMembers(le, Active(h));
    SortDistinct(le, Active(h));
    assert TotalPreorder(le);
    SortOrdered(le, Active(h));
    assert forall i: nat :: i in order <==> i in Active(h);
    forall k | 0 <= k < |order| ensures order[k] < |h| {
      assert order[k] in order;
    }
    forall a, b | 0 <= a < b < |order| ensures Ahead(shares, order[a], order[b]) {
      assert le(order[a], order[b]);
    }
  }

  lemma FallbackFeasible(shares: seq<real>, h: seq<nat>, remainder: nat)
    requires |shares| == |h| && remainder > 0 && Active(h) != []
    ensures Feasible(Fallback(shares, h, remainder), h, remainder)
  {
    FallbackOrderLaws(shares, h);
    var order := FallbackOrder(shares, h);
    var k := Min(remainder, |order|);
    OneEachTotal(order, k, |h|);
    assert forall i: nat :: i in order[..k] ==> i in order;
  }

  lemma FallbackFavours(shares: seq<real>, h: seq<nat>, remainder: nat, i: nat, j: nat)
    requires |shares| == |h| && i < |h| && j < |h| && h[i] > 0 && Ahead(shares, i, j)
    ensures Fallback(shares, h, remainder)[i] >= Fallback(shares, h, remainder)[j]
  {
    FallbackOrderLaws(shares, h);
    var order := FallbackOrder(shares, h);
    var k := Min(remainder, |order|);
    if j in order[..k] {
      var b :| 0 <= b < k && order[b] == j;
      var a :| 0 <= a < |order| && order[a] == i;
      AheadOneWay(shares, i, j);
      assert a < b;
      assert order[..k][a] == i;
    }
  }

  lemma {:induction false} SumOverActive(s: seq<real>, h: seq<nat>, n: nat)
    requires |s| == |h| && n <= |h|
    requires forall i :: 0 <= i < |h| && h[i] == 0 ==> s[i] == 0.0
    ensures InRange(ActiveUpTo(h, n), |s|)
    ensures RealSumAt(s, ActiveUpTo(h, n)) == RealSum(s[..n])
  {
    if n > 0 {
      SumOverActive(s, h, n - 1);
      assert s[..n][..n - 1] == s[..n - 1];
      if h[n - 1] > 0 {
        RealSumAtConcat(s, ActiveUpTo(h, n - 1), [n - 1]);
        assert RealSumAt(s, [n - 1]) == s[n - 1];
      }
    }
  }

  /** Along a descending list of shares, none above one row, that adds up to
      `remainder`, the first `remainder` entries are all positive. */
  lemma {:induction false} FirstSharesPositive(shares: seq<real>, order: seq<nat>, remainder: nat, p: nat)
    requires InRange(order, |shares|) && p < |order| && p < remainder
    requires forall k :: 0 <= k < |order| ==> 0.0 <= shares[order[k]] <= 1.0
    requires forall a, b :: 0 <= a < b < |order| ==> shares[order[a]] >= shares[order[b]]
    requires RealSumAt(shares, order) == remainder as real
    ensures shares[order[p]] > 0.0
  {
    if shares[order[p]] == 0.0 {
      assert order == order[..p] + order[p..];
      RealSumAtConcat(shares, order[..p], order[p..]);
      RealSumAtBelow(shares, order[..p]);
      forall k | 0 <= k < |order[p..]| ensures shares[order[p..][k]] == 0.0 {
        assert order[p..][k] == order[p + k];
      }
      RealSumAtZero(shares, order[p..]);
    }
  }

  lemma FallbackDescends(shares: seq<real>, h: seq<nat>) returns (order: seq<nat>)
    requires |shares| == |h|
    ensures order == FallbackOrder(shares, h) && InRange(order, |h|)
    ensures forall a, b :: 0 <= a < b < |order| ==> shares[order[a]] >= shares[order[b]]
  {
    order := FallbackOrder(shares, h);
    FallbackOrderLaws(shares, h);
    forall a, b | 0 <= a < b < |order| ensures shares[order[a]] >= shares[order[b]] {
      assert Ahead(shares, order[a], order[b]);
    }
  }

  lemma {:induction false} FallbackSum(shares: seq<real>, h: seq<nat>)
    requires |shares| == |h| && forall i :: 0 <= i < |h| && h[i] == 0 ==> shares[i] == 0.0
    ensures InRange(FallbackOrder(shares, h), |h|)
    ensures RealSumAt(shares, FallbackOrder(shares, h)) == RealSum(shares)
  {
    SumOverActive(shares, h, |h|);
    assert shares[..|h|] == shares;
    RealSumAtSort(ByShare(shares), shares, Active(h));
  }

  /** With every share below one row, the groups that have a share outnumber the
      rows left, so the single-row fallback stops before a group with none. */
  lemma {:induction false} FallbackStarvesZero(shares: seq<real>, h: seq<nat>, remainder: nat, j: nat)
    requires |shares| == |h| && j < |h| && shares[j] == 0.0
    requires forall i :: 0 <= i < |h| ==> 0.0 <= shares[i] <= 1.0
    requires forall i :: 0 <= i < |h| && h[i] == 0 ==> shares[i] == 0.0
    requires RealSum(shares) == remainder as real
    ensures Fallback(shares, h, remainder)[j] == 0
  {
    var order := FallbackDescends(shares, h);
    var k := Min(remainder, |order|);
    FallbackSum(shares, h);
    if j in order[..k] {
      var p :| 0 <= p < k && order[p] == j;
      FirstSharesPositive(shares, order, remainder, p);
      assert false;
    }
  }

  // ----- the proportional round -----

  function WholeRows(shares: seq<real>, h: seq<nat>): (give: seq<nat>)
    requires |shares| == |h|
    requires forall i :: 0 <= i < |shares| ==> 0.0 <= shares[i]
    ensures |give| == |h|
  {
    seq(|h|, i requires 0 <= i < |h| => Min(shares[i].Floor, h[i]))
  }

  /** Whole rows of every share, or single rows when every share is below one. */
  function GiveShares(shares: seq<real>, h: seq<nat>, remainder: nat): seq<nat>
    requires |shares| == |h|
    requires forall i :: 0 <= i < |shares| ==> 0.0 <= shares[i]
  {
    var whole := WholeRows(shares, h);
    if Sum(whole) == 0 then Fallback(shares, h, remainder) else whole
  }

  ghost predicate ValidShares(shares: seq<real>, h: seq<nat>, remainder: nat) {
    && |shares| == |h|
    && (forall i :: 0 <= i < |shares| ==> 0.0 <= shares[i])
    && (forall i :: 0 <= i < |h| && h[i] == 0 ==> shares[i] == 0.0)
    && RealSum(shares) == remainder as real
  }

  lemma GiveSharesFeasible(shares: seq<real>, h: seq<nat>, remainder: nat)
    requires ValidShares(shares, h, remainder) && remainder > 0 && Active(h) != []
    ensures Feasible(GiveShares(shares, h, remainder), h, remainder)
  {
    var whole := WholeRows(shares, h);
    SumNonNegative(whole);
    if Sum(whole) == 0 {
      FallbackFeasible(shares, h, remainder);
    } else {
      FloorSumBelow(shares, whole);
    }
  }

  lemma GiveSharesFavours(shares: seq<real>, h: seq<nat>, remainder: nat, i: nat, j: nat)
    requires ValidShares(shares, h, remainder)
    requires i < |h| && j < |h| && h[i] > 0 && Ahead(shares, i, j)
    ensures |GiveShares(shares, h, remainder)| == |h|
    ensures GiveShares(shares, h, remainder)[i] >= GiveShares(shares, h, remainder)[j]
            || GiveShares(shares, h, remainder)[i] == h[i]
  {
    var whole := WholeRows(shares, h);
    if Sum(whole) == 0 {
      FallbackFavours(shares, h, remainder, i, j);
    }
  }

  lemma GiveSharesStarvesZero(shares: seq<real>, h: seq<nat>, remainder: nat, j: nat)
    requires ValidShares(shares, h, remainder) && j < |h| && shares[j] == 0.0
    ensures |GiveShares(shares, h, remainder)| == |h|
    ensures GiveShares(shares, h, remainder)[j] == 0
  {
    var whole := WholeRows(shares, h);
    if Sum(whole) == 0 {
      SumNonNegative(whole);
      forall i | 0 <= i < |h| ensures shares[i] <= 1.0 {
        assert whole[i] == 0;
      }
      FallbackStarvesZero(shares, h, remainder, j);
    }
  }

  lemma GiveSharesLower(shares: seq<real>, h: seq<nat>, remainder: nat, i: nat)
    requires ValidShares(shares, h, remainder) && i < |h| && |GiveShares(shares, h, remainder)| == |h|
    ensures GiveShares(shares, h, remainder)[i] >= Min(shares[i].Floor, h[i])
  {
    var whole := WholeRows(shares, h);
    SumNonNegative(whole);
    assert whole[i] == Min(shares[i].Floor, h[i]);
  }

  // ----- the rounds of `_apportion` -----

  predicate Weighted(w: seq<real>, h: seq<nat>) {
    && |w| == |h|
    && forall i :: 0 <= i < |w| ==> 0.0 <= w[i]
  }

  function MaskedWeights(w: seq<real>, h: seq<nat>): (m: seq<real>)
    requires |w| == |h|
    ensures |m| == |w|
  {
    seq(|w|, i requires 0 <= i < |w| => if h[i] > 0 then w[i] else 0.0)
  }

  /** The total weight of the active groups. */
  function ActiveWeight(w: seq<real>, h: seq<nat>): real
    requires |w| == |h|
  {
    RealSum(MaskedWeights(w, h))
  }

  /** The exact proportional share of every group; zero for an exhausted one. */
  function Shares(w: seq<real>, h: seq<nat>, remainder: nat): (s: seq<real>)
    requires |w| == |h| && ActiveWeight(w, h) > 0.0
    ensures |s| == |w|
  {
    var total := ActiveWeight(w, h);
    seq(|w|, i requires 0 <= i < |w| => if h[i] > 0 then remainder as real * w[i] / total else 0.0)
  }

  function RoundGive(w: seq<real>, h: seq<nat>, remainder: nat): seq<nat>
    requires Weighted(w, h)
  {
    if ActiveWeight(w, h) <= 0.0 then RoundRobin(h, remainder)
    else
      SharesValid(w, h, remainder);
      GiveShares(Shares(w, h, remainder), h, remainder)
  }

  function RoundOf(w: seq<real>): Round {
    (h: seq<nat>, r: nat) => if Weighted(w, h) then RoundGive(w, h, r) else []
  }

  /** Rows each group receives on top of its floor. */
  function ExtraRows(w: seq<real>, h: seq<nat>, remainder: nat): (extra: seq<nat>)
    requires Weighted(w, h)
    ensures |extra| == |h|
  {
    Rounds(RoundOf(w), h, remainder)
  }

  lemma ShareFactor(r: real, x: real, total: real)
    requires total > 0.0
    ensures r * x / total == (r / total) * x
    ensures x == total ==> (r / total) * x == r
    ensures 0.0 <= r && 0.0 <= x ==> 0.0 <= (r / total) * x
  {
  }

  /** Each share is the masked weight times one common factor. */
  lemma ShareAt(w: seq<real>, h: seq<nat>, remainder: nat, i: nat, factor: real)
    requires Weighted(w, h) && i < |w| && ActiveWeight(w, h) > 0.0
    requires factor == remainder as real / ActiveWeight(w, h)
    ensures Shares(w, h, remainder)[i] == factor * MaskedWeights(w, h)[i]
    ensures 0.0 <= factor * MaskedWeights(w, h)[i]
  {
    ShareFactor(remainder as real, MaskedWeights(w, h)[i], ActiveWeight(w, h));
  }

  /** The shares are non-negative and add up to exactly the rows being shared out. */
  lemma SharesValid(w: seq<real>, h: seq<nat>, remainder: nat)
    requires Weighted(w, h) && ActiveWeight(w, h) > 0.0
    ensures ValidShares(Shares(w, h, remainder), h, remainder)
  {
    var total, masked := ActiveWeight(w, h), MaskedWeights(w, h);
    var factor := remainder as real / total;
    var shares := Shares(w, h, remainder);
    forall i: nat | i < |w|
      ensures shares[i] == Scale(factor, masked)[i] && 0.0 <= shares[i]
    {
      ShareAt(w, h, remainder, i, factor);
    }
    assert shares == Scale(factor, masked);
    RealSumScale(factor, masked);
    ShareFactor(remainder as real, total, total);
  }

  lemma ShareOrder(w: seq<real>, h: seq<nat>, remainder: nat, i: nat, j: nat)
    requires Weighted(w, h) && ActiveWeight(w, h) > 0.0 && remainder > 0
    requires i < |w| && j < |w| && h[i] > 0 && h[j] > 0 && Ahead(w, i, j)
    ensures Ahead(Shares(w, h, remainder), i, j)
  {
    var r := remainder as real;
    if w[i] > w[j] {
      assert r * w[i] > r * w[j];
      DivOrder(r * w[i], r * w[j], ActiveWeight(w, h));
    }
  }

  lemma DivOrder(a: real, b: real, t: real)
    requires t > 0.0 && a > b
    ensures a / t > b / t
  {
  }

  lemma RoundOfProgresses(w: seq<real>)
    requires forall i :: 0 <= i < |w| ==> 0.0 <= w[i]
    ensures Progresses(RoundOf(w), |w|)
  {
    forall h: seq<nat>, r: nat | |h| == |w| && r > 0 && Active(h) != []
      ensures Feasible(RoundOf(w)(h, r), h, r)
    {
      assert Weighted(w, h);
      if ActiveWeight(w, h) <= 0.0 {
        RoundRobinFeasible(h, r);
      } else {
        SharesValid(w, h, r);
        GiveSharesFeasible(Shares(w, h, r), h, r);
      }
    }
  }

  lemma ActiveWeightPositive(w: seq<real>, h: seq<nat>, i: nat)
    requires Weighted(w, h) && i < |h| && h[i] > 0 && w[i] > 0.0
    ensures ActiveWeight(w, h) > 0.0
  {
    RealSumNonNegative(MaskedWeights(w, h));
    assert MaskedWeights(w, h)[i] == w[i];
  }

  /** One round: of two groups the heavier, or of two as heavy the earlier, gets at
      least as many rows as the other, or fills up. */
  lemma RoundFavours(w: seq<real>, h: seq<nat>, r: nat, i: nat, j: nat)
    requires Weighted(w, h) && i < |w| && j < |w| && Ahead(w, i, j) && r > 0
    requires Feasible(RoundGive(w, h, r), h, r)
    ensures RoundGive(w, h, r)[i] >= RoundGive(w, h, r)[j] || RoundGive(w, h, r)[i] == h[i]
  {
    if h[i] > 0 && h[j] > 0 {
      if ActiveWeight(w, h) <= 0.0 {
        if w[i] > 0.0 {
          ActiveWeightPositive(w, h, i);
        }
        RoundRobinFavours(h, r, i, j);
      } else {
        SharesValid(w, h, r);
        ShareOrder(w, h, r, i, j);
        GiveSharesFavours(Shares(w, h, r), h, r, i, j);
      }
    }
  }

  lemma WeightlessShare(w: seq<real>, h: seq<nat>, remainder: nat, j: nat)
    requires Weighted(w, h) && ActiveWeight(w, h) > 0.0 && j < |w| && w[j] == 0.0
    ensures Shares(w, h, remainder)[j] == 0.0
  {
    ShareAt(w, h, remainder, j, remainder as real / ActiveWeight(w, h));
    assert MaskedWeights(w, h)[j] == 0.0;
  }

  lemma WeightlessGetsNothing(w: seq<real>, h: seq<nat>, remainder: nat, j: nat, give: seq<nat>)
    requires Weighted(w, h) && ActiveWeight(w, h) > 0.0 && j < |w| && w[j] == 0.0
    requires give == RoundGive(w, h, remainder)
    ensures |give| == |h| && give[j] == 0
  {
    var shares := Shares(w, h, remainder);
    SharesValid(w, h, remainder);
    WeightlessShare(w, h, remainder, j);
    GiveSharesStarvesZero(shares, h, remainder, j);
    assert give == GiveShares(shares, h, remainder);
  }

  /** One round: a weightless group is served only once every weighted group is exhausted. */
  lemma RoundStarves(w: seq<real>, h: seq<nat>, r: nat, i: nat, j: nat)
    requires Weighted(w, h) && i < |w| && j < |w| && w[j] == 0.0 && w[i] > 0.0
    requires |RoundGive(w, h, r)| == |h| && RoundGive(w, h, r)[j] > 0
    ensures h[i] == 0
  {
    if h[i] > 0 {
      ActiveWeightPositive(w, h, i);
      WeightlessGetsNothing(w, h, r, j, RoundGive(w, h, r));
    }
  }

  lemma RoundLowerQuota(w: seq<real>, h: seq<nat>, r: nat, i: nat)
    requires Weighted(w, h) && ActiveWeight(w, h) > 0.0 && i < |h| && h[i] > 0
    requires |RoundGive(w, h, r)| == |h|
    ensures RoundGive(w, h, r)[i] >= Min(Shares(w, h, r)[i].Floor, h[i])
  {
    SharesValid(w, h, r);
    GiveSharesLower(Shares(w, h, r), h, r, i);
  }

  lemma ActiveWeightScale(w: seq<real>, h: seq<nat>, c: real)
    requires Weighted(w, h)
    ensures ActiveWeight(Scale(c, w), h) == c * ActiveWeight(w, h)
    ensures 0.0 <= ActiveWeight(w, h)
  {
    var masked := MaskedWeights(w, h);
    MaskedScale(w, h, c);
    RealSumScale(c, masked);
    RealSumNonNegative(masked);
  }

  lemma MaskedScale(w: seq<real>, h: seq<nat>, c: real)
    requires |w| == |h|
    ensures MaskedWeights(Scale(c, w), h) == Scale(c, MaskedWeights(w, h))
  {
    var scaled := Scale(c, w);
    forall i | 0 <= i < |w|
      ensures MaskedWeights(scaled, h)[i] == Scale(c, MaskedWeights(w, h))[i]
    {
      assert scaled[i] == c * w[i];
      assert h[i] == 0 ==> MaskedWeights(w, h)[i] == 0.0;
    }
  }

  lemma SharesScale(w: seq<real>, h: seq<nat>, remainder: nat, c: real)
    requires Weighted(w, h) && c > 0.0 && ActiveWeight(w, h) > 0.0 && ActiveWeight(Scale(c, w), h) > 0.0
    ensures Shares(Scale(c, w), h, remainder) == Shares(w, h, remainder)
  {
    ActiveWeightScale(w, h, c);
    forall i | 0 <= i < |w| && h[i] > 0
      ensures Shares(Scale(c, w), h, remainder)[i] == Shares(w, h, remainder)[i]
    {
      CancelScale(remainder as real, w[i], ActiveWeight(w, h), c);
    }
  }

  lemma ProductSigns(c: real, x: real)
    requires c > 0.0
    ensures c * x > 0.0 <==> x > 0.0
    ensures 0.0 <= x ==> 0.0 <= c * x
  {
  }

  lemma WeightedScale(w: seq<real>, h: seq<nat>, c: real)
    requires Weighted(w, h) && c > 0.0
    ensures Weighted(Scale(c, w), h)
  {
    forall i | 0 <= i < |w|
      ensures 0.0 <= Scale(c, w)[i]
    {
      ProductSigns(c, w[i]);
    }
  }

  lemma RoundScale(w: seq<real>, h: seq<nat>, remainder: nat, c: real)
    requires Weighted(w, h) && c > 0.0
    ensures Weighted(Scale(c, w), h)
    ensures RoundGive(Scale(c, w), h, remainder) == RoundGive(w, h, remainder)
  {
    WeightedScale(w, h, c);
    ActiveWeightScale(w, h, c);
    ProductSigns(c, ActiveWeight(w, h));
    if ActiveWeight(w, h) > 0.0 {
      SharesScale(w, h, remainder, c);
    }
  }

  lemma CancelScale(r: real, x: real, total: real, c: real)
    requires total > 0.0 && c > 0.0
    ensures c * total > 0.0
    ensures r * (c * x) / (c * total) == r * x / total
  {
    var q := r * x / total;
    assert q * total == r * x;
    assert q * (c * total) == c * (q * total);
    assert r * (c * x) == c * (r * x);
  }

  // ----- `_apportion` as a whole -----

  lemma {:induction false} ExtraConserves(w: seq<real>, h: seq<nat>, remainder: nat)
    requires Weighted(w, h)
    ensures forall i :: 0 <= i < |h| ==> ExtraRows(w, h, remainder)[i] <= h[i]
    ensures Sum(ExtraRows(w, h, remainder)) == Min(remainder, Sum(h))
  {
    RoundOfProgresses(w);
    RoundsConserve(RoundOf(w), h, remainder);
  }

  lemma ExtraRespectsGrading(w: seq<real>, h: seq<nat>, remainder: nat, i: nat, j: nat)
    requires Weighted(w, h) && i < |w| && j < |w|
    requires w[i] > w[j] || (w[i] == w[j] && i < j)
    ensures ExtraRows(w, h, remainder)[i] >= ExtraRows(w, h, remainder)[j]
            || ExtraRows(w, h, remainder)[i] == h[i]
  {
    RoundOfProgresses(w);
    var round := RoundOf(w);
    forall h': seq<nat>, r: nat | |h'| == |h| && Feasible(round(h', r), h', r)
      ensures round(h', r)[i] >= round(h', r)[j] || round(h', r)[i] == h'[i]
    {
      RoundFavours(w, h', r, i, j);
    }
    RoundsFavour(round, h, remainder, i, j);
  }

  lemma ExtraStarvesZero(w: seq<real>, h: seq<nat>, remainder: nat, i: nat, j: nat)
    requires Weighted(w, h) && i < |w| && j < |w|
    requires w[j] == 0.0 && w[i] > 0.0
    ensures ExtraRows(w, h, remainder)[j] > 0 ==> ExtraRows(w, h, remainder)[i] == h[i]
  {
    RoundOfProgresses(w);
    var round := RoundOf(w);
    forall h': seq<nat>, r: nat | |h'| == |h| && Feasible(round(h', r), h', r) && round(h', r)[j] > 0
      ensures h'[i] == 0
    {
      RoundStarves(w, h', r, i, j);
    }
    RoundsStarve(round, h, remainder, i, j);
  }

  lemma ExtraUnfold(w: seq<real>, h: seq<nat>, remainder: nat)
    requires Weighted(w, h) && remainder > 0 && Active(h) != []
    requires Feasible(RoundGive(w, h, remainder), h, remainder)
    ensures var give := RoundGive(w, h, remainder);
            ExtraRows(w, h, remainder) == Plus(give, ExtraRows(w, Less(h, give), remainder - Sum(give)))
  {
    assert RoundOf(w)(h, remainder) == RoundGive(w, h, remainder);
    RoundsUnfold(RoundOf(w), h, remainder);
  }

  /** The groups with room. */
  function HasRoom(h: seq<nat>): Condition {
    (i: nat) => i < |h| && h[i] > 0
  }

  lemma {:induction false} ActiveWeightIs(w: seq<real>, h: seq<nat>, n: nat)
    requires |w| == |h| && n <= |w|
    ensures RealSum(MaskedWeights(w, h)[..n]) == SumWhere(w, HasRoom(h), n)
  {
    if n > 0 {
      ActiveWeightIs(w, h, n - 1);
      assert MaskedWeights(w, h)[..n][..n - 1] == MaskedWeights(w, h)[..n - 1];
    }
  }

  lemma ExtraMeetsShare(w: seq<real>, h: seq<nat>, remainder: nat, i: nat)
    requires Weighted(w, h) && i < |h| && h[i] > 0 && remainder > 0 && ActiveWeight(w, h) > 0.0
    ensures ExtraRows(w, h, remainder)[i] >= Min(Shares(w, h, remainder)[i].Floor, h[i])
  {
    ActiveMembers(h);
    assert i in Active(h);
    RoundOfProgresses(w);
    RoundLowerQuota(w, h, remainder, i);
    RoundsKeepFirst(RoundOf(w), h, remainder, i);
  }

  /** `rows` shared in proportion to the weights, a weight of a total is due this many. */
  ghost predicate Due(rows: nat, weight: real, total: real, share: int) {
    share as real * total <= rows as real * weight
  }

  lemma QuotientAbove(x: real, y: real, t: real)
    requires t > 0.0 && x * t <= y
    ensures x <= y / t
  {
    assert y / t - x == (y - x * t) / t;
  }

  /** Proportionality: every group receives at least what it is due of the rows among
      the groups with room, or fills up. */
  lemma {:induction false} ExtraMeetsLowerQuota(w: seq<real>, h: seq<nat>, remainder: nat, i: nat, total: real, share: int)
    requires Weighted(w, h) && i < |h| && total == SumWhere(w, HasRoom(h), |w|) > 0.0
    requires Due(remainder, w[i], total, share)
    ensures ExtraRows(w, h, remainder)[i] >= Min(share, h[i])
  {
    ActiveWeightIs(w, h, |w|);
    assert MaskedWeights(w, h)[..|w|] == MaskedWeights(w, h);
    if h[i] > 0 && remainder > 0 {
      ShareIsDue(w, h, remainder, i, share);
      ExtraMeetsShare(w, h, remainder, i);
    } else if h[i] > 0 {
      NothingDue(w[i], total, share);
    }
  }

  lemma ShareIsDue(w: seq<real>, h: seq<nat>, remainder: nat, i: nat, share: int)
    requires |w| == |h| && i < |w| && h[i] > 0 && ActiveWeight(w, h) > 0.0
    requires Due(remainder, w[i], ActiveWeight(w, h), share)
    ensures share <= Shares(w, h, remainder)[i].Floor
  {
    var total := ActiveWeight(w, h);
    ShareIs(w, h, remainder, i, total);
    QuotientAbove(share as real, remainder as real * w[i], total);
    WholePart(share, Shares(w, h, remainder)[i]);
  }

  lemma ShareIs(w: seq<real>, h: seq<nat>, remainder: nat, i: nat, total: real)
    requires |w| == |h| && total == ActiveWeight(w, h) > 0.0 && i < |w| && h[i] > 0
    ensures Shares(w, h, remainder)[i] == remainder as real * w[i] / total
  {
  }

  lemma WholePart(share: int, exact: real)
    requires share as real <= exact
    ensures share <= exact.Floor
  {
  }

  lemma NothingDue(weight: real, total: real, share: int)
    requires total > 0.0 && Due(0, weight, total, share)
    ensures share <= 0
  {
    QuotientAbove(share as real, 0.0 * weight, total);
  }

  /** With every share below one whole row, the rows left go out one by one. */
  lemma FallbackSpendsAll(shares: seq<real>, h: seq<nat>, remainder: nat)
    requires ValidShares(shares, h, remainder) && forall i :: 0 <= i < |h| ==> shares[i] < 1.0
    ensures remainder <= |FallbackOrder(shares, h)|
    ensures Sum(WholeRows(shares, h)) == 0
    ensures Sum(Fallback(shares, h, remainder)) == remainder
  {
    FallbackOrderLaws(shares, h);
    var order := FallbackOrder(shares, h);
    FallbackSum(shares, h);
    RealSumAtBelow(shares, order);
    OneEachTotal(order, remainder, |h|);
    SumZero(WholeRows(shares, h));
  }

  /** Then no group receives two. */
  lemma {:induction false} SmallSharesGiveSingles(w: seq<real>, h: seq<nat>, remainder: nat, total: real, i: nat)
    requires Weighted(w, h) && i < |h| && total == SumWhere(w, HasRoom(h), |w|) > 0.0
    requires forall k: nat :: k < |h| && h[k] > 0 ==> remainder as real * w[k] / total < 1.0
    ensures ExtraRows(w, h, remainder)[i] <= 1
  {
    ActiveWeightIs(w, h, |w|);
    assert MaskedWeights(w, h)[..|w|] == MaskedWeights(w, h);
    if remainder > 0 && Active(h) != [] {
      var shares := Shares(w, h, remainder);
      SharesValid(w, h, remainder);
      forall k: nat | k < |h| ensures shares[k] < 1.0 {
        if h[k] > 0 {
          ShareIs(w, h, remainder, k, total);
        }
      }
      FallbackSpendsAll(shares, h, remainder);
      GiveSharesFeasible(shares, h, remainder);
      ExtraUnfold(w, h, remainder);
    }
  }

  /** With weightless groups only, nobody who still has room is two rows behind. */
  lemma {:induction false} ZeroWeightsShareEvenly(w: seq<real>, h: seq<nat>, remainder: nat, i: nat, j: nat)
    requires |w| == |h| && i < |h| && j < |h| && forall k :: 0 <= k < |w| ==> w[k] == 0.0
    ensures ExtraRows(w, h, remainder)[j] + 1 >= ExtraRows(w, h, remainder)[i]
            || ExtraRows(w, h, remainder)[j] == h[j]
    decreases remainder
  {
    if remainder > 0 && Active(h) != [] {
      RealSumZero(MaskedWeights(w, h));
      var give := RoundRobin(h, remainder);
      RoundRobinFeasible(h, remainder);
      ExtraUnfold(w, h, remainder);
      ActiveMembers(h);
      var rest := Less(h, give);
      if remainder >= |Active(h)| {
        assert Active(h)[..|Active(h)|] == Active(h);
        ZeroWeightsShareEvenly(w, rest, remainder - Sum(give), i, j);
        ExtraConserves(w, rest, remainder - Sum(give));
      } else {
        OneEachTotal(Active(h), remainder, |h|);
      }
    }
  }

  /** Only the ratios of the weights matter. */
  lemma ExtraScale(w: seq<real>, h: seq<nat>, remainder: nat, c: real)
    requires Weighted(w, h) && c > 0.0
    ensures Weighted(Scale(c, w), h)
    ensures ExtraRows(Scale(c, w), h, remainder) == ExtraRows(w, h, remainder)
  {
    forall h': seq<nat>, r: nat | |h'| == |h|
      ensures RoundOf(Scale(c, w))(h', r) == RoundOf(w)(h', r)
    {
      RoundScale(w, h', r, c);
    }
    RoundsAgree(RoundOf(Scale(c, w)), RoundOf(w), h, remainder);
  }

  // ----- the loops of the source -----

  lemma {:induction false} SumAtActive(s: seq<nat>, h: seq<nat>, n: nat)
    requires |s| == |h| && n <= |h|
    requires forall i :: 0 <= i < |h| && h[i] == 0 ==> s[i] == 0
    ensures InRange(ActiveUpTo(h, n), |s|)
    ensures SumAt(s, ActiveUpTo(h, n)) == Sum(s[..n])
  {
    if n > 0 {
      SumAtActive(s, h, n - 1);
      assert s[..n][..n - 1] == s[..n - 1];
      if h[n - 1] > 0 {
        SumAtConcat(s, ActiveUpTo(h, n - 1), [n - 1]);
        assert SumAt(s, [n - 1]) == s[n - 1];
      }
    }
  }

  lemma {:induction false} RealSumAtAgree(s: seq<real>, t: seq<real>, idxs: seq<nat>)
    requires |s| == |t| && InRange(idxs, |s|)
    requires forall k :: 0 <= k < |idxs| ==> s[idxs[k]] == t[idxs[k]]
    ensures RealSumAt(s, idxs) == RealSumAt(t, idxs)
  {
    if idxs != [] {
      RealSumAtAgree(s, t, idxs[1..]);
    }
  }

  lemma {:induction false} ActiveTotal(w: seq<real>, h: seq<nat>)
    requires Weighted(w, h)
    ensures InRange(Active(h), |w|)
    ensures RealSumAt(w, Active(h)) == ActiveWeight(w, h)
  {
    var masked := MaskedWeights(w, h);
    ActiveMembers(h);
    forall k | 0 <= k < |Active(h)| ensures w[Active(h)[k]] == masked[Active(h)[k]] {
      assert Active(h)[k] in Active(h);
    }
    RealSumAtAgree(w, masked, Active(h));
    SumOverActive(masked, h, |h|);
    assert masked[..|h|] == masked;
  }

  /** The round-robin and fallback loops: one row to each group of `order` until
      the rows run out.  Every group listed still has headroom. */
  method HandOutSingles(order: seq<nat>, quotas0: seq<nat>, headroom0: seq<nat>, remainder0: nat)
    returns (quotas: seq<nat>, headroom: seq<nat>, remainder: nat)
    requires |quotas0| == |headroom0|
    requires InRange(order, |headroom0|) && Distinct(order)
    requires forall k :: 0 <= k < |order| ==> headroom0[order[k]] > 0
    ensures var give := OneEach(order, Min(remainder0, |order|), |headroom0|);
            && (forall i :: 0 <= i < |headroom0| ==> give[i] <= headroom0[i])
            && quotas == Plus(quotas0, give) && headroom == Less(headroom0, give)
            && remainder == remainder0 - Min(remainder0, |order|)
  {
    quotas, headroom, remainder := quotas0, headroom0, remainder0;
    var n := |headroom0|;
    var k := 0;
    while k < |order| && remainder != 0
      invariant 0 <= k <= |order| && k <= remainder0 && remainder == remainder0 - k
      invariant |quotas| == n && |headroom| == n
      invariant forall i: nat :: i < n ==>
        && quotas[i] == quotas0[i] + OneEach(order, k, n)[i]
        && headroom[i] == headroom0[i] - OneEach(order, k, n)[i]
    {
      var i := order[k];
      assert order[..k + 1] == order[..k] + [i];
      assert i !in order[..k];
      quotas := quotas[i := quotas[i] + 1];
      headroom := headroom[i := headroom[i] - 1];
      remainder := remainder - 1;
      k := k + 1;
    }
    assert quotas == Plus(quotas0, OneEach(order, k, n));
  }

  lemma {:induction false} SumAtSnoc(s: seq<int>, idxs: seq<nat>, k: nat)
    requires k < |idxs| && InRange(idxs, |s|)
    ensures SumAt(s, idxs[..k + 1]) == SumAt(s, idxs[..k]) + s[idxs[k]]
  {
    assert idxs[..k + 1] == idxs[..k] + [idxs[k]];
    SumAtConcat(s, idxs[..k], [idxs[k]]);
    assert SumAt(s, [idxs[k]]) == s[idxs[k]];
  }

  lemma WholeOverActive(shares: seq<real>, h: seq<nat>)
    requires |shares| == |h|
    requires forall i :: 0 <= i < |shares| ==> 0.0 <= shares[i]
    ensures InRange(Active(h), |h|)
    ensures SumAt(WholeRows(shares, h), Active(h)) == Sum(WholeRows(shares, h))
    ensures forall i :: 0 <= i < |h| ==> WholeRows(shares, h)[i] <= h[i]
    ensures forall i: nat :: i < |h| && i !in Active(h) ==> WholeRows(shares, h)[i] == 0
  {
    var whole := WholeRows(shares, h);
    ActiveMembers(h);
    SumAtActive(whole, h, |h|);
    assert whole[..|h|] == whole;
  }

  /** The loop over the proportional shares. */
  method HandOutLoop(shares: seq<real>, active: seq<nat>, quotas0: seq<nat>, headroom0: seq<nat>)
    returns (quotas: seq<nat>, headroom: seq<nat>, given: nat)
    requires |quotas0| == |headroom0| == |shares| && InRange(active, |shares|) && Distinct(active)
    requires forall i :: 0 <= i < |shares| ==> 0.0 <= shares[i]
    ensures |quotas| == |headroom| == |shares|
    ensures var whole := WholeRows(shares, headroom0);
            && (forall i: nat :: i < |shares| && i in active ==>
                  quotas[i] == quotas0[i] + whole[i] && headroom[i] == headroom0[i] - whole[i])
            && (forall i: nat :: i < |shares| && i !in active ==>
                  quotas[i] == quotas0[i] && headroom[i] == headroom0[i])
            && given == SumAt(whole, active)
  {
    quotas, headroom, given := quotas0, headroom0, 0;
    var n := |headroom0|;
    ghost var whole := WholeRows(shares, headroom0);
    for k := 0 to |active|
      invariant |quotas| == n && |headroom| == n
      invariant forall i: nat :: i < n && i in active[..k] ==>
        quotas[i] == quotas0[i] + whole[i] && headroom[i] == headroom0[i] - whole[i]
      invariant forall i: nat :: i < n && i !in active[..k] ==>
        quotas[i] == quotas0[i] && headroom[i] == headroom0[i]
      invariant given == SumAt(whole, active[..k])
    {
      var i := active[k];
      assert active[..k + 1] == active[..k] + [i];
      assert i !in active[..k];
      var take := Min(shares[i].Floor, headroom[i]);
      assert take == whole[i];
      quotas := quotas[i := quotas[i] + take];
      headroom := headroom[i := headroom[i] - take];
      SumAtSnoc(whole, active, k);
      given := given + take;
    }
    assert active[..|active|] == active;
  }

  method HandOutWhole(shares: seq<real>, active: seq<nat>, quotas0: seq<nat>, headroom0: seq<nat>)
    returns (quotas: seq<nat>, headroom: seq<nat>, given: nat)
    requires |quotas0| == |headroom0| == |shares| && active == Active(headroom0)
    requires forall i :: 0 <= i < |shares| ==> 0.0 <= shares[i]
    ensures var whole := WholeRows(shares, headroom0);
            && (forall i :: 0 <= i < |headroom0| ==> whole[i] <= headroom0[i])
            && quotas == Plus(quotas0, whole) && headroom == Less(headroom0, whole)
            && given == Sum(whole)
  {
    ActiveMembers(headroom0);
    WholeOverActive(shares, headroom0);
    quotas, headroom, given := HandOutLoop(shares, active, quotas0, headroom0);
    ghost var whole := WholeRows(shares, headroom0);
    forall i: nat | i < |shares|
      ensures quotas[i] == quotas0[i] + whole[i] && headroom[i] == headroom0[i] - whole[i]
    {
      if i !in active {
        assert whole[i] == 0;
      }
    }
    assert quotas == Plus(quotas0, whole);
    assert headroom == Less(headroom0, whole);
  }

  lemma {:induction false} NothingHandedOut(quotas: seq<nat>, headroom: seq<nat>, give: seq<nat>)
    requires |quotas| == |headroom| == |give| && Sum(give) == 0
    ensures forall i :: 0 <= i < |give| ==> give[i] <= headroom[i]
    ensures Plus(quotas, give) == quotas && Less(headroom, give) == headroom
  {
    SumNonNegative(give);
  }

  /** The fallback: single rows by descending share. */
  method HandOutByShare(shares: seq<real>, active: seq<nat>, quotas0: seq<nat>, headroom0: seq<nat>, remainder0: nat)
    returns (quotas: seq<nat>, headroom: seq<nat>, remainder: nat)
    requires |quotas0| == |headroom0| == |shares| && active == Active(headroom0)
    ensures var give := Fallback(shares, headroom0, remainder0);
            && (forall i :: 0 <= i < |headroom0| ==> give[i] <= headroom0[i])
            && quotas == Plus(quotas0, give) && headroom == Less(headroom0, give)
            && remainder == remainder0 - Sum(give)
  {
    FallbackOrderLaws(shares, headroom0);
    var order := Sort(ByShare(shares), active);
    forall k | 0 <= k < |order| ensures headroom0[order[k]] > 0 {
      assert order[k] in order;
    }
    quotas, headroom, remainder := HandOutSingles(order, quotas0, headroom0, remainder0);
    OneEachTotal(order, Min(remainder0, |order|), |headroom0|);
  }

  /** The weighted branch: whole rows first, single rows when no share reaches one. */
  method PlayShares(shares: seq<real>, active: seq<nat>, quotas0: seq<nat>, headroom0: seq<nat>, remainder0: nat)
    returns (quotas: seq<nat>, headroom: seq<nat>, remainder: nat)
    requires ValidShares(shares, headroom0, remainder0) && |quotas0| == |headroom0|
    requires remainder0 > 0 && active == Active(headroom0) && active != []
    ensures var give := GiveShares(shares, headroom0, remainder0);
            && Feasible(give, headroom0, remainder0)
            && quotas == Plus(quotas0, give) && headroom == Less(headroom0, give)
            && remainder == remainder0 - Sum(give)
  {
    GiveSharesFeasible(shares, headroom0, remainder0);
    var given;
    quotas, headroom, given := HandOutWhole(shares, active, quotas0, headroom0);
    remainder := remainder0 - given;
    if given == 0 {
      NothingHandedOut(quotas0, headroom0, WholeRows(shares, headroom0));
      quotas, headroom, remainder := HandOutByShare(shares, active, quotas, headroom, remainder);
    }
  }

  /** The body of the outer loop: one proportional, single-row or round-robin round. */
  method PlayRound(weights: seq<real>, active: seq<nat>, quotas0: seq<nat>, headroom0: seq<nat>, remainder0: nat)
    returns (quotas: seq<nat>, headroom: seq<nat>, remainder: nat)
    requires Weighted(weights, headroom0) && |quotas0| == |headroom0|
    requires remainder0 > 0 && active == Active(headroom0) && active != []
    ensures var give := RoundGive(weights, headroom0, remainder0);
            && Feasible(give, headroom0, remainder0)
            && quotas == Plus(quotas0, give) && headroom == Less(headroom0, give)
            && remainder == remainder0 - Sum(give)
  {
    ActiveMembers(headroom0);
    ActiveTotal(weights, headroom0);
    var totalW := RealSumAt(weights, active);
    if totalW <= 0.0 {
      quotas, headroom, remainder := HandOutSingles(active, quotas0, headroom0, remainder0);
      OneEachTotal(active, Min(remainder0, |active|), |headroom0|);
      RoundRobinFeasible(headroom0, remainder0);
    } else {
      var shares := Shares(weights, headroom0, remainder0);
      SharesValid(weights, headroom0, remainder0);
      quotas, headroom, remainder := PlayShares(shares, active, quotas0, headroom0, remainder0);
    }
  }

  lemma PlusAssociative(a: seq<nat>, b: seq<nat>, c: seq<nat>)
    requires |a| == |b| == |c|
    ensures Plus(Plus(a, b), c) == Plus(a, Plus(b, c))
  {
  }

  /** `_apportion`. */
  method Apportion(weights: seq<real>, headroom0: seq<nat>, remainder0: int) returns (quotas: seq<nat>)
    requires Weighted(weights, headroom0)
    ensures quotas == ExtraRows(weights, headroom0, Max(0, remainder0))
  {
    quotas := seq(|weights|, _ => 0);
    var headroom, remainder: nat := headroom0, Max(0, remainder0);
    var active := Active(headroom);
    ghost var goal := ExtraRows(weights, headroom, remainder);
    assert goal == Plus(quotas, goal);
    while remainder > 0 && active != []
      invariant |quotas| == |headroom| == |weights| && active == Active(headroom)
      invariant goal == Plus(quotas, ExtraRows(weights, headroom, remainder))
      decreases remainder
    {
      ghost var q0, h0, r0 := quotas, headroom, remainder;
      quotas, headroom, remainder := PlayRound(weights, active, quotas, headroom, remainder);
      ExtraUnfold(weights, h0, r0);
      PlusAssociative(q0, RoundGive(weights, h0, r0), ExtraRows(weights, headroom, remainder));
      active := Active(headroom);
    }
    assert quotas == goal;
  }
}
