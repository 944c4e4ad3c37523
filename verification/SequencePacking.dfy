/** The sequence packers of `data/packing/algorithms.py`.

    A packing partitions the sequence indices into non-empty packs; what differs
    between the packers is the order they read the sequences in and what they
    refuse. */
module SequencePacking {
  import opened Sums
  import opened Sorting
  import opened Options
  import opened Permutations

  function Weight(lengths: seq<nat>, pack: seq<nat>): int
    requires InRange(pack, |lengths|)
  {
    SumAt(lengths, pack)
  }

  ghost predicate Indexes(packs: seq<seq<nat>>, n: nat) {
    forall k :: 0 <= k < |packs| ==> InRange(packs[k], n)
  }

  /** Every index is in exactly one pack, and no pack is empty. */
  ghost predicate Partition(packs: seq<seq<nat>>, n: nat) {
    && Indexes(packs, n)
    && (forall k :: 0 <= k < |packs| ==> packs[k] != [])
    && IsPermutation(Flatten(packs), n)
  }

  ghost predicate WithinBudget(packs: seq<seq<nat>>, lengths: seq<nat>, cap: int)
    requires Indexes(packs, |lengths|)
  {
    forall k :: 0 <= k < |packs| ==> Weight(lengths, packs[k]) <= cap
  }

  /** No sequence exceeds the budget. */
  ghost predicate AllFit(lengths: seq<nat>, cap: int) {
    forall i :: 0 <= i < |lengths| ==> lengths[i] <= cap
  }

  // ----- multisets of a packing -----

  lemma {:induction false} AppendToPack(packs: seq<seq<nat>>, p: nat, x: nat)
    requires p < |packs|
    ensures multiset(Flatten(packs[p := packs[p] + [x]])) == multiset(Flatten(packs)) + multiset{x}
  {
    var n := |packs| - 1;
    var next := packs[p := packs[p] + [x]];
    if p == n {
      assert next[..n] == packs[..n];
    } else {
      assert next[..n] == packs[..n][p := packs[..n][p] + [x]];
      AppendToPack(packs[..n], p, x);
    }
  }

  lemma {:induction false} FlattenSnoc(packs: seq<seq<nat>>, pack: seq<nat>)
    ensures Flatten(packs + [pack]) == Flatten(packs) + pack
  {
    assert (packs + [pack])[..|packs|] == packs;
  }

  /** A packing that uses the elements of a permutation is itself one. */
  lemma SameElementsPermute(p: seq<nat>, q: seq<nat>, n: nat)
    requires IsPermutation(q, n) && multiset(p) == multiset(q)
    ensures IsPermutation(p, n)
  {
    assert |p| == |multiset(p)| == |multiset(q)| == |q|;
    DistinctIffSingle(p);
    DistinctIffSingle(q);
    forall k | 0 <= k < |p| ensures p[k] < n {
      assert p[k] in multiset(p);
      assert p[k] in q;
    }
  }

  lemma WeightSnoc(lengths: seq<nat>, pack: seq<nat>, x: nat)
    requires InRange(pack, |lengths|) && x < |lengths|
    ensures InRange(pack + [x], |lengths|)
    ensures Weight(lengths, pack + [x]) == Weight(lengths, pack) + lengths[x]
  {
    SumAtConcat(lengths, pack, [x]);
    assert SumAt(lengths, [x]) == lengths[x];
  }

  // ----- first fit -----

  /** State of the first-fit loop after placing the indices `done`. */
  ghost predicate FirstFitState(packs: seq<seq<nat>>, remaining: seq<int>, done: seq<nat>, lengths: seq<nat>, cap: int) {
    && |packs| == |remaining| && Indexes(packs, |lengths|)
    && multiset(Flatten(packs)) == multiset(done)
    && (forall k :: 0 <= k < |packs| ==>
          packs[k] != [] && remaining[k] == cap - Weight(lengths, packs[k]) && remaining[k] >= 0)
    && (forall a, b :: 0 <= a < b < |packs| ==> Weight(lengths, packs[a]) + Weight(lengths, packs[b]) > cap)
  }

  lemma PlaceInPack(packs: seq<seq<nat>>, remaining: seq<int>, done: seq<nat>, lengths: seq<nat>, cap: int, p: nat, x: nat)
    requires FirstFitState(packs, remaining, done, lengths, cap)
    requires p < |packs| && x < |lengths| && remaining[p] >= lengths[x]
    ensures FirstFitState(packs[p := packs[p] + [x]], remaining[p := remaining[p] - lengths[x]], done + [x], lengths, cap)
  {
    AppendToPack(packs, p, x);
    WeightSnoc(lengths, packs[p], x);
  }

  lemma OpenPack(packs: seq<seq<nat>>, remaining: seq<int>, done: seq<nat>, lengths: seq<nat>, cap: int, x: nat)
    requires FirstFitState(packs, remaining, done, lengths, cap)
    requires x < |lengths| && lengths[x] <= cap
    requires forall k :: 0 <= k < |packs| ==> remaining[k] < lengths[x]
    ensures FirstFitState(packs + [[x]], remaining + [cap - lengths[x]], done + [x], lengths, cap)
  {
    FlattenSnoc(packs, [x]);
    assert SumAt(lengths, [x]) == lengths[x];
  }

  /** Weight of those sequences of a pack that are in `early`. */
  function WeightAmong(lengths: seq<nat>, pack: seq<nat>, early: seq<nat>): int
    requires InRange(pack, |lengths|)
  {
    if pack == [] then 0
    else (if pack[0] in early then lengths[pack[0]] else 0) + WeightAmong(lengths, pack[1..], early)
  }

  /** When the `i`-th sequence of the order was placed, no pack before its own had room
      for it. */
  ghost predicate FirstFits(packs: seq<seq<nat>>, order: seq<nat>, lengths: seq<nat>, cap: int, i: nat)
    requires Indexes(packs, |lengths|) && i < |order| && order[i] < |lengths|
  {
    forall q, p :: 0 <= q < p < |packs| && order[i] in packs[p] ==>
      WeightAmong(lengths, packs[q], order[..i]) + lengths[order[i]] > cap
  }

  /** Each of the first `n` sequences of the order is in the first pack with room. */
  ghost predicate AllFirstFit(packs: seq<seq<nat>>, order: seq<nat>, lengths: seq<nat>, cap: int, n: nat)
    requires Indexes(packs, |lengths|) && InRange(order, |lengths|) && n <= |order|
  {
    forall i: nat :: i < n ==> FirstFits(packs, order, lengths, cap, i)
  }

  lemma {:induction false} AmongAll(lengths: seq<nat>, pack: seq<nat>, early: seq<nat>)
    requires InRange(pack, |lengths|) && forall x :: x in pack ==> x in early
    ensures WeightAmong(lengths, pack, early) == Weight(lengths, pack)
  {
    if pack != [] {
      assert pack[0] in pack;
      AmongAll(lengths, pack[1..], early);
    }
  }

  lemma {:induction false} AmongSnoc(lengths: seq<nat>, pack: seq<nat>, early: seq<nat>, x: nat)
    requires InRange(pack, |lengths|) && x < |lengths| && x !in early
    ensures InRange(pack + [x], |lengths|)
    ensures WeightAmong(lengths, pack + [x], early) == WeightAmong(lengths, pack, early)
  {
    if pack != [] {
      assert (pack + [x])[1..] == pack[1..] + [x];
      AmongSnoc(lengths, pack[1..], early, x);
    } else {
      assert ([] + [x])[1..] == [];
    }
  }

  lemma {:induction false} FlattenContains<T>(parts: seq<seq<T>>, s: nat, i: nat)
    requires s < |parts| && i < |parts[s]|
    ensures parts[s][i] in Flatten(parts)
  {
    var n := |parts| - 1;
    if s < n {
      FlattenContains(parts[..n], s, i);
    }
  }

  /** A packed sequence is one of those placed so far. */
  lemma {:induction false} PackedAreDone(packs: seq<seq<nat>>, done: seq<nat>, p: nat, x: nat)
    requires multiset(Flatten(packs)) == multiset(done) && p < |packs| && x in packs[p]
    ensures x in done
  {
    var i :| 0 <= i < |packs[p]| && packs[p][i] == x;
    FlattenContains(packs, p, i);
    assert x in multiset(Flatten(packs));
  }

  /** The packs before and after placing `x`: one of them is longer by it, or new. */
  ghost predicate Placed(packs: seq<seq<nat>>, next: seq<seq<nat>>, p: nat, x: nat) {
    || (p < |packs| && next == packs[p := packs[p] + [x]])
    || (p == |packs| && next == packs + [[x]])
  }

  lemma EarlierStillFits(packs: seq<seq<nat>>, next: seq<seq<nat>>, order: seq<nat>, lengths: seq<nat>, cap: int, k: nat, p: nat, i: nat)
    requires Indexes(packs, |lengths|) && Indexes(next, |lengths|) && InRange(order, |lengths|) && Distinct(order)
    requires i < k < |order| && Placed(packs, next, p, order[k]) && FirstFits(packs, order, lengths, cap, i)
    ensures FirstFits(next, order, lengths, cap, i)
  {
    var x := order[k];
    forall q, r | 0 <= q < r < |next| && order[i] in next[r]
      ensures WeightAmong(lengths, next[q], order[..i]) + lengths[order[i]] > cap
    {
      assert order[i] != x;
      assert x !in order[..i];
      assert r < |packs| && order[i] in packs[r];
      if q == p {
        AmongSnoc(lengths, packs[q], order[..i], x);
      }
    }
  }

  lemma {:induction false} LastFirstFits(packs: seq<seq<nat>>, next: seq<seq<nat>>, order: seq<nat>, lengths: seq<nat>,
                                         cap: int, k: nat, p: nat)
    requires Indexes(packs, |lengths|) && Indexes(next, |lengths|) && InRange(order, |lengths|) && Distinct(order)
    requires k < |order| && Placed(packs, next, p, order[k]) && multiset(Flatten(packs)) == multiset(order[..k])
    requires forall q :: 0 <= q < p ==> Weight(lengths, packs[q]) + lengths[order[k]] > cap
    ensures FirstFits(next, order, lengths, cap, k)
  {
    var x := order[k];
    forall q, r | 0 <= q < r < |next| && x in next[r]
      ensures WeightAmong(lengths, next[q], order[..k]) + lengths[x] > cap
    {
      if r != p {
        PackedAreDone(packs, order[..k], r, x);
      }
      assert r == p && next[q] == packs[q];
      forall y | y in packs[q] ensures y in order[..k] {
        PackedAreDone(packs, order[..k], q, y);
      }
      AmongAll(lengths, packs[q], order[..k]);
    }
  }

  lemma FirstFitStep(packs: seq<seq<nat>>, next: seq<seq<nat>>, remaining: seq<int>, order: seq<nat>, lengths: seq<nat>,
                     cap: int, k: nat, p: nat)
    requires InRange(order, |lengths|) && Distinct(order) && k < |order| && Placed(packs, next, p, order[k])
    requires FirstFitState(packs, remaining, order[..k], lengths, cap) && Indexes(next, |lengths|)
    requires AllFirstFit(packs, order, lengths, cap, k)
    requires forall q :: 0 <= q < p ==> remaining[q] < lengths[order[k]]
    ensures AllFirstFit(next, order, lengths, cap, k + 1)
  {
    forall i: nat | i < k + 1 ensures FirstFits(next, order, lengths, cap, i) {
      if i < k {
        EarlierStillFits(packs, next, order, lengths, cap, k, p, i);
      } else {
        LastFirstFits(packs, next, order, lengths, cap, k, p);
      }
    }
  }

  /** The inner loop: the first pack with room for a sequence, or one past the last. */
  method FindRoom(remaining: seq<int>, seqLen: nat) returns (p: nat)
    ensures p <= |remaining| && forall j :: 0 <= j < p ==> remaining[j] < seqLen
    ensures p < |remaining| ==> remaining[p] >= seqLen
  {
    p := 0;
    while p < |remaining| && remaining[p] < seqLen
      invariant p <= |remaining|
      invariant forall j :: 0 <= j < p ==> remaining[j] < seqLen
    {
      p := p + 1;
    }
  }

  /** The body of the outer loop: one sequence that does not exceed the budget. */
  method PlaceSequence(packs0: seq<seq<nat>>, remaining0: seq<int>, order: seq<nat>, lengths: seq<nat>, cap: int, k: nat)
    returns (packs: seq<seq<nat>>, remaining: seq<int>)
    requires InRange(order, |lengths|) && Distinct(order) && k < |order| && lengths[order[k]] <= cap
    requires FirstFitState(packs0, remaining0, order[..k], lengths, cap) && AllFirstFit(packs0, order, lengths, cap, k)
    ensures FirstFitState(packs, remaining, order[..k] + [order[k]], lengths, cap)
    ensures AllFirstFit(packs, order, lengths, cap, k + 1)
  {
    packs, remaining := packs0, remaining0;
    var idx := order[k];
    var seqLen := lengths[idx];
    var p := FindRoom(remaining, seqLen);
    if p < |remaining| {
      PlaceInPack(packs, remaining, order[..k], lengths, cap, p, idx);
      packs := packs[p := packs[p] + [idx]];
      remaining := remaining[p := remaining[p] - seqLen];
    } else {
      OpenPack(packs, remaining, order[..k], lengths, cap, idx);
      packs := packs + [[idx]];
      remaining := remaining + [cap - seqLen];
    }
    FirstFitStep(packs0, packs, remaining0, order, lengths, cap, k, p);
  }

  /** `first_fit_decreasing` and `shuffle_packing`: the same greedy loop over a
      length-sorted or a shuffled order.  It refuses exactly when a sequence exceeds
      the budget; otherwise it partitions the indices within the budget, each sequence
      in the first pack that had room for it, and any two packs together overflow the
      budget, so at most one is half empty. */
  method FirstFit(order: seq<nat>, lengths: seq<nat>, cap: int) returns (r: Result<seq<seq<nat>>>)
    requires IsPermutation(order, |lengths|)
    ensures r.Ok? <==> forall i :: 0 <= i < |lengths| ==> lengths[i] <= cap
    ensures r.Err? ==> r.error == ValueError
    ensures r.Ok? ==> Partition(r.value, |lengths|) && WithinBudget(r.value, lengths, cap)
    ensures r.Ok? ==> AllFirstFit(r.value, order, lengths, cap, |order|)
    ensures r.Ok? ==> forall a, b :: 0 <= a < b < |r.value| ==>
              Weight(lengths, r.value[a]) + Weight(lengths, r.value[b]) > cap
  {
    var packs: seq<seq<nat>> := [];
    var remaining: seq<int> := [];
    for k := 0 to |order|
      invariant FirstFitState(packs, remaining, order[..k], lengths, cap)
      invariant AllFirstFit(packs, order, lengths, cap, k)
      invariant forall i :: 0 <= i < k ==> lengths[order[i]] <= cap
    {
      if lengths[order[k]] > cap {
        return Err(ValueError);
      }
      packs, remaining := PlaceSequence(packs, remaining, order, lengths, cap, k);
      assert order[..k + 1] == order[..k] + [order[k]];
    }
    assert order[..|order|] == order;
    SameElementsPermute(Flatten(packs), order, |lengths|);
    PermutationCovers(order, |lengths|);
    forall i | 0 <= i < |lengths| ensures lengths[i] <= cap {
      assert i in order;
    }
    r := Ok(packs);
  }

  // ----- online -----

  /** A pack was closed only when the next sequence did not fit it. */
  ghost predicate ClosedFull(packs: seq<seq<nat>>, lengths: seq<nat>, cap: int)
    requires Indexes(packs, |lengths|)
  {
    forall k :: 0 < k < |packs| && packs[k] != [] ==> Weight(lengths, packs[k - 1]) + lengths[packs[k][0]] > cap
  }

  /** State of the online loop after `done` sequences. */
  ghost predicate OnlineState(packs: seq<seq<nat>>, current: seq<nat>, fill: int, done: nat, lengths: seq<nat>, cap: int) {
    && Indexes(packs, |lengths|) && InRange(current, |lengths|)
    && (forall k :: 0 <= k < |packs| ==> packs[k] != [] && Weight(lengths, packs[k]) <= cap)
    && Flatten(packs) + current == Iota(done)
    && fill == Weight(lengths, current) && (current != [] ==> fill <= cap)
  }

  lemma ClosePack(packs: seq<seq<nat>>, current: seq<nat>, fill: int, done: nat, lengths: seq<nat>, cap: int)
    requires OnlineState(packs, current, fill, done, lengths, cap) && current != []
    ensures OnlineState(packs + [current], [], 0, done, lengths, cap)
  {
    FlattenSnoc(packs, current);
    assert Flatten(packs + [current]) + [] == Flatten(packs) + current;
  }

  lemma ExtendCurrent(packs: seq<seq<nat>>, current: seq<nat>, fill: int, done: nat, lengths: seq<nat>, cap: int)
    requires OnlineState(packs, current, fill, done, lengths, cap)
    requires done < |lengths| && fill + lengths[done] <= cap
    ensures OnlineState(packs, current + [done], fill + lengths[done], done + 1, lengths, cap)
  {
    WeightSnoc(lengths, current, done);
    assert Iota(done + 1) == Iota(done) + [done];
    assert Flatten(packs) + (current + [done]) == Flatten(packs) + current + [done];
  }

  lemma StartPack(packs: seq<seq<nat>>, current: seq<nat>, fill: int, done: nat, lengths: seq<nat>, cap: int)
    requires OnlineState(packs, current, fill, done, lengths, cap)
    requires done < |lengths| && lengths[done] <= cap
    ensures OnlineState(if current != [] then packs + [current] else packs, [done], lengths[done], done + 1, lengths, cap)
  {
    var closed := if current != [] then packs + [current] else packs;
    if current != [] {
      ClosePack(packs, current, fill, done, lengths, cap);
    }
    ExtendCurrent(closed, [], 0, done, lengths, cap);
    assert [] + [done] == [done];
  }

  lemma {:induction false} FinishOnline(packs: seq<seq<nat>>, current: seq<nat>, fill: int, lengths: seq<nat>, cap: int, all: seq<seq<nat>>)
    requires OnlineState(packs, current, fill, |lengths|, lengths, cap)
    requires all == if current != [] then packs + [current] else packs
    ensures Partition(all, |lengths|) && WithinBudget(all, lengths, cap) && Flatten(all) == Iota(|lengths|)
  {
    if current != [] {
      ClosePack(packs, current, fill, |lengths|, lengths, cap);
    }
    assert OnlineState(all, [], 0, |lengths|, lengths, cap);
    assert Flatten(all) + [] == Flatten(all);
  }

  /** So far every pack was closed because it was full. */
  ghost predicate FullSoFar(packs: seq<seq<nat>>, current: seq<nat>, lengths: seq<nat>, cap: int) {
    && Indexes(packs, |lengths|) && InRange(current, |lengths|) && ClosedFull(packs, lengths, cap)
    && (current == [] ==> packs == [])
    && (packs != [] && current != [] ==> Weight(lengths, packs[|packs| - 1]) + lengths[current[0]] > cap)
  }

  lemma ExtendKeepsFull(packs: seq<seq<nat>>, current: seq<nat>, x: nat, lengths: seq<nat>, cap: int)
    requires FullSoFar(packs, current, lengths, cap) && x < |lengths|
    ensures FullSoFar(packs, current + [x], lengths, cap)
  {
    assert current != [] ==> (current + [x])[0] == current[0];
  }

  lemma CloseKeepsFull(packs: seq<seq<nat>>, current: seq<nat>, lengths: seq<nat>, cap: int)
    requires FullSoFar(packs, current, lengths, cap) && current != []
    ensures Indexes(packs + [current], |lengths|) && ClosedFull(packs + [current], lengths, cap)
  {
  }

  /** One sequence joins the open pack, or starts the next. */
  method PlaceOnline(packs0: seq<seq<nat>>, current0: seq<nat>, fill0: int, idx: nat, lengths: seq<nat>, cap: int)
    returns (packs: seq<seq<nat>>, current: seq<nat>, fill: int)
    requires OnlineState(packs0, current0, fill0, idx, lengths, cap) && idx < |lengths| && lengths[idx] <= cap
    requires FullSoFar(packs0, current0, lengths, cap)
    ensures OnlineState(packs, current, fill, idx + 1, lengths, cap) && FullSoFar(packs, current, lengths, cap)
  {
    var seqLen := lengths[idx];
    if fill0 + seqLen > cap {
      StartPack(packs0, current0, fill0, idx, lengths, cap);
      packs := packs0;
      if current0 != [] {
        CloseKeepsFull(packs0, current0, lengths, cap);
        packs := packs + [current0];
      }
      current, fill := [idx], seqLen;
    } else {
      ExtendCurrent(packs0, current0, fill0, idx, lengths, cap);
      ExtendKeepsFull(packs0, current0, idx, lengths, cap);
      packs, current, fill := packs0, current0 + [idx], fill0 + seqLen;
    }
  }

  lemma OnlineStart(lengths: seq<nat>, cap: int)
    ensures OnlineState([], [], 0, 0, lengths, cap) && FullSoFar([], [], lengths, cap)
  {
    assert Iota(0) == [];
  }

  /** What the loop has after the first `done` sequences. */
  datatype OpenRun = OpenRun(packs: seq<seq<nat>>, current: seq<nat>, fill: int)

  ghost predicate RunState(run: OpenRun, done: nat, lengths: seq<nat>, cap: int) {
    && OnlineState(run.packs, run.current, run.fill, done, lengths, cap)
    && FullSoFar(run.packs, run.current, lengths, cap)
    && done <= |lengths| && forall i :: 0 <= i < done ==> lengths[i] <= cap
  }

  /** The loop over the sequences; it stops at the first that exceeds the budget. */
  method PlaceAll(lengths: seq<nat>, cap: int) returns (stop: nat, run: OpenRun)
    ensures stop <= |lengths| && RunState(run, stop, lengths, cap)
    ensures stop < |lengths| ==> lengths[stop] > cap
  {
    stop, run := 0, OpenRun([], [], 0);
    OnlineStart(lengths, cap);
    while stop < |lengths| && lengths[stop] <= cap
      invariant RunState(run, stop, lengths, cap)
    {
      var packs, current, fill := PlaceOnline(run.packs, run.current, run.fill, stop, lengths, cap);
      run, stop := OpenRun(packs, current, fill), stop + 1;
    }
  }

  /** `online_packing`: arrival order, no reordering; a pack is closed only when the
      next sequence does not fit it. */
  method Online(lengths: seq<nat>, cap: int) returns (r: Result<seq<seq<nat>>>)
    ensures r.Ok? <==> forall i :: 0 <= i < |lengths| ==> lengths[i] <= cap
    ensures r.Err? ==> r.error == ValueError
    ensures r.Ok? ==> Partition(r.value, |lengths|) && WithinBudget(r.value, lengths, cap)
    ensures r.Ok? ==> Flatten(r.value) == Iota(|lengths|) && ClosedFull(r.value, lengths, cap)
  {
    var stop, run := PlaceAll(lengths, cap);
    if stop < |lengths| {
      return Err(ValueError);
    }
    var packs, current, fill := run.packs, run.current, run.fill;
    var all := if current != [] then packs + [current] else packs;
    FinishOnline(packs, current, fill, lengths, cap, all);
    if current != [] {
      CloseKeepsFull(packs, current, lengths, cap);
    }
    r := Ok(all);
  }

  // ----- dynamic programming -----

  const MAX_SEQUENCES_PER_PACK: nat := 32

  /** A choice of distinct sequences from a list of `n` or fewer. */
  ghost predicate Choice(pack: seq<nat>, from: seq<nat>, n: nat) {
    InRange(pack, n) && Distinct(pack) && forall x :: x in pack ==> x in from
  }

  /** A table cell: a choice of processed indices of total length exactly `c`. */
  ghost predicate Cell(list: seq<nat>, c: nat, done: seq<nat>, lengths: seq<nat>) {
    Choice(list, done, |lengths|) && Weight(lengths, list) == c && |list| <= MAX_SEQUENCES_PER_PACK
  }

  predicate Reached(dp: seq<Option<seq<nat>>>, w: int) {
    0 <= w < |dp| ==> dp[w].Some?
  }

  /** The table has a cell for the weight of every choice that fits it. */
  ghost predicate Complete(dp: seq<Option<seq<nat>>>, done: seq<nat>, lengths: seq<nat>) {
    forall pack: seq<nat> :: Choice(pack, done, |lengths|) ==> Reached(dp, Weight(lengths, pack))
  }

  /** No choice within the budget is heavier. */
  ghost predicate Fullest(best: seq<nat>, from: seq<nat>, lengths: seq<nat>, cap: int)
    requires InRange(best, |lengths|)
  {
    forall pack: seq<nat> :: Choice(pack, from, |lengths|) && Weight(lengths, pack) <= cap ==>
      Weight(lengths, pack) <= Weight(lengths, best)
  }

  lemma ChoiceSize(pack: seq<nat>, from: seq<nat>, n: nat)
    requires Choice(pack, from, n) && Distinct(from)
    ensures |pack| <= |from|
  {
    ElementsSize(pack);
    ElementsSize(from);
    assert Elements(pack) <= Elements(from);
    SmallerSet(Elements(pack), Elements(from));
  }

  lemma SmallerSet(a: set<nat>, b: set<nat>)
    requires a <= b
    ensures |a| <= |b|
  {
    assert b == a + (b - a);
    assert |b| == |a| + |b - a|;
  }

  lemma WeightWithout(lengths: seq<nat>, pack: seq<nat>, j: nat)
    requires InRange(pack, |lengths|) && j < |pack|
    ensures InRange(pack[..j] + pack[j + 1..], |lengths|)
    ensures Weight(lengths, pack) == Weight(lengths, pack[..j] + pack[j + 1..]) + lengths[pack[j]]
  {
    var tail := [pack[j]] + pack[j + 1..];
    assert pack == pack[..j] + tail && tail[1..] == pack[j + 1..];
    SumAtConcat(lengths, pack[..j], tail);
    SumAtConcat(lengths, pack[..j], pack[j + 1..]);
  }

  /** A choice that uses one item is a choice without it, plus the item's length. */
  lemma TakeOut(pack: seq<nat>, done: seq<nat>, idx: nat, lengths: seq<nat>) returns (rest: seq<nat>)
    requires Choice(pack, done + [idx], |lengths|) && idx in pack
    ensures Choice(rest, done, |lengths|) && Weight(lengths, pack) == Weight(lengths, rest) + lengths[idx]
  {
    var j :| 0 <= j < |pack| && pack[j] == idx;
    rest := pack[..j] + pack[j + 1..];
    WeightWithout(lengths, pack, j);
    forall x | x in rest
      ensures x in done
    {
      assert x in pack && x != idx;
    }
  }

  lemma CompleteStep(dp0: seq<Option<seq<nat>>>, dp: seq<Option<seq<nat>>>, done: seq<nat>, idx: nat, lengths: seq<nat>)
    requires Complete(dp0, done, lengths) && |dp| == |dp0| && idx < |lengths|
    requires forall c :: 0 <= c < |dp| && dp0[c].Some? ==> dp[c].Some?
    requires forall c :: lengths[idx] <= c < |dp| && dp0[c - lengths[idx]].Some? ==> dp[c].Some?
    ensures Complete(dp, done + [idx], lengths)
  {
    forall pack: seq<nat> | Choice(pack, done + [idx], |lengths|)
      ensures Reached(dp, Weight(lengths, pack))
    {
      if idx in pack {
        var rest := TakeOut(pack, done, idx, lengths);
        WeightNonNegative(lengths, rest);
        assert Reached(dp0, Weight(lengths, rest));
      } else {
        assert Choice(pack, done, |lengths|);
        assert Reached(dp0, Weight(lengths, pack));
      }
    }
  }

  lemma CompleteStart(dp: seq<Option<seq<nat>>>, lengths: seq<nat>)
    requires |dp| > 0 && dp[0].Some?
    ensures Complete(dp, [], lengths)
  {
    forall pack: seq<nat> | Choice(pack, [], |lengths|)
      ensures Reached(dp, Weight(lengths, pack))
    {
      ChoiceSize(pack, [], |lengths|);
    }
  }

  ghost predicate Table(dp: seq<Option<seq<nat>>>, done: seq<nat>, lengths: seq<nat>) {
    && |dp| > 0 && dp[0] == Some([])
    && forall c :: 0 <= c < |dp| && dp[c].Some? ==> Cell(dp[c].value, c, done, lengths)
  }

  lemma CellGrows(list: seq<nat>, c: nat, done: seq<nat>, lengths: seq<nat>, idx: nat)
    requires Cell(list, c, done, lengths)
    ensures Cell(list, c, done + [idx], lengths)
  {
  }

  lemma CellExtends(list: seq<nat>, c: nat, done: seq<nat>, lengths: seq<nat>, idx: nat)
    requires Cell(list, c, done, lengths) && idx < |lengths| && idx !in done && |list| < MAX_SEQUENCES_PER_PACK
    ensures Cell(list + [idx], c + lengths[idx], done + [idx], lengths)
  {
    WeightSnoc(lengths, list, idx);
    assert idx !in list;
  }

  /** One item's backward sweep over the capacities: cells above `c` may already use
      the item, cells at or below do not. */
  method SweepItem(dp0: seq<Option<seq<nat>>>, done: seq<nat>, lengths: seq<nat>, idx: nat) returns (dp: seq<Option<seq<nat>>>)
    requires Table(dp0, done, lengths) && idx < |lengths| && idx !in done && Distinct(done)
    ensures |dp| == |dp0| && Table(dp, done + [idx], lengths)
    ensures |done| < MAX_SEQUENCES_PER_PACK ==>
              forall c :: lengths[idx] <= c < |dp| && dp0[c - lengths[idx]].Some? ==> dp[c].Some?
    ensures forall c :: 0 <= c < |dp| && dp0[c].Some? ==> dp[c] == dp0[c]
    ensures 0 < lengths[idx] < |dp| ==> dp[lengths[idx]].Some?
  {
    var capacity := |dp0| - 1;
    var seqLen := lengths[idx];
    dp := dp0;
    if seqLen <= capacity {
      var c := capacity;
      while c >= seqLen
        invariant seqLen - 1 <= c <= capacity && |dp| == |dp0|
        invariant forall b :: 0 <= b < |dp| && b <= c ==> dp[b] == dp0[b]
        invariant forall b :: 0 <= b < |dp| && dp0[b].Some? ==> dp[b] == dp0[b]
        invariant forall b :: c < b < |dp| && dp[b].Some? ==> Cell(dp[b].value, b, done + [idx], lengths)
        invariant 0 < seqLen && c < seqLen ==> dp[seqLen].Some?
        invariant |done| < MAX_SEQUENCES_PER_PACK ==>
                    forall b :: c < b < |dp| && seqLen <= b && dp0[b - seqLen].Some? ==> dp[b].Some?
      {
        if dp[c].Some? {
          CellGrows(dp[c].value, c, done, lengths, idx);
        }
        if dp[c - seqLen].Some? {
          ChoiceSize(dp[c - seqLen].value, done, |lengths|);
          var candidate := dp[c - seqLen].value + [idx];
          if |candidate| <= MAX_SEQUENCES_PER_PACK && (dp[c].None? || c > SumAt(lengths, dp[c].value)) {
            CellExtends(dp[c - seqLen].value, c - seqLen, done, lengths, idx);
            dp := dp[c := Some(candidate)];
          }
        }
        c := c - 1;
      }
    }
    forall b | 0 <= b < |dp| && dp[b].Some? ensures Cell(dp[b].value, b, done + [idx], lengths) {
      if dp[b] == dp0[b] {
        CellGrows(dp[b].value, b, done, lengths, idx);
      }
    }
  }

  /** The table over all remaining items. */
  method BuildTable(remaining: seq<nat>, lengths: seq<nat>, cap: nat) returns (dp: seq<Option<seq<nat>>>)
    requires remaining != [] && InRange(remaining, |lengths|) && Distinct(remaining)
    ensures |dp| == cap + 1 && Table(dp, remaining, lengths)
    ensures 0 < lengths[remaining[0]] <= cap ==> dp[lengths[remaining[0]]].Some?
    ensures |remaining| <= MAX_SEQUENCES_PER_PACK ==> Complete(dp, remaining, lengths)
  {
    dp := seq(cap + 1, c => if c == 0 then Some([]) else None);
    ghost var first := lengths[remaining[0]];
    CompleteStart(dp, lengths);
    assert remaining[..0] == [];
    for k := 0 to |remaining|
      invariant |dp| == cap + 1 && Table(dp, remaining[..k], lengths)
      invariant k > 0 && 0 < first <= cap ==> dp[first].Some?
      invariant |remaining| <= MAX_SEQUENCES_PER_PACK ==> Complete(dp, remaining[..k], lengths)
    {
      assert remaining[..k + 1] == remaining[..k] + [remaining[k]];
      assert remaining[k] !in remaining[..k];
      var swept := SweepItem(dp, remaining[..k], lengths, remaining[k]);
      if |remaining| <= MAX_SEQUENCES_PER_PACK {
        CompleteStep(dp, swept, remaining[..k], remaining[k], lengths);
      }
      dp := swept;
    }
    assert remaining[..|remaining|] == remaining;
  }

  /** The largest filled capacity. */
  method FullestCell(dp: seq<Option<seq<nat>>>) returns (c: nat)
    requires |dp| > 0 && dp[0].Some?
    ensures c < |dp| && dp[c].Some? && forall b :: c < b < |dp| ==> dp[b].None?
  {
    c := |dp| - 1;
    while dp[c].None?
      invariant c < |dp| && forall b :: c < b < |dp| ==> dp[b].None?
      decreases c
    {
      c := c - 1;
    }
  }

  lemma FullestIn(dp: seq<Option<seq<nat>>>, c: nat, from: seq<nat>, lengths: seq<nat>, best: seq<nat>)
    requires Complete(dp, from, lengths) && c < |dp| && (forall b :: c < b < |dp| ==> dp[b].None?)
    requires InRange(best, |lengths|) && Weight(lengths, best) >= c
    ensures Fullest(best, from, lengths, |dp| - 1)
  {
    forall pack: seq<nat> | Choice(pack, from, |lengths|) && Weight(lengths, pack) <= |dp| - 1
      ensures Weight(lengths, pack) <= Weight(lengths, best)
    {
      assert Reached(dp, Weight(lengths, pack));
    }
  }

  /** The table over all remaining items, and the fullest pack it holds.  With no more
      items than a pack may hold that is the fullest pack there is; beyond that the
      limit on a cell's length can rule out a fuller one. */
  method BestPack(remaining: seq<nat>, lengths: seq<nat>, cap: nat) returns (best: seq<nat>)
    requires remaining != [] && InRange(remaining, |lengths|) && Distinct(remaining)
    ensures best != [] && InRange(best, |lengths|) && Distinct(best) && |best| <= 32
    ensures forall x :: x in best ==> x in remaining
    ensures Weight(lengths, best) <= cap || (best == [remaining[0]] && lengths[remaining[0]] > cap)
    ensures |remaining| <= MAX_SEQUENCES_PER_PACK ==> Fullest(best, remaining, lengths, cap)
  {
    var dp := BuildTable(remaining, lengths, cap);
    var c := FullestCell(dp);
    best := dp[c].value;
    assert Cell(best, c, remaining, lengths);
    if best == [] {
      best := [remaining[0]];
      assert SumAt(lengths, [remaining[0]]) == lengths[remaining[0]];
    }
    if |remaining| <= MAX_SEQUENCES_PER_PACK {
      FullestIn(dp, c, remaining, lengths, best);
    }
  }

  function Unplaced(remaining: seq<nat>, pack: seq<nat>): seq<nat> {
    if remaining == [] then []
    else if remaining[0] in pack then Unplaced(remaining[1..], pack)
    else [remaining[0]] + Unplaced(remaining[1..], pack)
  }

  lemma {:induction false} UnplacedMultiset(remaining: seq<nat>, pack: seq<nat>)
    requires Distinct(remaining) && Distinct(pack)
    requires forall x :: x in pack ==> x in remaining
    ensures multiset(Unplaced(remaining, pack)) + multiset(pack) == multiset(remaining)
  {
    var rest := Unplaced(remaining, pack);
    UnplacedMembers(remaining, pack);
    DistinctIffSingle(rest);
    DistinctIffSingle(pack);
    DistinctIffSingle(remaining);
    var a: multiset<nat>, b: multiset<nat>, all: multiset<nat> := multiset(rest), multiset(pack), multiset(remaining);
    forall x: nat
      ensures a[x] + b[x] == all[x]
    {
      assert x in rest <==> x in a;
      assert x in pack <==> x in b;
      assert x in remaining <==> x in all;
    }
    assert a + b == all;
  }

  lemma {:induction false} UnplacedMembers(remaining: seq<nat>, pack: seq<nat>)
    requires Distinct(remaining)
    ensures forall x: nat :: x in Unplaced(remaining, pack) <==> x in remaining && x !in pack
    ensures Distinct(Unplaced(remaining, pack))
    ensures |Unplaced(remaining, pack)| <= |remaining|
    ensures (exists x: nat :: x in pack && x in remaining) ==> |Unplaced(remaining, pack)| < |remaining|
  {
    if remaining != [] {
      assert remaining == [remaining[0]] + remaining[1..];
      assert remaining[0] !in remaining[1..];
      UnplacedMembers(remaining[1..], pack);
    }
  }

  /** Taking a pack out leaves fewer sequences, all of them still to place. */
  lemma {:induction false} UnplacedInRange(remaining: seq<nat>, pack: seq<nat>, n: nat)
    requires Distinct(remaining) && InRange(remaining, n) && pack != [] && pack[0] in remaining
    ensures Distinct(Unplaced(remaining, pack)) && InRange(Unplaced(remaining, pack), n)
    ensures |Unplaced(remaining, pack)| < |remaining|
  {
    UnplacedMembers(remaining, pack);
    var rest := Unplaced(remaining, pack);
    assert pack[0] in pack;
    forall k | 0 <= k < |rest|
      ensures rest[k] < n
    {
      assert rest[k] in rest;
      assert rest[k] in remaining;
    }
  }

  /** State of the outer loop: what is packed and what remains make up the order. */
  ghost predicate DpState(packs: seq<seq<nat>>, remaining: seq<nat>, order: seq<nat>, lengths: seq<nat>, cap: nat) {
    && Distinct(remaining) && InRange(remaining, |lengths|) && Indexes(packs, |lengths|)
    && (forall k :: 0 <= k < |packs| ==> packs[k] != [])
    && multiset(Flatten(packs)) + multiset(remaining) == multiset(order)
    && (AllFit(lengths, cap) ==> WithinBudget(packs, lengths, cap))
  }

  /** Pack `k` is the fullest of the sequences its predecessors left, if those are no
      more than a pack may hold. */
  ghost predicate FullestAt(packs: seq<seq<nat>>, k: nat, order: seq<nat>, lengths: seq<nat>, cap: nat)
    requires Indexes(packs, |lengths|) && k < |packs|
  {
    var left := Unplaced(order, Flatten(packs[..k]));
    |left| <= 32 ==> Fullest(packs[k], left, lengths, cap)
  }

  ghost predicate EachFullest(packs: seq<seq<nat>>, order: seq<nat>, lengths: seq<nat>, cap: nat)
    requires Indexes(packs, |lengths|)
  {
    forall k: nat :: k < |packs| ==> FullestAt(packs, k, order, lengths, cap)
  }

  lemma {:induction false} NothingPlaced(order: seq<nat>)
    ensures Unplaced(order, []) == order
  {
    if order != [] {
      NothingPlaced(order[1..]);
    }
  }

  /** Taking out two packs in turn is taking out both at once. */
  lemma {:induction false} UnplacedTwice(order: seq<nat>, a: seq<nat>, b: seq<nat>)
    ensures Unplaced(Unplaced(order, a), b) == Unplaced(order, a + b)
  {
    if order != [] {
      UnplacedTwice(order[1..], a, b);
      if order[0] !in a {
        assert Unplaced(order, a) == [order[0]] + Unplaced(order[1..], a);
      }
    }
  }

  /** One more pack, the fullest of what was left. */
  lemma {:induction false} FullestExtends(packs: seq<seq<nat>>, best: seq<nat>, order: seq<nat>, lengths: seq<nat>, cap: nat)
    requires Indexes(packs, |lengths|) && InRange(best, |lengths|) && EachFullest(packs, order, lengths, cap)
    requires var left := Unplaced(order, Flatten(packs));
             |left| <= 32 ==> Fullest(best, left, lengths, cap)
    ensures Indexes(packs + [best], |lengths|) && EachFullest(packs + [best], order, lengths, cap)
    ensures Unplaced(order, Flatten(packs + [best])) == Unplaced(Unplaced(order, Flatten(packs)), best)
  {
    var more := packs + [best];
    forall k: nat | k < |more|
      ensures FullestAt(more, k, order, lengths, cap)
    {
      if k < |packs| {
        assert FullestAt(packs, k, order, lengths, cap);
        assert more[..k] == packs[..k];
      } else {
        assert more[..k] == packs;
      }
    }
    UnplacedTwice(order, Flatten(packs), best);
    FlattenSnoc(packs, best);
  }

  lemma {:induction false} PackedMultiset(packs: seq<seq<nat>>, best: seq<nat>, remaining: seq<nat>, order: seq<nat>)
    requires Distinct(remaining) && Distinct(best) && forall x :: x in best ==> x in remaining
    requires multiset(Flatten(packs)) + multiset(remaining) == multiset(order)
    ensures multiset(Flatten(packs + [best])) + multiset(Unplaced(remaining, best)) == multiset(order)
  {
    UnplacedMultiset(remaining, best);
    FlattenSnoc(packs, best);
  }

  lemma {:induction false} DpPlace(packs: seq<seq<nat>>, remaining: seq<nat>, best: seq<nat>, order: seq<nat>, lengths: seq<nat>, cap: nat)
    requires DpState(packs, remaining, order, lengths, cap)
    requires best != [] && InRange(best, |lengths|) && Distinct(best) && forall x :: x in best ==> x in remaining
    requires AllFit(lengths, cap) ==> Weight(lengths, best) <= cap
    ensures DpState(packs + [best], Unplaced(remaining, best), order, lengths, cap)
    ensures |Unplaced(remaining, best)| < |remaining|
  {
    assert best[0] in best;
    UnplacedInRange(remaining, best, |lengths|);
    PackedMultiset(packs, best, remaining, order);
    PacksExtend(packs, best, lengths, cap);
  }

  lemma PacksExtend(packs: seq<seq<nat>>, best: seq<nat>, lengths: seq<nat>, cap: nat)
    requires Indexes(packs, |lengths|) && InRange(best, |lengths|)
    ensures Indexes(packs + [best], |lengths|)
    ensures WithinBudget(packs, lengths, cap) && Weight(lengths, best) <= cap ==>
              WithinBudget(packs + [best], lengths, cap)
  {
  }

  lemma DpFinish(packs: seq<seq<nat>>, order: seq<nat>, lengths: seq<nat>, cap: nat)
    requires IsPermutation(order, |lengths|) && DpState(packs, [], order, lengths, cap)
    ensures Partition(packs, |lengths|)
    ensures WithinBudget(packs, lengths, cap) <==> AllFit(lengths, cap)
  {
    assert multiset(Flatten(packs)) + multiset([]) == multiset(Flatten(packs));
    SameElementsPermute(Flatten(packs), order, |lengths|);
    if WithinBudget(packs, lengths, cap) {
      BudgetBoundsLengths(packs, lengths, cap);
    }
  }

  /** No pack holds more than 32 sequences, and only a single one exceeds the budget. */
  ghost predicate SmallPacks(packs: seq<seq<nat>>, lengths: seq<nat>, cap: nat)
    requires Indexes(packs, |lengths|)
  {
    forall k :: 0 <= k < |packs| ==> |packs[k]| <= 32 && (Weight(lengths, packs[k]) <= cap || |packs[k]| == 1)
  }

  /** What the outer loop keeps. */
  ghost predicate DpRun(packs: seq<seq<nat>>, remaining: seq<nat>, order: seq<nat>, lengths: seq<nat>, cap: nat) {
    && DpState(packs, remaining, order, lengths, cap)
    && remaining == Unplaced(order, Flatten(packs))
    && SmallPacks(packs, lengths, cap) && EachFullest(packs, order, lengths, cap)
  }

  lemma DpStart(order: seq<nat>, lengths: seq<nat>, cap: nat)
    requires IsPermutation(order, |lengths|)
    ensures DpRun([], order, order, lengths, cap)
  {
    var none: seq<seq<nat>> := [];
    assert multiset(Flatten(none)) + multiset(order) == multiset(order);
    NothingPlaced(order);
  }

  lemma {:induction false} DpRunExtends(packs: seq<seq<nat>>, remaining: seq<nat>, best: seq<nat>, order: seq<nat>,
                                        lengths: seq<nat>, cap: nat)
    requires DpRun(packs, remaining, order, lengths, cap)
    requires best != [] && InRange(best, |lengths|) && Distinct(best) && forall x :: x in best ==> x in remaining
    requires |best| <= 32 && (Weight(lengths, best) <= cap || (|best| == 1 && lengths[best[0]] > cap))
    requires |remaining| <= 32 ==> Fullest(best, remaining, lengths, cap)
    ensures DpRun(packs + [best], Unplaced(remaining, best), order, lengths, cap)
    ensures |Unplaced(remaining, best)| < |remaining|
  {
    assert DpState(packs + [best], Unplaced(remaining, best), order, lengths, cap)
           && |Unplaced(remaining, best)| < |remaining| by {
      DpPlace(packs, remaining, best, order, lengths, cap);
    }
    assert EachFullest(packs + [best], order, lengths, cap)
           && Unplaced(remaining, best) == Unplaced(order, Flatten(packs + [best])) by {
      FullestExtends(packs, best, order, lengths, cap);
    }
    SmallExtends(packs, best, lengths, cap);
  }

  lemma SmallExtends(packs: seq<seq<nat>>, best: seq<nat>, lengths: seq<nat>, cap: nat)
    requires Indexes(packs, |lengths|) && InRange(best, |lengths|) && SmallPacks(packs, lengths, cap)
    requires |best| <= 32 && (Weight(lengths, best) <= cap || |best| == 1)
    ensures Indexes(packs + [best], |lengths|) && SmallPacks(packs + [best], lengths, cap)
  {
  }

  /** One more pack. */
  method NextPack(packs: seq<seq<nat>>, remaining: seq<nat>, ghost order: seq<nat>, lengths: seq<nat>, cap: nat)
    returns (best: seq<nat>, rest: seq<nat>)
    requires DpRun(packs, remaining, order, lengths, cap) && remaining != []
    ensures DpRun(packs + [best], rest, order, lengths, cap) && |rest| < |remaining|
  {
    best := BestPack(remaining, lengths, cap);
    rest := Unplaced(remaining, best);
    DpRunExtends(packs, remaining, best, order, lengths, cap);
  }

  /** `dp_packing`.  It never refuses and always partitions, but unlike the other
      packers it emits an oversized sequence as a pack of its own: its packs are
      within the budget exactly when every sequence is. */
  method DpPacking(order: seq<nat>, lengths: seq<nat>, cap: nat) returns (packs: seq<seq<nat>>)
    requires IsPermutation(order, |lengths|)
    ensures Partition(packs, |lengths|)
    ensures WithinBudget(packs, lengths, cap) <==> AllFit(lengths, cap)
    ensures SmallPacks(packs, lengths, cap) && EachFullest(packs, order, lengths, cap)
  {
    packs := [];
    var remaining: seq<nat> := order;
    DpStart(order, lengths, cap);
    while remaining != []
      invariant DpRun(packs, remaining, order, lengths, cap)
      decreases |remaining|
    {
      var best, rest := NextPack(packs, remaining, order, lengths, cap);
      packs, remaining := packs + [best], rest;
    }
    DpFinish(packs, order, lengths, cap);
  }

  /** A lone sequence of five tokens under a budget of three becomes a pack of five. */
  method OversizedPack() returns (packs: seq<seq<nat>>)
    ensures packs == [[0]] && Weight([5], packs[0]) == 5 && !WithinBudget(packs, [5], 3)
  {
    packs := DpPacking([0], [5], 3);
    assert [5][0] == 5;
    SinglePartition(packs);
  }

  lemma {:induction false} FewerPacksThanEntries(packs: seq<seq<nat>>)
    requires forall k :: 0 <= k < |packs| ==> packs[k] != []
    ensures |packs| <= |Flatten(packs)|
  {
    if packs != [] {
      FewerPacksThanEntries(packs[..|packs| - 1]);
    }
  }

  lemma SinglePartition(packs: seq<seq<nat>>)
    requires Partition(packs, 1)
    ensures packs == [[0]] && Weight([5], packs[0]) == 5
  {
    FewerPacksThanEntries(packs);
    assert packs[..0] == [] && packs[..|packs| - 1] == packs[..0];
    assert Flatten(packs) == [] + packs[0];
    assert packs[0] == [0];
    assert SumAt([5], [0]) == 5;
  }

  /** A packing within budget holds no sequence above it. */
  lemma BudgetBoundsLengths(packs: seq<seq<nat>>, lengths: seq<nat>, cap: nat)
    requires Partition(packs, |lengths|) && WithinBudget(packs, lengths, cap)
    ensures forall i :: 0 <= i < |lengths| ==> lengths[i] <= cap
  {
    PermutationCovers(Flatten(packs), |lengths|);
    forall i | 0 <= i < |lengths|
      ensures lengths[i] <= cap
    {
      assert i in Flatten(packs);
      var k := PackOf(packs, i);
      WeightAtLeast(lengths, packs[k], i);
    }
  }

  lemma {:induction false} PackOf(packs: seq<seq<nat>>, x: nat) returns (k: nat)
    requires x in Flatten(packs)
    ensures k < |packs| && x in packs[k]
  {
    var n := |packs| - 1;
    if x in packs[n] {
      k := n;
    } else {
      k := PackOf(packs[..n], x);
    }
  }

  lemma {:induction false} WeightAtLeast(lengths: seq<nat>, pack: seq<nat>, x: nat)
    requires InRange(pack, |lengths|) && x in pack
    ensures Weight(lengths, pack) >= lengths[x]
    decreases |pack|
  {
    WeightNonNegative(lengths, pack[1..]);
    if pack[0] != x {
      assert x in pack[1..];
      WeightAtLeast(lengths, pack[1..], x);
    }
  }

  lemma {:induction false} WeightNonNegative(lengths: seq<nat>, pack: seq<nat>)
    requires InRange(pack, |lengths|)
    ensures Weight(lengths, pack) >= 0
  {
    if pack != [] {
      WeightNonNegative(lengths, pack[1..]);
    }
  }
}
