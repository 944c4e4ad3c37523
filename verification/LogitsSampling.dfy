/** Top-k / top-p filtering of logits, row by row and in chunks.  The exponential
    is any positive function. */
module LogitsSampling {
  // The answers of `torch.sort` and `torch.topk` are inputs: any ascending order of
  // each row, ties in any order, and each row's k-th largest value.

  import opened Sums
  import opened Options
  import opened Totals
  import opened Permutations

  datatype Logit = NegInf | Fin(value: real)

  predicate Leq(a: Logit, b: Logit) {
    a.NegInf? || (b.Fin? && a.value <= b.value)
  }

  predicate Greater(a: Logit, b: Logit) {
    !Leq(a, b)
  }

  type Exp = real -> real

  ghost predicate Ascending(s: seq<Logit>) {
    forall a, b :: 0 <= a < b < |s| ==> Leq(s[a], s[b])
  }

  /** `order` sorts `row` ascending. */
  ghost predicate Sorts(order: seq<nat>, row: seq<Logit>) {
    IsPermutation(order, |row|) && Ascending(Pick(row, order))
  }

  function CountGreater(s: seq<Logit>, x: Logit): (n: nat)
    ensures n <= |s|
  {
    if s == [] then 0 else CountGreater(s[..|s| - 1], x) + (if Greater(s[|s| - 1], x) then 1 else 0)
  }

  function CountAtLeast(s: seq<Logit>, x: Logit): (n: nat)
    ensures n <= |s|
  {
    if s == [] then 0 else CountAtLeast(s[..|s| - 1], x) + (if Leq(x, s[|s| - 1]) then 1 else 0)
  }

  /** `torch.topk(row, k).values[-1]`: fewer than k entries exceed it, k reach it. */
  ghost predicate IsKth(row: seq<Logit>, k: nat, t: Logit) {
    CountGreater(row, t) < k <= CountAtLeast(row, t)
  }

  ghost predicate Positive(exp: Exp) {
    forall x :: exp(x) > 0.0
  }

  // ----- top-k -----

  /** Entries at or above a threshold. */
  function AtLeast(s: seq<Logit>, threshold: Logit): (m: seq<bool>)
    ensures |m| == |s|
  {
    seq(|s|, i requires 0 <= i < |s| => Leq(threshold, s[i]))
  }

  function Masked(s: seq<Logit>, mask: seq<bool>): (r: seq<Logit>)
    requires |mask| == |s|
    ensures |r| == |s|
  {
    seq(|s|, i requires 0 <= i < |s| => if mask[i] then s[i] else NegInf)
  }

  lemma LeqTotal(a: Logit, b: Logit, c: Logit)
    ensures Leq(a, a) && (Leq(a, b) || Leq(b, a))
    ensures Leq(a, b) && Leq(b, c) ==> Leq(a, c)
  {
  }

  lemma {:induction false} CountOrder(s: seq<Logit>, x: Logit, y: Logit)
    ensures Leq(y, x) ==> CountGreater(s, x) <= CountGreater(s, y)
    ensures Greater(y, x) ==> CountAtLeast(s, y) <= CountGreater(s, x)
  {
    if s != [] {
      CountOrder(s[..|s| - 1], x, y);
    }
  }

  /** Being at or above the k-th largest value means fewer than k entries are larger. */
  lemma {:induction false} KthThreshold(row: seq<Logit>, k: nat, t: Logit, x: Logit)
    requires IsKth(row, k, t)
    ensures Leq(t, x) <==> CountGreater(row, x) < k
  {
    CountOrder(row, x, t);
    LeqTotal(x, t, x);
  }

  lemma {:induction false} CountAtMost(s: seq<Logit>, x: Logit, m: nat)
    requires m <= |s| && forall i :: 0 <= i < m ==> !Greater(s[i], x)
    ensures CountGreater(s, x) <= |s| - m
  {
    if |s| > m {
      CountAtMost(s[..|s| - 1], x, m);
    } else if s != [] {
      CountAtMost(s[..|s| - 1], x, m - 1);
    }
  }

  lemma {:induction false} CountFrom(s: seq<Logit>, x: Logit, m: nat)
    requires m <= |s| && forall i :: m <= i < |s| ==> Leq(x, s[i])
    ensures CountAtLeast(s, x) >= |s| - m
  {
    if |s| > m {
      CountFrom(s[..|s| - 1], x, m);
    }
  }

  /** In ascending order the entry at |s| - k is the k-th largest. */
  lemma SortedThreshold(s: seq<Logit>, k: nat)
    requires Ascending(s) && 0 < k <= |s|
    ensures IsKth(s, k, s[|s| - k])
  {
    var t := s[|s| - k];
    forall i | 0 <= i < |s| - k + 1 ensures !Greater(s[i], t) {
      LeqTotal(t, t, t);
    }
    CountAtMost(s, t, |s| - k + 1);
    forall i | |s| - k <= i < |s| ensures Leq(t, s[i]) {
      LeqTotal(t, t, t);
    }
    CountFrom(s, t, |s| - k);
  }

  lemma {:induction false} CountConcat(a: seq<Logit>, b: seq<Logit>, x: Logit)
    ensures CountGreater(a + b, x) == CountGreater(a, x) + CountGreater(b, x)
  {
    if b == [] {
      assert a + b == a;
    } else {
      var n := |b| - 1;
      assert (a + b)[..|a| + n] == a + b[..n];
      CountConcat(a, b[..n], x);
    }
  }

  lemma {:induction false} CountInsert(a: seq<Logit>, y: Logit, b: seq<Logit>, x: Logit)
    ensures CountGreater(a + [y] + b, x) == CountGreater(a + b, x) + (if Greater(y, x) then 1 else 0)
  {
    CountConcat(a + [y], b, x);
    CountConcat(a, [y], x);
    CountConcat(a, b, x);
    assert [y][..0] == [];
  }

  /** Counting does not depend on the order. */
  lemma {:induction false} CountPermuted(row: seq<Logit>, p: seq<nat>, x: Logit)
    requires IsPermutation(p, |row|)
    ensures CountGreater(Pick(row, p), x) == CountGreater(row, x)
  {
    if row != [] {
      var n := |row| - 1;
      var j := LargestPosition(p);
      DropLargest(p, j);
      PickAround(row, p, j);
      PickPrefix(row, n, p[..j] + p[j + 1..]);
      CountPermuted(row[..n], p[..j] + p[j + 1..], x);
      CountInsert(Pick(row, p[..j]), row[n], Pick(row, p[j + 1..]), x);
    }
  }

  /** The sorted path keeps the tokens with fewer than k strictly larger logits. */
  lemma SortedTopK(row: seq<Logit>, k: nat, order: seq<nat>, v: nat)
    requires Sorts(order, row) && 0 < k <= |row| && v < |row|
    ensures AtLeast(row, Pick(row, order)[|row| - k])[v] <==> CountGreater(row, row[v]) < k
  {
    var s := Pick(row, order);
    SortedThreshold(s, k);
    CountPermuted(row, order, row[v]);
    KthThreshold(s, k, s[|row| - k], row[v]);
  }

  /** The sort-free path and the sorted path keep the same tokens. */
  lemma BothTopKPathsAgree(row: seq<Logit>, k: nat, order: seq<nat>, t: Logit)
    requires Sorts(order, row) && 0 < k <= |row|
    requires IsKth(row, k, t)
    ensures AtLeast(row, t) == AtLeast(row, Pick(row, order)[|row| - k])
  {
    forall v | 0 <= v < |row| ensures AtLeast(row, t)[v] == AtLeast(row, Pick(row, order)[|row| - k])[v] {
      SortedTopK(row, k, order, v);
      KthThreshold(row, k, t, row[v]);
    }
  }

  // ----- top-p on an ascending row -----

  function MassOf(exp: Exp, x: Logit): real {
    if x.NegInf? then 0.0 else exp(x.value)
  }

  function Masses(exp: Exp, s: seq<Logit>): (m: seq<real>)
    ensures |m| == |s|
  {
    seq(|s|, i requires 0 <= i < |s| => MassOf(exp, s[i]))
  }

  /** `cumsum(softmax(s)) > 1 - p`, false throughout when the softmax is undefined,
      with the last entry always kept. */
  function NucleusMask(masses: seq<real>, p: real): (m: seq<bool>)
    ensures |m| == |masses|
  {
    var total := RealSum(masses);
    seq(|masses|, i requires 0 <= i < |masses| =>
      i == |masses| - 1 || (total > 0.0 && RealSum(masses[..i + 1]) / total > 1.0 - p))
  }

  /** `mask` keeps exactly the entries from `start` on. */
  ghost predicate KeepsFrom(mask: seq<bool>, start: nat) {
    start < |mask| && forall i :: 0 <= i < |mask| ==> (mask[i] <==> start <= i)
  }

  lemma {:induction false} RealSumSplit(s: seq<real>, k: nat)
    requires k <= |s|
    ensures RealSum(s[..k]) + RealSum(s[k..]) == RealSum(s)
  {
    if k == |s| {
      assert s[..k] == s && s[k..] == [];
    } else {
      var n := |s| - 1;
      RealSumSplit(s[..n], k);
      assert s[..n][..k] == s[..k];
      assert s[k..][..n - k] == s[..n][k..];
    }
  }

  lemma {:induction false} PrefixMonotone(s: seq<real>, a: nat, b: nat)
    requires a <= b <= |s| && forall i :: 0 <= i < |s| ==> 0.0 <= s[i]
    ensures RealSum(s[..a]) <= RealSum(s[..b]) <= RealSum(s)
  {
    RealSumSplit(s[..b], a);
    assert s[..b][..a] == s[..a];
    RealSumNonNegative(s[..b][a..]);
    RealSumSplit(s, b);
    RealSumNonNegative(s[b..]);
  }

  /** Share of the total mass carried by the entries from `start` on. */
  function SuffixShare(masses: seq<real>, start: nat): real
    requires start <= |masses| && RealSum(masses) > 0.0
  {
    RealSum(masses[start..]) / RealSum(masses)
  }

  lemma {:induction false} SharesComplement(masses: seq<real>, k: nat)
    requires k <= |masses| && RealSum(masses) > 0.0
    ensures RealSum(masses[..k]) / RealSum(masses) == 1.0 - SuffixShare(masses, k)
  {
    RealSumSplit(masses, k);
    DivideSum(RealSum(masses[..k]), RealSum(masses[k..]), RealSum(masses));
  }

  lemma DivideSum(a: real, b: real, t: real)
    requires t > 0.0 && a + b == t
    ensures a / t == 1.0 - b / t
  {
    assert a / t + b / t == (a + b) / t;
  }

  lemma {:induction false} ShareOrder(masses: seq<real>, a: nat, b: nat)
    requires a <= b <= |masses| && RealSum(masses) > 0.0
    requires forall i :: 0 <= i < |masses| ==> 0.0 <= masses[i]
    ensures SuffixShare(masses, a) >= SuffixShare(masses, b)
  {
    RealSumSplit(masses, a);
    RealSumSplit(masses, b);
    PrefixMonotone(masses, a, b);
    DivideOrder(RealSum(masses[a..]), RealSum(masses[b..]), RealSum(masses));
  }

  lemma DivideOrder(a: real, b: real, t: real)
    requires t > 0.0 && a >= b
    ensures a / t >= b / t
  {
  }

  /** An entry is kept exactly when what follows it carries less than `p`. */
  lemma {:induction false} KeptByWhatFollows(masses: seq<real>, p: real, i: nat)
    requires i < |masses| && RealSum(masses) > 0.0
    ensures NucleusMask(masses, p)[i] <==> i == |masses| - 1 || SuffixShare(masses, i + 1) < p
  {
    SharesComplement(masses, i + 1);
  }

  /** The nucleus is the smallest non-empty suffix whose share reaches `p`. */
  lemma NucleusIsSmallestSuffix(masses: seq<real>, p: real) returns (start: nat)
    requires masses != [] && RealSum(masses) > 0.0 && p <= 1.0
    requires forall i :: 0 <= i < |masses| ==> 0.0 <= masses[i]
    ensures KeepsFrom(NucleusMask(masses, p), start)
    ensures SuffixShare(masses, start) >= p
    ensures forall t :: start < t < |masses| ==> SuffixShare(masses, t) < p
  {
    var mask := NucleusMask(masses, p);
    start := |masses| - 1;
    while start > 0 && SuffixShare(masses, start) < p
      invariant start < |masses|
      invariant forall t :: start < t < |masses| ==> SuffixShare(masses, t) < p
    {
      start := start - 1;
    }
    if start == 0 {
      assert masses[0..] == masses;
      SelfQuotient(RealSum(masses));
    }
    forall i | 0 <= i < |masses| ensures mask[i] <==> start <= i {
      KeptByWhatFollows(masses, p, i);
      if i < start {
        ShareOrder(masses, i + 1, start);
      }
    }
  }

  lemma SelfQuotient(x: real)
    requires x > 0.0
    ensures x / x == 1.0
  {
  }

  // ----- one row -----

  predicate NeedTopK(topK: Option<int>) {
    topK.Some? && topK.value > 0
  }

  /** The k-limited ascending row: below-threshold entries masked to -inf. */
  function TopKSorted(s: seq<Logit>, topK: Option<int>): (r: seq<Logit>)
    requires NeedTopK(topK) ==> topK.value <= |s|
    ensures |r| == |s|
  {
    if NeedTopK(topK) then Masked(s, TopKMask(s, topK)) else s
  }

  function TopKMask(s: seq<Logit>, topK: Option<int>): (m: seq<bool>)
    requires NeedTopK(topK) ==> topK.value <= |s|
    ensures |m| == |s|
  {
    if NeedTopK(topK) then AtLeast(s, s[|s| - topK.value]) else seq(|s|, _ => true)
  }

  function And(a: seq<bool>, b: seq<bool>): (m: seq<bool>)
    requires |a| == |b|
    ensures |m| == |a|
  {
    seq(|a|, i requires 0 <= i < |a| => a[i] && b[i])
  }

  /** The keep mask of an ascending row. */
  function KeepSorted(s: seq<Logit>, topK: Option<int>, p: real, exp: Exp): (m: seq<bool>)
    requires NeedTopK(topK) ==> topK.value <= |s|
    ensures |m| == |s|
  {
    And(TopKMask(s, topK), NucleusMask(Masses(exp, TopKSorted(s, topK)), p))
  }

  lemma MassesNonNegative(exp: Exp, s: seq<Logit>)
    requires Positive(exp)
    ensures forall i :: 0 <= i < |s| ==> 0.0 <= Masses(exp, s)[i]
  {
  }

  /** The smallest suffix whose share of the mass is at least `p`; without any mass,
      only the last entry. */
  ghost predicate NucleusFrom(masses: seq<real>, p: real, start: nat) {
    start < |masses| &&
    if RealSum(masses) > 0.0
    then SuffixShare(masses, start) >= p && forall t :: start < t < |masses| ==> SuffixShare(masses, t) < p
    else start == |masses| - 1
  }

  lemma NucleusMaskIsSuffix(masses: seq<real>, p: real) returns (start: nat)
    requires masses != [] && p <= 1.0 && forall i :: 0 <= i < |masses| ==> 0.0 <= masses[i]
    ensures KeepsFrom(NucleusMask(masses, p), start) && NucleusFrom(masses, p, start)
  {
    if RealSum(masses) > 0.0 {
      start := NucleusIsSmallestSuffix(masses, p);
    } else {
      start := |masses| - 1;
    }
  }

  /** Exactness on an ascending row: the kept entries are the smallest suffix whose
      renormalised mass, within the top-k entries, is at least `p`. */
  lemma KeepSortedIsNucleus(s: seq<Logit>, topK: Option<int>, p: real, exp: Exp) returns (start: nat)
    requires Ascending(s) && s != [] && Positive(exp) && p <= 1.0
    requires NeedTopK(topK) ==> topK.value <= |s|
    ensures KeepsFrom(KeepSorted(s, topK, p, exp), start)
    ensures NucleusFrom(Masses(exp, TopKSorted(s, topK)), p, start)
    ensures forall i :: start <= i < |s| ==> TopKMask(s, topK)[i]
  {
    var limited := TopKSorted(s, topK);
    MassesNonNegative(exp, limited);
    start := NucleusMaskIsSuffix(Masses(exp, limited), p);
    if NeedTopK(topK) {
      forall i | start <= i < |s| ensures TopKMask(s, topK)[i] {
        NucleusWithinTopK(s, topK, p, exp, i);
      }
    }
  }

  /** An entry below the top-k threshold never enters the nucleus. */
  lemma NucleusWithinTopK(s: seq<Logit>, topK: Option<int>, p: real, exp: Exp, i: nat)
    requires Ascending(s) && Positive(exp) && p <= 1.0 && i < |s|
    requires NeedTopK(topK) && topK.value <= |s|
    requires NucleusMask(Masses(exp, TopKSorted(s, topK)), p)[i]
    ensures TopKMask(s, topK)[i]
  {
    var t := s[|s| - topK.value];
    var masses := Masses(exp, TopKSorted(s, topK));
    if i == |s| - 1 {
      LeqTotal(t, t, t);
    } else if !TopKMask(s, topK)[i] {
      forall j | 0 <= j <= i ensures masses[j] == 0.0 {
        if Leq(t, s[j]) {
          LeqTotal(t, s[j], s[i]);
        }
      }
      RealSumZero(masses[..i + 1]);
    }
  }

  /** Filtered row and mask, back at the original vocabulary positions. */
  ghost predicate Filtered(row: seq<Logit>, order: seq<nat>, topK: Option<int>, p: real, exp: Exp,
                           filtered: seq<Logit>, mask: seq<bool>)
    requires IsPermutation(order, |row|) && (NeedTopK(topK) ==> topK.value <= |row|)
  {
    && |filtered| == |mask| == |row|
    && Pick(mask, order) == KeepSorted(Pick(row, order), topK, p, exp)
    && forall v :: 0 <= v < |row| ==> filtered[v] == if mask[v] then row[v] else NegInf
  }

  /** Under one sort answer a row has only one filtering. */
  lemma FilteringIsUnique(row: seq<Logit>, order: seq<nat>, topK: Option<int>, p: real, exp: Exp,
                          f: seq<Logit>, m: seq<bool>, f': seq<Logit>, m': seq<bool>)
    requires IsPermutation(order, |row|) && (NeedTopK(topK) ==> topK.value <= |row|)
    requires Filtered(row, order, topK, p, exp, f, m) && Filtered(row, order, topK, p, exp, f', m')
    ensures f == f' && m == m'
  {
    PickInjective(m, m', order);
  }

  /** One row of the chunk loop: sort, mask, scatter. */
  method FilterRow(row: seq<Logit>, order: seq<nat>, topK: Option<int>, p: real, exp: Exp)
    returns (filtered: seq<Logit>, mask: seq<bool>)
    requires IsPermutation(order, |row|) && (NeedTopK(topK) ==> topK.value <= |row|)
    ensures Filtered(row, order, topK, p, exp, filtered, mask)
  {
    var sorted := Pick(row, order);
    var limited := sorted;
    var kMask := seq(|row|, _ => true);
    if NeedTopK(topK) {
      kMask := AtLeast(sorted, sorted[|row| - topK.value]);
      limited := Masked(sorted, kMask);
    }
    var pMask := NucleusMask(Masses(exp, limited), p);
    var kept := Masked(limited, pMask);
    filtered := Scatter(order, kept);
    mask := Scatter(order, And(kMask, pMask));
    assert And(kMask, pMask) == KeepSorted(sorted, topK, p, exp);
    PermutationCovers(order, |row|);
    forall v | 0 <= v < |row| ensures filtered[v] == if mask[v] then row[v] else NegInf {
      assert v in order;
      var j :| 0 <= j < |order| && order[j] == v;
      assert Pick(filtered, order)[j] == kept[j] && Pick(mask, order)[j] == And(kMask, pMask)[j];
    }
  }

  // ----- the nucleus, token by token -----

  /** What each token weighs in the softmax. */
  function TokenMasses(row: seq<Logit>, exp: Exp): (w: seq<real>)
    ensures |w| == |row|
  {
    seq(|row|, v requires 0 <= v < |row| => if row[v].Fin? then exp(row[v].value) else 0.0)
  }

  /** The tokens a positive k admits: those with fewer than k larger logits. */
  function Admitted(row: seq<Logit>, topK: Option<int>): Condition {
    (v: nat) => v < |row| && (topK.Some? && topK.value > 0 ==> CountGreater(row, row[v]) < topK.value)
  }

  function Kept(m: seq<bool>): Condition {
    (v: nat) => v < |m| && m[v]
  }

  function KeptBut(m: seq<bool>, x: nat): Condition {
    (v: nat) => v < |m| && m[v] && v != x
  }

  /** The mask keeps the last tokens of an ascending order, all of them admitted. */
  ghost predicate KeepsLast(row: seq<Logit>, topK: Option<int>, m: seq<bool>, order: seq<nat>, start: nat) {
    && |m| == |row| && Sorts(order, row) && KeepsFrom(Pick(m, order), start)
    && forall v: nat :: v < |row| && m[v] ==> Admitted(row, topK)(v)
  }

  /** The mass of the admitted tokens, of the kept ones, and of those without their first. */
  datatype Mass = Mass(total: real, kept: real, rest: real)

  ghost predicate IsMass(row: seq<Logit>, topK: Option<int>, exp: Exp, m: seq<bool>, first: nat, mass: Mass) {
    var w, n := TokenMasses(row, exp), |row|;
    && mass.total == SumWhere(w, Admitted(row, topK), n)
    && mass.kept == SumWhere(w, Kept(m), n)
    && mass.rest == SumWhere(w, KeptBut(m, first), n)
  }

  /** The kept tokens carry at least `p` of the admitted mass, and without their first
      they would not, unless it is the only one. */
  predicate CarriesEnough(mass: Mass, p: real, alone: bool) {
    mass.kept >= p * mass.total && (alone || mass.rest < p * mass.total)
  }

  /** The nucleus of a row: the shortest such tail that carries enough. */
  ghost predicate IsNucleus(row: seq<Logit>, topK: Option<int>, p: real, exp: Exp, m: seq<bool>, order: seq<nat>, start: nat, mass: Mass) {
    && KeepsLast(row, topK, m, order, start)
    && IsMass(row, topK, exp, m, order[start], mass)
    && CarriesEnough(mass, p, start == |row| - 1)
  }

  /** The masses of the admitted tokens, zero for the others. */
  function AdmittedMasses(row: seq<Logit>, topK: Option<int>, exp: Exp): (w: seq<real>)
    ensures |w| == |row|
  {
    seq(|row|, v requires 0 <= v < |row| => if Admitted(row, topK)(v) then TokenMasses(row, exp)[v] else 0.0)
  }

  lemma {:induction false} SumOfPick(w: seq<real>, idx: seq<nat>)
    requires InRange(idx, |w|)
    ensures RealSum(Pick(w, idx)) == RealSumAt(w, idx)
  {
    if idx != [] {
      var n := |idx| - 1;
      SumOfPick(w, idx[..n]);
      assert Pick(w, idx)[..n] == Pick(w, idx[..n]);
      RealSumAtConcat(w, idx[..n], [idx[n]]);
      assert idx == idx[..n] + [idx[n]];
      assert RealSumAt(w, [idx[n]]) == w[idx[n]];
    }
  }

  /** In sorted order the masses are those of the admitted tokens. */
  lemma SortedMasses(row: seq<Logit>, order: seq<nat>, topK: Option<int>, exp: Exp)
    requires Sorts(order, row) && (NeedTopK(topK) ==> topK.value <= |row|)
    ensures Masses(exp, TopKSorted(Pick(row, order), topK)) == Pick(AdmittedMasses(row, topK, exp), order)
  {
    var s := Pick(row, order);
    forall i | 0 <= i < |row|
      ensures Masses(exp, TopKSorted(s, topK))[i] == AdmittedMasses(row, topK, exp)[order[i]]
    {
      var v := order[i];
      assert s[i] == row[v];
      if NeedTopK(topK) {
        var t := s[|row| - topK.value];
        SortedTopK(row, topK.value, order, v);
        assert TopKMask(s, topK)[i] == Leq(t, s[i]) == AtLeast(row, t)[v];
      }
      assert AdmittedMasses(row, topK, exp)[v] == if Admitted(row, topK)(v) then MassOf(exp, row[v]) else 0.0;
    }
  }

  /** The mass behind a place of the order is the mass of the tokens that stand there. */
  lemma {:induction false} SuffixMass(row: seq<Logit>, order: seq<nat>, topK: Option<int>, exp: Exp, start: nat, keep: Condition)
    requires Sorts(order, row) && (NeedTopK(topK) ==> topK.value <= |row|) && start <= |row|
    requires ListsWhere(order[start..], keep, |row|)
    ensures RealSum(Masses(exp, TopKSorted(Pick(row, order), topK))[start..])
            == SumWhere(AdmittedMasses(row, topK, exp), keep, |row|)
  {
    var w := AdmittedMasses(row, topK, exp);
    SortedMasses(row, order, topK, exp);
    assert Pick(w, order)[start..] == Pick(w, order[start..]);
    SumOfPick(w, order[start..]);
    SumOverList(w, order[start..], keep, |row|);
  }

  function Everything(): Condition {
    (_: nat) => true
  }

  lemma OrderListsAll(order: seq<nat>, n: nat)
    requires IsPermutation(order, n)
    ensures order[0..] == order && ListsWhere(order, Everything(), n)
  {
    PermutationCovers(order, n);
    forall v: nat ensures v in order <==> v < n {
      if v in order {
        var j :| 0 <= j < |order| && order[j] == v;
      }
    }
  }

  lemma SuffixListsKept(order: seq<nat>, m: seq<bool>, start: nat)
    requires IsPermutation(order, |m|) && KeepsFrom(Pick(m, order), start)
    ensures ListsWhere(order[start..], Kept(m), |m|)
    ensures ListsWhere(order[start + 1..], KeptBut(m, order[start]), |m|)
  {
    forall v: nat
      ensures v in order[start..] <==> v < |m| && m[v]
      ensures v in order[start + 1..] <==> v < |m| && m[v] && v != order[start]
    {
      if v < |m| {
        var j := PlaceOf(order, |m|, v);
        assert Pick(m, order)[j] == m[v];
        assert v in order[start..] <==> start <= j by {
          if start <= j { assert order[start..][j - start] == v; }
        }
        assert v in order[start + 1..] <==> start + 1 <= j by {
          if start + 1 <= j { assert order[start + 1..][j - start - 1] == v; }
        }
      } else {
        OrderBelow(order, |m|, v);
      }
    }
  }

  lemma OrderBelow(order: seq<nat>, n: nat, v: nat)
    requires InRange(order, n) && v >= n
    ensures v !in order
  {
  }

  /** The same as a sum over tokens, where `keep` and `tokens` differ at most on tokens
      that are not admitted. */
  lemma {:induction false} SuffixTokenMass(row: seq<Logit>, order: seq<nat>, topK: Option<int>, exp: Exp, start: nat,
                                           keep: Condition, tokens: Condition)
    requires Sorts(order, row) && (NeedTopK(topK) ==> topK.value <= |row|) && start <= |row|
    requires ListsWhere(order[start..], keep, |row|)
    requires forall v: nat :: v < |row| ==> (tokens(v) <==> keep(v) && Admitted(row, topK)(v))
    ensures RealSum(Masses(exp, TopKSorted(Pick(row, order), topK))[start..]) == SumWhere(TokenMasses(row, exp), tokens, |row|)
  {
    SuffixMass(row, order, topK, exp, start, keep);
    SumMasked(AdmittedMasses(row, topK, exp), TokenMasses(row, exp), keep, Admitted(row, topK), tokens);
  }

  lemma {:induction false} SumMasked(a: seq<real>, w: seq<real>, keep: Condition, admitted: Condition, tokens: Condition)
    requires |a| == |w|
    requires forall v: nat :: v < |a| ==> a[v] == if admitted(v) then w[v] else 0.0
    requires forall v: nat :: v < |a| ==> (tokens(v) <==> keep(v) && admitted(v))
    ensures SumWhere(a, keep, |a|) == SumWhere(w, tokens, |a|)
  {
    SumAgree(a, w, keep, tokens, |a|);
  }

  /** Where the admitted mass adds up: of all tokens, of the kept ones, and of the kept
      ones without the first. */
  lemma {:induction false} NucleusMasses(row: seq<Logit>, order: seq<nat>, topK: Option<int>, exp: Exp, m: seq<bool>, start: nat)
    requires Sorts(order, row) && (NeedTopK(topK) ==> topK.value <= |row|) && |m| == |row|
    requires KeepsFrom(Pick(m, order), start) && forall v: nat :: v < |row| && m[v] ==> Admitted(row, topK)(v)
    ensures var masses := Masses(exp, TopKSorted(Pick(row, order), topK));
            var w := TokenMasses(row, exp);
            && RealSum(masses) == SumWhere(w, Admitted(row, topK), |row|)
            && RealSum(masses[start..]) == SumWhere(w, Kept(m), |row|)
            && RealSum(masses[start + 1..]) == SumWhere(w, KeptBut(m, order[start]), |row|)
  {
    var masses := Masses(exp, TopKSorted(Pick(row, order), topK));
    assert RealSum(masses) == SumWhere(TokenMasses(row, exp), Admitted(row, topK), |row|) by {
      OrderListsAll(order, |row|);
      SuffixTokenMass(row, order, topK, exp, 0, Everything(), Admitted(row, topK));
      assert masses[0..] == masses;
    }
    assert RealSum(masses[start..]) == SumWhere(TokenMasses(row, exp), Kept(m), |row|) by {
      SuffixListsKept(order, m, start);
      SuffixTokenMass(row, order, topK, exp, start, Kept(m), Kept(m));
    }
    assert RealSum(masses[start + 1..]) == SumWhere(TokenMasses(row, exp), KeptBut(m, order[start]), |row|) by {
      SuffixListsKept(order, m, start);
      SuffixTokenMass(row, order, topK, exp, start + 1, KeptBut(m, order[start]), KeptBut(m, order[start]));
    }
  }

  lemma ShareAtLeast(part: real, total: real, p: real)
    requires total > 0.0
    ensures part / total >= p <==> part >= p * total
  {
    var q := part / total;
    assert q * total == part;
    ScaledOrder(q, p, total);
  }

  lemma ScaledOrder(x: real, y: real, t: real)
    requires t > 0.0
    ensures x >= y <==> x * t >= y * t
  {
  }

  // ----- the batch -----

  predicate NeedTopP(p: real) {
    p != 1.0
  }

  ghost predicate Rectangular(logits: seq<seq<Logit>>, vocab: nat) {
    forall i :: 0 <= i < |logits| ==> |logits[i]| == vocab
  }

  datatype Output = Output(logits: seq<seq<Logit>>, mask: Option<seq<seq<bool>>>)

  /** Each row's k-th largest value, where a k applies. */
  ghost predicate Kths(logits: seq<seq<Logit>>, topK: Option<int>, kths: seq<Logit>) {
    && |kths| == |logits|
    && forall i :: 0 <= i < |logits| && NeedTopK(topK) && topK.value <= |logits[i]| ==>
         IsKth(logits[i], topK.value, kths[i])
  }

  /** Kept exactly where fewer than k logits of the row are larger, and unchanged there. */
  ghost predicate TopKFiltered(row: seq<Logit>, k: int, f: seq<Logit>, m: seq<bool>) {
    && |f| == |m| == |row|
    && forall v :: 0 <= v < |row| ==>
         && (m[v] <==> CountGreater(row, row[v]) < k)
         && f[v] == if m[v] then row[v] else NegInf
  }

  /** `_apply_top_k_only_fn`. */
  method ApplyTopKOnly(logits: seq<seq<Logit>>, vocab: nat, topK: Option<int>, kths: seq<Logit>) returns (r: Result<Output>)
    requires Rectangular(logits, vocab) && Kths(logits, topK, kths)
    ensures !(topK.Some? && topK.value > 0) ==> r == Ok(Output(logits, None))
    ensures topK.Some? && topK.value > 0 ==> (r.Ok? <==> topK.value <= vocab)
    ensures topK.Some? && topK.value > 0 && r.Ok? ==>
      && r.value.mask.Some? && |r.value.logits| == |r.value.mask.value| == |logits|
      && forall i :: 0 <= i < |logits| ==>
           TopKFiltered(logits[i], topK.value, r.value.logits[i], r.value.mask.value[i])
  {
    if !NeedTopK(topK) {
      return Ok(Output(logits, None));
    }
    if topK.value > vocab {
      return Err(RuntimeError);
    }
    var out: seq<seq<Logit>> := [];
    var masks: seq<seq<bool>> := [];
    for i := 0 to |logits|
      invariant |out| == |masks| == i
      invariant forall j :: 0 <= j < i ==> TopKFiltered(logits[j], topK.value, out[j], masks[j])
    {
      var mask := AtLeast(logits[i], kths[i]);
      forall v | 0 <= v < vocab ensures mask[v] <==> CountGreater(logits[i], logits[i][v]) < topK.value {
        KthThreshold(logits[i], topK.value, kths[i], logits[i][v]);
      }
      out := out + [Masked(logits[i], mask)];
      masks := masks + [mask];
    }
    r := Ok(Output(out, Some(masks)));
  }

  /** An ascending order for every row. */
  ghost predicate AllSorted(logits: seq<seq<Logit>>, orders: seq<seq<nat>>) {
    |orders| == |logits| && forall i :: 0 <= i < |logits| ==> Sorts(orders[i], logits[i])
  }

  /** `f` and `m` are the filtering of `row` under an order that sorts it. */
  ghost predicate FilteredBy(order: seq<nat>, row: seq<Logit>, topK: Option<int>, p: real, exp: Exp,
                             f: seq<Logit>, m: seq<bool>)
  {
    Sorts(order, row) && (NeedTopK(topK) ==> topK.value <= |row|) && Filtered(row, order, topK, p, exp, f, m)
  }

  /** The filter is exact for every row: read in ascending order, the kept tokens are
      the smallest suffix whose renormalised mass among the top-k tokens is at least
      `p`; every kept token has fewer than k larger logits; and kept positions hold
      their original logit while all others hold -inf. */
  lemma FilteredRowIsExact(order: seq<nat>, row: seq<Logit>, topK: Option<int>, p: real, exp: Exp,
                           f: seq<Logit>, m: seq<bool>) returns (start: nat)
    requires FilteredBy(order, row, topK, p, exp, f, m) && row != [] && Positive(exp) && p <= 1.0
    ensures KeepsFrom(Pick(m, order), start)
    ensures NucleusFrom(Masses(exp, TopKSorted(Pick(row, order), topK)), p, start)
    ensures NeedTopK(topK) ==> forall v :: 0 <= v < |row| && m[v] ==> CountGreater(row, row[v]) < topK.value
    ensures forall v :: 0 <= v < |row| ==> f[v] == if m[v] then row[v] else NegInf
  {
    start := KeepSortedIsNucleus(Pick(row, order), topK, p, exp);
    if NeedTopK(topK) {
      forall v | 0 <= v < |row| && m[v]
        ensures CountGreater(row, row[v]) < topK.value
      {
        var j := KeptPlace(order, m, start, v);
        assert TopKMask(Pick(row, order), topK)[j];
        AboveThreshold(row, topK.value, order, Pick(row, order), row[v]);
      }
    }
  }

  /** The nucleus in terms of the logits alone, for every `p` up to one. */
  lemma FilteredRowIsNucleus(order: seq<nat>, row: seq<Logit>, topK: Option<int>, p: real, exp: Exp,
                             f: seq<Logit>, m: seq<bool>) returns (start: nat, mass: Mass)
    requires FilteredBy(order, row, topK, p, exp, f, m) && row != [] && Positive(exp) && p <= 1.0
    ensures IsNucleus(row, topK, p, exp, m, order, start, mass)
  {
    start := FilteredRowIsExact(order, row, topK, p, exp, f, m);
    NucleusMasses(row, order, topK, exp, m, start);
    MassesNonNegative(exp, TopKSorted(Pick(row, order), topK));
    mass := NucleusBounds(Masses(exp, TopKSorted(Pick(row, order), topK)), p, start);
  }

  lemma NucleusBounds(masses: seq<real>, p: real, start: nat) returns (mass: Mass)
    requires NucleusFrom(masses, p, start) && forall i :: 0 <= i < |masses| ==> 0.0 <= masses[i]
    ensures mass == Mass(RealSum(masses), RealSum(masses[start..]), RealSum(masses[start + 1..]))
    ensures CarriesEnough(mass, p, start == |masses| - 1)
  {
    var total, kept, rest := RealSum(masses), RealSum(masses[start..]), RealSum(masses[start + 1..]);
    mass := Mass(total, kept, rest);
    RealSumNonNegative(masses);
    RealSumNonNegative(masses[start..]);
    assert total > 0.0 && start < |masses| - 1 ==> rest / total < p by {
      if total > 0.0 && start < |masses| - 1 {
        assert SuffixShare(masses, start + 1) < p;
      }
    }
    BoundsFromShares(mass, p, start == |masses| - 1);
  }

  lemma BoundsFromShares(mass: Mass, p: real, alone: bool)
    requires mass.total >= 0.0 && mass.kept >= 0.0 && (mass.total == 0.0 ==> alone)
    requires mass.total > 0.0 ==> mass.kept / mass.total >= p && (!alone ==> mass.rest / mass.total < p)
    ensures CarriesEnough(mass, p, alone)
  {
    if mass.total > 0.0 {
      ShareAtLeast(mass.kept, mass.total, p);
      ShareAtLeast(mass.rest, mass.total, p);
    }
  }

  /** Where a token stands in the sorted row. */
  lemma PlaceOf(order: seq<nat>, n: nat, v: nat) returns (j: nat)
    requires IsPermutation(order, n) && v < n
    ensures j < n && order[j] == v
  {
    PermutationCovers(order, n);
    assert v in order;
    j :| 0 <= j < |order| && order[j] == v;
  }

  /** A kept token stands at or behind the start of the nucleus. */
  lemma KeptPlace(order: seq<nat>, m: seq<bool>, start: nat, v: nat) returns (j: nat)
    requires IsPermutation(order, |m|) && v < |m| && m[v] && KeepsFrom(Pick(m, order), start)
    ensures start <= j < |m| && order[j] == v
  {
    j := PlaceOf(order, |m|, v);
    assert Pick(m, order)[j];
  }

  lemma {:induction false} AboveThreshold(row: seq<Logit>, k: nat, order: seq<nat>, s: seq<Logit>, x: Logit)
    requires IsPermutation(order, |row|) && s == Pick(row, order) && Ascending(s)
    requires 0 < k <= |row| && Leq(s[|row| - k], x)
    ensures CountGreater(row, x) < k
  {
    SortedThreshold(s, k);
    CountPermuted(row, order, x);
    KthThreshold(s, k, s[|row| - k], x);
  }

  // ----- ties -----

  /** Sorting has one result, whichever order produced it. */
  lemma SortedRowsAgree(row: seq<Logit>, a: seq<nat>, b: seq<nat>)
    requires Sorts(a, row) && Sorts(b, row)
    ensures Pick(row, a) == Pick(row, b)
  {
    forall i | 0 <= i < |row|
      ensures Pick(row, a)[i] == Pick(row, b)[i]
    {
      SortedEntryBelow(row, a, b, i);
      SortedEntryBelow(row, b, a, i);
    }
  }

  lemma SortedEntryBelow(row: seq<Logit>, a: seq<nat>, b: seq<nat>, i: nat)
    requires Sorts(a, row) && Sorts(b, row) && i < |row|
    ensures Leq(Pick(row, a)[i], Pick(row, b)[i])
  {
    var s, t := Pick(row, a), Pick(row, b);
    SortedThreshold(s, |row| - i);
    SortedThreshold(t, |row| - i);
    CountPermuted(row, a, t[i]);
    CountPermuted(row, b, t[i]);
    KthThreshold(s, |row| - i, s[i], t[i]);
  }

  /** The boundary of the nucleus runs between two equal logits. */
  predicate SplitsTie(s: seq<Logit>, start: nat) {
    0 < start < |s| && s[start - 1] == s[start]
  }

  /** A token above the boundary logit is kept, one below is not; at the boundary
      itself the sort answer decides, and only if the boundary splits a tie. */
  lemma KeptByValue(order: seq<nat>, row: seq<Logit>, m: seq<bool>, start: nat, v: nat)
    requires Sorts(order, row) && |m| == |row| && v < |row| && KeepsFrom(Pick(m, order), start)
    ensures Greater(row[v], Pick(row, order)[start]) ==> m[v]
    ensures Greater(Pick(row, order)[start], row[v]) ==> !m[v]
    ensures !SplitsTie(Pick(row, order), start) && row[v] == Pick(row, order)[start] ==> m[v]
  {
    var s := Pick(row, order);
    var j := PlaceOf(order, |row|, v);
    assert s[j] == row[v] && m[v] == Pick(m, order)[j];
    LeqTotal(s[start], s[j], s[j]);
    if j < start {
      assert Leq(s[j], s[start - 1]) || j == start - 1;
      assert Leq(s[start - 1], s[start]);
    }
  }

  /** Two filterings agree wherever the logit is not `boundary`, and hold the same
      logits equally often. */
  ghost predicate AgreeUpTo(row: seq<Logit>, boundary: Logit, f: seq<Logit>, m: seq<bool>, f': seq<Logit>, m': seq<bool>) {
    && |f| == |f'| == |m| == |m'| == |row|
    && multiset(f) == multiset(f')
    && forall v :: 0 <= v < |row| && row[v] != boundary ==> m[v] == m'[v] && f[v] == f'[v]
  }

  lemma SameMultiset(row: seq<Logit>, a: seq<nat>, b: seq<nat>, topK: Option<int>, p: real, exp: Exp,
                     f: seq<Logit>, m: seq<bool>, f': seq<Logit>, m': seq<bool>)
    requires FilteredBy(a, row, topK, p, exp, f, m) && FilteredBy(b, row, topK, p, exp, f', m')
    requires Pick(row, a) == Pick(row, b)
    ensures multiset(f) == multiset(f')
  {
    assert Pick(f, a) == Pick(f', b) by {
      forall i | 0 <= i < |row|
        ensures Pick(f, a)[i] == Pick(f', b)[i]
      {
        assert m[a[i]] == Pick(m, a)[i] && m'[b[i]] == Pick(m', b)[i];
        assert row[a[i]] == Pick(row, a)[i] && row[b[i]] == Pick(row, b)[i];
      }
    }
    PickMultiset(f, a);
    PickMultiset(f', b);
  }

  /** Two sort answers, as two chunkings may get them: the sorted rows, their keep
      masks and the kept logits agree, the outputs differ at most on tokens of the
      boundary logit, and not at all unless the boundary splits a tie. */
  lemma FilteringUpToTies(row: seq<Logit>, a: seq<nat>, b: seq<nat>, topK: Option<int>, p: real, exp: Exp,
                          f: seq<Logit>, m: seq<bool>, f': seq<Logit>, m': seq<bool>) returns (start: nat)
    requires FilteredBy(a, row, topK, p, exp, f, m) && FilteredBy(b, row, topK, p, exp, f', m')
    requires row != [] && Positive(exp) && p <= 1.0
    ensures Pick(row, a) == Pick(row, b) && Pick(m, a) == Pick(m', b) && KeepsFrom(Pick(m, a), start)
    ensures AgreeUpTo(row, Pick(row, a)[start], f, m, f', m')
    ensures !SplitsTie(Pick(row, a), start) ==> m == m' && f == f'
  {
    SortedRowsAgree(row, a, b);
    start := KeepSortedIsNucleus(Pick(row, a), topK, p, exp);
    SameMultiset(row, a, b, topK, p, exp, f, m, f', m');
    var boundary := Pick(row, a)[start];
    forall v | 0 <= v < |row|
      ensures row[v] != boundary || !SplitsTie(Pick(row, a), start) ==> m[v] == m'[v] && f[v] == f'[v]
    {
      KeptAlike(row, a, b, m, m', start, v);
    }
  }

  lemma KeptAlike(row: seq<Logit>, a: seq<nat>, b: seq<nat>, m: seq<bool>, m': seq<bool>, start: nat, v: nat)
    requires Sorts(a, row) && Sorts(b, row) && Pick(row, a) == Pick(row, b) && |m| == |m'| == |row| && v < |row|
    requires KeepsFrom(Pick(m, a), start) && KeepsFrom(Pick(m', b), start)
    ensures row[v] != Pick(row, a)[start] || !SplitsTie(Pick(row, a), start) ==> m[v] == m'[v]
  {
    KeptByValue(a, row, m, start, v);
    KeptByValue(b, row, m', start, v);
    LeqTotal(row[v], Pick(row, a)[start], row[v]);
  }

  /** When the boundary splits a tie, another sort answer does change the output. */
  lemma TieIsObservable(row: seq<Logit>, a: seq<nat>, topK: Option<int>, p: real, exp: Exp,
                        f: seq<Logit>, m: seq<bool>, start: nat)
    returns (b: seq<nat>, f': seq<Logit>, m': seq<bool>)
    requires FilteredBy(a, row, topK, p, exp, f, m) && KeepsFrom(Pick(m, a), start) && SplitsTie(Pick(row, a), start)
    ensures FilteredBy(b, row, topK, p, exp, f', m') && m' != m
  {
    var x, y := a[start - 1], a[start];
    b := a[start - 1 := y][start := x];
    m' := m[x := true][y := false];
    f' := f[x := row[x]][y := NegInf];
    assert x != y && Pick(m, a)[start - 1] == m[x];
    SwapPicks(row, a, b, start);
    SwapPermutes(a, b, |row|, start);
    SwapMask(m, m', a, b, start);
  }

  /** Swapping the two places and the two marks leaves the sorted mask as it was. */
  lemma SwapMask(m: seq<bool>, m': seq<bool>, a: seq<nat>, b: seq<nat>, start: nat)
    requires IsPermutation(a, |m|) && 0 < start && KeepsFrom(Pick(m, a), start)
    requires b == a[start - 1 := a[start]][start := a[start - 1]] && InRange(b, |m|)
    requires m' == m[a[start - 1] := true][a[start] := false]
    ensures Pick(m', b) == Pick(m, a)
  {
    var x, y := a[start - 1], a[start];
    forall i | 0 <= i < |m|
      ensures m'[b[i]] == Pick(m, a)[i]
    {
      if i == start - 1 {
        assert b[i] == y;
      } else if i == start {
        assert b[i] == x && x != y;
      } else {
        assert b[i] == a[i] && a[i] != x && a[i] != y;
      }
    }
  }

  lemma SwapPermutes(a: seq<nat>, b: seq<nat>, n: nat, start: nat)
    requires IsPermutation(a, n) && 0 < start < n && b == a[start - 1 := a[start]][start := a[start - 1]]
    ensures IsPermutation(b, n)
  {
  }

  lemma SwapPicks(row: seq<Logit>, a: seq<nat>, b: seq<nat>, start: nat)
    requires IsPermutation(a, |row|) && SplitsTie(Pick(row, a), start)
    requires b == a[start - 1 := a[start]][start := a[start - 1]]
    ensures InRange(b, |row|) && Pick(row, b) == Pick(row, a)
  {
    assert Pick(row, a)[start - 1] == row[a[start - 1]] && Pick(row, a)[start] == row[a[start]];
  }

  /** Every row of the output is the filtering of its input row. */
  ghost predicate AllFiltered(logits: seq<seq<Logit>>, orders: seq<seq<nat>>, topK: Option<int>, p: real, exp: Exp,
                              out: seq<seq<Logit>>, masks: seq<seq<bool>>)
  {
    && |orders| == |out| == |masks| == |logits|
    && forall i :: 0 <= i < |logits| ==> FilteredBy(orders[i], logits[i], topK, p, exp, out[i], masks[i])
  }

  /** Two outputs for the same logits, under any two chunkings and the sort answers
      each of them got, agree row by row up to the order of ties. */
  lemma ChunkingAgreesUpToTies(logits: seq<seq<Logit>>, a: seq<seq<nat>>, b: seq<seq<nat>>, topK: Option<int>, p: real, exp: Exp,
                               out: seq<seq<Logit>>, masks: seq<seq<bool>>, out': seq<seq<Logit>>, masks': seq<seq<bool>>, i: nat)
    returns (boundary: Logit)
    requires AllFiltered(logits, a, topK, p, exp, out, masks) && AllFiltered(logits, b, topK, p, exp, out', masks')
    requires i < |logits| && logits[i] != [] && Positive(exp) && p <= 1.0
    ensures boundary in logits[i]
    ensures AgreeUpTo(logits[i], boundary, out[i], masks[i], out'[i], masks'[i])
  {
    var start := FilteringUpToTies(logits[i], a[i], b[i], topK, p, exp, out[i], masks[i], out'[i], masks'[i]);
    boundary := Pick(logits[i], a[i])[start];
    assert boundary == logits[i][a[i][start]];
  }

  /** The row keeps a nucleus, its logits there and -inf elsewhere. */
  ghost predicate NucleusRow(row: seq<Logit>, topK: Option<int>, p: real, exp: Exp, f: seq<Logit>, m: seq<bool>) {
    && |f| == |m| == |row|
    && (exists order, start, mass :: IsNucleus(row, topK, p, exp, m, order, start, mass))
    && forall v :: 0 <= v < |row| ==> f[v] == if m[v] then row[v] else NegInf
  }

  lemma FilteredAreNuclei(logits: seq<seq<Logit>>, orders: seq<seq<nat>>, topK: Option<int>, p: real, exp: Exp,
                          out: seq<seq<Logit>>, masks: seq<seq<bool>>)
    requires AllFiltered(logits, orders, topK, p, exp, out, masks) && Positive(exp) && p <= 1.0
    requires forall i :: 0 <= i < |logits| ==> logits[i] != []
    ensures forall i :: 0 <= i < |logits| ==> NucleusRow(logits[i], topK, p, exp, out[i], masks[i])
  {
    forall i | 0 <= i < |logits| ensures NucleusRow(logits[i], topK, p, exp, out[i], masks[i]) {
      var start, mass := FilteredRowIsNucleus(orders[i], logits[i], topK, p, exp, out[i], masks[i]);
    }
  }

  /** `_apply_top_k_top_p_fn`.  `orders` are the sort answers the chunks got; the chunk
      size itself leaves no trace in the result. */
  method ApplyTopKTopP(logits: seq<seq<Logit>>, vocab: nat, topK: Option<int>, p: real, chunkSize: Option<nat>,
                       orders: seq<seq<nat>>, kths: seq<Logit>, exp: Exp)
    returns (r: Result<Output>)
    requires Rectangular(logits, vocab) && AllSorted(logits, orders) && Kths(logits, topK, kths)
    ensures p == 1.0 && !(topK.Some? && topK.value > 0) ==> r == Ok(Output(logits, None))
    ensures p == 1.0 && topK.Some? && topK.value > 0 ==> (r.Ok? <==> topK.value <= vocab)
    ensures p == 1.0 && topK.Some? && topK.value > 0 && r.Ok? ==>
      && r.value.mask.Some? && |r.value.logits| == |r.value.mask.value| == |logits|
      && forall i :: 0 <= i < |logits| ==>
           TopKFiltered(logits[i], topK.value, r.value.logits[i], r.value.mask.value[i])
    ensures p != 1.0 ==> (r.Ok? <==>
      && vocab > 0
      && (if chunkSize.Some? then chunkSize.value > 0 else logits != [])
      && (logits != [] && topK.Some? && topK.value > 0 ==> topK.value <= vocab))
    ensures p != 1.0 && r.Ok? ==>
      r.value.mask.Some? && AllFiltered(logits, orders, topK, p, exp, r.value.logits, r.value.mask.value)
    ensures p < 1.0 && Positive(exp) && r.Ok? ==>
      && r.value.mask.Some? && |r.value.logits| == |r.value.mask.value| == |logits|
      && forall i :: 0 <= i < |logits| ==> NucleusRow(logits[i], topK, p, exp, r.value.logits[i], r.value.mask.value[i])
  {
    if !NeedTopP(p) {
      r := ApplyTopKOnly(logits, vocab, topK, kths);
      return;
    }
    if vocab == 0 {
      return Err(RuntimeError);
    }
    var n := |logits|;
    var size := if chunkSize.Some? then chunkSize.value else n;
    if size == 0 {
      return Err(ValueError);
    }
    if n > 0 && NeedTopK(topK) && topK.value > vocab {
      return Err(IndexError);
    }
    var out, masks := FilterChunks(logits, orders, size, topK, p, exp);
    if p < 1.0 && Positive(exp) {
      FilteredAreNuclei(logits, orders, topK, p, exp, out, masks);
    }
    r := Ok(Output(out, Some(masks)));
  }

  /** The first `n` rows of the preallocated outputs hold their filterings. */
  ghost predicate DoneUpTo(logits: seq<seq<Logit>>, orders: seq<seq<nat>>, topK: Option<int>, p: real, exp: Exp,
                           filteredLogits: array<seq<Logit>>, keepMask: array<seq<bool>>, n: nat)
    reads filteredLogits, keepMask
  {
    && |orders| == |logits| == filteredLogits.Length == keepMask.Length && n <= |logits|
    && forall i :: 0 <= i < n ==> FilteredBy(orders[i], logits[i], topK, p, exp, filteredLogits[i], keepMask[i])
  }

  /** One chunk, row by row. */
  method FilterChunk(logits: seq<seq<Logit>>, orders: seq<seq<nat>>, topK: Option<int>, p: real, exp: Exp,
                     filteredLogits: array<seq<Logit>>, keepMask: array<seq<bool>>, start: nat, end: nat)
    requires DoneUpTo(logits, orders, topK, p, exp, filteredLogits, keepMask, start)
    requires start <= end <= |logits| && AllSorted(logits, orders)
    requires NeedTopK(topK) ==> forall i :: 0 <= i < |logits| ==> topK.value <= |logits[i]|
    modifies filteredLogits, keepMask
    ensures DoneUpTo(logits, orders, topK, p, exp, filteredLogits, keepMask, end)
  {
    for row := start to end
      invariant DoneUpTo(logits, orders, topK, p, exp, filteredLogits, keepMask, row)
    {
      var filtered, mask := FilterRow(logits[row], orders[row], topK, p, exp);
      filteredLogits[row], keepMask[row] := filtered, mask;
    }
  }

  /** The chunk loop over preallocated outputs. */
  method FilterChunks(logits: seq<seq<Logit>>, orders: seq<seq<nat>>, size: nat, topK: Option<int>, p: real, exp: Exp)
    returns (out: seq<seq<Logit>>, masks: seq<seq<bool>>)
    requires size > 0 && AllSorted(logits, orders)
    requires NeedTopK(topK) ==> forall i :: 0 <= i < |logits| ==> topK.value <= |logits[i]|
    ensures AllFiltered(logits, orders, topK, p, exp, out, masks)
  {
    var n := |logits|;
    var filteredLogits := new seq<Logit>[n];
    var keepMask := new seq<bool>[n];
    var start := 0;
    while start < n
      invariant 0 <= start
      invariant DoneUpTo(logits, orders, topK, p, exp, filteredLogits, keepMask, Min(start, n))
    {
      FilterChunk(logits, orders, topK, p, exp, filteredLogits, keepMask, start, Min(start + size, n));
      start := start + size;
    }
    out, masks := filteredLogits[..], keepMask[..];
  }
}
