/** `allocate_rollout_budget` and what it promises about the rows it keeps. */
module RolloutBudget {
  import opened Sums
  import opened Sorting
  import opened Grouping
  import opened Totals
  import opened Options
  import opened Power
  import opened Apportionment
  import opened RolloutAllocation

  // ----- specification -----

  function Take(rows: seq<nat>, quota: nat): (t: seq<nat>)
    ensures |t| == Min(quota, |rows|)
    ensures t <= rows
  {
    rows[..Min(quota, |rows|)]
  }

  /** The first `quota` rows of each of the first `m` groups. */
  function GatherUpTo(rows: seq<seq<nat>>, quotas: seq<nat>, m: nat): seq<nat>
    requires m <= |rows| == |quotas|
  {
    if m == 0 then [] else GatherUpTo(rows, quotas, m - 1) + Take(rows[m - 1], quotas[m - 1])
  }

  function Ascending(): (nat, nat) -> bool {
    (a: nat, b: nat) => a <= b
  }

  ghost predicate Problem(ids: seq<int>, weights: seq<real>, s: Settings, pow: Pow) {
    |weights| == |ids| && ValidSettings(s, |ids|) && PowerLaws(pow)
  }

  /** Graded weight of every group, in first-appearance order. */
  function Grades(ids: seq<int>, weights: seq<real>, s: Settings, pow: Pow): (g: seq<real>)
    requires Problem(ids, weights, s, pow)
    ensures Weighted(g, Available(ids))
  {
    RowsPerGroupLaws(ids);
    GradedNonNegative(RowsPerGroup(ids), weights, s, pow);
    GradedWeights(RowsPerGroup(ids), weights, s, pow)
  }

  function Available(ids: seq<int>): (a: seq<nat>)
    ensures |a| == |GroupOrder(ids)|
  {
    Lengths(RowsPerGroup(ids))
  }

  function FloorOf(s: Settings): nat {
    Max(0, s.minRolloutsPerPrompt)
  }

  function QuotasOf(ids: seq<int>, weights: seq<real>, budget: nat, s: Settings, pow: Pow): (q: seq<nat>)
    requires Problem(ids, weights, s, pow)
    ensures |q| == |GroupOrder(ids)|
  {
    RowsPerGroupLaws(ids);
    Quotas(Grades(ids, weights, s, pow), GroupMeans(weights, RowsPerGroup(ids)), Available(ids), FloorOf(s), budget)
  }

  function Allocate(ids: seq<int>, weights: seq<real>, budget: int, s: Settings, pow: Pow): (kept: seq<nat>)
    requires Problem(ids, weights, s, pow)
  {
    if budget >= |ids| then Iota(|ids|)
    else if budget <= 0 then []
    else
      Sort(Ascending(), GatherUpTo(RowsPerGroup(ids), QuotasOf(ids, weights, budget, s, pow), |GroupOrder(ids)|))
  }

  lemma RowsPerGroupLaws(ids: seq<int>)
    ensures Groups(RowsPerGroup(ids), |ids|)
  {
    var order := GroupOrder(ids);
    GroupOrderLaws(ids);
    forall k | 0 <= k < |order|
      ensures RowsPerGroup(ids)[k] != [] && InRange(RowsPerGroup(ids)[k], |ids|)
    {
      assert order[k] in order;
      RowsOfEmpty(ids, order[k]);
      RowsOfLaws(ids, order[k]);
    }
  }

  lemma GradedNonNegative(rows: seq<seq<nat>>, weights: seq<real>, s: Settings, pow: Pow)
    requires Groups(rows, |weights|) && ValidSettings(s, |weights|) && PowerLaws(pow)
    ensures forall k :: 0 <= k < |rows| ==> 0.0 <= GradedWeights(rows, weights, s, pow)[k]
  {
    var a := Powers(pow, GroupMeans(weights, rows), s.varianceExponent);
    var b := DiversityFactor(rows, s.diversity, s.diversityExponent, pow);
    forall k | 0 <= k < |rows| ensures 0.0 <= Times(a, b)[k] {
      assert 0.0 <= a[k] && 0.0 <= b[k];
    }
  }

  // ----- the same quantities, row by row -----

  /** Mean of a column over the rows of group `g`, at least zero. */
  ghost function MeanIn(ids: seq<int>, values: seq<real>, g: int): real {
    var mean := MeanWhere(values, Carries(ids, g));
    if mean < 0.0 then 0.0 else mean
  }

  ghost function SizeOf(ids: seq<int>, g: int): nat {
    CountWhere(Carries(ids, g), |ids|)
  }

  /** No group shows any diversity. */
  ghost predicate NoSpread(ids: seq<int>, diversity: seq<real>) {
    forall g :: g in ids ==> MeanIn(ids, diversity, g) == 0.0
  }

  /** What a group is worth: the power of its mean std times the power of its mean
      diversity, if there is such a column, its exponent is not zero and some group
      shows any. */
  ghost function Worth(ids: seq<int>, weights: seq<real>, s: Settings, pow: Pow, g: int): real {
    pow(MeanIn(ids, weights, g), s.varianceExponent) *
    if s.diversity.None? || s.diversityExponent == 0.0 || NoSpread(ids, s.diversity.value) then 1.0
    else pow(MeanIn(ids, s.diversity.value, g), s.diversityExponent)
  }

  /** How many rows the floors take: those with fewer than `floor` earlier rows in
      their group. */
  ghost function FloorsNeeded(ids: seq<int>, floor: int): nat {
    if ids == [] then 0
    else
      var n := |ids| - 1;
      FloorsNeeded(ids[..n], floor) + if CountWhere(Carries(ids, ids[n]), n) < floor then 1 else 0
  }

  lemma {:induction false} GroupListed(ids: seq<int>, k: nat)
    requires k < |GroupOrder(ids)|
    ensures ListsWhere(RowsPerGroup(ids)[k], Carries(ids, GroupOrder(ids)[k]), |ids|)
  {
    RowsOfLaws(ids, GroupOrder(ids)[k]);
  }

  lemma {:induction false} GroupSize(ids: seq<int>, k: nat)
    requires k < |GroupOrder(ids)|
    ensures Available(ids)[k] == SizeOf(ids, GroupOrder(ids)[k])
  {
    GroupListed(ids, k);
    CountOfList(RowsPerGroup(ids)[k], Carries(ids, GroupOrder(ids)[k]), |ids|);
  }

  lemma {:induction false} GroupMeanIs(ids: seq<int>, values: seq<real>, k: nat)
    requires |values| == |ids| && k < |GroupOrder(ids)|
    ensures Groups(RowsPerGroup(ids), |values|)
    ensures GroupMeans(values, RowsPerGroup(ids))[k] == MeanIn(ids, values, GroupOrder(ids)[k])
  {
    RowsPerGroupLaws(ids);
    GroupListed(ids, k);
    MeanOfList(values, RowsPerGroup(ids)[k], Carries(ids, GroupOrder(ids)[k]));
  }

  lemma NoSpreadIs(ids: seq<int>, diversity: seq<real>)
    requires |diversity| == |ids|
    ensures Groups(RowsPerGroup(ids), |diversity|)
    ensures NoSpread(ids, diversity) <==> RealSum(GroupMeans(diversity, RowsPerGroup(ids))) <= 0.0
  {
    RowsPerGroupLaws(ids);
    GroupOrderLaws(ids);
    var means := GroupMeans(diversity, RowsPerGroup(ids));
    RealSumNonNegative(means);
    forall k | 0 <= k < |means|
      ensures means[k] == MeanIn(ids, diversity, GroupOrder(ids)[k]) && GroupOrder(ids)[k] in ids
    {
      GroupMeanIs(ids, diversity, k);
      OrderListed(ids, k);
    }
    if NoSpread(ids, diversity) {
      RealSumZero(means);
    } else {
      var g :| g in ids && MeanIn(ids, diversity, g) != 0.0;
      var k := GroupPlace(ids, g);
      assert means[k] > 0.0;
    }
  }

  lemma GroupPlace(ids: seq<int>, g: int) returns (k: nat)
    requires g in ids
    ensures k < |GroupOrder(ids)| && GroupOrder(ids)[k] == g
  {
    GroupOrderLaws(ids);
    k :| 0 <= k < |GroupOrder(ids)| && GroupOrder(ids)[k] == g;
  }

  lemma {:induction false} GradeIsWorth(ids: seq<int>, weights: seq<real>, s: Settings, pow: Pow, k: nat)
    requires Problem(ids, weights, s, pow) && k < |GroupOrder(ids)|
    ensures Grades(ids, weights, s, pow)[k] == Worth(ids, weights, s, pow, GroupOrder(ids)[k])
  {
    GroupMeanIs(ids, weights, k);
    if s.diversity.Some? {
      NoSpreadIs(ids, s.diversity.value);
      GroupMeanIs(ids, s.diversity.value, k);
    }
  }

  lemma FloorJoins(ids: seq<int>, floor: nat, k: nat)
    requires ids != [] && k < |GroupOrder(ids[..|ids| - 1])| && GroupOrder(ids[..|ids| - 1])[k] == ids[|ids| - 1]
    ensures Sum(Floors(Available(ids), floor)) == Sum(Floors(Available(ids[..|ids| - 1]), floor))
            + if Available(ids[..|ids| - 1])[k] < floor then 1 else 0
  {
    RowJoins(ids, k);
    var before := Available(ids[..|ids| - 1]);
    var floors := Floors(before, floor);
    assert Floors(Available(ids), floor) == floors[k := Min(floor, before[k] + 1)];
    SumUpdate(floors, k, Min(floor, before[k] + 1));
  }

  lemma FloorOpens(ids: seq<int>, floor: nat)
    requires ids != [] && ids[|ids| - 1] !in GroupOrder(ids[..|ids| - 1])
    ensures Sum(Floors(Available(ids), floor)) == Sum(Floors(Available(ids[..|ids| - 1]), floor)) + Min(floor, 1)
  {
    RowOpens(ids);
    var before := Available(ids[..|ids| - 1]);
    assert Floors(Available(ids), floor) == Floors(before, floor) + [Min(floor, 1)];
    SumSnoc(Floors(before, floor), Min(floor, 1));
  }

  lemma {:induction false} FloorsAre(ids: seq<int>, floor: int)
    ensures Sum(Floors(Available(ids), Max(0, floor))) == FloorsNeeded(ids, floor)
  {
    if ids != [] {
      var n := |ids| - 1;
      var init, g := ids[..n], ids[n];
      FloorsAre(init, floor);
      CountAgree(Carries(ids, g), Carries(init, g), n);
      GroupOrderLaws(init);
      if g in GroupOrder(init) {
        var k := GroupPlace(init, g);
        GroupSize(init, k);
        FloorJoins(ids, Max(0, floor), k);
      } else {
        FloorOpens(ids, Max(0, floor));
        CountNone(Carries(init, g), n);
      }
    }
  }

  // ----- which rows are gathered -----

  /** How many kept rows belong to group `g`. */
  ghost function KeptCount(ids: seq<int>, kept: seq<nat>, g: int): int
    requires InRange(kept, |ids|)
  {
    SumAt(Indicator(ids, g), kept)
  }

  ghost function Indicator(ids: seq<int>, g: int): (s: seq<int>)
    ensures |s| == |ids|
  {
    seq(|ids|, r requires 0 <= r < |ids| => if ids[r] == g then 1 else 0)
  }

  ghost predicate KeptWhole(ids: seq<int>, kept: seq<nat>, g: int) {
    forall r: nat :: r < |ids| && ids[r] == g ==> r in kept
  }

  /** Rows of different groups differ. */
  lemma {:induction false} RowsApart(ids: seq<int>, k: nat, m: nat, p: nat)
    requires k < |GroupOrder(ids)| && m < |GroupOrder(ids)| && k != m
    requires p < |RowsPerGroup(ids)[k]|
    ensures RowsPerGroup(ids)[k][p] !in RowsPerGroup(ids)[m]
  {
    var order := GroupOrder(ids);
    GroupOrderLaws(ids);
    RowsOfLaws(ids, order[k]);
    RowsOfLaws(ids, order[m]);
    assert RowsOf(ids, order[k])[p] in RowsOf(ids, order[k]);
    assert order[k] != order[m];
  }

  /** The p-th row of group k is gathered exactly when p is below its quota. */
  lemma {:induction false} GatherMember(ids: seq<int>, q: seq<nat>, m: nat, k: nat, p: nat)
    requires m <= |GroupOrder(ids)| == |q| && k < |q| && p < |RowsPerGroup(ids)[k]|
    ensures RowsPerGroup(ids)[k][p] in GatherUpTo(RowsPerGroup(ids), q, m) <==> k < m && p < q[k]
  {
    if m > 0 {
      var rows := RowsPerGroup(ids);
      GatherMember(ids, q, m - 1, k, p);
      var last := Take(rows[m - 1], q[m - 1]);
      if k == m - 1 {
        RowsOfLaws(ids, GroupOrder(ids)[k]);
        if p < q[k] {
          assert last[p] == rows[k][p];
        }
      } else {
        RowsApart(ids, k, m - 1, p);
      }
    }
  }

  lemma {:induction false} GatherLaws(ids: seq<int>, q: seq<nat>, m: nat)
    requires m <= |GroupOrder(ids)| == |q|
    requires forall k :: 0 <= k < |q| ==> q[k] <= |RowsPerGroup(ids)[k]|
    ensures InRange(GatherUpTo(RowsPerGroup(ids), q, m), |ids|)
    ensures |GatherUpTo(RowsPerGroup(ids), q, m)| == Sum(q[..m])
    ensures Distinct(GatherUpTo(RowsPerGroup(ids), q, m))
  {
    if m > 0 {
      var rows := RowsPerGroup(ids);
      var init := GatherUpTo(rows, q, m - 1);
      var last := Take(rows[m - 1], q[m - 1]);
      GatherLaws(ids, q, m - 1);
      RowsOfLaws(ids, GroupOrder(ids)[m - 1]);
      assert q[..m][..m - 1] == q[..m - 1];
      forall p | 0 <= p < |last| ensures last[p] !in init {
        GatherMember(ids, q, m - 1, m - 1, p);
      }
      DistinctConcat(init, last);
    }
  }

  lemma DistinctConcat(a: seq<nat>, b: seq<nat>)
    requires Distinct(a) && Distinct(b) && forall p :: 0 <= p < |b| ==> b[p] !in a
    ensures Distinct(a + b)
  {
    forall i, j | 0 <= i < j < |a + b|
      ensures (a + b)[i] != (a + b)[j]
    {
      if i < |a| <= j {
        assert a[i] in a && b[j - |a|] !in a;
      }
    }
  }

  lemma {:induction false} GatherCount(ids: seq<int>, q: seq<nat>, m: nat, k: nat)
    requires m <= |GroupOrder(ids)| == |q| && k < |q|
    requires forall j :: 0 <= j < |q| ==> q[j] <= |RowsPerGroup(ids)[j]|
    requires InRange(GatherUpTo(RowsPerGroup(ids), q, m), |ids|)
    ensures KeptCount(ids, GatherUpTo(RowsPerGroup(ids), q, m), GroupOrder(ids)[k]) == if k < m then q[k] else 0
  {
    if m > 0 {
      var rows, order := RowsPerGroup(ids), GroupOrder(ids);
      var ind := Indicator(ids, order[k]);
      var init := GatherUpTo(rows, q, m - 1);
      var last := Take(rows[m - 1], q[m - 1]);
      GatherLaws(ids, q, m - 1);
      GatherCount(ids, q, m - 1, k);
      GroupOrderLaws(ids);
      RowsOfLaws(ids, order[m - 1]);
      SumAtConcat(ind, init, last);
      forall p | 0 <= p < |last| ensures ind[last[p]] == if k == m - 1 then 1 else 0 {
        assert last[p] == rows[m - 1][p];
        assert rows[m - 1][p] in RowsOf(ids, order[m - 1]);
      }
      SumAtConstant(ind, last, if k == m - 1 then 1 else 0);
    }
  }

  /** Everything the theorems below read off an allocation that had to choose. */
  ghost predicate KeptByQuota(ids: seq<int>, kept: seq<nat>, q: seq<nat>, budget: nat) {
    && |q| == |GroupOrder(ids)|
    && Spends(q, Available(ids), budget)
    && InRange(kept, |ids|) && |kept| == budget
    && (forall a, b :: 0 <= a < b < |kept| ==> kept[a] < kept[b])
    && (forall k :: 0 <= k < |q| ==> KeptCount(ids, kept, GroupOrder(ids)[k]) == q[k])
    && (forall k, p :: 0 <= k < |q| && 0 <= p < |RowsPerGroup(ids)[k]| ==>
          (RowsPerGroup(ids)[k][p] in kept <==> p < q[k]))
  }

  lemma {:induction false} SortedGatherKeeps(ids: seq<int>, q: seq<nat>, budget: nat)
    requires |q| == |GroupOrder(ids)| && Spends(q, Available(ids), budget)
    ensures KeptByQuota(ids, Sort(Ascending(), GatherUpTo(RowsPerGroup(ids), q, |q|)), q, budget)
  {
    var rows := RowsPerGroup(ids);
    var all := GatherUpTo(rows, q, |q|);
    var kept := Sort(Ascending(), all);
    forall j | 0 <= j < |q| ensures q[j] <= |rows[j]| {
      assert q[j] <= Available(ids)[j];
    }
    GatherLaws(ids, q, |q|);
    assert q[..|q|] == q;
    SortMembers(Ascending(), all);
    SortDistinct(Ascending(), all);
    assert TotalPreorder(Ascending());
    SortOrdered(Ascending(), all);
    forall a | 0 <= a < |kept| ensures kept[a] < |ids| {
      assert kept[a] in kept;
    }
    forall a, b | 0 <= a < b < |kept| ensures kept[a] < kept[b] {
      assert Ascending()(kept[a], kept[b]);
    }
    forall k | 0 <= k < |q| ensures KeptCount(ids, kept, GroupOrder(ids)[k]) == q[k] {
      GatherCount(ids, q, |q|, k);
      SumAtSort(Ascending(), Indicator(ids, GroupOrder(ids)[k]), all);
    }
    forall k, p | 0 <= k < |q| && 0 <= p < |rows[k]| ensures rows[k][p] in kept <==> p < q[k] {
      GatherMember(ids, q, |q|, k, p);
    }
  }

  lemma AllocateKeeps(ids: seq<int>, weights: seq<real>, budget: int, s: Settings, pow: Pow)
    returns (q: seq<nat>)
    requires Problem(ids, weights, s, pow) && 0 < budget < |ids|
    ensures q == QuotasOf(ids, weights, budget, s, pow)
    ensures KeptByQuota(ids, Allocate(ids, weights, budget, s, pow), q, budget)
  {
    RowsPerGroupLaws(ids);
    LengthsTotal(ids);
    q := QuotasSpend(Grades(ids, weights, s, pow), GroupMeans(weights, RowsPerGroup(ids)), Available(ids), FloorOf(s), budget);
    SortedGatherKeeps(ids, q, budget);
  }

  /** Position of row `r` inside its group. */
  lemma RowPosition(ids: seq<int>, r: nat) returns (k: nat, p: nat)
    requires r < |ids|
    ensures k < |GroupOrder(ids)| && p < |RowsPerGroup(ids)[k]|
    ensures GroupOrder(ids)[k] == ids[r] && RowsPerGroup(ids)[k][p] == r
  {
    GroupOrderLaws(ids);
    RowsOfLaws(ids, ids[r]);
    assert ids[r] in ids;
    k :| 0 <= k < |GroupOrder(ids)| && GroupOrder(ids)[k] == ids[r];
    assert r in RowsOf(ids, ids[r]);
    p :| 0 <= p < |RowsOf(ids, ids[r])| && RowsOf(ids, ids[r])[p] == r;
  }

  // ----- theorems -----

  /** Exactly max(0, min(budget, rows)) rows come back, ascending and distinct. */
  lemma AllocationIsExact(ids: seq<int>, weights: seq<real>, budget: int, s: Settings, pow: Pow)
    requires Problem(ids, weights, s, pow)
    ensures var kept := Allocate(ids, weights, budget, s, pow);
            && |kept| == Max(0, Min(budget, |ids|))
            && InRange(kept, |ids|)
            && forall a, b :: 0 <= a < b < |kept| ==> kept[a] < kept[b]
  {
    if 0 < budget < |ids| {
      var q := AllocateKeeps(ids, weights, budget, s, pow);
    }
  }

  /** Within a group the kept rows are always a prefix in batch order. */
  lemma AllocationKeepsPrefixes(ids: seq<int>, weights: seq<real>, budget: int, s: Settings, pow: Pow, early: nat, late: nat)
    requires Problem(ids, weights, s, pow)
    requires early < late < |ids| && ids[early] == ids[late]
    ensures late in Allocate(ids, weights, budget, s, pow) ==> early in Allocate(ids, weights, budget, s, pow)
  {
    if 0 < budget < |ids| {
      var q := AllocateKeeps(ids, weights, budget, s, pow);
      var k, p := RowPosition(ids, early);
      var k', p' := RowPosition(ids, late);
      GroupOrderLaws(ids);
      assert k == k';
      RowsOfLaws(ids, ids[early]);
      assert p < p';
    } else if budget >= |ids| {
      assert Iota(|ids|)[early] == early;
    }
  }

  /** A row count at its group's size means no row of the group is missing. */
  lemma {:induction false} FullQuotaKeepsWhole(ids: seq<int>, kept: seq<nat>, q: seq<nat>, budget: nat, k: nat)
    requires KeptByQuota(ids, kept, q, budget) && k < |q| && q[k] == |RowsPerGroup(ids)[k]|
    ensures KeptWhole(ids, kept, GroupOrder(ids)[k])
  {
    forall r: nat | r < |ids| && ids[r] == GroupOrder(ids)[k] ensures r in kept {
      var k', p := RowPosition(ids, r);
      GroupOrderLaws(ids);
      assert k' == k;
    }
  }

  /** Every group keeps its floor whenever the floors fit. */
  lemma {:induction false} AllocationKeepsFloors(ids: seq<int>, weights: seq<real>, budget: int, s: Settings, pow: Pow, g: int)
    requires Problem(ids, weights, s, pow) && g in ids
    requires FloorsNeeded(ids, s.minRolloutsPerPrompt) <= budget
    ensures InRange(Allocate(ids, weights, budget, s, pow), |ids|)
    ensures KeptCount(ids, Allocate(ids, weights, budget, s, pow), g) >= Min(s.minRolloutsPerPrompt, SizeOf(ids, g))
  {
    var k := GroupPlace(ids, g);
    GroupSize(ids, k);
    FloorsAre(ids, s.minRolloutsPerPrompt);
    if budget >= |ids| {
      AllKeptCount(ids, k);
    } else if budget > 0 {
      var q := AllocateKeeps(ids, weights, budget, s, pow);
      RowsPerGroupLaws(ids);
      QuotasKeepFloors(Grades(ids, weights, s, pow), GroupMeans(weights, RowsPerGroup(ids)), Available(ids), FloorOf(s), budget);
    } else {
      SumNonNegative(Floors(Available(ids), FloorOf(s)));
      KeptNone(ids, g);
    }
  }

  lemma {:induction false} AllKeptCount(ids: seq<int>, k: nat)
    requires k < |GroupOrder(ids)|
    ensures KeptCount(ids, Iota(|ids|), GroupOrder(ids)[k]) == Available(ids)[k]
  {
    var g := GroupOrder(ids)[k];
    SumAtIota(Indicator(ids, g), |ids|);
    IndicatorTotal(ids, g);
    assert Indicator(ids, g)[..|ids|] == Indicator(ids, g);
  }

  lemma {:induction false} IndicatorTotal(ids: seq<int>, g: int)
    ensures Sum(Indicator(ids, g)) == |RowsOf(ids, g)|
  {
    if ids != [] {
      var n := |ids| - 1;
      IndicatorTotal(ids[..n], g);
      assert Indicator(ids, g)[..n] == Indicator(ids[..n], g);
    }
  }

  lemma KeptNone(ids: seq<int>, g: int)
    ensures KeptCount(ids, [], g) == 0
  {
  }

  /** Group `g` keeps at least as many rows as group `h`, or is kept whole. */
  ghost predicate KeepsMore(ids: seq<int>, kept: seq<nat>, g: int, h: int) {
    && InRange(kept, |ids|)
    && (KeptCount(ids, kept, g) >= KeptCount(ids, kept, h) || KeptWhole(ids, kept, g))
  }

  lemma AllKept(ids: seq<int>, g: int, h: int)
    ensures KeepsMore(ids, Iota(|ids|), g, h) && KeptWhole(ids, Iota(|ids|), g)
  {
    forall r: nat | r < |ids| ensures r in Iota(|ids|) {
      assert Iota(|ids|)[r] == r;
    }
  }

  /** Of two groups of the same worth the earlier is first, where floors fit. */
  ghost predicate Precedes(ids: seq<int>, weights: seq<real>, budget: int, s: Settings, pow: Pow, g: int, h: int)
    requires g in ids && h in ids
  {
    || Worth(ids, weights, s, pow, g) > Worth(ids, weights, s, pow, h)
    || (&& Worth(ids, weights, s, pow, g) == Worth(ids, weights, s, pow, h)
        && IndexIn(ids, g) < IndexIn(ids, h) && FloorsNeeded(ids, s.minRolloutsPerPrompt) <= budget)
  }

  lemma {:induction false} FirstSeenFirst(ids: seq<int>, i: nat, j: nat)
    requires i < |GroupOrder(ids)| && j < |GroupOrder(ids)|
    ensures GroupOrder(ids)[i] in ids && GroupOrder(ids)[j] in ids
    ensures IndexIn(ids, GroupOrder(ids)[i]) < IndexIn(ids, GroupOrder(ids)[j]) ==> i < j
  {
    OrderListed(ids, i);
    OrderListed(ids, j);
    if j < i {
      GroupOrderFirst(ids, j, i);
    }
  }

  /** Grading, in every branch: a group worth more than another, or worth as much and
      seen earlier, keeps at least as many rows, or is kept whole. */
  lemma AllocationRespectsGrading(ids: seq<int>, weights: seq<real>, budget: int, s: Settings, pow: Pow, g: int, h: int)
    requires Problem(ids, weights, s, pow) && g in ids && h in ids && Precedes(ids, weights, budget, s, pow, g, h)
    ensures KeepsMore(ids, Allocate(ids, weights, budget, s, pow), g, h)
  {
    if budget >= |ids| {
      AllKept(ids, g, h);
    } else if budget > 0 {
      var i := GroupPlace(ids, g);
      var j := GroupPlace(ids, h);
      GradeIsWorth(ids, weights, s, pow, i);
      GradeIsWorth(ids, weights, s, pow, j);
      FirstSeenFirst(ids, i, j);
      FloorsAre(ids, s.minRolloutsPerPrompt);
      RowsPerGroupLaws(ids);
      var q := AllocateKeeps(ids, weights, budget, s, pow);
      QuotasRespectGrading(Grades(ids, weights, s, pow), GroupMeans(weights, RowsPerGroup(ids)), Available(ids), FloorOf(s), budget, i, j);
      if q[i] == Available(ids)[i] {
        FullQuotaKeepsWhole(ids, Allocate(ids, weights, budget, s, pow), q, budget, i);
      }
    } else {
      KeptNone(ids, g);
      KeptNone(ids, h);
    }
  }

  ghost predicate IncreasesAt(pow: Pow, x: real, y: real, e: real) {
    pow(x, e) < pow(y, e)
  }

  /** `x ** e` grows strictly, as it does for every positive exponent. */
  ghost predicate Increasing(pow: Pow, e: real) {
    forall x, y :: 0.0 <= x < y ==> IncreasesAt(pow, x, y, e)
  }

  /** Without a diversity signal the budget follows the std column: the group of
      larger mean std keeps at least as many rows as the other, or is kept whole. */
  lemma LargerStdKeepsMore(ids: seq<int>, weights: seq<real>, budget: int, s: Settings, pow: Pow, g: int, h: int)
    requires Problem(ids, weights, s, pow) && g in ids && h in ids
    requires (s.diversity.None? || s.diversityExponent == 0.0) && Increasing(pow, s.varianceExponent)
    requires MeanIn(ids, weights, g) > MeanIn(ids, weights, h)
    ensures KeepsMore(ids, Allocate(ids, weights, budget, s, pow), g, h)
  {
    assert IncreasesAt(pow, MeanIn(ids, weights, h), MeanIn(ids, weights, g), s.varianceExponent);
    AllocationRespectsGrading(ids, weights, budget, s, pow, g, h);
  }

  /** Between groups of equal positive mean std it follows the diversity column. */
  lemma MoreDiverseKeepsMore(ids: seq<int>, weights: seq<real>, budget: int, s: Settings, pow: Pow, g: int, h: int)
    requires Problem(ids, weights, s, pow) && g in ids && h in ids
    requires s.diversity.Some? && Increasing(pow, s.diversityExponent)
    requires MeanIn(ids, weights, g) == MeanIn(ids, weights, h) > 0.0
    requires MeanIn(ids, s.diversity.value, g) > MeanIn(ids, s.diversity.value, h)
    ensures KeepsMore(ids, Allocate(ids, weights, budget, s, pow), g, h)
  {
    var std := MeanIn(ids, weights, g);
    assert IncreasesAt(pow, 0.0, 1.0, s.diversityExponent);
    assert s.diversityExponent != 0.0;
    assert !NoSpread(ids, s.diversity.value);
    assert IncreasesAt(pow, MeanIn(ids, s.diversity.value, h), MeanIn(ids, s.diversity.value, g), s.diversityExponent);
    PowPositive(pow, std, s.varianceExponent);
    ScaleKeepsOrder(pow(std, s.varianceExponent), pow(MeanIn(ids, s.diversity.value, g), s.diversityExponent),
                    pow(MeanIn(ids, s.diversity.value, h), s.diversityExponent));
    assert Worth(ids, weights, s, pow, g) > Worth(ids, weights, s, pow, h);
    AllocationRespectsGrading(ids, weights, budget, s, pow, g, h);
  }

  /** The order of the squeeze: worth, then mean std, then first appearance. */
  ghost predicate ServedFirst(ids: seq<int>, weights: seq<real>, s: Settings, pow: Pow, g: int, h: int)
    requires g in ids && h in ids
  {
    || Worth(ids, weights, s, pow, g) > Worth(ids, weights, s, pow, h)
    || (&& Worth(ids, weights, s, pow, g) == Worth(ids, weights, s, pow, h)
        && (|| MeanIn(ids, weights, g) > MeanIn(ids, weights, h)
            || (MeanIn(ids, weights, g) == MeanIn(ids, weights, h) && IndexIn(ids, g) < IndexIn(ids, h))))
  }

  /** When the floors do not fit, no group keeps a row before every group served
      earlier keeps its whole floor, and none keeps more than that. */
  lemma {:induction false} SqueezeServesInOrder(ids: seq<int>, weights: seq<real>, budget: int, s: Settings, pow: Pow, g: int, h: int)
    requires Problem(ids, weights, s, pow) && g in ids && h in ids && ServedFirst(ids, weights, s, pow, g, h)
    requires budget < FloorsNeeded(ids, s.minRolloutsPerPrompt)
    ensures InRange(Allocate(ids, weights, budget, s, pow), |ids|)
    ensures KeptCount(ids, Allocate(ids, weights, budget, s, pow), h) > 0 ==>
              KeptCount(ids, Allocate(ids, weights, budget, s, pow), g) == Min(s.minRolloutsPerPrompt, SizeOf(ids, g))
    ensures KeptCount(ids, Allocate(ids, weights, budget, s, pow), h) <= Max(0, s.minRolloutsPerPrompt)
  {
    FloorsAre(ids, s.minRolloutsPerPrompt);
    FloorsBelow(ids, s.minRolloutsPerPrompt);
    if budget <= 0 {
      KeptNone(ids, h);
    } else {
      var i := GroupPlace(ids, g);
      var j := GroupPlace(ids, h);
      GradeIsWorth(ids, weights, s, pow, i);
      GradeIsWorth(ids, weights, s, pow, j);
      GroupMeanIs(ids, weights, i);
      GroupMeanIs(ids, weights, j);
      GroupSize(ids, i);
      FirstSeenFirst(ids, i, j);
      var q := AllocateKeeps(ids, weights, budget, s, pow);
      SqueezedFloorsServe(Grades(ids, weights, s, pow), GroupMeans(weights, RowsPerGroup(ids)), Available(ids), FloorOf(s), budget, i, j);
      SqueezedFloorsConserve(Grades(ids, weights, s, pow), GroupMeans(weights, RowsPerGroup(ids)), Available(ids), FloorOf(s), budget);
    }
  }

  lemma {:induction false} FloorsBelow(ids: seq<int>, floor: int)
    ensures FloorsNeeded(ids, floor) <= |ids|
    ensures floor <= 0 ==> FloorsNeeded(ids, floor) == 0
  {
    if ids != [] {
      FloorsBelow(ids[..|ids| - 1], floor);
    }
  }

  /** A group worth nothing is given a row beyond its floor only when every group
      worth something is kept whole. */
  lemma AllocationStarvesZeroWeight(ids: seq<int>, weights: seq<real>, budget: int, s: Settings, pow: Pow, g: int, h: int)
    requires Problem(ids, weights, s, pow) && g in ids && h in ids
    requires Worth(ids, weights, s, pow, h) == 0.0 < Worth(ids, weights, s, pow, g)
    ensures var kept := Allocate(ids, weights, budget, s, pow);
            && InRange(kept, |ids|)
            && (KeptCount(ids, kept, h) > Min(Max(0, s.minRolloutsPerPrompt), SizeOf(ids, h)) ==> KeptWhole(ids, kept, g))
  {
    if budget >= |ids| {
      AllKept(ids, g, h);
    } else if budget > 0 {
      var i := GroupPlace(ids, g);
      var j := GroupPlace(ids, h);
      GradeIsWorth(ids, weights, s, pow, i);
      GradeIsWorth(ids, weights, s, pow, j);
      GroupSize(ids, j);
      RowsPerGroupLaws(ids);
      LengthsTotal(ids);
      var q := AllocateKeeps(ids, weights, budget, s, pow);
      QuotasStarveZero(Grades(ids, weights, s, pow), GroupMeans(weights, RowsPerGroup(ids)), Available(ids), FloorOf(s), budget, i, j);
      if q[i] == Available(ids)[i] {
        FullQuotaKeepsWhole(ids, Allocate(ids, weights, budget, s, pow), q, budget, i);
      }
    } else {
      KeptNone(ids, h);
    }
  }

  /** What the first `m` groups with more rows than their floor are worth together. */
  ghost function OpenWorth(ids: seq<int>, weights: seq<real>, s: Settings, pow: Pow, m: nat): real
    requires m <= |GroupOrder(ids)|
  {
    if m == 0 then 0.0
    else
      var g := GroupOrder(ids)[m - 1];
      OpenWorth(ids, weights, s, pow, m - 1) +
      if SizeOf(ids, g) > s.minRolloutsPerPrompt then Worth(ids, weights, s, pow, g) else 0.0
  }

  lemma {:induction false} OpenWorthIs(ids: seq<int>, weights: seq<real>, s: Settings, pow: Pow, m: nat)
    requires Problem(ids, weights, s, pow) && m <= |GroupOrder(ids)|
    ensures OpenWorth(ids, weights, s, pow, m) ==
            SumWhere(Grades(ids, weights, s, pow), AboveFloor(Available(ids), FloorOf(s)), m)
  {
    if m > 0 {
      OpenWorthIs(ids, weights, s, pow, m - 1);
      GradeIsWorth(ids, weights, s, pow, m - 1);
      OpenGroup(ids, s, m - 1);
    }
  }

  lemma {:induction false} OpenGroup(ids: seq<int>, s: Settings, k: nat)
    requires k < |GroupOrder(ids)|
    ensures AboveFloor(Available(ids), FloorOf(s))(k) <==> SizeOf(ids, GroupOrder(ids)[k]) > s.minRolloutsPerPrompt
  {
    GroupSize(ids, k);
    RowsPerGroupLaws(ids);
  }

  lemma {:induction false} ExtraIsDue(ids: seq<int>, weights: seq<real>, s: Settings, pow: Pow, k: nat, left: nat,
                                      worth: real, total: real, share: int)
    requires Problem(ids, weights, s, pow) && k < |GroupOrder(ids)|
    requires worth == Worth(ids, weights, s, pow, GroupOrder(ids)[k]) && Due(left, worth, total, share)
    requires total == OpenWorth(ids, weights, s, pow, |GroupOrder(ids)|) > 0.0
    ensures ExtraRows(Grades(ids, weights, s, pow), Less(Available(ids), Floors(Available(ids), FloorOf(s))), left)[k]
            >= Min(share, Available(ids)[k] - Min(FloorOf(s), Available(ids)[k]))
  {
    OpenWorthIs(ids, weights, s, pow, |GroupOrder(ids)|);
    GradeIsWorth(ids, weights, s, pow, k);
    ExtraAboveFloor(Grades(ids, weights, s, pow), Available(ids), FloorOf(s), left, k, total, share);
  }

  lemma {:induction false} KeepsQuota(ids: seq<int>, weights: seq<real>, budget: int, s: Settings, pow: Pow, k: nat, left: nat, share: int)
    requires Problem(ids, weights, s, pow) && k < |GroupOrder(ids)| && 0 < budget < |ids|
    requires budget == FloorsNeeded(ids, s.minRolloutsPerPrompt) + left
    requires ExtraRows(Grades(ids, weights, s, pow), Less(Available(ids), Floors(Available(ids), FloorOf(s))), left)[k]
             >= Min(share, Available(ids)[k] - Min(FloorOf(s), Available(ids)[k]))
    ensures InRange(Allocate(ids, weights, budget, s, pow), |ids|)
    ensures KeptCount(ids, Allocate(ids, weights, budget, s, pow), GroupOrder(ids)[k])
            >= Min(Max(0, s.minRolloutsPerPrompt) + share, SizeOf(ids, GroupOrder(ids)[k]))
  {
    GroupSize(ids, k);
    FloorsAre(ids, s.minRolloutsPerPrompt);
    RowsPerGroupLaws(ids);
    QuotasMeetLowerQuota(Grades(ids, weights, s, pow), GroupMeans(weights, RowsPerGroup(ids)), Available(ids), FloorOf(s), budget,
                         left, k, share);
    var q := AllocateKeeps(ids, weights, budget, s, pow);
  }

  /** Proportionality: beyond its floor every group keeps at least what its worth is
      due of the rows the floors leave, or is kept whole. */
  lemma {:induction false} AllocationMeetsLowerQuota(ids: seq<int>, weights: seq<real>, budget: int, s: Settings, pow: Pow, g: int,
                                                     left: nat, worth: real, total: real, share: int)
    requires Problem(ids, weights, s, pow) && g in ids && 0 < budget < |ids|
    requires budget == FloorsNeeded(ids, s.minRolloutsPerPrompt) + left
    requires worth == Worth(ids, weights, s, pow, g) && total == OpenWorth(ids, weights, s, pow, |GroupOrder(ids)|) > 0.0
    requires share as real * total <= left as real * worth
    ensures InRange(Allocate(ids, weights, budget, s, pow), |ids|)
    ensures KeptCount(ids, Allocate(ids, weights, budget, s, pow), g)
            >= Min(Max(0, s.minRolloutsPerPrompt) + share, SizeOf(ids, g))
  {
    var k := GroupPlace(ids, g);
    ExtraIsDue(ids, weights, s, pow, k, left, worth, total, share);
    KeepsQuota(ids, weights, budget, s, pow, k, left, share);
  }

  // ----- the diversity signal -----

  lemma GroupMeanScale(c: real, values: seq<real>, rows: seq<nat>)
    requires c > 0.0 && rows != [] && InRange(rows, |values|)
    ensures GroupMean(Scale(c, values), rows) == c * GroupMean(values, rows)
  {
    var sum, n := RealSumAt(values, rows), |rows| as real;
    RealSumAtScale(c, values, rows);
    assert c * sum / n == c * (sum / n);
    ClampScale(c, sum / n);
  }

  lemma ClampScale(c: real, x: real)
    requires c > 0.0
    ensures Clamp0(c * x) == c * Clamp0(x)
  {
  }

  lemma GroupMeansScale(c: real, values: seq<real>, rows: seq<seq<nat>>)
    requires c > 0.0 && Groups(rows, |values|)
    ensures GroupMeans(Scale(c, values), rows) == Scale(c, GroupMeans(values, rows))
  {
    forall k | 0 <= k < |rows|
      ensures GroupMeans(Scale(c, values), rows)[k] == Scale(c, GroupMeans(values, rows))[k]
    {
      GroupMeanScale(c, values, rows[k]);
    }
  }

  lemma PowersScale(pow: Pow, c: real, values: seq<real>, e: real)
    requires PowerLaws(pow) && c > 0.0 && 0.0 <= e
    requires forall k :: 0 <= k < |values| ==> 0.0 <= values[k]
    ensures Powers(pow, Scale(c, values), e) == Scale(pow(c, e), Powers(pow, values, e))
  {
    forall k | 0 <= k < |values|
      ensures Powers(pow, Scale(c, values), e)[k] == Scale(pow(c, e), Powers(pow, values, e))[k]
    {
      assert MultipliesAt(pow, c, values[k], e);
      assert Scale(c, values)[k] == c * values[k];
    }
  }

  lemma ScaleOne(v: seq<real>)
    ensures Scale(1.0, v) == v
  {
  }

  /** Scaling the signal scales every factor alike. */
  lemma DiversityPowersScale(rows: seq<seq<nat>>, d: seq<real>, e: real, pow: Pow, c: real) returns (k: real)
    requires Groups(rows, |d|) && PowerLaws(pow) && c > 0.0 && 0.0 <= e
    ensures k > 0.0
    ensures DiversityPowers(rows, Scale(c, d), e, pow) == Scale(k, DiversityPowers(rows, d, e, pow))
  {
    var means := GroupMeans(d, rows);
    GroupMeansScale(c, d, rows);
    RealSumScale(c, means);
    RealSumNonNegative(means);
    if RealSum(means) <= 0.0 {
      k := 1.0;
      ScaleOne(Ones(|rows|));
    } else {
      assert c * RealSum(means) > 0.0;
      k := pow(c, e);
      PowPositive(pow, c, e);
      PowersScale(pow, c, means, e);
    }
  }

  lemma ConstantMean(d: seq<real>, rows: seq<nat>, v: real)
    requires rows != [] && InRange(rows, |d|)
    requires forall r :: 0 <= r < |d| ==> d[r] == v
    ensures GroupMean(d, rows) == Clamp0(v)
  {
    RealSumAtConstant(d, rows, v);
    var n := |rows| as real;
    assert v * n / n == v;
  }

  /** A column that says the same of every row gives every group the same factor. */
  lemma DiversityPowersConstant(rows: seq<seq<nat>>, d: seq<real>, v: real, e: real, pow: Pow) returns (k: real)
    requires Groups(rows, |d|) && PowerLaws(pow) && 0.0 <= e
    requires forall r :: 0 <= r < |d| ==> d[r] == v
    ensures k > 0.0
    ensures DiversityPowers(rows, d, e, pow) == Scale(k, Ones(|rows|))
  {
    var means := GroupMeans(d, rows);
    forall g | 0 <= g < |rows| ensures means[g] == Clamp0(v) {
      ConstantMean(d, rows[g], v);
    }
    if v <= 0.0 {
      RealSumZero(means);
    }
    if RealSum(means) <= 0.0 {
      k := 1.0;
      ScaleOne(Ones(|rows|));
    } else {
      k := pow(v, e);
      PowPositive(pow, v, e);
      assert Powers(pow, means, e) == Scale(k, Ones(|rows|));
    }
  }

  lemma TimesScale(a: seq<real>, b: seq<real>, k: real)
    requires |a| == |b|
    ensures Times(a, Scale(k, b)) == Scale(k, Times(a, b))
  {
    forall i | 0 <= i < |a| ensures Times(a, Scale(k, b))[i] == Scale(k, Times(a, b))[i] {
      assert a[i] * (k * b[i]) == k * (a[i] * b[i]);
    }
  }

  /** Allocations whose graded weights differ by a positive factor keep the same rows. */
  lemma SameRowsUpToScale(ids: seq<int>, weights: seq<real>, budget: int, s: Settings, s': Settings, pow: Pow, k: real)
    requires Problem(ids, weights, s, pow) && Problem(ids, weights, s', pow) && k > 0.0
    requires s'.minRolloutsPerPrompt == s.minRolloutsPerPrompt
    requires Grades(ids, weights, s', pow) == Scale(k, Grades(ids, weights, s, pow))
    ensures Allocate(ids, weights, budget, s', pow) == Allocate(ids, weights, budget, s, pow)
  {
    if 0 < budget < |ids| {
      RowsPerGroupLaws(ids);
      QuotasScale(Grades(ids, weights, s, pow), GroupMeans(weights, RowsPerGroup(ids)), Available(ids), FloorOf(s), budget, k);
    }
  }

  /** The signal needs no normaliser: scaling it moves no row. */
  lemma DiversityScaleIsUnobservable(ids: seq<int>, weights: seq<real>, budget: int, s: Settings, pow: Pow, c: real)
    requires Problem(ids, weights, s, pow) && s.diversity.Some? && c > 0.0
    ensures Problem(ids, weights, s.(diversity := Some(Scale(c, s.diversity.value))), pow)
    ensures Allocate(ids, weights, budget, s.(diversity := Some(Scale(c, s.diversity.value))), pow)
            == Allocate(ids, weights, budget, s, pow)
  {
    var s' := s.(diversity := Some(Scale(c, s.diversity.value)));
    var rows := RowsPerGroup(ids);
    RowsPerGroupLaws(ids);
    var k := 1.0;
    if s.diversityExponent == 0.0 {
      ScaleOne(Grades(ids, weights, s, pow));
    } else {
      k := DiversityPowersScale(rows, s.diversity.value, s.diversityExponent, pow, c);
      TimesScale(Powers(pow, GroupMeans(weights, rows), s.varianceExponent),
                 DiversityPowers(rows, s.diversity.value, s.diversityExponent, pow), k);
    }
    SameRowsUpToScale(ids, weights, budget, s, s', pow, k);
  }

  /** A constant column, positive, zero or negative, allocates as no column would. */
  lemma ConstantDiversityIsUnobservable(ids: seq<int>, weights: seq<real>, budget: int, s: Settings, pow: Pow, v: real)
    requires Problem(ids, weights, s, pow) && s.diversity.Some?
    requires forall r :: 0 <= r < |s.diversity.value| ==> s.diversity.value[r] == v
    ensures Problem(ids, weights, s.(diversity := None), pow)
    ensures Allocate(ids, weights, budget, s, pow) == Allocate(ids, weights, budget, s.(diversity := None), pow)
  {
    var s' := s.(diversity := None);
    var rows := RowsPerGroup(ids);
    RowsPerGroupLaws(ids);
    var k := 1.0;
    if s.diversityExponent == 0.0 {
      ScaleOne(Grades(ids, weights, s, pow));
    } else {
      k := DiversityPowersConstant(rows, s.diversity.value, v, s.diversityExponent, pow);
      TimesScale(Powers(pow, GroupMeans(weights, rows), s.varianceExponent), Ones(|rows|), k);
    }
    SameRowsUpToScale(ids, weights, budget, s', s, pow, k);
  }

  /** The exponent-zero branch is a fast path: the slow path returns ones too. */
  lemma ExponentZeroIsFastPath(rows: seq<seq<nat>>, d: seq<real>, pow: Pow)
    requires Groups(rows, |d|) && PowerLaws(pow)
    ensures DiversityPowers(rows, d, 0.0, pow) == DiversityFactor(rows, Some(d), 0.0, pow)
  {
    var means := GroupMeans(d, rows);
    forall k | 0 <= k < |rows| ensures Powers(pow, means, 0.0)[k] == 1.0 {
      assert 0.0 <= means[k];
    }
    assert Powers(pow, means, 0.0) == Ones(|rows|);
  }

  // ----- the loops of the source -----

  /** `allocate_rollout_budget`. */
  method AllocateRolloutBudget(ids: seq<int>, weights: seq<real>, budget: int, s: Settings, pow: Pow)
    returns (kept: seq<nat>)
    requires Problem(ids, weights, s, pow)
    ensures kept == Allocate(ids, weights, budget, s, pow)
  {
    var totalRows := |ids|;
    if budget >= totalRows { return Iota(totalRows); }
    if budget <= 0 { return []; }

    var rowsPerGroup, groupWeight, available, graded := GradeGroups(ids, weights, s, pow);
    var floor: nat := Max(0, s.minRolloutsPerPrompt);
    var quotas := ComputeQuotas(graded, groupWeight, available, floor, budget);
    kept := GatherRows(rowsPerGroup, quotas);
    kept := Sort(Ascending(), kept);
  }

  /** The groups, their weights and sizes, and the graded weight both branches read. */
  method GradeGroups(ids: seq<int>, weights: seq<real>, s: Settings, pow: Pow)
    returns (rowsPerGroup: seq<seq<nat>>, groupWeight: seq<real>, available: seq<nat>, graded: seq<real>)
    requires Problem(ids, weights, s, pow)
    ensures rowsPerGroup == RowsPerGroup(ids) && available == Available(ids)
    ensures Groups(rowsPerGroup, |weights|) && groupWeight == GroupMeans(weights, rowsPerGroup)
    ensures graded == Grades(ids, weights, s, pow) && Weighted(graded, available)
  {
    var order;
    rowsPerGroup, order := GroupRows(ids);
    RowsPerGroupLaws(ids);
    groupWeight := GroupMeans(weights, rowsPerGroup);
    available := Lengths(rowsPerGroup);
    var factor := DiversityFactor(rowsPerGroup, s.diversity, s.diversityExponent, pow);
    graded := Times(Powers(pow, groupWeight, s.varianceExponent), factor);
    GradedNonNegative(rowsPerGroup, weights, s, pow);
  }

  /** The floors, squeezed or topped up. */
  method ComputeQuotas(graded: seq<real>, groupWeight: seq<real>, available: seq<nat>, floor: nat, budget: nat)
    returns (quotas: seq<nat>)
    requires Weighted(graded, available)
    ensures quotas == Quotas(graded, groupWeight, available, floor, budget)
  {
    quotas := Floors(available, floor);
    if Sum(quotas) > budget {
      var ranked := Ranked(graded, groupWeight, |available|);
      quotas := SqueezeFloors(ranked, available, floor, budget);
    } else {
      var extra := Apportion(graded, Less(available, quotas), budget - Sum(quotas));
      quotas := Plus(quotas, extra);
    }
  }

  /** The floor-squeeze loop. */
  method SqueezeFloors(ranked: seq<nat>, available: seq<nat>, floor: nat, budget: nat) returns (quotas: seq<nat>)
    requires InRange(ranked, |available|)
    ensures quotas == Squeeze(ranked, available, floor, budget, seq(|available|, _ => 0))
  {
    quotas := seq(|available|, _ => 0);
    var left := budget;
    var k := 0;
    ghost var goal := Squeeze(ranked, available, floor, budget, quotas);
    while k < |ranked| && left > 0
      invariant 0 <= k <= |ranked| && 0 <= left && |quotas| == |available|
      invariant goal == Squeeze(ranked[k..], available, floor, left, quotas)
    {
      var i := ranked[k];
      var take := Min(Min(available[i], floor), left);
      assert ranked[k..][1..] == ranked[k + 1..];
      quotas := quotas[i := take];
      left := left - take;
      k := k + 1;
    }
  }

  /** The final loop over the groups. */
  method GatherRows(rowsPerGroup: seq<seq<nat>>, quotas: seq<nat>) returns (kept: seq<nat>)
    requires |rowsPerGroup| == |quotas|
    ensures kept == GatherUpTo(rowsPerGroup, quotas, |quotas|)
  {
    kept := [];
    for m := 0 to |quotas|
      invariant kept == GatherUpTo(rowsPerGroup, quotas, m)
    {
      kept := kept + Take(rowsPerGroup[m], quotas[m]);
    }
  }
}
