/** Graded rollout allocation: which `budget` rows of a batch to train on. */
module RolloutAllocation {
  import opened Sums
  import opened Sorting
  import opened Grouping
  import opened Options
  import opened Power
  import opened Apportionment
  import opened Totals

  // ----- grouping -----

  function RowsPerGroup(ids: seq<int>): (rows: seq<seq<nat>>)
    ensures |rows| == |GroupOrder(ids)|
  {
    var order := GroupOrder(ids);
    seq(|order|, k requires 0 <= k < |order| => RowsOf(ids, order[k]))
  }

  function Lengths(rows: seq<seq<nat>>): (l: seq<nat>)
    ensures |l| == |rows|
  {
    seq(|rows|, k requires 0 <= k < |rows| => |rows[k]|)
  }

  /** A row of a known group makes that group one longer. */
  lemma RowJoins(ids: seq<int>, k: nat)
    requires ids != [] && k < |GroupOrder(ids[..|ids| - 1])| && GroupOrder(ids[..|ids| - 1])[k] == ids[|ids| - 1]
    ensures var before := Lengths(RowsPerGroup(ids[..|ids| - 1]));
            Lengths(RowsPerGroup(ids)) == before[k := before[k] + 1]
  {
    GroupOrderLaws(ids[..|ids| - 1]);
  }

  /** A row of a new group opens a group of one. */
  lemma RowOpens(ids: seq<int>)
    requires ids != [] && ids[|ids| - 1] !in GroupOrder(ids[..|ids| - 1])
    ensures Lengths(RowsPerGroup(ids)) == Lengths(RowsPerGroup(ids[..|ids| - 1])) + [1]
  {
    GroupOrderLaws(ids[..|ids| - 1]);
    RowsOfEmpty(ids[..|ids| - 1], ids[|ids| - 1]);
  }

  lemma {:induction false} LengthsTotal(ids: seq<int>)
    ensures Sum(Lengths(RowsPerGroup(ids))) == |ids|
  {
    if ids != [] {
      var init := ids[..|ids| - 1];
      LengthsTotal(init);
      var before, order := Lengths(RowsPerGroup(init)), GroupOrder(init);
      if ids[|ids| - 1] in order {
        var k :| 0 <= k < |order| && order[k] == ids[|ids| - 1];
        RowJoins(ids, k);
        SumUpdate(before, k, before[k] + 1);
      } else {
        RowOpens(ids);
        SumSnoc(before, 1);
      }
    }
  }

  /** `_group_rows`. */
  method GroupRows(ids: seq<int>) returns (rowsPerGroup: seq<seq<nat>>, order: seq<int>)
    ensures order == GroupOrder(ids)
    ensures rowsPerGroup == RowsPerGroup(ids)
  {
    order := [];
    var rows: map<int, seq<nat>> := map[];
    for row := 0 to |ids|
      invariant order == GroupOrder(ids[..row])
      invariant forall g :: g in rows ==> g in order
      invariant forall k :: 0 <= k < |order| ==> order[k] in rows
      invariant forall g :: g in rows ==> rows[g] == RowsOf(ids[..row], g)
    {
      var gid := ids[row];
      assert ids[..row + 1][..row] == ids[..row];
      GroupOrderLaws(ids[..row]);
      if gid !in rows {
        RowsOfEmpty(ids[..row], gid);
        rows := rows[gid := []];
        order := order + [gid];
      }
      rows := rows[gid := rows[gid] + [row]];
    }
    assert ids[..|ids|] == ids;
    rowsPerGroup := seq(|order|, k requires 0 <= k < |order| && order[k] in rows => rows[order[k]]);
    forall k | 0 <= k < |order| ensures rowsPerGroup[k] == RowsOf(ids, order[k]) {
      assert rows[order[k]] == RowsOf(ids[..|ids|], order[k]);
    }
  }

  // ----- graded weights -----

  function Clamp0(x: real): (c: real)
    ensures c >= 0.0
  {
    if x < 0.0 then 0.0 else x
  }

  ghost predicate Groups(rows: seq<seq<nat>>, n: nat) {
    forall k :: 0 <= k < |rows| ==> rows[k] != [] && InRange(rows[k], n)
  }

  /** Mean of a column over a group's rows, clamped at zero. */
  function GroupMean(values: seq<real>, rows: seq<nat>): (m: real)
    requires rows != [] && InRange(rows, |values|)
    ensures m >= 0.0
  {
    Clamp0(RealSumAt(values, rows) / |rows| as real)
  }

  function GroupMeans(values: seq<real>, rows: seq<seq<nat>>): (m: seq<real>)
    requires Groups(rows, |values|)
    ensures |m| == |rows| && forall k :: 0 <= k < |m| ==> m[k] >= 0.0
  {
    seq(|rows|, k requires 0 <= k < |rows| => GroupMean(values, rows[k]))
  }

  datatype Settings = Settings(
    minRolloutsPerPrompt: int,
    varianceExponent: real,
    diversity: Option<seq<real>>,
    diversityExponent: real)

  /** What the config validators admit, for a batch of `n` rows. */
  predicate ValidSettings(s: Settings, n: nat) {
    && 0.0 <= s.varianceExponent && 0.0 <= s.diversityExponent
    && (s.diversity.Some? ==> |s.diversity.value| == n)
  }

  function Ones(n: nat): (r: seq<real>)
    ensures |r| == n
  {
    seq(n, _ => 1.0)
  }

  function Powers(pow: Pow, values: seq<real>, e: real): (r: seq<real>)
    ensures |r| == |values|
  {
    seq(|values|, k requires 0 <= k < |values| => pow(values[k], e))
  }

  /** The factors below the fast path: ones when no group shows any diversity. */
  function DiversityPowers(rows: seq<seq<nat>>, diversity: seq<real>, exponent: real, pow: Pow): (f: seq<real>)
    requires Groups(rows, |diversity|)
    ensures |f| == |rows|
  {
    var perGroup := GroupMeans(diversity, rows);
    if RealSum(perGroup) <= 0.0 then Ones(|rows|) else Powers(pow, perGroup, exponent)
  }

  /** `_diversity_factor`. */
  function DiversityFactor(rows: seq<seq<nat>>, diversity: Option<seq<real>>, exponent: real, pow: Pow): (f: seq<real>)
    requires diversity.Some? ==> Groups(rows, |diversity.value|)
    ensures |f| == |rows|
  {
    if diversity.None? || exponent == 0.0 then Ones(|rows|)
    else DiversityPowers(rows, diversity.value, exponent, pow)
  }

  function Times(a: seq<real>, b: seq<real>): (r: seq<real>)
    requires |a| == |b|
    ensures |r| == |a|
  {
    seq(|a|, k requires 0 <= k < |a| => a[k] * b[k])
  }

  /** The one graded weight both branches read. */
  function GradedWeights(rows: seq<seq<nat>>, weights: seq<real>, s: Settings, pow: Pow): (g: seq<real>)
    requires Groups(rows, |weights|) && ValidSettings(s, |weights|)
    ensures |g| == |rows|
  {
    Times(Powers(pow, GroupMeans(weights, rows), s.varianceExponent),
          DiversityFactor(rows, s.diversity, s.diversityExponent, pow))
  }

  // ----- quotas -----

  function Floors(available: seq<nat>, floor: nat): (f: seq<nat>)
    ensures |f| == |available|
    ensures forall k :: 0 <= k < |f| ==> f[k] <= available[k] && f[k] <= floor
  {
    seq(|available|, k requires 0 <= k < |available| => Min(floor, available[k]))
  }

  /** Order of the floor squeeze: graded weight, then group weight, then index. */
  function ByGrade(graded: seq<real>, groupWeight: seq<real>): (nat, nat) -> bool {
    (a: nat, b: nat) =>
      var ga, gb := KeyOf(graded, a), KeyOf(graded, b);
      var wa, wb := KeyOf(groupWeight, a), KeyOf(groupWeight, b);
      ga > gb || (ga == gb && (wa > wb || (wa == wb && a <= b)))
  }

  /** The squeeze loop: floors in ranked order until the budget is gone. */
  function Squeeze(ranked: seq<nat>, available: seq<nat>, floor: nat, left: nat, quotas: seq<nat>): (r: seq<nat>)
    requires InRange(ranked, |available|) && |quotas| == |available|
    ensures |r| == |quotas|
    decreases |ranked|
  {
    if ranked == [] || left == 0 then quotas
    else
      var take := Min(Min(available[ranked[0]], floor), left);
      Squeeze(ranked[1..], available, floor, left - take, quotas[ranked[0] := take])
  }

  function Ranked(graded: seq<real>, groupWeight: seq<real>, n: nat): (r: seq<nat>)
    ensures |r| == n && InRange(r, n)
  {
    var r := Sort(ByGrade(graded, groupWeight), Iota(n));
    RankedInRange(graded, groupWeight, n);
    r
  }

  lemma RankedInRange(graded: seq<real>, groupWeight: seq<real>, n: nat)
    ensures InRange(Sort(ByGrade(graded, groupWeight), Iota(n)), n)
  {
    var le := ByGrade(graded, groupWeight);
    var r := Sort(le, Iota(n));
    SortMembers(le, Iota(n));
    forall k | 0 <= k < |r| ensures r[k] < n {
      assert r[k] in r;
      assert r[k] in Iota(n);
    }
  }

  /** Not every floor fits: spend them on the groups worth the most. */
  function SqueezedFloors(graded: seq<real>, groupWeight: seq<real>, available: seq<nat>, floor: nat, budget: nat): (q: seq<nat>)
    ensures |q| == |available|
  {
    Squeeze(Ranked(graded, groupWeight, |available|), available, floor, budget, seq(|available|, _ => 0))
  }

  /** Every floor fits: apportion what is left. */
  function FloorsPlusExtra(graded: seq<real>, available: seq<nat>, floor: nat, left: nat): (q: seq<nat>)
    requires Weighted(graded, available)
    ensures |q| == |available|
  {
    var floors := Floors(available, floor);
    Plus(floors, ExtraRows(graded, Less(available, floors), left))
  }

  /** Rows per group, from the floors up. */
  function Quotas(graded: seq<real>, groupWeight: seq<real>, available: seq<nat>, floor: nat, budget: nat): (q: seq<nat>)
    requires Weighted(graded, available)
    ensures |q| == |available|
  {
    var floors := Sum(Floors(available, floor));
    if floors > budget then SqueezedFloors(graded, groupWeight, available, floor, budget)
    else FloorsPlusExtra(graded, available, floor, budget - floors)
  }

  lemma {:induction false} SqueezeUntouched(ranked: seq<nat>, available: seq<nat>, floor: nat, left: nat, quotas: seq<nat>, i: nat)
    requires InRange(ranked, |available|) && |quotas| == |available| && i < |available| && i !in ranked
    ensures Squeeze(ranked, available, floor, left, quotas)[i] == quotas[i]
    decreases |ranked|
  {
    if ranked != [] && left > 0 {
      var take := Min(Min(available[ranked[0]], floor), left);
      SqueezeUntouched(ranked[1..], available, floor, left - take, quotas[ranked[0] := take], i);
    }
  }

  lemma {:induction false} SqueezeBounds(ranked: seq<nat>, available: seq<nat>, floor: nat, left: nat, quotas: seq<nat>, i: nat)
    requires InRange(ranked, |available|) && |quotas| == |available| && Distinct(ranked)
    requires forall k :: 0 <= k < |ranked| ==> quotas[ranked[k]] == 0
    requires i in ranked
    ensures var q := Squeeze(ranked, available, floor, left, quotas)[i];
            q <= available[i] && q <= floor && q <= left
    decreases |ranked|
  {
    if left > 0 {
      var take := Min(Min(available[ranked[0]], floor), left);
      var rest := ranked[1..];
      assert ranked == [ranked[0]] + rest;
      assert ranked[0] !in rest;
      if i == ranked[0] {
        SqueezeUntouched(rest, available, floor, left - take, quotas[ranked[0] := take], i);
      } else {
        SqueezeBounds(rest, available, floor, left - take, quotas[ranked[0] := take], i);
      }
    } else {
      var k :| 0 <= k < |ranked| && ranked[k] == i;
    }
  }

  lemma {:induction false} SqueezeTotal(ranked: seq<nat>, available: seq<nat>, floor: nat, left: nat, quotas: seq<nat>)
    requires InRange(ranked, |available|) && |quotas| == |available| && Distinct(ranked)
    requires forall k :: 0 <= k < |ranked| ==> quotas[ranked[k]] == 0
    ensures Sum(Squeeze(ranked, available, floor, left, quotas))
            == Sum(quotas) + Min(left, SumAt(Floors(available, floor), ranked))
    decreases |ranked|
  {
    var floors := Floors(available, floor);
    SumAtNonNegative(floors, ranked);
    if ranked != [] && left > 0 {
      var take := Min(Min(available[ranked[0]], floor), left);
      var rest := ranked[1..];
      assert ranked == [ranked[0]] + rest;
      assert ranked[0] !in rest;
      SumUpdate(quotas, ranked[0], take);
      SumAtNonNegative(floors, rest);
      SqueezeTotal(rest, available, floor, left - take, quotas[ranked[0] := take]);
    }
  }

  lemma {:induction false} SumAtNonNegative(s: seq<nat>, idxs: seq<nat>)
    requires InRange(idxs, |s|)
    ensures 0 <= SumAt(s, idxs)
  {
    if idxs != [] {
      SumAtNonNegative(s, idxs[1..]);
    }
  }

  lemma {:induction false} SqueezeServesFirst(ranked: seq<nat>, available: seq<nat>, floor: nat, left: nat, quotas: seq<nat>, b: nat)
    requires InRange(ranked, |available|) && |quotas| == |available| && Distinct(ranked)
    requires forall k :: 0 <= k < |ranked| ==> quotas[ranked[k]] == 0
    requires 0 < b < |ranked| && left > 0
    ensures var q := Squeeze(ranked, available, floor, left, quotas);
            q[ranked[b]] > 0 ==> q[ranked[0]] == Min(available[ranked[0]], floor)
  {
    var take := Min(Min(available[ranked[0]], floor), left);
    var rest := ranked[1..];
    var updated := quotas[ranked[0] := take];
    assert ranked == [ranked[0]] + rest;
    assert ranked[0] !in rest && ranked[b] == rest[b - 1];
    SqueezeUntouched(rest, available, floor, left - take, updated, ranked[0]);
    SqueezeBounds(rest, available, floor, left - take, updated, ranked[b]);
  }

  /** Nobody is served before everyone ranked earlier has its whole floor. */
  lemma {:induction false} SqueezeServes(ranked: seq<nat>, available: seq<nat>, floor: nat, left: nat, quotas: seq<nat>, a: nat, b: nat)
    requires InRange(ranked, |available|) && |quotas| == |available| && Distinct(ranked)
    requires forall k :: 0 <= k < |ranked| ==> quotas[ranked[k]] == 0
    requires a < b < |ranked|
    ensures var q := Squeeze(ranked, available, floor, left, quotas);
            q[ranked[b]] > 0 ==> q[ranked[a]] == Min(available[ranked[a]], floor)
    decreases |ranked|
  {
    if left > 0 {
      var take := Min(Min(available[ranked[0]], floor), left);
      var rest := ranked[1..];
      var updated := quotas[ranked[0] := take];
      assert ranked == [ranked[0]] + rest;
      assert ranked[0] !in rest;
      if a == 0 {
        SqueezeServesFirst(ranked, available, floor, left, quotas, b);
      } else {
        SqueezeServes(rest, available, floor, left - take, updated, a - 1, b - 1);
      }
    }
  }

  /** So whoever is ranked earlier keeps at least as much, or all it has. */
  lemma {:induction false} SqueezeFavours(ranked: seq<nat>, available: seq<nat>, floor: nat, left: nat, quotas: seq<nat>, a: nat, b: nat)
    requires InRange(ranked, |available|) && |quotas| == |available| && Distinct(ranked)
    requires forall k :: 0 <= k < |ranked| ==> quotas[ranked[k]] == 0
    requires a < b < |ranked|
    ensures var q := Squeeze(ranked, available, floor, left, quotas);
            q[ranked[a]] >= q[ranked[b]] || q[ranked[a]] == available[ranked[a]]
  {
    SqueezeServes(ranked, available, floor, left, quotas, a, b);
    SqueezeBounds(ranked, available, floor, left, quotas, ranked[b]);
  }

  /** Larger graded weight first, then larger group weight, then the earlier group. */
  predicate Outranks(graded: seq<real>, groupWeight: seq<real>, x: nat, y: nat)
    requires x < |graded| == |groupWeight| && y < |graded|
  {
    graded[x] > graded[y] ||
    (graded[x] == graded[y] && (groupWeight[x] > groupWeight[y] || (groupWeight[x] == groupWeight[y] && x < y)))
  }

  lemma RankedLaws(graded: seq<real>, groupWeight: seq<real>, n: nat)
    requires |graded| == |groupWeight| == n
    ensures var r := Ranked(graded, groupWeight, n);
            && Distinct(r)
            && (forall i: nat :: i in r <==> i < n)
            && (forall a, b :: 0 <= a < b < n ==> Outranks(graded, groupWeight, r[a], r[b]))
  {
    var le := ByGrade(graded, groupWeight);
    var r := Ranked(graded, groupWeight, n);
    SortMembers(le, Iota(n));
    SortDistinct(le, Iota(n));
    assert TotalPreorder(le);
    SortOrdered(le, Iota(n));
    forall i: nat ensures i in r <==> i < n {
      if i < n { assert Iota(n)[i] == i; }
    }
    forall a, b | 0 <= a < b < n ensures Outranks(graded, groupWeight, r[a], r[b]) {
      assert le(r[a], r[b]);
      ByGradeOrder(graded, groupWeight, r[a], r[b]);
    }
  }

  lemma ByGradeOrder(graded: seq<real>, groupWeight: seq<real>, x: nat, y: nat)
    requires x < |graded| == |groupWeight| && y < |graded| && x != y && ByGrade(graded, groupWeight)(x, y)
    ensures Outranks(graded, groupWeight, x, y)
  {
    assert KeyOf(graded, x) >= KeyOf(graded, y);
    assert KeyOf(graded, x) == KeyOf(graded, y) ==> KeyOf(groupWeight, x) >= KeyOf(groupWeight, y);
  }

  /** Where two groups stand in the ranking. */
  lemma RankedPlaces(graded: seq<real>, groupWeight: seq<real>, n: nat, i: nat, j: nat) returns (a: nat, b: nat)
    requires |graded| == |groupWeight| == n && i < n && j < n && Outranks(graded, groupWeight, i, j)
    ensures a < b < n && Ranked(graded, groupWeight, n)[a] == i && Ranked(graded, groupWeight, n)[b] == j
  {
    var ranked := Ranked(graded, groupWeight, n);
    RankedLaws(graded, groupWeight, n);
    assert i in ranked && j in ranked;
    a :| 0 <= a < n && ranked[a] == i;
    b :| 0 <= b < n && ranked[b] == j;
    OutranksOneWay(graded, groupWeight, i, j);
  }

  lemma OutranksOneWay(graded: seq<real>, groupWeight: seq<real>, x: nat, y: nat)
    requires x < |graded| == |groupWeight| && y < |graded|
    ensures !(Outranks(graded, groupWeight, x, y) && Outranks(graded, groupWeight, y, x))
  {
  }

  lemma {:induction false} SumAtIota(s: seq<int>, n: nat)
    requires n <= |s|
    ensures SumAt(s, Iota(n)) == Sum(s[..n])
  {
    if n > 0 {
      SumAtIota(s, n - 1);
      assert Iota(n) == Iota(n - 1) + [n - 1];
      SumAtConcat(s, Iota(n - 1), [n - 1]);
      assert SumAt(s, [n - 1]) == s[n - 1];
      assert s[..n][..n - 1] == s[..n - 1];
    }
  }

  lemma SqueezedFloorsConserve(graded: seq<real>, groupWeight: seq<real>, available: seq<nat>, floor: nat, budget: nat)
    requires |graded| == |groupWeight| == |available| && Sum(Floors(available, floor)) > budget
    ensures var q := SqueezedFloors(graded, groupWeight, available, floor, budget);
            && Sum(q) == budget
            && forall k :: 0 <= k < |q| ==> q[k] <= available[k] && q[k] <= floor
  {
    var n := |available|;
    var floors := Floors(available, floor);
    var ranked := Ranked(graded, groupWeight, n);
    var zero: seq<nat> := seq(n, _ => 0);
    RankedLaws(graded, groupWeight, n);
    SqueezeTotal(ranked, available, floor, budget, zero);
    SumZero(zero);
    SumAtSort(ByGrade(graded, groupWeight), floors, Iota(n));
    SumAtIota(floors, n);
    assert floors[..n] == floors;
    forall k | 0 <= k < n
      ensures Squeeze(ranked, available, floor, budget, zero)[k] <= available[k]
      ensures Squeeze(ranked, available, floor, budget, zero)[k] <= floor
    {
      SqueezeBounds(ranked, available, floor, budget, zero, k);
    }
  }

  lemma {:induction false} FloorsPlusExtraConserve(graded: seq<real>, available: seq<nat>, floor: nat, left: nat)
    requires Weighted(graded, available)
    ensures var q := FloorsPlusExtra(graded, available, floor, left);
            && Sum(q) == Min(Sum(Floors(available, floor)) + left, Sum(available))
            && forall k :: 0 <= k < |q| ==> Min(floor, available[k]) <= q[k] <= available[k]
  {
    var floors := Floors(available, floor);
    var head := Less(available, floors);
    var extra := ExtraRows(graded, head, left);
    ExtraConserves(graded, head, left);
    assert head == Sub(available, floors);
    SumSub(available, floors);
    assert Plus(floors, extra) == Add(floors, extra);
    SumAdd(floors, extra);
  }

  /** `q` spends the budget to the row and overdraws no group. */
  ghost predicate Spends(q: seq<nat>, available: seq<nat>, budget: nat) {
    && |q| == |available|
    && Sum(q) == budget
    && forall k :: 0 <= k < |q| ==> q[k] <= available[k]
  }

  lemma SqueezedFloorsSpend(graded: seq<real>, groupWeight: seq<real>, available: seq<nat>, floor: nat, budget: nat)
    requires |graded| == |groupWeight| == |available| && Sum(Floors(available, floor)) > budget
    ensures Spends(SqueezedFloors(graded, groupWeight, available, floor, budget), available, budget)
  {
    SqueezedFloorsConserve(graded, groupWeight, available, floor, budget);
  }

  lemma {:induction false} FloorsPlusExtraSpend(graded: seq<real>, available: seq<nat>, floor: nat, left: nat, budget: nat)
    requires Weighted(graded, available)
    requires Sum(Floors(available, floor)) + left == budget <= Sum(available)
    ensures Spends(FloorsPlusExtra(graded, available, floor, left), available, budget)
  {
    FloorsPlusExtraConserve(graded, available, floor, left);
  }

  lemma QuotasSpend(graded: seq<real>, groupWeight: seq<real>, available: seq<nat>, floor: nat, budget: nat)
    returns (q: seq<nat>)
    requires Weighted(graded, available) && |groupWeight| == |graded| && budget <= Sum(available)
    ensures q == Quotas(graded, groupWeight, available, floor, budget)
    ensures Spends(q, available, budget)
  {
    var floors := Sum(Floors(available, floor));
    if floors > budget {
      q := SqueezedFloors(graded, groupWeight, available, floor, budget);
      SqueezedFloorsSpend(graded, groupWeight, available, floor, budget);
    } else {
      q := FloorsPlusExtra(graded, available, floor, budget - floors);
      FloorsPlusExtraSpend(graded, available, floor, budget - floors, budget);
    }
  }

  lemma QuotasKeepFloors(graded: seq<real>, groupWeight: seq<real>, available: seq<nat>, floor: nat, budget: nat)
    requires Weighted(graded, available) && Sum(Floors(available, floor)) <= budget
    ensures forall k :: 0 <= k < |available| ==>
              Quotas(graded, groupWeight, available, floor, budget)[k] >= Min(floor, available[k])
  {
  }

  lemma SqueezedFloorsServe(graded: seq<real>, groupWeight: seq<real>, available: seq<nat>, floor: nat, budget: nat, i: nat, j: nat)
    requires |graded| == |groupWeight| == |available| && i < |available| && j < |available|
    requires Outranks(graded, groupWeight, i, j)
    ensures var q := SqueezedFloors(graded, groupWeight, available, floor, budget);
            && (q[j] > 0 ==> q[i] == Min(available[i], floor))
            && (q[i] >= q[j] || q[i] == available[i])
  {
    var n := |available|;
    var ranked := Ranked(graded, groupWeight, n);
    RankedLaws(graded, groupWeight, n);
    var a, b := RankedPlaces(graded, groupWeight, n, i, j);
    SqueezeServes(ranked, available, floor, budget, seq(n, _ => 0), a, b);
    SqueezeFavours(ranked, available, floor, budget, seq(n, _ => 0), a, b);
  }

  lemma FloorsPlusExtraFavour(graded: seq<real>, available: seq<nat>, floor: nat, left: nat, i: nat, j: nat)
    requires Weighted(graded, available) && i < |available| && j < |available|
    requires graded[i] > graded[j] || (graded[i] == graded[j] && i < j)
    ensures var q := FloorsPlusExtra(graded, available, floor, left);
            q[i] >= q[j] || q[i] == available[i]
  {
    var head := Less(available, Floors(available, floor));
    ExtraRespectsGrading(graded, head, left, i, j);
    ExtraConserves(graded, head, left);
  }

  lemma QuotasRespectGrading(graded: seq<real>, groupWeight: seq<real>, available: seq<nat>, floor: nat, budget: nat, i: nat, j: nat)
    requires Weighted(graded, available) && |groupWeight| == |graded| && i < |available| && j < |available|
    requires graded[i] > graded[j] || (graded[i] == graded[j] && i < j && Sum(Floors(available, floor)) <= budget)
    ensures var q := Quotas(graded, groupWeight, available, floor, budget);
            q[i] >= q[j] || q[i] == available[i]
  {
    var floors := Sum(Floors(available, floor));
    if floors > budget {
      SqueezedFloorsServe(graded, groupWeight, available, floor, budget, i, j);
    } else {
      FloorsPlusExtraFavour(graded, available, floor, budget - floors, i, j);
    }
  }

  /** The groups with more rows than the floor. */
  function AboveFloor(available: seq<nat>, floor: nat): Condition {
    (i: nat) => i < |available| && available[i] > floor
  }

  lemma {:induction false} RoomAboveFloor(graded: seq<real>, available: seq<nat>, floor: nat, n: nat)
    requires n <= |graded| == |available|
    ensures SumWhere(graded, HasRoom(Less(available, Floors(available, floor))), n)
            == SumWhere(graded, AboveFloor(available, floor), n)
  {
    if n > 0 {
      RoomAboveFloor(graded, available, floor, n - 1);
    }
  }

  lemma {:induction false} ExtraAboveFloor(graded: seq<real>, available: seq<nat>, floor: nat, left: nat, i: nat, total: real, share: int)
    requires Weighted(graded, available) && i < |available|
    requires total == SumWhere(graded, AboveFloor(available, floor), |graded|) > 0.0
    requires Due(left, graded[i], total, share)
    ensures ExtraRows(graded, Less(available, Floors(available, floor)), left)[i]
            >= Min(share, available[i] - Min(floor, available[i]))
  {
    RoomAboveFloor(graded, available, floor, |graded|);
    ExtraMeetsLowerQuota(graded, Less(available, Floors(available, floor)), left, i, total, share);
  }

  /** Beyond its floor every group keeps what it is due of what the floors leave, or
      all it has. */
  lemma QuotasMeetLowerQuota(graded: seq<real>, groupWeight: seq<real>, available: seq<nat>, floor: nat, budget: nat, left: nat,
                             i: nat, share: int)
    requires Weighted(graded, available) && i < |available| && Sum(Floors(available, floor)) + left == budget
    requires ExtraRows(graded, Less(available, Floors(available, floor)), left)[i]
             >= Min(share, available[i] - Min(floor, available[i]))
    ensures Quotas(graded, groupWeight, available, floor, budget)[i] >= Min(floor + share, available[i])
  {
  }

  /** Group `j` goes past its floor only once group `i` is kept whole. */
  predicate Waits(q: seq<nat>, available: seq<nat>, floor: nat, i: nat, j: nat) {
    |q| == |available| && i < |q| && j < |q| && (q[j] > Min(floor, available[j]) ==> q[i] == available[i])
  }

  lemma FloorsPlusExtraStarve(graded: seq<real>, available: seq<nat>, floor: nat, left: nat, i: nat, j: nat)
    requires Weighted(graded, available) && i < |available| && j < |available|
    requires graded[j] == 0.0 && graded[i] > 0.0
    ensures Waits(FloorsPlusExtra(graded, available, floor, left), available, floor, i, j)
  {
    ExtraStarvesZero(graded, Less(available, Floors(available, floor)), left, i, j);
  }

  lemma SqueezedFloorsStarve(graded: seq<real>, groupWeight: seq<real>, available: seq<nat>, floor: nat, budget: nat, i: nat, j: nat)
    requires |graded| == |groupWeight| == |available| && Sum(Floors(available, floor)) > budget && i < |available| && j < |available|
    ensures Waits(SqueezedFloors(graded, groupWeight, available, floor, budget), available, floor, i, j)
  {
    SqueezedFloorsConserve(graded, groupWeight, available, floor, budget);
  }

  /** A group of no weight goes past its floor only once every weighted group is kept whole. */
  lemma {:induction false} QuotasStarveZero(graded: seq<real>, groupWeight: seq<real>, available: seq<nat>, floor: nat,
                                            budget: nat, i: nat, j: nat)
    requires Weighted(graded, available) && |groupWeight| == |graded| && budget <= Sum(available)
    requires i < |available| && j < |available|
    requires graded[j] == 0.0 && graded[i] > 0.0
    ensures Waits(Quotas(graded, groupWeight, available, floor, budget), available, floor, i, j)
  {
    var floors := Sum(Floors(available, floor));
    if floors > budget {
      SqueezedFloorsStarve(graded, groupWeight, available, floor, budget, i, j);
    } else {
      FloorsPlusExtraStarve(graded, available, floor, budget - floors, i, j);
    }
  }

  lemma QuotasScale(graded: seq<real>, groupWeight: seq<real>, available: seq<nat>, floor: nat, budget: nat, c: real)
    requires Weighted(graded, available) && c > 0.0
    ensures Weighted(Scale(c, graded), available)
    ensures Quotas(Scale(c, graded), groupWeight, available, floor, budget)
            == Quotas(graded, groupWeight, available, floor, budget)
  {
    var floors := Floors(available, floor);
    if Sum(floors) <= budget {
      ExtraScale(graded, Less(available, floors), budget - Sum(floors), c);
    } else {
      RankedScale(graded, groupWeight, |available|, c);
    }
  }

  lemma RankedScale(graded: seq<real>, groupWeight: seq<real>, n: nat, c: real)
    requires |graded| == n && c > 0.0
    ensures Ranked(Scale(c, graded), groupWeight, n) == Ranked(graded, groupWeight, n)
  {
    var le, le' := ByGrade(graded, groupWeight), ByGrade(Scale(c, graded), groupWeight);
    forall x: nat, y: nat | x in Iota(n) && y in Iota(n)
      ensures le(x, y) == le'(x, y)
    {
      ByGradeScale(graded, groupWeight, c, x, y);
    }
    SortAgree(le, le', Iota(n));
  }

  lemma ByGradeScale(graded: seq<real>, groupWeight: seq<real>, c: real, x: nat, y: nat)
    requires c > 0.0 && x < |graded| && y < |graded|
    ensures ByGrade(graded, groupWeight)(x, y) == ByGrade(Scale(c, graded), groupWeight)(x, y)
  {
    var scaled := Scale(c, graded);
    ScaleKeepsOrder(c, graded[x], graded[y]);
    assert KeyOf(scaled, x) > KeyOf(scaled, y) <==> KeyOf(graded, x) > KeyOf(graded, y);
    assert KeyOf(scaled, x) == KeyOf(scaled, y) <==> KeyOf(graded, x) == KeyOf(graded, y);
  }

  lemma ScaleKeepsOrder(c: real, x: real, y: real)
    requires c > 0.0
    ensures c * x > c * y <==> x > y
    ensures c * x == c * y <==> x == y
  {
  }
}
