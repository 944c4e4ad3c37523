/** `NamedSharding`: an N-dimensional arrangement of ranks with named axes, kept as
    a row-major list and a shape. */
module RankLayout {
  import opened Sums
  import opened Sorting
  import opened Options
  import opened Arithmetic

  // ----- row-major indexing -----

  function Size(shape: seq<nat>): nat {
    if shape == [] then 1 else shape[0] * Size(shape[1..])
  }

  predicate InBox(shape: seq<nat>, coords: seq<nat>) {
    |coords| == |shape| && forall i :: 0 <= i < |shape| ==> coords[i] < shape[i]
  }

  /** Flat position of a coordinate vector. */
  function Ravel(shape: seq<nat>, coords: seq<nat>): nat
    requires |coords| == |shape|
  {
    if shape == [] then 0 else coords[0] * Size(shape[1..]) + Ravel(shape[1..], coords[1..])
  }

  /** Coordinate vector of a flat position. */
  function Unravel(shape: seq<nat>, k: nat): (c: seq<nat>)
    requires k < Size(shape)
    ensures |c| == |shape|
    decreases |shape|
  {
    if shape == [] then []
    else
      var stride := Size(shape[1..]);
      StridePositive(shape, k);
      [k / stride] + Unravel(shape[1..], k % stride)
  }

  lemma StridePositive(shape: seq<nat>, k: nat)
    requires shape != [] && k < Size(shape)
    ensures Size(shape[1..]) > 0
  {
  }

  lemma {:induction false} UnravelLaws(shape: seq<nat>, k: nat)
    requires k < Size(shape)
    ensures InBox(shape, Unravel(shape, k))
    ensures Ravel(shape, Unravel(shape, k)) == k
    decreases |shape|
  {
    if shape != [] {
      var rest := shape[1..];
      var stride := Size(rest);
      StridePositive(shape, k);
      UnravelLaws(rest, k % stride);
      QuotientBelow(k, shape[0], stride);
      DivModLaws(k, stride);
      var c := Unravel(shape, k);
      assert c[1..] == Unravel(rest, k % stride);
      forall i | 0 <= i < |shape| ensures c[i] < shape[i] {
        if i > 0 { assert c[i] == c[1..][i - 1] && shape[i] == rest[i - 1]; }
      }
    }
  }

  lemma {:induction false} RavelLaws(shape: seq<nat>, coords: seq<nat>)
    requires InBox(shape, coords)
    ensures Ravel(shape, coords) < Size(shape)
    ensures Unravel(shape, Ravel(shape, coords)) == coords
    decreases |shape|
  {
    if shape != [] {
      var rest, tail := shape[1..], coords[1..];
      assert InBox(rest, tail) by {
        forall i | 0 <= i < |rest| ensures tail[i] < rest[i] { assert coords[i + 1] < shape[i + 1]; }
      }
      RavelLaws(rest, tail);
      var stride := Size(rest);
      MulLess(coords[0], shape[0], stride);
      DivModUnique(coords[0], Ravel(rest, tail), stride);
      assert coords == [coords[0]] + tail;
    }
  }

  /** Compared from the first coordinate on. */
  predicate LexLess(a: seq<nat>, b: seq<nat>)
    requires |a| == |b|
  {
    a != [] && (a[0] < b[0] || (a[0] == b[0] && LexLess(a[1..], b[1..])))
  }

  lemma CompareByDivision(j: nat, k: nat, d: nat)
    requires d > 0
    ensures j < k <==> j / d < k / d || (j / d == k / d && j % d < k % d)
  {
    DivModLaws(j, d);
    DivModLaws(k, d);
    if j / d < k / d {
      MulLess(j / d, k / d, d);
    } else if k / d < j / d {
      MulLess(k / d, j / d, d);
    }
  }

  /** Row-major: positions are in the order of their coordinates, the last axis
      running fastest. */
  lemma {:induction false} RowMajor(shape: seq<nat>, j: nat, k: nat)
    requires j < Size(shape) && k < Size(shape)
    ensures j < k <==> LexLess(Unravel(shape, j), Unravel(shape, k))
    decreases |shape|
  {
    if shape != [] {
      var stride := Size(shape[1..]);
      StridePositive(shape, j);
      CompareByDivision(j, k, stride);
      RowMajor(shape[1..], j % stride, k % stride);
      assert Unravel(shape, j)[1..] == Unravel(shape[1..], j % stride);
      assert Unravel(shape, k)[1..] == Unravel(shape[1..], k % stride);
    }
  }

  // ----- the layout -----

  datatype Sharding = Sharding(shape: seq<nat>, layout: seq<int>, names: seq<string>)

  /** What the constructor establishes. */
  ghost predicate Valid(sh: Sharding) {
    |sh.layout| == Size(sh.shape) && |sh.shape| == |sh.names| && Distinct(sh.layout)
  }

  /** `NamedSharding.__init__` on an array of the given shape. */
  method MakeSharding(shape: seq<nat>, layout: seq<int>, names: seq<string>) returns (r: Result<Sharding>)
    requires |layout| == Size(shape)
    ensures r.Ok? <==> |shape| == |names| && Distinct(layout)
    ensures r.Ok? ==> r.value == Sharding(shape, layout, names) && Valid(r.value)
    ensures r.Err? ==> r.error == ValueError
  {
    if |shape| != |names| || !Distinct(layout) {
      return Err(ValueError);
    }
    r := Ok(Sharding(shape, layout, names));
  }

  /** A dict built axis by axis: a repeated name keeps the last axis. */
  function DictOf<V>(names: seq<string>, values: seq<V>): (m: map<string, V>)
    requires |names| == |values|
    ensures forall n :: n in m <==> n in names
  {
    if names == [] then map[]
    else
      var k := |names| - 1;
      assert names == names[..k] + [names[k]];
      DictOf(names[..k], values[..k])[names[k] := values[k]]
  }

  /** Axis a name refers to: the last one carrying it. */
  function AxisOf(names: seq<string>, name: string): (a: nat)
    requires name in names
    ensures a < |names| && names[a] == name
    ensures forall b :: a < b < |names| ==> names[b] != name
  {
    if names[|names| - 1] == name then |names| - 1 else AxisOf(names[..|names| - 1], name)
  }

  lemma {:induction false} DictLooksUpLast<V>(names: seq<string>, values: seq<V>, name: string)
    requires |names| == |values| && name in names
    ensures DictOf(names, values)[name] == values[AxisOf(names, name)]
  {
    var k := |names| - 1;
    if names[k] != name {
      DictLooksUpLast(names[..k], values[..k], name);
    }
  }

  function CoordsAt(sh: Sharding, k: nat): (c: seq<nat>)
    requires |sh.layout| == Size(sh.shape) && k < |sh.layout|
    ensures |c| == |sh.shape|
  {
    Unravel(sh.shape, k)
  }

  /** `get_worker_coords`. */
  function WorkerCoords(sh: Sharding, worker: int): (r: Result<map<string, nat>>)
    requires Valid(sh)
  {
    if worker !in sh.layout then Err(ValueError)
    else Ok(DictOf(sh.names, CoordsAt(sh, IndexIn(sh.layout, worker))))
  }

  datatype Selected = Rank(rank: int) | Subset(ranks: seq<int>, names: seq<string>)

  predicate Specified(sh: Sharding, kwargs: map<string, int>, axis: nat)
    requires axis < |sh.names|
  {
    sh.names[axis] in kwargs && AxisOf(sh.names, sh.names[axis]) == axis
  }

  /** The selected coordinate of every specified axis matches. */
  predicate Matches(sh: Sharding, kwargs: map<string, int>, coords: seq<nat>)
    requires |coords| == |sh.names|
  {
    forall a :: 0 <= a < |sh.names| && Specified(sh, kwargs, a) ==> coords[a] == kwargs[sh.names[a]]
  }

  /** Which positions match. */
  function MatchFlags(sh: Sharding, kwargs: map<string, int>): (f: seq<bool>)
    requires Valid(sh)
    ensures |f| == |sh.layout|
  {
    seq(|sh.layout|, k requires 0 <= k < |sh.layout| => Matches(sh, kwargs, CoordsAt(sh, k)))
  }

  /** The flagged entries, in order. */
  function Filter(xs: seq<int>, flags: seq<bool>): seq<int>
    requires |xs| == |flags|
  {
    if xs == [] then []
    else
      var n := |xs| - 1;
      Filter(xs[..n], flags[..n]) + (if flags[n] then [xs[n]] else [])
  }

  /** `layout[tuple(indices)]`, flattened. */
  function Matching(sh: Sharding, kwargs: map<string, int>): seq<int>
    requires Valid(sh)
  {
    Filter(sh.layout, MatchFlags(sh, kwargs))
  }

  function RemainingNames(sh: Sharding, kwargs: map<string, int>, m: nat): seq<string>
    requires m <= |sh.names|
  {
    if m == 0 then []
    else if Specified(sh, kwargs, m - 1) then RemainingNames(sh, kwargs, m - 1)
    else RemainingNames(sh, kwargs, m - 1) + [sh.names[m - 1]]
  }

  predicate KnownAxes(sh: Sharding, kwargs: map<string, int>) {
    forall n :: n in kwargs ==> n in sh.names
  }

  predicate InBounds(sh: Sharding, kwargs: map<string, int>)
    requires |sh.shape| == |sh.names| && KnownAxes(sh, kwargs)
  {
    forall n :: n in kwargs ==> 0 <= kwargs[n] < sh.shape[AxisOf(sh.names, n)]
  }

  /** `get_ranks`.  A call with both an unknown axis and a bad index is refused
      either way. */
  function GetRanks(sh: Sharding, kwargs: map<string, int>): (r: Result<Selected>)
    requires Valid(sh)
  {
    if !KnownAxes(sh, kwargs) then Err(ValueError)
    else if !InBounds(sh, kwargs) then Err(IndexError)
    else
      var subset := Matching(sh, kwargs);
      var remaining := RemainingNames(sh, kwargs, |sh.names|);
      if remaining == [] && |subset| == 1 then Ok(Rank(subset[0])) else Ok(Subset(subset, remaining))
  }

  /** The last axis that carries a name. */
  predicate IsLastNamed(names: seq<string>, n: string, a: nat) {
    a < |names| && names[a] == n && forall b :: a < b < |names| ==> names[b] != n
  }

  /** What `get_ranks` accepts: names that occur, each with an index below the extent of
      the last axis of that name. */
  lemma GetRanksAcceptedIff(sh: Sharding, kwargs: map<string, int>)
    requires Valid(sh)
    ensures GetRanks(sh, kwargs) == Err(ValueError) <==> exists n :: n in kwargs && n !in sh.names
    ensures GetRanks(sh, kwargs).Ok? <==>
            forall n :: n in kwargs ==>
              n in sh.names && exists a: nat :: IsLastNamed(sh.names, n, a) && 0 <= kwargs[n] < sh.shape[a]
    ensures GetRanks(sh, kwargs).Err? ==> GetRanks(sh, kwargs).error in {ValueError, IndexError}
  {
    forall n | n in kwargs && n in sh.names
      ensures 0 <= kwargs[n] < sh.shape[AxisOf(sh.names, n)] <==>
              exists a: nat :: IsLastNamed(sh.names, n, a) && 0 <= kwargs[n] < sh.shape[a]
    {
      assert IsLastNamed(sh.names, n, AxisOf(sh.names, n));
    }
  }

  /** The loop both lookups share: `indices` starts as full slices, and every named
      axis is pinned, or the first unknown name or bad index is reported. */
  method PinAxes(sh: Sharding, kwargs: map<string, int>) returns (r: Result<seq<Option<int>>>)
    requires Valid(sh)
    ensures r.Ok? <==> KnownAxes(sh, kwargs) && InBounds(sh, kwargs)
    ensures r.Err? ==> r.error == ValueError || r.error == IndexError
    ensures KnownAxes(sh, kwargs) && r.Err? ==> r.error == IndexError
    ensures r.Ok? ==> Pins(sh, kwargs, r.value)
  {
    var indices: seq<Option<int>> := seq(|sh.names|, _ => None);
    var pending := kwargs.Keys;
    while pending != {}
      invariant pending <= kwargs.Keys && |indices| == |sh.names|
      invariant forall n :: n in kwargs && n !in pending ==>
        n in sh.names && 0 <= kwargs[n] < sh.shape[AxisOf(sh.names, n)]
      invariant forall a :: 0 <= a < |sh.names| ==>
        indices[a] == if Specified(sh, kwargs, a) && sh.names[a] !in pending then Some(kwargs[sh.names[a]]) else None
      decreases pending
    {
      var name :| name in pending;
      if name !in sh.names {
        return Err(ValueError);
      }
      var axis := AxisOf(sh.names, name);
      if !(0 <= kwargs[name] < sh.shape[axis]) {
        return Err(IndexError);
      }
      indices := indices[axis := Some(kwargs[name])];
      pending := pending - {name};
    }
    r := Ok(indices);
  }

  /** What pinning the named axes amounts to. */
  predicate Pins(sh: Sharding, kwargs: map<string, int>, indices: seq<Option<int>>) {
    |indices| == |sh.names| && forall a :: 0 <= a < |sh.names| ==>
      indices[a] == if Specified(sh, kwargs, a) then Some(kwargs[sh.names[a]]) else None
  }

  /** A position lies in the slice when its coordinates agree with every pinned axis. */
  predicate InSlice(indices: seq<Option<int>>, coords: seq<nat>)
    requires |coords| == |indices|
  {
    forall a :: 0 <= a < |indices| && indices[a].Some? ==> coords[a] == indices[a].value
  }

  lemma SliceIsMatch(sh: Sharding, kwargs: map<string, int>, indices: seq<Option<int>>, coords: seq<nat>)
    requires Pins(sh, kwargs, indices) && |coords| == |sh.names|
    ensures InSlice(indices, coords) <==> Matches(sh, kwargs, coords)
  {
    if Matches(sh, kwargs, coords) {
      forall a | 0 <= a < |indices| && indices[a].Some?
        ensures coords[a] == indices[a].value
      {
        assert Specified(sh, kwargs, a);
      }
    }
  }

  /** `layout[tuple(indices)]`, read off position by position. */
  method SliceLayout(sh: Sharding, kwargs: map<string, int>, indices: seq<Option<int>>) returns (subset: seq<int>)
    requires Valid(sh) && Pins(sh, kwargs, indices)
    ensures subset == Matching(sh, kwargs)
  {
    subset := [];
    ghost var flags := MatchFlags(sh, kwargs);
    for k := 0 to |sh.layout|
      invariant subset == Filter(sh.layout[..k], flags[..k])
    {
      SliceIsMatch(sh, kwargs, indices, CoordsAt(sh, k));
      assert sh.layout[..k + 1][..k] == sh.layout[..k] && flags[..k + 1][..k] == flags[..k];
      if InSlice(indices, CoordsAt(sh, k)) {
        subset := subset + [sh.layout[k]];
      }
    }
    assert sh.layout[..|sh.layout|] == sh.layout && flags[..|sh.layout|] == flags;
  }

  /** `[n for i, n in enumerate(names) if i not in specified]`. */
  method OpenAxes(sh: Sharding, kwargs: map<string, int>, indices: seq<Option<int>>) returns (remaining: seq<string>)
    requires Pins(sh, kwargs, indices)
    ensures remaining == RemainingNames(sh, kwargs, |sh.names|)
  {
    remaining := [];
    for a := 0 to |sh.names|
      invariant remaining == RemainingNames(sh, kwargs, a)
    {
      if indices[a].None? {
        remaining := remaining + [sh.names[a]];
      }
    }
  }

  /** `get_ranks`: slicing the layout by the pinned axes.  Which of two refusals comes
      first depends on the order of the arguments. */
  method SelectRanks(sh: Sharding, kwargs: map<string, int>) returns (r: Result<Selected>)
    requires Valid(sh)
    ensures KnownAxes(sh, kwargs) ==> r == GetRanks(sh, kwargs)
    ensures !KnownAxes(sh, kwargs) ==> r == Err(ValueError) || r == Err(IndexError)
  {
    var indices := PinAxes(sh, kwargs);
    if indices.Err? {
      return Err(indices.error);
    }
    var subset := SliceLayout(sh, kwargs, indices.value);
    var remaining := OpenAxes(sh, kwargs, indices.value);
    r := if remaining == [] && |subset| == 1 then Ok(Rank(subset[0])) else Ok(Subset(subset, remaining));
  }

  // ----- the round trip -----

  lemma {:induction false} NothingRemains(sh: Sharding, kwargs: map<string, int>, m: nat)
    requires m <= |sh.names|
    ensures RemainingNames(sh, kwargs, m) == [] <==> forall a :: 0 <= a < m ==> Specified(sh, kwargs, a)
  {
    if m > 0 {
      NothingRemains(sh, kwargs, m - 1);
    }
  }

  lemma {:induction false} FilterMembers(xs: seq<int>, flags: seq<bool>, k: nat)
    requires |xs| == |flags| && Distinct(xs) && k < |xs|
    ensures xs[k] in Filter(xs, flags) <==> flags[k]
    ensures forall x :: x in Filter(xs, flags) ==> x in xs
  {
    var n := |xs| - 1;
    assert xs == xs[..n] + [xs[n]];
    if k < n {
      FilterMembers(xs[..n], flags[..n], k);
    } else if n > 0 {
      FilterMembers(xs[..n], flags[..n], 0);
    }
  }

  /** Only one position is flagged, so the list has one entry. */
  lemma {:induction false} FilterSingle(xs: seq<int>, flags: seq<bool>, k: nat)
    requires |xs| == |flags|
    requires forall j :: 0 <= j < |xs| ==> (flags[j] <==> j == k)
    ensures Filter(xs, flags) == if k < |xs| then [xs[k]] else []
  {
    if xs != [] {
      FilterSingle(xs[..|xs| - 1], flags[..|xs| - 1], k);
    }
  }

  /** Looking a rank up and asking for its coordinates gives the rank back, exactly
      when no axis name is repeated. */
  lemma CoordinatesRoundTrip(sh: Sharding, worker: int)
    requires Valid(sh) && worker in sh.layout
    ensures GetRanks(sh, WorkerCoords(sh, worker).value) == Ok(Rank(worker)) <==> Distinct(sh.names)
  {
    var kwargs := WorkerCoords(sh, worker).value;
    NothingRemains(sh, kwargs, |sh.names|);
    if Distinct(sh.names) {
      AllSpecified(sh, worker);
      CoordsNameOnePosition(sh, worker);
    } else {
      var a, b :| 0 <= a < b < |sh.names| && sh.names[a] == sh.names[b];
      assert !Specified(sh, kwargs, a);
    }
  }

  lemma {:induction false} AllSpecified(sh: Sharding, worker: int)
    requires Valid(sh) && worker in sh.layout && Distinct(sh.names)
    ensures var kwargs := WorkerCoords(sh, worker).value;
            && KnownAxes(sh, kwargs) && InBounds(sh, kwargs)
            && forall a :: 0 <= a < |sh.names| ==>
                 Specified(sh, kwargs, a) && kwargs[sh.names[a]] == CoordsAt(sh, IndexIn(sh.layout, worker))[a]
  {
    var k := IndexIn(sh.layout, worker);
    var coords := CoordsAt(sh, k);
    var kwargs := WorkerCoords(sh, worker).value;
    UnravelLaws(sh.shape, k);
    forall n | n in kwargs ensures kwargs[n] == coords[AxisOf(sh.names, n)] {
      DictLooksUpLast(sh.names, coords, n);
    }
    forall a | 0 <= a < |sh.names| ensures Specified(sh, kwargs, a) && kwargs[sh.names[a]] == coords[a] {
      assert sh.names[a] in sh.names;
    }
  }

  lemma CoordsNameOnePosition(sh: Sharding, worker: int)
    requires Valid(sh) && worker in sh.layout && Distinct(sh.names)
    ensures Matching(sh, WorkerCoords(sh, worker).value) == [worker]
  {
    var k := IndexIn(sh.layout, worker);
    var kwargs := WorkerCoords(sh, worker).value;
    AllSpecified(sh, worker);
    UnravelLaws(sh.shape, k);
    forall j | 0 <= j < |sh.layout| ensures MatchFlags(sh, kwargs)[j] <==> j == k {
      UnravelLaws(sh.shape, j);
      if Matches(sh, kwargs, CoordsAt(sh, j)) {
        assert CoordsAt(sh, j) == CoordsAt(sh, k);
      }
    }
    FilterSingle(sh.layout, MatchFlags(sh, kwargs), k);
  }

  /** A layout of one rank whose two axes share a name: the rank's coordinates leave
      the first axis open. */
  lemma RepeatedNameLosesRank()
    ensures var sh := Sharding([1, 1], [0], ["tp", "tp"]);
            && Valid(sh) && WorkerCoords(sh, 0).Ok?
            && GetRanks(sh, WorkerCoords(sh, 0).value) != Ok(Rank(0))
  {
    var sh := Sharding([1, 1], [0], ["tp", "tp"]);
    assert [1, 1][1..] == [1] && [1][1..] == [];
    assert Size([]) == 1 && Size([1]) == 1 && Size([1, 1]) == 1;
    assert sh.names[0] == sh.names[1];
    CoordinatesRoundTrip(sh, 0);
  }

  // ----- `get_ranks_by_coord` -----

  /** Ranks at the given coordinates, ascending; a bad index matches nothing. */
  function RanksByCoord(sh: Sharding, kwargs: map<string, int>): (r: Result<seq<int>>)
    requires Valid(sh)
  {
    if !KnownAxes(sh, kwargs) then Err(ValueError)
    else if !InBounds(sh, kwargs) then Ok([])
    else Ok(Sort((a: int, b: int) => a <= b, Matching(sh, kwargs)))
  }

  /** `get_ranks_by_coord`: the same slice, sorted; a bad index lists nothing. */
  method ListRanks(sh: Sharding, kwargs: map<string, int>) returns (r: Result<seq<int>>)
    requires Valid(sh)
    ensures KnownAxes(sh, kwargs) ==> r == RanksByCoord(sh, kwargs)
    ensures !KnownAxes(sh, kwargs) ==> r == Err(ValueError) || r == Ok([])
  {
    var indices := PinAxes(sh, kwargs);
    if indices.Err? {
      r := if indices.error == IndexError then Ok([]) else Err(ValueError);
      return;
    }
    var subset := SliceLayout(sh, kwargs, indices.value);
    r := Ok(Sort((a: int, b: int) => a <= b, subset));
  }

  lemma {:induction false} FilteredEntry(xs: seq<int>, flags: seq<bool>, i: nat) returns (j: nat)
    requires |xs| == |flags| && i < |Filter(xs, flags)|
    ensures j < |xs| && Filter(xs, flags)[i] == xs[j]
  {
    var n := |xs| - 1;
    if i < |Filter(xs[..n], flags[..n])| {
      j := FilteredEntry(xs[..n], flags[..n], i);
    } else {
      j := n;
    }
  }

  lemma {:induction false} FilterDistinct(xs: seq<int>, flags: seq<bool>)
    requires |xs| == |flags| && Distinct(xs)
    ensures Distinct(Filter(xs, flags))
  {
    if xs != [] {
      var n := |xs| - 1;
      FilterDistinct(xs[..n], flags[..n]);
      var init := Filter(xs[..n], flags[..n]);
      forall i | 0 <= i < |init| ensures init[i] != xs[n] {
        var j := FilteredEntry(xs[..n], flags[..n], i);
        assert xs[j] != xs[n];
      }
    }
  }

  /** The listed ranks ascend. */
  lemma RanksAscend(sh: Sharding, kwargs: map<string, int>)
    requires Valid(sh) && KnownAxes(sh, kwargs)
    ensures var ranks := RanksByCoord(sh, kwargs).value;
            forall a, b :: 0 <= a < b < |ranks| ==> ranks[a] < ranks[b]
  {
    var le := (a: int, b: int) => a <= b;
    var matching := Matching(sh, kwargs);
    FilterDistinct(sh.layout, MatchFlags(sh, kwargs));
    SortDistinct(le, matching);
    assert TotalPreorder(le);
    SortOrdered(le, matching);
    var sorted := Sort(le, matching);
    forall a, b | 0 <= a < b < |sorted| ensures sorted[a] < sorted[b] {
      assert le(sorted[a], sorted[b]);
    }
  }

  /** A rank is listed exactly when its own coordinates agree with the request. */
  lemma RanksByCoordExact(sh: Sharding, kwargs: map<string, int>, worker: int)
    requires Valid(sh) && KnownAxes(sh, kwargs) && worker in sh.layout
    ensures RanksByCoord(sh, kwargs).Ok?
    ensures worker in RanksByCoord(sh, kwargs).value <==>
              forall n :: n in kwargs ==> WorkerCoords(sh, worker).value[n] == kwargs[n]
  {
    var k := IndexIn(sh.layout, worker);
    var coords := CoordsAt(sh, k);
    UnravelLaws(sh.shape, k);
    forall n | n in kwargs ensures WorkerCoords(sh, worker).value[n] == coords[AxisOf(sh.names, n)] {
      DictLooksUpLast(sh.names, coords, n);
    }
    if InBounds(sh, kwargs) {
      SortMembers((a: int, b: int) => a <= b, Matching(sh, kwargs));
      FilterMembers(sh.layout, MatchFlags(sh, kwargs), k);
      MatchesByName(sh, kwargs, coords);
    } else {
      var n :| n in kwargs && !(0 <= kwargs[n] < sh.shape[AxisOf(sh.names, n)]);
      assert WorkerCoords(sh, worker).value[n] != kwargs[n];
    }
  }

  lemma MatchesByName(sh: Sharding, kwargs: map<string, int>, coords: seq<nat>)
    requires Valid(sh) && KnownAxes(sh, kwargs) && |coords| == |sh.names|
    ensures Matches(sh, kwargs, coords) <==> forall n :: n in kwargs ==> coords[AxisOf(sh.names, n)] == kwargs[n]
  {
    if Matches(sh, kwargs, coords) {
      forall n | n in kwargs ensures coords[AxisOf(sh.names, n)] == kwargs[n] {
        assert Specified(sh, kwargs, AxisOf(sh.names, n));
      }
    }
  }

  // ----- partial requests -----

  lemma {:induction false} FilteredInOrder(xs: seq<int>, flags: seq<bool>, i: nat, i': nat) returns (j: nat, j': nat)
    requires |xs| == |flags| && i < i' < |Filter(xs, flags)|
    ensures j < j' < |xs| && Filter(xs, flags)[i] == xs[j] && Filter(xs, flags)[i'] == xs[j']
  {
    var n := |xs| - 1;
    if i' < |Filter(xs[..n], flags[..n])| {
      j, j' := FilteredInOrder(xs[..n], flags[..n], i, i');
    } else {
      j := FilteredEntry(xs[..n], flags[..n], i);
      j' := n;
    }
  }

  lemma {:induction false} RemainingAre(sh: Sharding, kwargs: map<string, int>, m: nat)
    requires m <= |sh.names| && Distinct(sh.names)
    ensures forall n :: n in RemainingNames(sh, kwargs, m) <==> n in sh.names[..m] && n !in kwargs
  {
    if m > 0 {
      RemainingAre(sh, kwargs, m - 1);
      assert sh.names[..m] == sh.names[..m - 1] + [sh.names[m - 1]];
      assert AxisOf(sh.names, sh.names[m - 1]) == m - 1;
    }
  }

  /** A request with known axes in bounds selects exactly the ranks whose own coordinates
      agree with it, in layout order; with distinct names, the axes it does not name
      remain. */
  lemma SubLayoutExact(sh: Sharding, kwargs: map<string, int>, ranks: seq<int>, names: seq<string>)
    requires Valid(sh) && GetRanks(sh, kwargs) == Ok(Subset(ranks, names))
    ensures KnownAxes(sh, kwargs) && InBounds(sh, kwargs)
    ensures forall worker :: worker in sh.layout ==>
              (worker in ranks <==> forall n :: n in kwargs ==> WorkerCoords(sh, worker).value[n] == kwargs[n])
    ensures forall i, i' :: 0 <= i < i' < |ranks| ==> InLayoutOrder(sh, ranks[i], ranks[i'])
    ensures Distinct(sh.names) ==> forall n :: n in names <==> n in sh.names && n !in kwargs
  {
    forall worker | worker in sh.layout
      ensures worker in ranks <==> forall n :: n in kwargs ==> WorkerCoords(sh, worker).value[n] == kwargs[n]
    {
      RanksByCoordExact(sh, kwargs, worker);
      SortMembers((a: int, b: int) => a <= b, Matching(sh, kwargs));
    }
    forall i, i' | 0 <= i < i' < |ranks| ensures InLayoutOrder(sh, ranks[i], ranks[i']) {
      var j, j' := FilteredInOrder(sh.layout, MatchFlags(sh, kwargs), i, i');
    }
    if Distinct(sh.names) {
      RemainingAre(sh, kwargs, |sh.names|);
      assert sh.names[..|sh.names|] == sh.names;
    }
  }

  /** One rank stands before the other in the layout. */
  ghost predicate InLayoutOrder(sh: Sharding, x: int, y: int) {
    exists j, k :: 0 <= j < k < |sh.layout| && sh.layout[j] == x && sh.layout[k] == y
  }
}
