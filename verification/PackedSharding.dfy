/** The sequence-packing path, end to end. */
module PackedSharding {
  // Sort by length, shard, pack each shard, map micro-batch by micro-batch, scatter
  // the outputs back to shard order, gather the shards and undo the sort.

  import opened Sums
  import opened Sorting
  import opened Options
  import opened Permutations
  import opened BatchSharding
  import opened SequencePacking

  // ----- length sort -----

  function LengthAt(lengths: seq<nat>, i: nat): nat {
    if i < |lengths| then lengths[i] else 0
  }

  function ByLength(lengths: seq<nat>): (nat, nat) -> bool {
    (a: nat, b: nat) => LengthAt(lengths, a) <= LengthAt(lengths, b)
  }

  /** `sorted(range(n), key=lengths)`: ascending and stable. */
  function LengthOrder(lengths: seq<nat>): (order: seq<nat>)
    ensures |order| == |lengths|
  {
    Sort(ByLength(lengths), Iota(|lengths|))
  }

  lemma LengthOrderLaws(lengths: seq<nat>)
    ensures IsPermutation(LengthOrder(lengths), |lengths|)
    ensures forall a, b :: 0 <= a < b < |lengths| ==>
              var x, y := LengthOrder(lengths)[a], LengthOrder(lengths)[b];
              lengths[x] < lengths[y] || (lengths[x] == lengths[y] && x < y)
  {
    SortPermutes(ByLength(lengths), |lengths|);
    var order := LengthOrder(lengths);
    assert TotalPreorder(ByLength(lengths));
    SortIsStable(ByLength(lengths), |lengths|);
    forall a, b | 0 <= a < b < |lengths|
      ensures lengths[order[a]] < lengths[order[b]] || (lengths[order[a]] == lengths[order[b]] && order[a] < order[b])
    {
      assert ByLength(lengths)(order[a], order[b]);
    }
  }

  lemma SortPermutes(le: (nat, nat) -> bool, n: nat)
    ensures IsPermutation(Sort(le, Iota(n)), n)
  {
    SortMultiset(le, Iota(n));
    SameElementsPermute(Sort(le, Iota(n)), Iota(n), n);
  }

  function ByLengthDown(lengths: seq<nat>): (nat, nat) -> bool {
    (a: nat, b: nat) => LengthAt(lengths, a) >= LengthAt(lengths, b)
  }

  /** `sorted(range(n), key=lengths, reverse=True)`: descending, ties left in order. */
  function LongestFirst(lengths: seq<nat>): seq<nat> {
    Sort(ByLengthDown(lengths), Iota(|lengths|))
  }

  /** Descending lengths, equal ones in batch order. */
  ghost predicate Descends(order: seq<nat>, lengths: seq<nat>) {
    && IsPermutation(order, |lengths|)
    && forall a, b :: 0 <= a < b < |order| ==>
         lengths[order[a]] > lengths[order[b]] || (lengths[order[a]] == lengths[order[b]] && order[a] < order[b])
  }

  lemma LongestFirstLaws(lengths: seq<nat>)
    ensures Descends(LongestFirst(lengths), lengths)
  {
    var order, le := LongestFirst(lengths), ByLengthDown(lengths);
    SortPermutes(le, |lengths|);
    assert TotalPreorder(le);
    SortIsStable(le, |lengths|);
    forall a, b | 0 <= a < b < |order|
      ensures lengths[order[a]] > lengths[order[b]] || (lengths[order[a]] == lengths[order[b]] && order[a] < order[b])
    {
      assert le(order[a], order[b]);
    }
  }

  // ----- packs in the order the iterator yields them -----

  datatype Algorithm = FirstFitDecreasing | ShufflePacking | DpPackingAlgorithm | OnlinePacking | Unregistered

  /** The weight of a pack, total so that packs can be compared by it. */
  function PackWeight(lengths: seq<nat>, pack: seq<nat>): int {
    if InRange(pack, |lengths|) then Weight(lengths, pack) else 0
  }

  /** Heaviest pack first, ties to the smaller first index. */
  function Heaviest(lengths: seq<nat>): (seq<nat>, seq<nat>) -> bool {
    (a: seq<nat>, b: seq<nat>) =>
      var wa, wb := PackWeight(lengths, a), PackWeight(lengths, b);
      wa > wb || (wa == wb && (if a == [] then 0 else a[0]) <= (if b == [] then 0 else b[0]))
  }

  lemma {:induction false} FlattenInsert(le: (seq<nat>, seq<nat>) -> bool, x: seq<nat>, packs: seq<seq<nat>>)
    ensures multiset(Flatten(Insert(le, x, packs))) == multiset(x) + multiset(Flatten(packs))
  {
    if packs == [] || le(x, packs[0]) {
      FlattenFront(x, packs);
    } else {
      FlattenInsert(le, x, packs[1..]);
      FlattenFront(packs[0], Insert(le, x, packs[1..]));
      FlattenFront(packs[0], packs[1..]);
      assert packs == [packs[0]] + packs[1..];
    }
  }

  lemma {:induction false} FlattenFront<T>(x: seq<T>, packs: seq<seq<T>>)
    ensures Flatten([x] + packs) == x + Flatten(packs)
  {
    if packs == [] {
      assert [x] + packs == [x];
      assert [x][..0] == [];
      assert x + [] == x;
      assert Flatten([x]) == [] + x;
    } else {
      var n := |packs| - 1;
      assert ([x] + packs)[..n + 1] == [x] + packs[..n];
      FlattenFront(x, packs[..n]);
    }
  }

  lemma {:induction false} FlattenSort(le: (seq<nat>, seq<nat>) -> bool, packs: seq<seq<nat>>)
    ensures multiset(Flatten(Sort(le, packs))) == multiset(Flatten(packs))
  {
    if packs != [] {
      FlattenSort(le, packs[1..]);
      FlattenInsert(le, packs[0], Sort(le, packs[1..]));
      FlattenFront(packs[0], packs[1..]);
      assert packs == [packs[0]] + packs[1..];
    }
  }

  /** Reordering packs keeps a partition a partition. */
  lemma {:induction false} SortKeepsPartition(le: (seq<nat>, seq<nat>) -> bool, packs: seq<seq<nat>>, n: nat)
    requires Partition(packs, n)
    ensures Partition(Sort(le, packs), n)
  {
    var sorted := Sort(le, packs);
    FlattenSort(le, packs);
    SameElementsPermute(Flatten(sorted), Flatten(packs), n);
    SortMultiset(le, packs);
    forall k | 0 <= k < |sorted| ensures sorted[k] != [] && InRange(sorted[k], n) {
      assert sorted[k] in multiset(sorted);
      assert sorted[k] in packs;
    }
  }

  /** Reordering packs changes no pack's weight. */
  lemma {:induction false} SortKeepsBudget(le: (seq<nat>, seq<nat>) -> bool, packs: seq<seq<nat>>, lengths: seq<nat>, cap: int)
    requires Indexes(packs, |lengths|) && Indexes(Sort(le, packs), |lengths|)
    ensures WithinBudget(Sort(le, packs), lengths, cap) <==> WithinBudget(packs, lengths, cap)
  {
    var sorted := Sort(le, packs);
    SortMultiset(le, packs);
    if WithinBudget(packs, lengths, cap) {
      forall k | 0 <= k < |sorted|
        ensures Weight(lengths, sorted[k]) <= cap
      {
        assert sorted[k] in multiset(sorted);
        assert sorted[k] in packs;
      }
    }
    if WithinBudget(sorted, lengths, cap) {
      forall k | 0 <= k < |packs|
        ensures Weight(lengths, packs[k]) <= cap
      {
        assert packs[k] in multiset(packs);
        assert packs[k] in sorted;
      }
    }
  }

  /** Heavier packs first, equal ones by their first sequence. */
  ghost predicate HeaviestFirst(packs: seq<seq<nat>>, lengths: seq<nat>)
    requires Indexes(packs, |lengths|)
  {
    forall a, b :: 0 <= a < b < |packs| && packs[a] != [] && packs[b] != [] ==>
      || Weight(lengths, packs[a]) > Weight(lengths, packs[b])
      || (Weight(lengths, packs[a]) == Weight(lengths, packs[b]) && packs[a][0] <= packs[b][0])
  }

  /** The heaviest packs come first, so every rank meets them at the same step. */
  lemma {:induction false} HeaviestOrders(lengths: seq<nat>, packs: seq<seq<nat>>, sorted: seq<seq<nat>>)
    requires sorted == Sort(Heaviest(lengths), packs) && Indexes(sorted, |lengths|)
    ensures HeaviestFirst(sorted, lengths)
  {
    var le := Heaviest(lengths);
    assert TotalPreorder(le);
    SortOrdered(le, packs);
    forall a, b | 0 <= a < b < |sorted|
      ensures PackWeight(lengths, sorted[a]) == Weight(lengths, sorted[a])
      ensures PackWeight(lengths, sorted[b]) == Weight(lengths, sorted[b])
      ensures le(sorted[a], sorted[b])
    {
    }
  }

  /** A refusal-free run of the chosen packer needs every sequence within the budget,
      except under the dynamic-programming packer, which never refuses. */
  ghost predicate Packable(lengths: seq<nat>, cap: nat, algorithm: Algorithm) {
    && algorithm != Unregistered
    && (algorithm == DpPackingAlgorithm || AllFit(lengths, cap))
  }

  /** The packs before they are sorted, by what each packer promises. */
  ghost predicate PackedBy(packs: seq<seq<nat>>, lengths: seq<nat>, cap: nat, algorithm: Algorithm, order: seq<nat>) {
    && Partition(packs, |lengths|) && InRange(order, |lengths|)
    && match algorithm
       case FirstFitDecreasing => Descends(order, lengths) && AllFirstFit(packs, order, lengths, cap, |order|)
       case ShufflePacking => AllFirstFit(packs, order, lengths, cap, |order|)
       case DpPackingAlgorithm =>
         Descends(order, lengths) && SmallPacks(packs, lengths, cap) && EachFullest(packs, order, lengths, cap)
       case OnlinePacking => Flatten(packs) == Iota(|lengths|) && ClosedFull(packs, lengths, cap)
       case Unregistered => true
  }

  /** `pack_sequences`; `shuffle` is the seeded shuffle, and `order` the order in which
      the chosen packer reads the sequences. */
  method PackSequences(lengths: seq<nat>, cap: nat, algorithm: Algorithm, shuffle: nat -> seq<nat>)
    returns (r: Result<seq<seq<nat>>>, ghost order: seq<nat>)
    requires forall n: nat :: IsPermutation(shuffle(n), n)
    ensures r.Ok? <==> Packable(lengths, cap, algorithm)
    ensures r.Err? ==> r.error == if algorithm == Unregistered then KeyError else ValueError
    ensures r.Ok? ==> PackedBy(r.value, lengths, cap, algorithm, order)
    ensures r.Ok? ==> (WithinBudget(r.value, lengths, cap) <==> AllFit(lengths, cap))
    ensures algorithm == ShufflePacking ==> order == shuffle(|lengths|)
  {
    var n := |lengths|;
    order := Iota(n);
    match algorithm {
      case FirstFitDecreasing =>
        LongestFirstLaws(lengths);
        order := LongestFirst(lengths);
        r := FirstFit(LongestFirst(lengths), lengths, cap);
      case ShufflePacking =>
        order := shuffle(n);
        r := FirstFit(shuffle(n), lengths, cap);
      case DpPackingAlgorithm =>
        LongestFirstLaws(lengths);
        order := LongestFirst(lengths);
        var packs := DpPacking(LongestFirst(lengths), lengths, cap);
        r := Ok(packs);
      case OnlinePacking =>
        r := Online(lengths, cap);
      case Unregistered =>
        return Err(KeyError), order;
    }
  }

  /** The packs of the chosen packer, in some order. */
  ghost predicate Packing(packs: seq<seq<nat>>, lengths: seq<nat>, cap: nat, algorithm: Algorithm, shuffle: nat -> seq<nat>) {
    exists unsorted, order ::
      && PackedBy(unsorted, lengths, cap, algorithm, order)
      && (algorithm == ShufflePacking ==> order == shuffle(|lengths|))
      && multiset(unsorted) == multiset(packs)
  }

  /** `_compute_packs`: the packer's packs, heaviest first. */
  method ComputePacks(lengths: seq<nat>, cap: nat, algorithm: Algorithm, shuffle: nat -> seq<nat>)
    returns (r: Result<seq<seq<nat>>>)
    requires forall n: nat :: IsPermutation(shuffle(n), n)
    ensures r.Ok? <==> Packable(lengths, cap, algorithm)
    ensures r.Ok? ==> Partition(r.value, |lengths|) && HeaviestFirst(r.value, lengths)
    ensures r.Ok? ==> Packing(r.value, lengths, cap, algorithm, shuffle)
    ensures r.Ok? ==> (WithinBudget(r.value, lengths, cap) <==> AllFit(lengths, cap))
  {
    ghost var order;
    r, order := PackSequences(lengths, cap, algorithm, shuffle);
    if r.Ok? {
      var packs := r.value;
      SortKeepsPartition(Heaviest(lengths), packs, |lengths|);
      SortKeepsBudget(Heaviest(lengths), packs, lengths, cap);
      SortMultiset(Heaviest(lengths), packs);
      var sorted := Sort(Heaviest(lengths), packs);
      HeaviestOrders(lengths, packs, sorted);
      assert PackedBy(packs, lengths, cap, algorithm, order);
      r := Ok(sorted);
    }
  }

  // ----- one worker -----

  /** A worker maps each micro-batch, concatenates the outputs, and scatters them
      through the pack order, so that row `i` of the result belongs to row `i`. */
  method WorkerMap<T, R(0)>(f: T -> R, shard: seq<T>, packs: seq<seq<nat>>) returns (restored: seq<R>)
    requires Partition(packs, |shard|)
    ensures restored == Map(f, shard)
  {
    var order := Flatten(packs);
    var outputs: seq<R> := [];
    for k := 0 to |packs|
      invariant InRange(Flatten(packs[..k]), |shard|)
      invariant outputs == Map(f, Pick(shard, Flatten(packs[..k])))
    {
      var microbatch := Pick(shard, packs[k]);
      assert packs[..k + 1][..k] == packs[..k];
      PickConcat(shard, Flatten(packs[..k]), packs[k]);
      MapConcat(f, Pick(shard, Flatten(packs[..k])), microbatch);
      outputs := outputs + Map(f, microbatch);
    }
    assert packs[..|packs|] == packs;
    restored := Scatter(order, outputs);
    MapPick(f, shard, order);
    PickInjective(restored, Map(f, shard), order);
  }

  // ----- the whole path -----

  function Lengths<T>(lengthOf: T -> nat, rows: seq<T>): (l: seq<nat>)
    ensures |l| == |rows|
  {
    Map(lengthOf, rows)
  }

  /** `_shard_by_batch_size_packed`: length-sorted contiguous shards and the inverse
      permutation of the sort. */
  method ShardPacked<T>(rows: seq<T>, lengthOf: T -> nat, shards: nat)
    returns (r: Result<seq<seq<T>>>, inverse: seq<nat>)
    ensures var order := LengthOrder(Lengths(lengthOf, rows));
            && IsPermutation(order, |rows|)
            && r == Shards(Pick(rows, order), shards, None, false)
            && |inverse| == |rows| && Inverts(inverse, order)
            && (r.Ok? ==> Flatten(r.value) == Pick(rows, order))
  {
    var lengths := Lengths(lengthOf, rows);
    var order := LengthOrder(lengths);
    LengthOrderLaws(lengths);
    inverse := BuildInverse(order, |rows|);
    r := ShardByBatchSize(Pick(rows, order), shards, None, false);
    if r.Ok? {
      WholeBatchShardsConcatenate(Pick(rows, order), shards);
    }
  }

  /** Packing preserves meaning: whatever the packer, the shard count and the budget,
      a distributed per-row computation that is not refused returns the plain map of
      the function over the original batch in the original order. */
  method PackedMap<T, R(0)>(f: T -> R, rows: seq<T>, lengthOf: T -> nat, shards: nat, cap: nat,
                            algorithm: Algorithm, shuffle: nat -> seq<nat>)
    returns (r: Result<seq<R>>)
    requires forall n: nat :: IsPermutation(shuffle(n), n)
    ensures r.Ok? ==> r.value == Map(f, rows)
    ensures r.Ok? <==> && rows != [] && shards > 0 && |rows| % shards == 0
                       && Packable(Lengths(lengthOf, rows), cap, algorithm)
  {
    var parts, inverse := ShardPacked(rows, lengthOf, shards);
    ghost var order := LengthOrder(Lengths(lengthOf, rows));
    WholeBatchAccepted(|rows|, shards);
    if parts.Err? {
      return Err(parts.error);
    }
    r := MapShards(f, parts.value, lengthOf, cap, algorithm, shuffle);
    PackableByShard(rows, order, parts.value, lengthOf, cap, algorithm);
    if r.Ok? {
      MapPick(f, rows, order);
      PickInverse(Map(f, rows), order, inverse);
      r := Ok(Pick(r.value, inverse));
    }
  }

  /** Without a batch size, sharding accepts exactly the non-empty batches the shard
      count divides. */
  lemma WholeBatchAccepted(total: nat, shards: nat)
    ensures MakePlan(total, shards, None, false).Ok? <==> total > 0 && shards > 0 && total % shards == 0
  {
    if total > 0 {
      OneChunk(total);
    }
  }

  /** Every shard through its worker, gathered in shard order. */
  method MapShards<T, R(0)>(f: T -> R, parts: seq<seq<T>>, lengthOf: T -> nat, cap: nat,
                            algorithm: Algorithm, shuffle: nat -> seq<nat>)
    returns (r: Result<seq<R>>)
    requires forall n: nat :: IsPermutation(shuffle(n), n)
    ensures r.Ok? <==> forall k :: 0 <= k < |parts| ==> Packable(Lengths(lengthOf, parts[k]), cap, algorithm)
    ensures r.Ok? ==> r.value == Map(f, Flatten(parts))
  {
    var gathered: seq<R> := [];
    for s := 0 to |parts|
      invariant gathered == Map(f, Flatten(parts[..s]))
      invariant forall k :: 0 <= k < s ==> Packable(Lengths(lengthOf, parts[k]), cap, algorithm)
    {
      var packs := ComputePacks(Lengths(lengthOf, parts[s]), cap, algorithm, shuffle);
      if packs.Err? {
        return Err(packs.error);
      }
      var outputs := WorkerMap(f, parts[s], packs.value);
      assert parts[..s + 1][..s] == parts[..s];
      MapConcat(f, Flatten(parts[..s]), parts[s]);
      gathered := gathered + outputs;
    }
    assert parts[..|parts|] == parts;
    r := Ok(gathered);
  }

  /** The batch can be packed exactly when every shard of it can. */
  lemma {:induction false} PackableByShard<T>(rows: seq<T>, order: seq<nat>, parts: seq<seq<T>>, lengthOf: T -> nat,
                                              cap: nat, algorithm: Algorithm)
    requires IsPermutation(order, |rows|) && Flatten(parts) == Pick(rows, order) && parts != []
    ensures Packable(Lengths(lengthOf, rows), cap, algorithm) <==>
              forall k :: 0 <= k < |parts| ==> Packable(Lengths(lengthOf, parts[k]), cap, algorithm)
  {
    if Packable(Lengths(lengthOf, rows), cap, algorithm) {
      forall s | 0 <= s < |parts| ensures Packable(Lengths(lengthOf, parts[s]), cap, algorithm) {
        forall i | 0 <= i < |parts[s]| && algorithm != DpPackingAlgorithm
          ensures Lengths(lengthOf, parts[s])[i] <= cap
        {
          FlattenContains(parts, s, i);
          var k :| 0 <= k < |order| && Pick(rows, order)[k] == parts[s][i];
          assert Lengths(lengthOf, rows)[order[k]] <= cap;
        }
      }
    }
    if forall k :: 0 <= k < |parts| ==> Packable(Lengths(lengthOf, parts[k]), cap, algorithm) {
      assert Packable(Lengths(lengthOf, parts[0]), cap, algorithm);
      PermutationCovers(order, |rows|);
      forall j | 0 <= j < |rows| && algorithm != DpPackingAlgorithm
        ensures Lengths(lengthOf, rows)[j] <= cap
      {
        assert j in order;
        var k :| 0 <= k < |order| && order[k] == j;
        var s, i := FlattenAt(parts, k);
        assert Lengths(lengthOf, parts[s])[i] <= cap;
      }
    }
  }

  lemma {:induction false} FlattenAt<T>(parts: seq<seq<T>>, k: nat) returns (s: nat, i: nat)
    requires k < |Flatten(parts)|
    ensures s < |parts| && i < |parts[s]| && parts[s][i] == Flatten(parts)[k]
  {
    var n := |parts| - 1;
    if k < |Flatten(parts[..n])| {
      s, i := FlattenAt(parts[..n], k);
    } else {
      s, i := n, k - |Flatten(parts[..n])|;
    }
  }
}
