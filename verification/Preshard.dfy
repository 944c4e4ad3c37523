/** `shard_meta_for_dp`: which data-parallel rank gets which sample, and how to put
    rank-order results back into the original order. */
module Preshard {
  import opened Sums
  import opened Options
  import opened Permutations
  import opened BatchSharding
  import opened PackedSharding

  datatype Meta = Meta(sampleIds: seq<string>, sequenceLengths: Option<seq<nat>>)

  /** The index column of the skeleton batch after sharding. */
  function RankIndices(lengths: seq<nat>, dpWorld: nat, batchSize: Option<nat>, packing: bool): (r: Result<seq<seq<nat>>>) {
    if packing then
      Shards(LengthOrder(lengths), dpWorld, None, false)
    else
      Shards(Iota(|lengths|), dpWorld, batchSize, false)
  }

  /** Both paths split the batch by one permutation. */
  lemma RankIndicesPermute(lengths: seq<nat>, dpWorld: nat, batchSize: Option<nat>, packing: bool)
    requires RankIndices(lengths, dpWorld, batchSize, packing).Ok?
    ensures IsPermutation(Flatten(RankIndices(lengths, dpWorld, batchSize, packing).value), |lengths|)
  {
    if packing {
      LengthOrderLaws(lengths);
      WholeBatchShardsConcatenate(LengthOrder(lengths), dpWorld);
    } else {
      StripedIsPermutation(|lengths|, dpWorld, batchSize);
    }
  }

  /** Which rank gets which sample.  With packing, rank after rank lists the samples by
      ascending length, ties in batch order, each rank as many as the others; without,
      the ranks take stripes of every chunk of `b` samples, `w` each. */
  lemma RanksTake(lengths: seq<nat>, dpWorld: nat, batchSize: Option<nat>, packing: bool, b: nat)
    requires RankIndices(lengths, dpWorld, batchSize, packing).Ok?
    requires b == if batchSize.Some? && !packing then batchSize.value else |lengths|
    ensures var ranks := RankIndices(lengths, dpWorld, batchSize, packing).value;
            && |ranks| == dpWorld > 0 && b > 0 && b / dpWorld > 0
            && (forall k :: 0 <= k < dpWorld ==> dpWorld * |ranks[k]| == |lengths|)
            && (packing ==> Ascends(Flatten(ranks), lengths))
            && (!packing ==> forall j: nat :: j < |lengths| ==> RowPlaced(Iota(|lengths|), ranks, b, b / dpWorld, j))
  {
    if packing {
      LengthOrderLaws(lengths);
      WholeBatchShardsConcatenate(LengthOrder(lengths), dpWorld);
      StripedShardingIsBijective(LengthOrder(lengths), dpWorld, None, b, b / dpWorld);
    } else {
      StripedShardingIsBijective(Iota(|lengths|), dpWorld, batchSize, b, b / dpWorld);
    }
  }

  /** Ascending lengths, equal ones in batch order. */
  ghost predicate Ascends(order: seq<nat>, lengths: seq<nat>) {
    && InRange(order, |lengths|)
    && forall x, y :: 0 <= x < y < |order| ==>
         lengths[order[x]] < lengths[order[y]] || (lengths[order[x]] == lengths[order[y]] && order[x] < order[y])
  }

  /** A split is accepted exactly when the sizes divide: the world divides the batch
      under packing, which ignores the batch size, and otherwise the world divides the
      batch size, which divides the batch. */
  lemma RanksAcceptedIff(lengths: seq<nat>, dpWorld: nat, batchSize: Option<nat>, packing: bool, b: nat)
    requires b == if batchSize.Some? && !packing then batchSize.value else |lengths|
    ensures RankIndices(lengths, dpWorld, batchSize, packing).Ok? <==>
            b > 0 && |lengths| % b == 0 && dpWorld > 0 && b % dpWorld == 0
  {
    AcceptedIff(Iota(|lengths|), dpWorld, batchSize, if batchSize.Some? then batchSize.value else |lengths|);
    AcceptedIff(LengthOrder(lengths), dpWorld, None, |lengths|);
  }

  predicate Complete(meta: Meta) {
    && meta.sampleIds != []
    && meta.sequenceLengths.Some? && |meta.sequenceLengths.value| == |meta.sampleIds|
  }

  /** What a successful split looks like. */
  ghost predicate Splits(meta: Meta, ranks: seq<seq<nat>>, out: seq<Meta>, unsorted: Option<seq<nat>>)
    requires Complete(meta) && IsPermutation(Flatten(ranks), |meta.sampleIds|)
  {
    && |out| == |ranks|
    && (forall k :: 0 <= k < |ranks| ==>
          && InRange(ranks[k], |meta.sampleIds|)
          && out[k].sampleIds == Pick(meta.sampleIds, ranks[k])
          && out[k].sequenceLengths == Some(Pick(meta.sequenceLengths.value, ranks[k])))
    && (unsorted.None? <==> Flatten(ranks) == Iota(|meta.sampleIds|))
    && (unsorted.Some? ==> |unsorted.value| == |meta.sampleIds| && Inverts(unsorted.value, Flatten(ranks)))
  }

  lemma {:induction false} PartsInRange(parts: seq<seq<nat>>, n: nat, k: nat)
    requires InRange(Flatten(parts), n) && k < |parts|
    ensures InRange(parts[k], n)
  {
    var m := |parts| - 1;
    var init := Flatten(parts[..m]);
    assert Flatten(parts) == init + parts[m];
    if k < m {
      assert InRange(init, n) by {
        forall i | 0 <= i < |init| ensures init[i] < n { assert Flatten(parts)[i] == init[i]; }
      }
      PartsInRange(parts[..m], n, k);
    } else {
      forall i | 0 <= i < |parts[m]| ensures parts[m][i] < n { assert Flatten(parts)[|init| + i] == parts[m][i]; }
    }
  }

  /** `shard_meta_for_dp`, without dynamic batching. */
  method ShardMetaForDp(meta: Meta, dpWorld: nat, batchSize: Option<nat>, packing: bool)
    returns (r: Result<seq<Meta>>, unsorted: Option<seq<nat>>)
    ensures var b := if batchSize.Some? && !packing then batchSize.value else |meta.sampleIds|;
            r.Ok? <==>
              && meta.sampleIds != [] && meta.sequenceLengths.Some? && |meta.sequenceLengths.value| == |meta.sampleIds|
              && b > 0 && |meta.sampleIds| % b == 0 && dpWorld > 0 && b % dpWorld == 0
    ensures meta.sampleIds == [] || meta.sequenceLengths.None? || |meta.sequenceLengths.value| != |meta.sampleIds| ==>
              r == Err(ValueError)
    ensures r.Ok? ==>
      var ranks := RankIndices(meta.sequenceLengths.value, dpWorld, batchSize, packing).value;
      IsPermutation(Flatten(ranks), |meta.sampleIds|) && Splits(meta, ranks, r.value, unsorted)
  {
    unsorted := None;
    var n := |meta.sampleIds|;
    if n == 0 {
      return Err(ValueError), None;
    }
    if meta.sequenceLengths.None? || |meta.sequenceLengths.value| != n {
      return Err(ValueError), None;
    }
    var seqLens := meta.sequenceLengths.value;
    RanksAcceptedIff(seqLens, dpWorld, batchSize, packing, if batchSize.Some? && !packing then batchSize.value else n);
    var metaIdx := Iota(n);
    var sharded;
    if packing {
      LengthOrderLaws(seqLens);
      sharded := ShardByBatchSize(Pick(metaIdx, LengthOrder(seqLens)), dpWorld, None, false);
      assert Pick(metaIdx, LengthOrder(seqLens)) == LengthOrder(seqLens);
    } else {
      sharded := ShardByBatchSize(metaIdx, dpWorld, batchSize, false);
    }
    if sharded.Err? {
      return Err(sharded.error), None;
    }
    RankIndicesPermute(seqLens, dpWorld, batchSize, packing);
    var out;
    out, unsorted := SplitByRanks(meta, sharded.value);
    r := Ok(out);
  }

  /** The loops over the shards and over the flat index list. */
  method SplitByRanks(meta: Meta, ranks: seq<seq<nat>>) returns (out: seq<Meta>, unsorted: Option<seq<nat>>)
    requires Complete(meta) && IsPermutation(Flatten(ranks), |meta.sampleIds|)
    ensures Splits(meta, ranks, out, unsorted)
  {
    var n := |meta.sampleIds|;
    var seqLens := meta.sequenceLengths.value;
    out := [];
    var flatIdx: seq<nat> := [];
    for k := 0 to |ranks|
      invariant flatIdx == Flatten(ranks[..k]) && |out| == k
      invariant forall j :: 0 <= j < k ==>
        && InRange(ranks[j], n)
        && out[j].sampleIds == Pick(meta.sampleIds, ranks[j])
        && out[j].sequenceLengths == Some(Pick(seqLens, ranks[j]))
    {
      assert ranks[..k + 1][..k] == ranks[..k];
      PartsInRange(ranks, n, k);
      flatIdx := flatIdx + ranks[k];
      out := out + [Meta(Pick(meta.sampleIds, ranks[k]), Some(Pick(seqLens, ranks[k])))];
    }
    assert ranks[..|ranks|] == ranks;
    unsorted := None;
    if flatIdx != Iota(n) {
      var inverse := BuildInverse(flatIdx, n);
      unsorted := Some(inverse);
    }
  }

  /** For any per-row result, concatenating the ranks' results and reordering by
      `unsorted_indices` (or not at all) gives the results in original order. */
  lemma {:induction false} RankOrderRestored<R>(meta: Meta, ranks: seq<seq<nat>>, out: seq<Meta>, unsorted: Option<seq<nat>>,
                                                results: seq<R>, perRank: seq<seq<R>>)
    requires Complete(meta) && IsPermutation(Flatten(ranks), |meta.sampleIds|) && Splits(meta, ranks, out, unsorted)
    requires |results| == |meta.sampleIds| && |perRank| == |ranks|
    requires forall k :: 0 <= k < |ranks| ==> perRank[k] == Pick(results, ranks[k])
    ensures unsorted.Some? ==> InRange(unsorted.value, |Flatten(perRank)|)
    ensures (if unsorted.Some? then Pick(Flatten(perRank), unsorted.value) else Flatten(perRank)) == results
  {
    FlattenPick(results, ranks, perRank);
    if unsorted.Some? {
      PickInverse(results, Flatten(ranks), unsorted.value);
    }
  }
}
