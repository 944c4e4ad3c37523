# Verified model of the dockyard RL training core

This project models the parts of the trainer where a wrong index, a lost row or
an off-by-one would silently change what is trained, and proves what those
parts promise:

- **Graded rollout allocation** (`Apportionment`, `RolloutAllocation`,
  `RolloutBudget`): which rollouts of which prompt group fill a train step.
- **Dynamic sampling** (`DynamicSampling`) on top of the **group baseline**
  (`GroupBaseline`): the cache of informative rollouts as a state machine over
  generation batches, up to the completed or refused step.
- **Sharding, packing and reordering** (`BatchSharding`, `SequencePacking`,
  `PackedSharding`, `Preshard`): a distributed per-row computation equals the
  plain map in the original order.
- **Rank layout and write-back** (`RankLayout`, `WriteBack`): every sample id is
  written exactly once per stage, in exactly the layouts that are fully replicated.
- **Top-k/top-p filtering** (`LogitsSampling`): the chunked sort, mask and
  scatter equals nucleus filtering of every row.
- **Message logs** (`Messages`, `FlatMessages`, `PaddedBatch`, `MessageLog`,
  `TokenSpans`, `SpanPenalties`): flattening, the jagged wire, reconstruction, and
  the masks and penalties that use the same token offsets.
- **Effort reward** (`EffortReward`): a success always outranks a failure.
- **Two resource ledgers** (`Colocation`, `ByteLedger`): residency of colocated
  distillation, and live bytes of the data plane.

`Sums`, `Totals`, `Sorting`, `Grouping`, `Permutations`, `Arithmetic`, `Power`
and `Options` hold the shared vocabulary. Loops and in-place updates of the source
are methods, and classes where the source keeps state; each is proved equal to a
specification function (or to an outright property), and the theorems are lemmas
about those functions. `dafny verify dfyconfig.toml` checks everything.

## Conventions

Floats are exact reals. `torch.pow` and `exp` are function parameters
constrained by laws (`PowerLaws`, `Positive`); `torch.unique`, `torch.sort`,
`torch.topk`, the seeded shuffle, the save clock and the data loaders are
parameters too, constrained only by what the library guarantees. Whether the
library writes or refuses a slice of cells that share memory is an input (`strict`),
since that differs between devices and versions. Python
exceptions are `Result` errors named after the exception class.

## Findings

Places where the code does less than its documentation, or than one would
expect. Each has a lemma with the exact condition.

- **Turn lengths can be cut on the wire.** `turn_lengths` travels through the same
  packing as the token columns. When the largest number of turns in the batch
  equals the longest token row it is taken for a per-token column and cut at each
  row's token count, so a log with more turns than tokens loses the tokens of its
  late turns. `MessageLog.ShipMessageLogs` states for every turn whether its tokens
  and log probabilities come back, and that a log comes back intact if and only if
  `LengthsSurvive` (its log probabilities, `LogprobsSurvive`);
  `MessageLog.EmptyTurnCostsTokens` is the smallest instance; logs without empty
  turns are always safe (`FullTurnsSurvive`).
- **Span penalties do not fit expanded rows.** The GRPO and GDPO estimators return
  one advantage per sample, expanded to token width: all cells of a row share one
  memory location, and the penalty loop writes into that view. Where the library
  writes such slices, a flagged turn overwrites the prompt, the padding and every
  other turn, and the last flagged turn decides the row. Where it refuses to write
  two or more cells that share memory, a flagged turn with two or more tokens in the
  row ends the call with an error, rows before it penalised and rows after it not;
  a turn that reaches the row with one token still overwrites it whole.
  `SpanPenalties.RowIsRightIff` says exactly when a row comes out right, of either
  kind and under either answer, `SpanPenalties.RowIsAlwaysRightIff` when it does
  whatever the advantages are, and `SpanPenalties.CallSucceedsIff` when the call ends
  without an error. Instances: `SpanPenalties.PromptPaysForAnswer` and
  `SpanPenalties.WideAnswer`; on the estimator's own output
  `SpanPenalties.FlaggedAnswer` and `SpanPenalties.FlaggedWideAnswer`; and
  `SpanPenalties.OwnedAnswer` on rows that own their cells, which are always right.
- **The nucleus boundary may split a tie.** Rows are sorted inside each chunk, and
  the sort promises nothing about equal logits, so two chunkings may keep different
  tokens of the boundary logit. `LogitsSampling.FilteringUpToTies`: nothing else can
  differ, and nothing at all unless the boundary runs between two equal logits;
  `LogitsSampling.TieIsObservable`: then another sort answer does differ.
- **Evicted optimizers may stay on the host.** The eviction schedule offloads the
  student optimizer for scoring and relies on `prepare_for_training` to restore
  it, but that restores it only under `offload_optimizer_for_logprob` or
  colocated generation. Without either, a run that passed the preflight meets its
  second optimizer step (the first one after a resume) with the state on the
  other device: `Colocation.Mesh.DistillationTrain`, instance
  `Colocation.EvictionWithoutRestore`.
- **The leave-one-out gate can drop signal.** Under leave-one-out statistics the
  zero-std gate judges a row by its peers, so the only success of a group of
  three is dropped although its advantage is not zero: `GroupBaseline.LeaveOneOutGate`,
  instance `GroupBaseline.LeaveOneOutDropsSignal`.
- **Annotating a log twice is not annotating it once.** The second pass takes the
  zero log probabilities of the first for generated ones and unmasks prompt
  history: `TokenSpans.AnnotatingTwice`, instance `TokenSpans.HistoryTurnIsUnmasked`.
- **`dp_packing` exceeds the budget** on oversized sequences, which the other
  packers refuse; the shared documentation promises the budget for all:
  `SequencePacking.DpPacking`, instance `SequencePacking.OversizedPack`.
- **Mixed routing does not stack.** A batch in which some logs recorded routes and
  others did not is refused by the flatten, because the backfill leaves logs
  without routes alone: the success condition of `MessageLog.ShipMessageLogs`,
  instance `MessageLog.MixedRoutingIsRefused`.
- **Rank coordinates round-trip only for distinct axis names**, which the
  constructor does not check: `RankLayout.CoordinatesRoundTrip`, instance
  `RankLayout.RepeatedNameLosesRank`.

## Model

| member | source | states |
|---|---|---|
| Apportionment.Apportion | algorithms/rollout_allocation.py:196-246 | the loop over quotas, headroom, remainder and active groups returns exactly `ExtraRows`, for any remainder including negative ones |
| Apportionment.PlayRound | algorithms/rollout_allocation.py:210-246 | one round, in whichever of the three branches, is the specified round, stays within headroom and lowers the remainder |
| Apportionment.PlayShares | algorithms/rollout_allocation.py:222-242 | whole parts of the shares first, single rows when none reaches one |
| Apportionment.HandOutWhole | algorithms/rollout_allocation.py:223-230 | every active group receives the whole part of its share, capped by its headroom, and the total is what was given |
| Apportionment.HandOutSingles | algorithms/rollout_allocation.py:213-218 | one row each in order until the rows are gone |
| Apportionment.RoundOfProgresses | algorithms/rollout_allocation.py:210-246 | while rows and headroom remain every round hands out at least one row, so the loop ends |
| Apportionment.RoundsConserve | algorithms/rollout_allocation.py:210-246 | iterating any progressing round spends exactly min(remainder, total headroom) within every headroom |
| Apportionment.ExtraConserves | algorithms/rollout_allocation.py:196-246 | exactly min(remainder, total headroom) rows are spent and no group exceeds its headroom |
| Apportionment.ExtraRespectsGrading | algorithms/rollout_allocation.py:196-246 | a heavier group, or an earlier one of equal weight, receives at least as many rows as the other, or fills up |
| Apportionment.ExtraStarvesZero | algorithms/rollout_allocation.py:203-246 | a weightless group receives a row only when every weighted group is full |
| Apportionment.FallbackStarvesZero | algorithms/rollout_allocation.py:232-242 | with all shares below one, the groups with a share outnumber the rows left, so the fallback never reaches a group without |
| Apportionment.ExtraMeetsLowerQuota | algorithms/rollout_allocation.py:222-230 | every group receives at least the whole part of its share, its weight over the summed weight of the groups with room, of the rows handed out, or fills up |
| Apportionment.SmallSharesGiveSingles | algorithms/rollout_allocation.py:232-242 | when every share is below one no group receives two rows |
| Apportionment.ZeroWeightsShareEvenly | algorithms/rollout_allocation.py:210-220 | with weightless groups only, no group with room left is two rows behind another |
| Apportionment.ExtraScale | algorithms/rollout_allocation.py:196-246 | scaling all weights by a positive constant changes nothing |
| Apportionment.SharesValid | algorithms/rollout_allocation.py:211-222 | the proportional shares are non-negative, vanish on exhausted groups and add up to the rows left |
| RolloutAllocation.GroupRows | algorithms/rollout_allocation.py:183-193 | rows grouped by id in order of first appearance, each group ascending |
| RolloutAllocation.QuotasSpend | algorithms/rollout_allocation.py:340-366 | with or without the floor squeeze, the quotas add up to the budget and overdraw no group |
| RolloutAllocation.QuotasKeepFloors | algorithms/rollout_allocation.py:340-366 | floors that fit are kept |
| RolloutAllocation.QuotasRespectGrading | algorithms/rollout_allocation.py:340-366 | grading is respected through squeeze and apportionment, ties in group order where the floors fit |
| RolloutAllocation.QuotasStarveZero | algorithms/rollout_allocation.py:340-366 | a weightless group passes its floor only when every weighted group is kept whole |
| RolloutAllocation.QuotasScale | algorithms/rollout_allocation.py:340-366 | scaling the graded weights leaves every quota unchanged, in both branches |
| RolloutAllocation.SqueezeFavours | algorithms/rollout_allocation.py:348-362 | when floors do not fit, an earlier-ranked group keeps at least as much as a later one, or all it has |
| RolloutAllocation.SqueezeServes | algorithms/rollout_allocation.py:348-362 | no group is served before every group ranked earlier has its whole floor |
| RolloutAllocation.SqueezeTotal | algorithms/rollout_allocation.py:348-362 | the squeeze spends exactly min(budget, sum of floors) |
| RolloutBudget.AllocateRolloutBudget | algorithms/rollout_allocation.py:322-372 | the whole procedure returns the specified rows |
| RolloutBudget.GradeGroups | algorithms/rollout_allocation.py:328-343 | groups, mean weights, sizes and the graded weight that both branches read |
| RolloutBudget.ComputeQuotas | algorithms/rollout_allocation.py:345-366 | floors, squeeze and apportionment give the specified quotas |
| RolloutBudget.SqueezeFloors | algorithms/rollout_allocation.py:348-362 | the loop over `left` in ranked order is the specified squeeze |
| RolloutBudget.GatherRows | algorithms/rollout_allocation.py:368-371 | the kept rows are the first quota rows of each group |
| RolloutBudget.AllocationIsExact | algorithms/rollout_allocation.py:322-372 | exactly max(0, min(budget, rows)) distinct ascending indices are kept |
| RolloutBudget.AllocationKeepsPrefixes | algorithms/rollout_allocation.py:368-372 | within a group the kept rows are a prefix in batch order |
| RolloutBudget.AllocationKeepsFloors | algorithms/rollout_allocation.py:340-366 | every group keeps its minimum, or all its rows, whenever the minimums of all groups fit the budget |
| RolloutBudget.AllocationRespectsGrading | algorithms/rollout_allocation.py:336-372 | row by row: the worth of a group is the power of its mean std under the variance exponent times the power of its mean diversity under the diversity exponent, where it has any; for every budget a group worth more than another, or worth as much and seen first where the minimums fit, keeps at least as many rows or is kept whole |
| RolloutBudget.LargerStdKeepsMore | algorithms/rollout_allocation.py:336-372 | without a diversity signal the group of larger mean std keeps at least as many rows as the other, or is kept whole, wherever the power grows strictly at the variance exponent |
| RolloutBudget.MoreDiverseKeepsMore | algorithms/rollout_allocation.py:249-281 | between groups of equal positive mean std the same holds for mean diversity and the diversity exponent |
| RolloutBudget.SqueezeServesInOrder | algorithms/rollout_allocation.py:348-362 | when the minimums do not fit, no group keeps a row before every group ahead of it, by worth, then mean std, then first appearance, keeps its whole minimum, and none keeps more than that |
| RolloutBudget.AllocationStarvesZeroWeight | algorithms/rollout_allocation.py:336-372 | a group worth nothing exceeds its minimum only if every group worth something is kept whole |
| RolloutBudget.AllocationMeetsLowerQuota | algorithms/rollout_allocation.py:345-366 | where the minimums fit, a group keeps its minimum and the whole part of its due of the rows left, in proportion to worth among the groups not yet whole, or is kept whole |
| RolloutBudget.DiversityScaleIsUnobservable | algorithms/rollout_allocation.py:249-281 | scaling every diversity value by a positive constant keeps the same rows |
| RolloutBudget.ConstantDiversityIsUnobservable | algorithms/rollout_allocation.py:249-281 | a constant diversity column of any value keeps the same rows as none |
| RolloutBudget.ExponentZeroIsFastPath | algorithms/rollout_allocation.py:264-268 | the early exit for exponent zero agrees with the general formula |
| GroupBaseline.CalculateBaselineAndVariance | algorithms/utils.py:87-157 | the loop over unique prompts in any order gives every row its own baseline and variance, from separate std rewards if given |
| GroupBaseline.RowStatistics | algorithms/utils.py:104-155 | baseline and variance of one row, with and without leave-one-out |
| GroupBaseline.MaskedRowSum | algorithms/utils.py:104-127 | the masked product sums the group, without the row itself under leave-one-out |
| GroupBaseline.BaselineIsPeerMean | algorithms/utils.py:104-127 | row by row: the baseline is the mean reward of the rows of the same prompt, without the row's own under leave-one-out, or its own reward if there is none other |
| GroupBaseline.AdvantageIsPeerGap | algorithms/advantage_estimator.py:59-65 | the advantage is the reward less that mean, and zero without peers |
| GroupBaseline.VarianceIsPeerDeviation | algorithms/utils.py:130-155 | row by row: the variance is the squared deviation of the peers from their mean over their number less one, and zero with fewer than two |
| GroupBaseline.LeaveOneOutStretches | algorithms/utils.py:104-127 | the leave-one-out advantage is n/(n-1) times the plain one |
| GroupBaseline.AdvantagesSumToZero | algorithms/advantage_estimator.py:59-65 | under both baselines the advantages of a prompt group sum to zero |
| GroupBaseline.AdvantageFollowsReward | algorithms/advantage_estimator.py:59-65 | within a group a larger reward has a strictly larger advantage, under both baselines |
| GroupBaseline.VarianceIsDeviation | algorithms/utils.py:130-155 | the variance from moments equals the sum of squared deviations over n-1 |
| GroupBaseline.VarianceZeroIffEqual | algorithms/utils.py:130-155 | the variance is never negative, and zero iff all values are equal |
| GroupBaseline.PlainGateIsExact | algorithms/grpo.py:905-912 | under the plain baseline a row has zero variance iff its whole group scored alike, iff every advantage of the group is zero |
| GroupBaseline.LeaveOneOutGate | algorithms/grpo.py:905-912 | under leave-one-out a row has zero variance iff its group has at most two rows or its peers scored alike |
| GroupBaseline.LeaveOneOutDropsSignal | algorithms/grpo.py:905-912 | an instance: zero variance with advantage one |
| EffortReward.CoefficientBelowOne | algorithms/effort_reward.py:227-235 | under a validated config the effective coefficient lies in [0, 1) |
| EffortReward.AcceptedIff | algorithms/effort_reward.py:85-158 | what validation accepts, setting by setting |
| EffortReward.CoefficientGrows | algorithms/effort_reward.py:227-235 | the coefficient does not fall as the pass rate rises, is the configured one at a pass rate of one, and does not change below the floor |
| EffortReward.CoefficientByExponent | algorithms/effort_reward.py:227-235 | with exponent one it is proportional to the pass rate down to the floor, with exponent zero it is constant |
| EffortReward.PassRateIsMean | algorithms/effort_reward.py:192-224 | the pass rate of a rollout is the mean correctness of the rollouts of its prompt |
| EffortReward.ResponseTokensAreAssistantTokens | algorithms/effort_reward.py:170-189 | the response length counts the flat tokens of a log that lie in assistant turns |
| EffortReward.SolvedPromptPaysInFull | algorithms/effort_reward.py:261-314 | where every rollout of a prompt is correct, each loses exactly the configured coefficient times the share of the token limit it used |
| EffortReward.EveryRolloutPays | algorithms/effort_reward.py:261-314 | on any prompt a rollout loses its correctness times the coefficient of the prompt's mean correctness times that share |
| EffortReward.SuccessOutranksFailure | algorithms/effort_reward.py:261-314 | every rollout of positive correctness has a strictly larger advantage than every zero-correctness rollout of its group, under both baselines |
| EffortReward.UpstreamDeltaPreserved | algorithms/effort_reward.py:261-314 | what an upstream stage added to the reward survives unchanged |
| EffortReward.CostOnlyRanksWithinSuccesses | algorithms/effort_reward.py:192-235 | among equally correct rollouts of a prompt a longer one never gets more |
| EffortReward.CoefficientBoundIsTight | algorithms/effort_reward.py:112-145 | at any coefficient of one or more, which validation refuses, a full-length success need not beat a failure |
| EffortReward.ResponseTokenCounts | algorithms/effort_reward.py:170-189 | per log, the summed tokens of its assistant turns |
| EffortReward.RewardBatch.ApplyEffortReward | algorithms/effort_reward.py:261-314 | the reward column becomes the shaped one; the cost column is the used share of the token limit, the pass rate the mean correctness of the prompt, and the correctness snapshot is kept; refused iff correctness leaves [0, 1], logs do not match, the batch is empty or the token limit is not positive; disabled or refused leaves the reward unchanged |
| DynamicSampling.GroupIdsSeparate | algorithms/rollout_allocation.py:139-180 | two rows share an id iff they share prompt and generation batch |
| DynamicSampling.GroupIdsAreAssigned | algorithms/rollout_allocation.py:139-180 | ids are refused iff the ordinal is negative or there are more than 2^32 distinct prompts; an id spells out prompt and ordinal |
| DynamicSampling.TaggingIsExact | algorithms/grpo.py:1893-1906 | a tagged batch holds its rollouts in order with their ordinal and, under grading, their ids |
| DynamicSampling.Sampler.ProcessBatch | algorithms/grpo.py:877-1027 | one generation batch through tagging, gate, cache, size test and allocation, with the reset after training, is the specified step |
| DynamicSampling.ChooseRows | algorithms/grpo.py:966-1020 | a full pool is spent by the allocator when grading is on, else cut at the train size |
| DynamicSampling.KeepNonZeroStd | algorithms/grpo.py:905-912 | the gate keeps exactly the rows of non-zero std, in order |
| DynamicSampling.GateKeepsOrder | algorithms/grpo.py:905-912 | the gate keeps every row of non-zero std once, in order, and no other |
| DynamicSampling.RunKeepsCache | algorithms/grpo.py:1893-1933 | over every run the cache is exactly the surviving rows since the last completed step, below the train size between calls |
| DynamicSampling.StepKeepsCache | algorithms/grpo.py:877-1027 | one step keeps that invariant |
| DynamicSampling.StepCompletesExactly | algorithms/grpo.py:927-1027 | a step completes iff the survivors reach prompts times generations rows, trains on what is chosen among them, otherwise goes on iff the call count allows, and names the limit that refused it |
| DynamicSampling.AllocatorChooses | algorithms/grpo.py:971-1020 | with or without grading exactly the train size of rows is drawn, at distinct ascending positions |
| DynamicSampling.GradedTakes | algorithms/grpo.py:971-1010 | under grading the rows are those the allocator keeps for the group, std and diversity columns of the pool under the configured minimum and exponents |
| DynamicSampling.GradedFollowsSignal | algorithms/grpo.py:971-1010 | so of two groups of the pool the one of larger mean std, or of equal mean std and larger mean diversity, trains on at least as many rows or on all of them |
| DynamicSampling.UngradedStepTakesOldest | algorithms/grpo.py:1011-1020 | without grading a completed step trains on the oldest survivors since the last one |
| DynamicSampling.StaticRunTrainsEveryBatch | algorithms/grpo.py:877-1027 | without dynamic sampling every step of a run trains on the whole of its own batch |
| DynamicSampling.EveryTrainedStepIsFull | algorithms/grpo.py:1893-1933 | every completed step of every run holds exactly prompts times generations rows, none of zero std |
| DynamicSampling.TrainedStepsAreFull | algorithms/grpo.py:1893-1933 | the same for the configuration's own tagging and allocation |
| DynamicSampling.StepEndsInTime | algorithms/grpo.py:943-965 | a step completes or is refused by call maxGenBatches + 1 |
| DynamicSampling.CachedGroupsSeparate | algorithms/grpo.py:1893-1906 | in every reachable cache two rows share a group id iff they share prompt and generation batch |
| DynamicSampling.SurvivorsAreInformative | algorithms/grpo.py:905-912 | a row survives iff its group did not score alike, when std follows the plain variance |
| BatchSharding.ShardByBatchSize | distributed/batched_data_dict.py:656-751 | the shards, or the refusal, of every combination of sizes |
| BatchSharding.AcceptedIff | distributed/batched_data_dict.py:656-698 | even shards are granted iff the batch size, or the whole batch, is positive and divides the batch and the shards divide it; uneven ones iff the batch and the shard count are not empty and no batch size is named |
| BatchSharding.UnevenShardsAreBlocks | distributed/batched_data_dict.py:699-751 | uneven shards are consecutive blocks of one width, the least that suffices, the last ones cut short or empty |
| BatchSharding.AggregateShards | distributed/batched_data_dict.py:706-751 | the double loop collects the specified rows per shard |
| BatchSharding.StripedShardingIsBijective | distributed/batched_data_dict.py:668-751 | row j of the batch is at position j / b * w + j % b % w of shard j % b / w, for chunks of b rows and parts of w = b / shards, and every place of the equally long shards holds the row that belongs there |
| BatchSharding.RowHasOnePlace | distributed/batched_data_dict.py:699-720 | a row's shard and position, from its chunk, part and offset, lead back to the row |
| BatchSharding.PlaceHasOneRow | distributed/batched_data_dict.py:699-720 | every place holds the row whose coordinates it is |
| BatchSharding.ShardKeepsOrder | distributed/batched_data_dict.py:709-751 | a shard keeps batch order |
| BatchSharding.UnevenShardsConcatenate | distributed/batched_data_dict.py:699-751 | uneven shards concatenate to the batch even when trailing ones are empty |
| BatchSharding.WholeBatchShardsConcatenate | distributed/batched_data_dict.py:668-751 | without a batch size even shards concatenate to the batch |
| BatchSharding.StripedIsPermutation | distributed/batched_data_dict.py:668-751 | read in rank order the shards list every row exactly once |
| BatchSharding.BatchedDataDict.ReorderData | distributed/batched_data_dict.py:793-809 | every column is gathered by the same indices |
| SequencePacking.FirstFit | data/packing/algorithms.py:22-116 | refuses iff a sequence exceeds the budget; otherwise partitions within it, each sequence in the first pack that had room for it, any two packs together overflow it |
| SequencePacking.FindRoom | data/packing/algorithms.py:56-62 | the first pack with room, or one past the last |
| SequencePacking.Online | data/packing/algorithms.py:187-230 | refuses iff a sequence exceeds the budget; otherwise packs within it whose concatenation is arrival order, each closed only when the next sequence does not fit |
| SequencePacking.DpPacking | data/packing/algorithms.py:120-183 | always partitions; within budget iff every sequence is; no pack exceeds 32 sequences; every pack is the fullest among the sequences its predecessors left, whenever at most 32 are left |
| SequencePacking.BestPack | data/packing/algorithms.py:149-177 | a non-empty pack of distinct remaining sequences within budget, or the oversized first one alone; with at most 32 sequences left no choice within budget is heavier |
| SequencePacking.SweepItem | data/packing/algorithms.py:156-166 | one downward sweep keeps every cell a list of exactly its weight and, below the length limit, fills every cell the new item reaches |
| SequencePacking.BuildTable | data/packing/algorithms.py:149-166 | with at most 32 items the table has a cell for the weight of every choice that fits it |
| SequencePacking.OversizedPack | data/packing/algorithms.py:175-179 | an instance: a sequence of five under a budget of three becomes a pack of five |
| PackedSharding.ShardPacked | distributed/batched_data_dict.py:760-791 | contiguous shards of the length order together with its inverse permutation |
| PackedSharding.ComputePacks | distributed/batched_data_dict.py:811-842 | a partition into packs, heaviest first, as the chosen packer makes them; within the token budget iff every sequence is, refused iff the packer refuses |
| PackedSharding.PackSequences | data/packing/algorithms.py:22-230 | the chosen packer reads the sequences in its own order, longest first, arrival or the given shuffle, and returns what that packer promises; refused iff the packer refuses |
| PackedSharding.LongestFirstLaws | data/packing/algorithms.py:22-116 | longest first is a permutation of descending lengths |
| PackedSharding.WorkerMap | models/policy/workers/dtensor_policy_worker.py:1090-1116 | mapping micro-batches and scattering by the pack order equals mapping the shard |
| PackedSharding.MapShards | distributed/batched_data_dict.py:844-866 | all shards through their workers equal mapping their concatenation, refused iff some shard is |
| PackedSharding.PackedMap | distributed/batched_data_dict.py:760-866 | sort, shard, pack, map, scatter, gather and reorder equals the plain map in original order; succeeds iff sizes divide and every sequence fits |
| PackedSharding.LengthOrderLaws | distributed/batched_data_dict.py:760-791 | the length order is a permutation with ascending lengths, ties in batch order |
| PackedSharding.HeaviestOrders | distributed/batched_data_dict.py:833-842 | packs are ordered by descending weight |
| Preshard.ShardMetaForDp | data_plane/preshard.py:64-168 | ids and lengths are split by one permutation on both paths; refused iff metadata is incomplete or sizes do not divide |
| Preshard.SplitByRanks | data_plane/preshard.py:123-168 | per-rank metadata are the picked ids and lengths; no reorder indices iff rank order is already the original order |
| Preshard.RankIndicesPermute | data_plane/preshard.py:97-121 | both paths assign every row to exactly one rank |
| Preshard.RanksTake | data_plane/preshard.py:97-121 | with packing the ranks read one after the other ascend in length, without it they take the stripes of every chunk; in equal numbers on both paths |
| Preshard.RanksAcceptedIff | data_plane/preshard.py:97-121 | granted iff the batch size, or the batch under packing, is positive and divides the batch and the world divides it |
| Preshard.RankOrderRestored | data_plane/preshard.py:158-168 | for any per-row result, the concatenation over ranks reordered by the indices is in original order |
| RankLayout.MakeSharding | distributed/named_sharding.py:38-85 | accepted iff names match dimensions and ranks are distinct |
| RankLayout.UnravelLaws | distributed/named_sharding.py:117-137 | a position's coordinates lie in the box and lead back to the position |
| RankLayout.RavelLaws | distributed/named_sharding.py:117-137 | coordinates in the box name a position whose coordinates they are |
| RankLayout.RowMajor | distributed/named_sharding.py:117-137 | positions run through the box with the last axis fastest |
| RankLayout.CoordinatesRoundTrip | distributed/named_sharding.py:179-220 | asking for a rank's own coordinates gives the rank iff no axis name repeats |
| RankLayout.RanksByCoordExact | distributed/named_sharding.py:149-177 | a rank is listed iff its coordinates agree with the request |
| RankLayout.RanksAscend | distributed/named_sharding.py:149-177 | the listed ranks ascend |
| RankLayout.PinAxes | distributed/named_sharding.py:194-210 | named axes are pinned, others stay open; refused iff an axis is unknown or an index out of bounds |
| RankLayout.GetRanksAcceptedIff | distributed/named_sharding.py:194-210 | a request is granted iff every name occurs and its index is below the extent of the last axis of that name; an unknown name is a ValueError |
| RankLayout.SliceLayout | distributed/named_sharding.py:212 | indexing the layout by the pinned axes selects exactly the matching ranks, in layout order |
| RankLayout.SubLayoutExact | distributed/named_sharding.py:212-220 | a sub-layout holds exactly the ranks that agree with the request, in layout order, and the axes not named |
| RankLayout.SelectRanks | distributed/named_sharding.py:179-220 | pinning, slicing and the choice between a rank and a sub-layout compute the specified `get_ranks` |
| RankLayout.ListRanks | distributed/named_sharding.py:149-177 | the same slice sorted computes the specified `get_ranks_by_coord`, a bad index listing nothing |
| RankLayout.RepeatedNameLosesRank | distributed/named_sharding.py:194-220 | an instance: with a repeated axis name a rank's own coordinates do not give the rank |
| WriteBack.LeaderByAxis | distributed/named_sharding.py:139-147 | a worker leads iff its coordinate is zero on every replicated axis |
| WriteBack.ExactlyOneLeader | data_plane/worker_mixin.py:347-360 | each data-parallel coordinate has exactly one leader iff every other axis is replicated or of size one |
| WriteBack.WrittenIsUnionIff | data_plane/worker_mixin.py:362-382 | with a writer for every coordinate, what is written is the union of the coordinates' samples iff no coordinate with samples has a second writer |
| WriteBack.EverySampleWrittenOnce | data_plane/worker_mixin.py:347-382 | when each worker holds its coordinate's part of a split batch, every sample id is written exactly as often as the batch lists it iff every other axis is replicated or trivial, or the batch is empty |
| WriteBack.TrainerLeaders | models/policy/lm_policy.py:215-230 | in the trainer's own layout of pipeline, data, context and tensor parallelism exactly the first worker of each data-parallel group in the first pipeline stage leads |
| WriteBack.TrainerWritesOnce | data_plane/worker_mixin.py:347-382 | in that layout, of any sizes, every sample id is written exactly as often as the batch lists it |
| WriteBack.Store.WriteBackFrom | data_plane/worker_mixin.py:362-382 | a put happens iff the worker leads and there are fields |
| WriteBack.WriteBackStage | data_plane/worker_mixin.py:362-382 | a stage over all workers writes what their roles say |
| LogitsSampling.ApplyTopKTopP | algorithms/logits_sampling_utils.py:125-189 | for top_p one the logits are unchanged or filtered by top-k alone; for every other top_p, when it is refused, and that every row is filtered under the sort answer its chunk got; for top_p below one every output row is a nucleus of its input row |
| LogitsSampling.ApplyTopKOnly | algorithms/logits_sampling_utils.py:75-88 | tokens with fewer than k larger logits are kept with their logit, all others are -inf |
| LogitsSampling.FilterChunks | algorithms/logits_sampling_utils.py:141-183 | the chunk loop over preallocated outputs filters every row |
| LogitsSampling.FilterRow | algorithms/logits_sampling_utils.py:153-183 | sort, mask, scatter of one row puts every decision at its vocabulary index |
| LogitsSampling.FilteredRowIsExact | algorithms/logits_sampling_utils.py:149-183 | kept tokens are the smallest suffix of the ascending order whose renormalised mass reaches top_p, within the top k, and only the last token when there is no mass; kept positions hold their logit, others -inf |
| LogitsSampling.FilteredRowIsNucleus | algorithms/logits_sampling_utils.py:149-183 | in terms of the exponentials of the logits: the kept tokens are a suffix of an ascending order, each with fewer than k larger logits, they carry at least the fraction top_p of the mass of all such tokens, and without the smallest of them they would not |
| LogitsSampling.FilteringIsUnique | algorithms/logits_sampling_utils.py:141-183 | under one sort answer a row has one filtering |
| LogitsSampling.SortedRowsAgree | algorithms/logits_sampling_utils.py:153 | any two ascending orders of a row sort it to the same values |
| LogitsSampling.FilteringUpToTies | algorithms/logits_sampling_utils.py:149-183 | under any two sort answers the sorted rows, keep masks and kept logits agree, the outputs differ at most on tokens of the boundary logit, and not at all unless the boundary splits a tie |
| LogitsSampling.TieIsObservable | algorithms/logits_sampling_utils.py:149-183 | when the boundary splits a tie another sort answer gives another output |
| LogitsSampling.ChunkingAgreesUpToTies | algorithms/logits_sampling_utils.py:141-183 | two chunkings, each with its own sort answers, agree row by row up to tokens of one boundary logit |
| LogitsSampling.NucleusIsSmallestSuffix | algorithms/logits_sampling_utils.py:169-172 | the cumulative-sum mask keeps the smallest suffix of sufficient mass |
| LogitsSampling.KeepSortedIsNucleus | algorithms/logits_sampling_utils.py:156-173 | the same after the top-k mask, and inside it, for rows with and without mass |
| LogitsSampling.BothTopKPathsAgree | algorithms/logits_sampling_utils.py:75-88 | the sort-free and the sorted threshold keep the same tokens |
| LogitsSampling.SortedTopK | algorithms/logits_sampling_utils.py:156-166 | the sorted threshold keeps the tokens with fewer than k larger logits |
| FlatMessages.MessageLogToFlatMessages | data/llm_message_utils.py:17-82 | every column is the concatenation of the turns that carry it, absent if none does |
| FlatMessages.PositionHasOneTurn | data/llm_message_utils.py:42-62 | every flat token position belongs to exactly one turn |
| FlatMessages.AlignedSpan | data/llm_message_utils.py:42-62 | a column with one entry per token is as long as the flat tokens and holds each turn at its token offset |
| FlatMessages.FlatTokens | data/llm_message_utils.py:42-62 | flat token ids hold each turn's tokens at the turn's offset |
| PaddedBatch.BatchedMessageLogToFlatMessage | data/llm_message_utils.py:227-344 | padded columns, per-log lengths and the refusals, for any batch and divisor |
| PaddedBatch.BatchIsExact | data/llm_message_utils.py:227-344 | cell by cell: each column holds every log's flat values and then its own pad value, to the least multiple of the divisor that holds the longest column of any log; lengths are those of each log's longest column |
| PaddedBatch.BatchRefusedIff | data/llm_message_utils.py:262-342 | when the batch is empty, and which of the two refusals is met when |
| PaddedBatch.RoundUpIsLeastMultiple | data/llm_message_utils.py:273-276 | the width is the least multiple of the divisor that fits |
| PaddedBatch.WireKeepsPrefixes | data_plane/codec.py:120-148 | packed and materialized again, every row keeps its valid prefix, the width is the larger of the old and the requested one whichever layout was chosen, and beyond the old width there is only padding |
| PaddedBatch.WireRestoresPadding | data_plane/codec.py:120-148 | with one pad value on both sides a padded column comes back cell by cell, up to the wider padding asked for |
| PaddedBatch.ForcedWireKeepsPrefixes | data_plane/codec.py:201-230 | the forced conversion drops only what lies beyond the longest row, and pads from there |
| PaddedBatch.PackJaggedFields | data_plane/codec.py:151-198 | every column of the dictionary is packed by the shape rule, or left dense without lengths |
| PaddedBatch.JaggedIff | data_plane/codec.py:120-148 | a column travels jagged iff some row fills it, each row cut at its own length, and as it is otherwise |
| PaddedBatch.Materialize | data_plane/codec.py:268-357 | every leaf is padded to its longest row and then to the requested length, with its own pad value |
| MessageLog.DecomposeMessageLog | data/llm_message_utils.py:658-704 | turn lengths padded with zeros, roles, contents, and the first non-empty assistant length |
| MessageLog.ReconstructMessageLog | data/llm_message_utils.py:726-767 | every turn is cut at the running offset; refused iff an array does not cover the turns, or an assistant turn with tokens has no row of log probabilities though some came |
| MessageLog.RebuildUndoesFlatten | data/llm_message_utils.py:726-767 | on any row that starts with the flat tokens, reconstruction gives back role, content and non-empty token ids |
| MessageLog.RebuildRestoresLogprobs | data/llm_message_utils.py:752-763 | and the log probabilities of assistant turns, when there is one per token |
| MessageLog.ShipMessageLogs | data/llm_message_utils.py:707-767 | flatten, pack, materialize, decompose and reconstruct succeed iff the divisor is positive, a turn has tokens and routing is not mixed, and fail with the first obstacle otherwise; every role and content returns, routes, masks and penalties do not; the token ids and aligned assistant log probabilities of exactly the turns ahead of the cut; all token ids iff the turn lengths survive, all log probabilities iff no assistant turn behind the cut has any |
| MessageLog.FullTurnsSurvive | data_plane/codec.py:144-148 | a log without empty turns keeps its turn lengths in any batch |
| MessageLog.EmptyTurnCostsTokens | data_plane/codec.py:144-148 | an instance: a turn of one token comes back without it |
| MessageLog.MixedRoutingIsRefused | data/llm_message_utils.py:325-342 | an instance: one routed and one plain log do not flatten together |
| TokenSpans.BackfillRoutedExperts | data/llm_message_utils.py:137-171 | in logs with some routing every turn without gets one sentinel per token, other logs are untouched; refused iff a turn to fill has no tokens, leaving everything before that turn filled and everything after it untouched |
| TokenSpans.AddTokenLossMasksAndGenerationLogprobs | algorithms/grpo.py:1231-1259 | every log becomes its annotated form; refused iff a turn has no token ids, with the batch as far as the backfill or the masks had come |
| TokenSpans.MaskIsExact | algorithms/grpo.py:1249-1259 | on logs whose columns match their tokens, the flat mask is one exactly on the spans of turns of role assistant that carried log probabilities |
| TokenSpans.MaskSharesOffsets | algorithms/grpo.py:1249-1255 | the mask of a turn sits at the offset of the turn's tokens and is as long as all tokens |
| TokenSpans.LogprobsShareOffsets | algorithms/grpo.py:1256-1259 | so do its log probabilities, zero where none were recorded |
| TokenSpans.RoutesShareOffsets | data/llm_message_utils.py:137-171 | so do its routes, the sentinel where none were recorded |
| TokenSpans.TokensKeepOffsets | algorithms/grpo.py:1231-1259 | annotation moves no token |
| TokenSpans.AnnotationKeepsTurns | algorithms/grpo.py:1231-1259 | nor does it change a role, content, penalty, or anything recorded |
| TokenSpans.AnnotatingTwice | algorithms/grpo.py:1249-1259 | a second annotation changes nothing iff every assistant turn with tokens carried log probabilities |
| TokenSpans.HistoryTurnIsUnmasked | algorithms/grpo.py:1249-1259 | an instance where it does |
| SpanPenalties.ApplyMessageSpanAdvantagePenalties | algorithms/reward_functions.py:330-349 | on either kind of row and under either answer of the library: the result or error and every cell, rows before the failing log handled whole, its own row up to the refused turn, later rows untouched |
| SpanPenalties.AdvantageMatrix.PenalizeRow | algorithms/reward_functions.py:332-347 | the running offset over one log's turns writes what the kind of row makes of each slice, up to the first refused one; refused iff a flagged log has no row, or a flagged turn writes two or more shared cells and the library minds |
| SpanPenalties.AdvantageMatrix.Overwrite | algorithms/reward_functions.py:345 | a slice assignment changes the slice of a row that owns its cells and the whole row of a broadcast one; refused with nothing changed iff two of its cells share memory and the library minds |
| SpanPenalties.PenaltyHits | algorithms/reward_functions.py:332-347 | a cell of its own whose token belongs to a flagged turn holds the negated penalty of that turn |
| SpanPenalties.PenaltySpares | algorithms/reward_functions.py:332-347 | every other cell of its own, padding included, is unchanged |
| SpanPenalties.OwnedRowsArePenalized | algorithms/reward_functions.py:330-349 | the whole call on rows that own their cells: a cell holds the negated penalty of the turn its token belongs to, if that is positive, and its old value otherwise |
| SpanPenalties.LastPenaltyWins | algorithms/reward_functions.py:332-347 | of the turns handled, the last flagged one that reaches into a broadcast row decides it |
| SpanPenalties.ReachesIff | algorithms/reward_functions.py:332-347 | a turn reaches a row iff its penalty is positive and one of its tokens has a cell there |
| SpanPenalties.RowIsAlwaysRightIff | algorithms/reward_functions.py:330-349 | for every advantage: iff the row owns its cells, or nothing reaches it or flagged turns of one penalty cover it whole, none of them refused |
| SpanPenalties.CallSucceedsIff | algorithms/reward_functions.py:330-349 | the call ends without an error iff no turn with tokens and a positive penalty is without a row, or has two or more cells in a row that share memory where the library minds |
| SpanPenalties.HandledUpToRefusal | algorithms/reward_functions.py:332-347 | within a row the turns before the first refused one are handled |
| SpanPenalties.HandledUpToFailure | algorithms/reward_functions.py:330-349 | within a call the logs before the first failing one |
| SpanPenalties.FlaggedTotalIs | algorithms/reward_functions.py:331-348 | the reported number is that of all turns with tokens and a positive penalty |
| SpanPenalties.RowIsRightIff | algorithms/reward_functions.py:330-349 | of either kind of row and under either answer: the row is handled to the end and changed on its flagged spans only, iff it owns its cells, or no turn is refused and nothing reaches it, or one penalty does and covers it whole or is what it held |
| SpanPenalties.ComputeAdvantage | algorithms/advantage_estimator.py:59-74 | the estimator's output is a broadcast matrix of the group-relative advantages, normalised by the group's std plus epsilon where asked and the std is positive |
| SpanPenalties.EstimateIsNormalised | algorithms/advantage_estimator.py:59-74 | where rewards are normalised and the std is positive the estimate times the std plus one millionth is the advantage, elsewhere it is the advantage |
| SpanPenalties.QuietGroupsWeighMore | algorithms/advantage_estimator.py:66-74 | of two rows of equal positive advantage the one of smaller std has the larger estimate, and only that one |
| SpanPenalties.PromptPaysForAnswer | algorithms/reward_functions.py:332-347 | an instance for every penalty, advantage and library: of a prompt and a flagged one-token answer, the prompt pays too |
| SpanPenalties.WideAnswer | algorithms/reward_functions.py:332-347 | an instance: a flagged two-token answer that fills its row is right where shared cells are written and refused, the row untouched, where they are not |
| SpanPenalties.FlaggedAnswer | algorithms/grpo.py:2089-2105 | the one-token answer on the estimator's own output: its prompt loses its advantage under either library |
| SpanPenalties.FlaggedWideAnswer | algorithms/grpo.py:2089-2105 | the two-token answer on the estimator's own output: an error and the old advantages, or the penalty in both cells |
| SpanPenalties.OwnedAnswer | algorithms/reward_functions.py:332-347 | on rows that own their cells the one-token answer spares its prompt |
| Colocation.AutoInfeasibleIffPhaseOverflows | algorithms/distillation_memory.py:202-241 | in bytes and free memory less margin, as reals: fast is infeasible iff everything together does not fit, tight and automatic iff one phase alone does not, and automatic evicts only when it must |
| Colocation.ReportSplits | algorithms/distillation_memory.py:114-181 | a shard's bytes times the shards cover each model's bytes with less than one shard count to spare |
| Colocation.MoreShardsNeverWorse | algorithms/distillation_memory.py:164-181 | more shards never give a slower schedule, for any request |
| Colocation.OrderlyFits | algorithms/distillation_memory.py:79-110 | any snapshot in which nobody computes without weights, both models do not compute at once and eviction keeps teacher and optimizer apart fits the budget of its schedule, and with a margin of at most one stays within free memory times one less the margin; every part on the device counts with its own bytes (`StudentPartsCount`, `OptimizerCounts`, `TeacherPartsCount`) |
| Colocation.OrderlyRunIsSafe | algorithms/distillation.py:219-266 | a whole run of such snapshots stays within budget, and under eviction teacher and optimizer are never on the device together |
| Colocation.Mesh.EnterScoringPhase | algorithms/distillation.py:219-233 | from rest, the teacher ends up resident, the optimizer off the device under eviction |
| Colocation.Mesh.EnterTrainingPhase | algorithms/distillation.py:236-250 | back to rest, the optimizer restored iff the settings restore it |
| Colocation.Mesh.SetRestingState | algorithms/distillation.py:253-266 | the residency the loop assumes at the top of each step |
| Colocation.Mesh.StudentTrain | models/policy/workers/dtensor_policy_worker.py:1042-1064 | an optimizer step is refused iff its state is on the host while the weights are on the device |
| Colocation.Mesh.PrepareStudentForTraining | models/policy/workers/dtensor_policy_worker.py:2079-2093 | what preparing to train moves, under each setting |
| Colocation.Mesh.Setup | algorithms/distillation.py:441-471 | refused iff the preflight finds no schedule; otherwise every snapshot since the student was built is within free memory times one less the margin |
| Colocation.Mesh.Validate | algorithms/distillation.py:513-594 | from rest to rest over as many batches as the loader and the limit give, each scored by the teacher and run by the student, every snapshot orderly; refused iff there is no loader but a period |
| Colocation.Mesh.TrainStep | algorithms/distillation.py:722-796 | one step, with one student pass, one teacher pass and one optimizer step, refused iff the optimizer state was evicted and cannot come back |
| Colocation.Mesh.TrainEpoch | algorithms/distillation.py:700-982 | one epoch from any position: its steps, or the step, time or refusal that ends the run |
| Colocation.Mesh.DistillationTrain | algorithms/distillation.py:679-982 | every snapshot of every train and validate run is within free memory times one less the margin, teacher and optimizer never together under eviction; how many optimizer steps the run takes from any progress to its step, epoch or time limit, and exactly how many the settings allow |
| Colocation.EvictionWithoutRestore | models/policy/workers/dtensor_policy_worker.py:2086-2091 | an instance: preflight passes, the first step succeeds, the second is refused |
| ByteLedger.MetricsClient.PutSamples | data_plane/observability.py:277-297 | the ledger follows its history: outstanding is the sum of all shares, the peak its maximum; a failed call changes nothing |
| ByteLedger.MetricsClient.ClearSamples | data_plane/observability.py:311-324 | the same, and outstanding never grows |
| ByteLedger.MetricsClient.RecordPut | data_plane/observability.py:100-120 | the even split with early keys taking the rest, charged key by key |
| ByteLedger.MetricsClient.RecordClear | data_plane/observability.py:122-144 | keys are popped or the partition dropped, empty partitions removed, and exactly their charge refunded |
| ByteLedger.StepConserves | data_plane/observability.py:100-144 | a put raises the held bytes by exactly its size however keys repeat, a clear lowers them by what its keys were charged |
| ByteLedger.PortionsConserve | data_plane/observability.py:113-117 | the even split hands out every byte |
| ByteLedger.PutSplitsEvenly | data_plane/observability.py:100-120 | of the distinct keys of a put no earlier one gains less than a later one, and none gains two bytes more than another; no other key gains any |
| ByteLedger.ClearIsExact | data_plane/observability.py:122-144 | a clear takes out the keys it names, or the whole partition if it names none, and leaves every other share alone |
| ByteLedger.HistoryLeavesNoEmptyEntry | data_plane/observability.py:135-143 | after any history no empty partition entry remains |
| ByteLedger.PeakIsMaximum | data_plane/observability.py:118-120 | the peak is the maximum of the held bytes over the history |
| ByteLedger.ShareIsOwed | data_plane/observability.py:100-144 | a key is present iff its last touching call wrote it, and its share is what it was charged since it was last dropped |
| ByteLedger.ClearingEveryKeyEmpties | data_plane/observability.py:122-144 | a round of clears empties the ledger iff it drops every key last written, and then no byte is held |

## Left out

- Floating-point rounding, NaN and infinity arithmetic, and overflow of 64-bit ids: numbers are exact.
- GroupBaseline.CalculateBaselineAndVariance: the variance stands for its square root, and valid masks other than the all-ones mask its callers pass are not modelled.
- GroupBaseline.RowStatistics: as for the whole routine.
- SpanPenalties.ComputeAdvantage: the square root is any function, and the other estimators are not modelled.
- LogitsSampling: `torch.sort`, `topk` and softmax appear as orders, thresholds and masses with their laws; the autograd wrapper and gradients are not modelled.
- RolloutBudget: `graded_allocation_metrics`, and the refusal of a missing diversity column, which the training loop rules out.
- DynamicSampling: metrics, reward scaling and the async trainer; runs are within one epoch.
- EffortReward: reading configuration values by key, and the metrics.
- BatchSharding: negative sizes, dynamic batching (refused in this build) and multimodal columns.
- RankLayout.PinAxes: which error is reported first when a request has both an unknown axis and a bad index.
- WriteBack: transport; a put is the set of ids written.
- PaddedBatch.Materialize: the jagged read layout and non-tensor leaves.
- FlatMessages.MessageLogToFlatMessages: string columns, which are collected into lists.
- PaddedBatch.BatchedMessageLogToFlatMessage: negative divisors, string columns, and dtype, device or trailing-shape mismatches inside a column.
- MessageLog.ShipMessageLogs: reading back a subset of the samples; the whole batch is read.
- TokenSpans.BackfillRoutedExperts: two logs sharing one message object, and the trailing shape of route tensors.
- TokenSpans.AddTokenLossMasksAndGenerationLogprobs: two logs sharing one message object.
- SpanPenalties.ApplyMessageSpanAdvantagePenalties: how violations add up to a turn's penalty; the sum is an input.
- Colocation: separate-cluster distillation, where the phases do nothing; the activation estimate; message texts.
- Colocation.Mesh.StudentTrain: the device mismatch is an error value, and the memory of generation is charged as student activations.
- Colocation.Mesh.Setup: dtype names; bytes per parameter are inputs.
- ByteLedger: call counters, latencies and the event log.
- Tokenizers, datasets, environments, checkpointing, logging and process placement: plumbing without a hard property.
