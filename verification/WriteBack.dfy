/** Leader-gated write-back: of all workers, only replica leaders store their
    data-parallel coordinate's samples. */
module WriteBack {
  import opened Sums
  import opened Options
  import opened Permutations
  import opened Preshard
  import opened RankLayout

  const DATA_PARALLEL: string := "data_parallel"
  const REPLICATED_AXES: seq<string> := ["tensor_parallel", "context_parallel", "pipeline_parallel"]

  /** `is_axis_zero`: axes absent from the coordinates count as zero. */
  predicate IsAxisZero(coords: map<string, nat>, axes: seq<string>) {
    forall ax :: ax in axes ==> ax in coords ==> coords[ax] == 0
  }

  /** `_is_replica_leader` of the worker at flat position `k`. */
  predicate IsLeader(sh: Sharding, k: nat)
    requires Valid(sh) && k < |sh.layout|
  {
    IsAxisZero(DictOf(sh.names, CoordsAt(sh, k)), REPLICATED_AXES)
  }

  /** A layout with distinct axis names and a data-parallel axis. */
  ghost predicate DataParallel(sh: Sharding) {
    Valid(sh) && Distinct(sh.names) && DATA_PARALLEL in sh.names && sh.layout != []
  }

  function DpAxis(sh: Sharding): nat
    requires DATA_PARALLEL in sh.names
  {
    AxisOf(sh.names, DATA_PARALLEL)
  }

  function DpCoord(sh: Sharding, k: nat): nat
    requires Valid(sh) && DATA_PARALLEL in sh.names && k < |sh.layout|
  {
    CoordsAt(sh, k)[DpAxis(sh)]
  }

  /** Every axis besides the data-parallel one holds replicas, or is trivial. */
  ghost predicate FullyReplicated(sh: Sharding)
    requires Valid(sh)
  {
    forall a :: 0 <= a < |sh.names| ==>
      sh.names[a] == DATA_PARALLEL || sh.names[a] in REPLICATED_AXES || sh.shape[a] == 1
  }

  /** A worker leads exactly when its coordinate is zero on every replicated axis. */
  lemma LeaderByAxis(sh: Sharding, k: nat)
    requires Valid(sh) && Distinct(sh.names) && k < |sh.layout|
    ensures IsLeader(sh, k) <==>
              forall a :: 0 <= a < |sh.names| && sh.names[a] in REPLICATED_AXES ==> CoordsAt(sh, k)[a] == 0
  {
    var coords := CoordsAt(sh, k);
    var dict := DictOf(sh.names, coords);
    forall a | 0 <= a < |sh.names| ensures sh.names[a] in dict && dict[sh.names[a]] == coords[a] {
      DictLooksUpLast(sh.names, coords, sh.names[a]);
    }
    if forall a :: 0 <= a < |sh.names| && sh.names[a] in REPLICATED_AXES ==> coords[a] == 0 {
      forall ax | ax in REPLICATED_AXES && ax in dict ensures dict[ax] == 0 {
        DictLooksUpLast(sh.names, coords, ax);
      }
    }
  }

  lemma {:induction false} PositiveDims(shape: seq<nat>)
    requires Size(shape) > 0
    ensures forall i :: 0 <= i < |shape| ==> shape[i] > 0
  {
    if shape != [] {
      assert shape[0] > 0 && Size(shape[1..]) > 0;
      PositiveDims(shape[1..]);
      forall i | 0 <= i < |shape| ensures shape[i] > 0 {
        if i > 0 { assert shape[i] == shape[1..][i - 1]; }
      }
    }
  }

  /** Coordinates zero everywhere except `d` on the data-parallel axis and `e` on axis `b`. */
  function Probe(sh: Sharding, d: nat, b: nat, e: nat): (c: seq<nat>)
    requires DATA_PARALLEL in sh.names
    ensures |c| == |sh.names|
  {
    seq(|sh.names|, a => if a == DpAxis(sh) then d else if a == b then e else 0)
  }

  lemma ProbePosition(sh: Sharding, d: nat, b: nat, e: nat) returns (k: nat)
    requires DataParallel(sh) && d < sh.shape[DpAxis(sh)]
    requires b < |sh.names| && b != DpAxis(sh) && e < sh.shape[b] && (sh.names[b] in REPLICATED_AXES ==> e == 0)
    ensures k < |sh.layout| && CoordsAt(sh, k) == Probe(sh, d, b, e)
    ensures IsLeader(sh, k) && DpCoord(sh, k) == d
  {
    var c := Probe(sh, d, b, e);
    PositiveDims(sh.shape);
    k := Ravel(sh.shape, c);
    RavelLaws(sh.shape, c);
    LeaderByAxis(sh, k);
  }

  lemma OriginPosition(sh: Sharding, d: nat) returns (k: nat)
    requires DataParallel(sh) && d < sh.shape[DpAxis(sh)]
    ensures k < |sh.layout| && IsLeader(sh, k) && DpCoord(sh, k) == d
  {
    var c := Probe(sh, d, |sh.names|, 0);
    PositiveDims(sh.shape);
    k := Ravel(sh.shape, c);
    RavelLaws(sh.shape, c);
    LeaderByAxis(sh, k);
  }

  ghost predicate LeadsFor(sh: Sharding, d: nat, k: nat)
    requires DataParallel(sh)
  {
    k < |sh.layout| && IsLeader(sh, k) && DpCoord(sh, k) == d
  }

  ghost predicate OneLeaderEach(sh: Sharding)
    requires DataParallel(sh)
  {
    forall d: nat :: d < sh.shape[DpAxis(sh)] ==> OneLeaderFor(sh, d)
  }

  ghost predicate OneLeaderFor(sh: Sharding, d: nat)
    requires DataParallel(sh)
  {
    exists k :: LeadsFor(sh, d, k) && forall j :: LeadsFor(sh, d, j) ==> j == k
  }

  /** Each data-parallel coordinate has exactly one replica leader, exactly when
      every other axis is replicated or of size one. */
  lemma ExactlyOneLeader(sh: Sharding)
    requires DataParallel(sh)
    ensures OneLeaderEach(sh) <==> FullyReplicated(sh)
  {
    if FullyReplicated(sh) {
      forall d: nat | d < sh.shape[DpAxis(sh)]
        ensures OneLeaderFor(sh, d)
      {
        var k := OriginPosition(sh, d);
        forall j | LeadsFor(sh, d, j) ensures j == k {
          LeadersCoincide(sh, d, j, k);
        }
        assert LeadsFor(sh, d, k);
      }
    } else {
      PositiveDims(sh.shape);
      var k0, k1 := TwoLeaders(sh, 0);
      assert !OneLeaderFor(sh, 0);
    }
  }

  /** In any other layout every coordinate has two leaders or more. */
  lemma TwoLeaders(sh: Sharding, d: nat) returns (k0: nat, k1: nat)
    requires DataParallel(sh) && !FullyReplicated(sh) && d < sh.shape[DpAxis(sh)]
    ensures LeadsFor(sh, d, k0) && LeadsFor(sh, d, k1) && k0 != k1
  {
    var b :| 0 <= b < |sh.names| && sh.names[b] != DATA_PARALLEL && sh.names[b] !in REPLICATED_AXES && sh.shape[b] != 1;
    PositiveDims(sh.shape);
    assert sh.names[DpAxis(sh)] == DATA_PARALLEL;
    k0 := ProbePosition(sh, d, b, 0);
    k1 := ProbePosition(sh, d, b, 1);
    assert Probe(sh, d, b, 0)[b] != Probe(sh, d, b, 1)[b];
  }

  lemma LeadersCoincide(sh: Sharding, d: nat, j: nat, k: nat)
    requires DataParallel(sh) && FullyReplicated(sh) && LeadsFor(sh, d, j) && LeadsFor(sh, d, k)
    ensures j == k
  {
    LeaderByAxis(sh, j);
    LeaderByAxis(sh, k);
    UnravelLaws(sh.shape, j);
    UnravelLaws(sh.shape, k);
    var x, y := CoordsAt(sh, j), CoordsAt(sh, k);
    forall a | 0 <= a < |sh.names| ensures x[a] == y[a] {
      if sh.names[a] == DATA_PARALLEL {
        assert a == DpAxis(sh);
      }
    }
    assert x == y;
  }

  // ----- what is written -----

  /** What each worker does in a stage: write its coordinate's samples, or nothing. */
  type Roles = seq<Option<nat>>

  function RolesOf(sh: Sharding): (roles: Roles)
    requires Valid(sh) && DATA_PARALLEL in sh.names
    ensures |roles| == |sh.layout|
  {
    seq(|sh.layout|, k requires 0 <= k < |sh.layout| => if IsLeader(sh, k) then Some(DpCoord(sh, k)) else None)
  }

  function WrittenBy(role: Option<nat>, samples: seq<seq<string>>): multiset<string> {
    if role.Some? && role.value < |samples| then multiset(samples[role.value]) else multiset{}
  }

  /** Ids written by all the workers, given each rank's samples. */
  function Written(roles: Roles, samples: seq<seq<string>>): multiset<string> {
    if roles == [] then multiset{}
    else Written(roles[..|roles| - 1], samples) + WrittenBy(roles[|roles| - 1], samples)
  }

  /** How many workers write coordinate `d`. */
  function Writers(roles: Roles, d: nat): nat {
    if roles == [] then 0
    else Writers(roles[..|roles| - 1], d) + if roles[|roles| - 1] == Some(d) then 1 else 0
  }

  lemma {:induction false} SomeWriter(roles: Roles, d: nat, k: nat)
    requires k < |roles| && roles[k] == Some(d)
    ensures Writers(roles, d) >= 1
  {
    if k < |roles| - 1 {
      SomeWriter(roles[..|roles| - 1], d, k);
    }
  }

  lemma {:induction false} TwoWriters(roles: Roles, d: nat, k0: nat, k1: nat)
    requires k0 < k1 < |roles| && roles[k0] == roles[k1] == Some(d)
    ensures Writers(roles, d) >= 2
  {
    var n := |roles| - 1;
    if k1 < n {
      TwoWriters(roles[..n], d, k0, k1);
    } else {
      SomeWriter(roles[..n], d, k0);
    }
  }

  lemma {:induction false} OneWriter(roles: Roles, d: nat, k: nat)
    requires forall j :: 0 <= j < |roles| ==> (roles[j] == Some(d) <==> j == k)
    ensures Writers(roles, d) == if k < |roles| then 1 else 0
  {
    if roles != [] {
      OneWriter(roles[..|roles| - 1], d, k);
    }
  }

  // An id is counted coordinate by coordinate: `count(e)` is how often the samples
  // of coordinate `e` list it.

  function CountBy(role: Option<nat>, count: nat -> nat, d: nat): nat {
    if role.Some? && role.value < d then count(role.value) else 0
  }

  /** How often the workers of the first `d` coordinates write the id. */
  function CountWritten(roles: Roles, count: nat -> nat, d: nat): nat {
    if roles == [] then 0
    else CountWritten(roles[..|roles| - 1], count, d) + CountBy(roles[|roles| - 1], count, d)
  }

  /** How often the samples of the first `d` coordinates list it. */
  function CountListed(count: nat -> nat, d: nat): nat {
    if d == 0 then 0 else CountListed(count, d - 1) + count(d - 1)
  }

  lemma {:induction false} NothingWritten(roles: Roles, count: nat -> nat)
    ensures CountWritten(roles, count, 0) == 0
  {
    if roles != [] {
      NothingWritten(roles[..|roles| - 1], count);
    }
  }

  /** One more coordinate adds its samples once per writer. */
  lemma {:induction false} OneMoreCoordinate(roles: Roles, count: nat -> nat, d: nat)
    ensures CountWritten(roles, count, d + 1) == CountWritten(roles, count, d) + Writers(roles, d) * count(d)
  {
    if roles != [] {
      OneMoreCoordinate(roles[..|roles| - 1], count, d);
    }
  }

  /** With writers for every coordinate, an id is written as often as listed unless a
      coordinate that lists it has a second writer. */
  lemma {:induction false} WrittenAsListed(roles: Roles, count: nat -> nat, d: nat)
    requires forall e: nat :: e < d ==> Writers(roles, e) >= 1
    ensures CountWritten(roles, count, d) >= CountListed(count, d)
    ensures CountWritten(roles, count, d) == CountListed(count, d) <==>
            forall e: nat :: e < d ==> count(e) == 0 || Writers(roles, e) == 1
  {
    if d == 0 {
      NothingWritten(roles, count);
    } else {
      WrittenAsListed(roles, count, d - 1);
      OneMoreCoordinate(roles, count, d - 1);
      ExtraWriters(Writers(roles, d - 1), count(d - 1));
    }
  }

  lemma ExtraWriters(writers: nat, count: nat)
    requires writers >= 1
    ensures writers * count >= count
    ensures writers * count == count <==> count == 0 || writers == 1
  {
    assert writers * count - count == (writers - 1) * count;
  }

  function CountIn(samples: seq<seq<string>>, id: string): nat -> nat {
    (e: nat) => if e < |samples| then multiset(samples[e])[id] else 0
  }

  lemma {:induction false} CountsWritten(roles: Roles, samples: seq<seq<string>>, id: string)
    ensures Written(roles, samples)[id] == CountWritten(roles, CountIn(samples, id), |samples|)
  {
    if roles != [] {
      CountsWritten(roles[..|roles| - 1], samples, id);
    }
  }

  lemma {:induction false} CountsListed(samples: seq<seq<string>>, id: string, d: nat)
    requires d <= |samples|
    ensures multiset(Flatten(samples[..d]))[id] == CountListed(CountIn(samples, id), d)
  {
    if d > 0 {
      CountsListed(samples, id, d - 1);
      assert samples[..d][..d - 1] == samples[..d - 1];
    }
  }

  lemma {:induction false} IdWrittenAsListed(roles: Roles, samples: seq<seq<string>>, id: string)
    requires forall e: nat :: e < |samples| ==> Writers(roles, e) >= 1
    ensures Written(roles, samples)[id] == multiset(Flatten(samples))[id] <==>
            forall e: nat :: e < |samples| && id in samples[e] ==> Writers(roles, e) == 1
  {
    var count := CountIn(samples, id);
    CountsWritten(roles, samples, id);
    CountsListed(samples, id, |samples|);
    assert samples[..|samples|] == samples;
    WrittenAsListed(roles, count, |samples|);
    forall e: nat | e < |samples|
      ensures count(e) == 0 <==> id !in samples[e]
    {
      assert id in samples[e] <==> id in multiset(samples[e]);
    }
  }

  /** With writers for every coordinate, what is written is the union of the
      coordinates' samples exactly when no coordinate with samples has a second one. */
  lemma {:induction false} WrittenIsUnionIff(roles: Roles, samples: seq<seq<string>>)
    requires forall e: nat :: e < |samples| ==> Writers(roles, e) >= 1
    ensures Written(roles, samples) == multiset(Flatten(samples)) <==>
            forall e: nat :: e < |samples| && samples[e] != [] ==> Writers(roles, e) == 1
  {
    if forall e: nat :: e < |samples| && samples[e] != [] ==> Writers(roles, e) == 1 {
      forall id: string
        ensures Written(roles, samples)[id] == multiset(Flatten(samples))[id]
      {
        IdWrittenAsListed(roles, samples, id);
      }
    } else {
      var e: nat :| e < |samples| && samples[e] != [] && Writers(roles, e) != 1;
      IdWrittenAsListed(roles, samples, samples[e][0]);
      assert samples[e][0] in samples[e];
    }
  }

  /** A coordinate has one writer in a fully replicated layout and more in any other. */
  lemma {:induction false} WritersOf(sh: Sharding, d: nat)
    requires DataParallel(sh) && d < sh.shape[DpAxis(sh)]
    ensures Writers(RolesOf(sh), d) >= 1
    ensures Writers(RolesOf(sh), d) == 1 <==> FullyReplicated(sh)
  {
    var roles := RolesOf(sh);
    if FullyReplicated(sh) {
      var k := OriginPosition(sh, d);
      forall j | 0 <= j < |roles|
        ensures roles[j] == Some(d) <==> j == k
      {
        if roles[j] == Some(d) {
          LeadersCoincide(sh, d, j, k);
        }
      }
      OneWriter(roles, d, k);
    } else {
      var k0, k1 := TwoLeaders(sh, d);
      TwoWriters(roles, d, if k0 < k1 then k0 else k1, if k0 < k1 then k1 else k0);
    }
  }

  function IdsOf(out: seq<Meta>): (ids: seq<seq<string>>)
    ensures |ids| == |out|
  {
    seq(|out|, k requires 0 <= k < |out| => out[k].sampleIds)
  }

  lemma {:induction false} EmptyParts(samples: seq<seq<string>>)
    ensures Flatten(samples) == [] <==> forall d: nat :: d < |samples| ==> samples[d] == []
  {
    if samples != [] {
      var n := |samples| - 1;
      EmptyParts(samples[..n]);
      assert |Flatten(samples)| == |Flatten(samples[..n])| + |samples[n]|;
      assert forall d: nat :: d < n ==> samples[..n][d] == samples[d];
    }
  }

  /** Exactly-once write-back: when every worker holds its coordinate's part of a
      split batch, the leaders together write every sample id of the batch exactly
      as often as the batch lists it, if and only if every other axis is replicated
      or trivial (or the batch is empty). */
  lemma {:induction false} EverySampleWrittenOnce(sh: Sharding, meta: Meta, ranks: seq<seq<nat>>, out: seq<Meta>,
                                                  unsorted: Option<seq<nat>>)
    requires DataParallel(sh)
    requires Complete(meta) && IsPermutation(Flatten(ranks), |meta.sampleIds|) && Splits(meta, ranks, out, unsorted)
    requires |out| == sh.shape[DpAxis(sh)]
    ensures Written(RolesOf(sh), IdsOf(out)) == multiset(meta.sampleIds) <==> FullyReplicated(sh) || meta.sampleIds == []
  {
    var ids := IdsOf(out);
    forall d: nat | d < |ids|
      ensures Writers(RolesOf(sh), d) >= 1 && (Writers(RolesOf(sh), d) == 1 <==> FullyReplicated(sh))
    {
      WritersOf(sh, d);
    }
    WrittenIsUnionIff(RolesOf(sh), ids);
    EmptyParts(ids);
    FlattenPick(meta.sampleIds, ranks, ids);
    PickMultiset(meta.sampleIds, Flatten(ranks));
    assert |multiset(Flatten(ids))| == |multiset(meta.sampleIds)|;
  }

  // ----- the trainer's layout -----

  /** Ranks in order over pipeline, data, context and tensor parallelism. */
  function TrainerLayout(pp: nat, dp: nat, cp: nat, tp: nat): Sharding {
    Sharding([pp, dp, cp, tp], Iota(pp * (dp * (cp * tp))),
             ["pipeline_parallel", "data_parallel", "context_parallel", "tensor_parallel"])
  }

  lemma FourAxes(pp: nat, dp: nat, cp: nat, tp: nat)
    ensures Size([pp, dp, cp, tp]) == pp * (dp * (cp * tp))
  {
    assert [pp, dp, cp, tp][1..] == [dp, cp, tp] && [dp, cp, tp][1..] == [cp, tp] && [cp, tp][1..] == [tp] && [tp][1..] == [];
    assert Size([tp]) == tp * Size([]);
    assert Size([cp, tp]) == cp * Size([tp]);
    assert Size([dp, cp, tp]) == dp * Size([cp, tp]);
  }

  /** Rank of the first worker of a data-parallel group. */
  lemma GroupStart(pp: nat, dp: nat, cp: nat, tp: nat, d: nat)
    ensures Ravel([pp, dp, cp, tp], [0, d, 0, 0]) == d * (cp * tp)
  {
    var shape, coords := [pp, dp, cp, tp], [0, d, 0, 0];
    assert shape[1..] == [dp, cp, tp] && coords[1..] == [d, 0, 0];
    assert [dp, cp, tp][1..] == [cp, tp] && [d, 0, 0][1..] == [0, 0];
    assert [cp, tp][1..] == [tp] && [0, 0][1..] == [0] && [tp][1..] == [] && [0][1..] == [];
    assert Size([tp]) == tp * Size([]);
    assert Size([cp, tp]) == cp * Size([tp]);
    assert Ravel([tp], [0]) == 0 * Size([]) + Ravel([], []);
    assert Ravel([cp, tp], [0, 0]) == 0 * Size([tp]) + Ravel([tp], [0]);
    assert Ravel([dp, cp, tp], [d, 0, 0]) == d * Size([cp, tp]) + Ravel([cp, tp], [0, 0]);
    assert Ravel(shape, coords) == 0 * Size([dp, cp, tp]) + Ravel([dp, cp, tp], [d, 0, 0]);
  }

  lemma TrainerLayoutValid(pp: nat, dp: nat, cp: nat, tp: nat)
    requires pp > 0 && dp > 0 && cp > 0 && tp > 0
    ensures DataParallel(TrainerLayout(pp, dp, cp, tp)) && FullyReplicated(TrainerLayout(pp, dp, cp, tp))
    ensures DpAxis(TrainerLayout(pp, dp, cp, tp)) == 1
  {
    var sh := TrainerLayout(pp, dp, cp, tp);
    FourAxes(pp, dp, cp, tp);
    assert cp * tp > 0;
    assert dp * (cp * tp) > 0;
    assert sh.names[1] == DATA_PARALLEL;
    assert sh.names[0] in REPLICATED_AXES && sh.names[2] in REPLICATED_AXES && sh.names[3] in REPLICATED_AXES by {
      assert REPLICATED_AXES[2] == "pipeline_parallel" && REPLICATED_AXES[1] == "context_parallel"
             && REPLICATED_AXES[0] == "tensor_parallel";
    }
  }

  lemma TrainerLeaderCoords(pp: nat, dp: nat, cp: nat, tp: nat, rank: nat) returns (coords: seq<nat>)
    requires pp > 0 && dp > 0 && cp > 0 && tp > 0 && rank < pp * (dp * (cp * tp))
    ensures var sh := TrainerLayout(pp, dp, cp, tp);
            && DataParallel(sh) && rank < |sh.layout| && coords == CoordsAt(sh, rank) && |coords| == 4
            && coords[1] == DpCoord(sh, rank) < dp && Ravel(sh.shape, coords) == rank
            && (IsLeader(sh, rank) <==> coords == [0, coords[1], 0, 0])
  {
    var sh := TrainerLayout(pp, dp, cp, tp);
    TrainerLayoutValid(pp, dp, cp, tp);
    FourAxes(pp, dp, cp, tp);
    LeaderByAxis(sh, rank);
    UnravelLaws(sh.shape, rank);
    coords := CoordsAt(sh, rank);
    assert forall a :: 0 <= a < 4 ==> (sh.names[a] in REPLICATED_AXES <==> a != 1);
  }

  /** Of the trainer's ranks exactly the first context and tensor rank of each
      data-parallel group in the first pipeline stage writes back, and what it writes
      are its group's samples. */
  lemma TrainerLeaders(pp: nat, dp: nat, cp: nat, tp: nat, rank: nat)
    requires pp > 0 && dp > 0 && cp > 0 && tp > 0 && rank < pp * (dp * (cp * tp))
    ensures var sh := TrainerLayout(pp, dp, cp, tp);
            && DataParallel(sh) && rank < |sh.layout|
            && (IsLeader(sh, rank) <==> exists d: nat :: d < dp && rank == d * (cp * tp))
            && (IsLeader(sh, rank) ==> rank == DpCoord(sh, rank) * (cp * tp))
  {
    var coords := TrainerLeaderCoords(pp, dp, cp, tp, rank);
    GroupStart(pp, dp, cp, tp, coords[1]);
    if exists d: nat :: d < dp && rank == d * (cp * tp) {
      var d: nat :| d < dp && rank == d * (cp * tp);
      GroupStart(pp, dp, cp, tp, d);
      assert InBox([pp, dp, cp, tp], [0, d, 0, 0]);
      RavelLaws([pp, dp, cp, tp], [0, d, 0, 0]);
    }
  }

  /** Whatever the batch and its split, the trainer's ranks write every sample id exactly
      as often as the batch lists it. */
  lemma {:induction false} TrainerWritesOnce(pp: nat, dp: nat, cp: nat, tp: nat, meta: Meta, ranks: seq<seq<nat>>,
                                             out: seq<Meta>, unsorted: Option<seq<nat>>)
    requires pp > 0 && dp > 0 && cp > 0 && tp > 0
    requires Complete(meta) && IsPermutation(Flatten(ranks), |meta.sampleIds|) && Splits(meta, ranks, out, unsorted)
    requires |out| == dp
    ensures DATA_PARALLEL in TrainerLayout(pp, dp, cp, tp).names && Valid(TrainerLayout(pp, dp, cp, tp))
    ensures Written(RolesOf(TrainerLayout(pp, dp, cp, tp)), IdsOf(out)) == multiset(meta.sampleIds)
  {
    TrainerLayoutValid(pp, dp, cp, tp);
    EverySampleWrittenOnce(TrainerLayout(pp, dp, cp, tp), meta, ranks, out, unsorted);
  }

  // ----- the guarded store update -----

  /** The data plane's store, as the multiset of ids written in one stage. */
  class Store {
    var puts: multiset<string>

    constructor ()
      ensures puts == multiset{}
    {
      puts := multiset{};
    }

    /** `_write_back`: a no-op unless the worker leads and has fields to write. */
    method WriteBackFrom(coords: map<string, nat>, sampleIds: seq<string>, hasFields: bool)
      modifies this
      ensures puts == old(puts) + (if IsAxisZero(coords, REPLICATED_AXES) && hasFields then multiset(sampleIds) else multiset{})
    {
      if !IsAxisZero(coords, REPLICATED_AXES) || !hasFields {
        return;
      }
      puts := puts + multiset(sampleIds);
    }
  }

  lemma RoleWrites(sh: Sharding, samples: seq<seq<string>>, k: nat)
    requires DataParallel(sh) && |samples| == sh.shape[DpAxis(sh)] && k < |sh.layout|
    ensures DpCoord(sh, k) < |samples|
    ensures WrittenBy(RolesOf(sh)[k], samples)
            == if IsAxisZero(DictOf(sh.names, CoordsAt(sh, k)), REPLICATED_AXES)
               then multiset(samples[DpCoord(sh, k)]) else multiset{}
  {
    UnravelLaws(sh.shape, k);
  }

  lemma {:induction false} WrittenStep(roles: Roles, samples: seq<seq<string>>, k: nat)
    requires k < |roles|
    ensures Written(roles[..k + 1], samples) == Written(roles[..k], samples) + WrittenBy(roles[k], samples)
  {
    assert roles[..k + 1][..k] == roles[..k];
  }

  /** The worker at layout position `k` writes back its coordinate's samples. */
  method WorkerWritesBack(sh: Sharding, samples: seq<seq<string>>, store: Store, k: nat)
    requires DataParallel(sh) && |samples| == sh.shape[DpAxis(sh)] && k < |sh.layout|
    modifies store
    ensures store.puts == old(store.puts) + WrittenBy(RolesOf(sh)[k], samples)
  {
    RoleWrites(sh, samples, k);
    store.WriteBackFrom(DictOf(sh.names, CoordsAt(sh, k)), samples[DpCoord(sh, k)], true);
  }

  /** One stage: every worker of the layout writes back its coordinate's samples. */
  method WriteBackStage(sh: Sharding, samples: seq<seq<string>>, store: Store)
    requires DataParallel(sh) && |samples| == sh.shape[DpAxis(sh)]
    modifies store
    ensures store.puts == old(store.puts) + Written(RolesOf(sh), samples)
  {
    ghost var roles := RolesOf(sh);
    for k := 0 to |sh.layout|
      invariant store.puts == old(store.puts) + Written(roles[..k], samples)
    {
      WrittenStep(roles, samples, k);
      WorkerWritesBack(sh, samples, store, k);
    }
    assert roles[..|sh.layout|] == roles;
  }
}
