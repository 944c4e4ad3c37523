/** Dynamic sampling as a state machine: generation batches are filtered by the
    zero-std gate into a cache until a training step can be filled. */
module DynamicSampling {
  import opened Sums
  import opened Options
  import opened Power
  import opened GroupBaseline
  import opened RolloutAllocation
  import opened RolloutBudget

  // ----- group ids -----

  const GROUP_ID_STRIDE: int := 0x1_0000_0000

  /** `torch.unique(dim=0)`: the distinct prompts in some fixed order. */
  type Unique = seq<Prompt> -> seq<Prompt>

  ghost predicate ListsUnique(unique: Unique) {
    forall p: seq<Prompt> :: UniqueRows(p, unique(p))
  }

  /** Group id of a prompt in the batch with this ordinal. */
  function GroupId(uniq: seq<Prompt>, p: Prompt, ordinal: int): int
    requires p in uniq
  {
    IndexIn(uniq, p) + ordinal * GROUP_ID_STRIDE
  }

  /** `assign_group_ids`. */
  function AssignGroupIds(prompts: seq<Prompt>, uniq: seq<Prompt>, ordinal: int): (r: Result<seq<int>>)
    requires UniqueRows(prompts, uniq)
    ensures r.Ok? ==> |r.value| == |prompts|
  {
    if ordinal < 0 then Err(ValueError)
    else if exists i :: 0 <= i < |prompts| && IndexIn(uniq, prompts[i]) >= GROUP_ID_STRIDE then Err(ValueError)
    else Ok(seq(|prompts|, i requires 0 <= i < |prompts| && prompts[i] in uniq => GroupId(uniq, prompts[i], ordinal)))
  }

  /** Ids are refused exactly for a negative ordinal or more prompts than one ordinal
      has room for.  An id spells out its prompt and its ordinal. */
  lemma GroupIdsAreAssigned(prompts: seq<Prompt>, uniq: seq<Prompt>, ordinal: int)
    requires UniqueRows(prompts, uniq)
    ensures AssignGroupIds(prompts, uniq, ordinal).Ok? <==> ordinal >= 0 && |uniq| <= 4294967296
    ensures AssignGroupIds(prompts, uniq, ordinal).Err? ==> AssignGroupIds(prompts, uniq, ordinal).error == ValueError
    ensures AssignGroupIds(prompts, uniq, ordinal).Ok? ==> forall i :: 0 <= i < |prompts| ==>
              var id := AssignGroupIds(prompts, uniq, ordinal).value[i];
              id / 4294967296 == ordinal && id % 4294967296 < |uniq| && uniq[id % 4294967296] == prompts[i]
  {
    if |uniq| > GROUP_ID_STRIDE {
      var last := uniq[|uniq| - 1];
      assert last in prompts;
      var i :| 0 <= i < |prompts| && prompts[i] == last;
      assert IndexIn(uniq, prompts[i]) == |uniq| - 1;
    }
  }

  /** Two rows share a group id exactly when they share both the prompt and the
      generation batch, whatever the batches hold. */
  lemma GroupIdsSeparate(prompts: seq<Prompt>, uniq: seq<Prompt>, ordinal: int, i: nat,
                         prompts': seq<Prompt>, uniq': seq<Prompt>, ordinal': int, j: nat)
    requires UniqueRows(prompts, uniq) && UniqueRows(prompts', uniq')
    requires ordinal == ordinal' ==> uniq == uniq'
    requires AssignGroupIds(prompts, uniq, ordinal).Ok? && AssignGroupIds(prompts', uniq', ordinal').Ok?
    requires i < |prompts| && j < |prompts'|
    ensures AssignGroupIds(prompts, uniq, ordinal).value[i] == AssignGroupIds(prompts', uniq', ordinal').value[j]
            <==> ordinal == ordinal' && prompts[i] == prompts'[j]
  {
    PackingSeparates(IndexIn(uniq, prompts[i]), ordinal, IndexIn(uniq', prompts'[j]), ordinal');
  }

  lemma PackingSeparates(a: int, m: int, b: int, n: int)
    requires 0 <= a < GROUP_ID_STRIDE && 0 <= b < GROUP_ID_STRIDE
    ensures a + m * GROUP_ID_STRIDE == b + n * GROUP_ID_STRIDE <==> a == b && m == n
  {
  }

  // ----- rows and configuration -----

  /** One rollout as the reward stage leaves it. */
  datatype Sample = Sample(prompt: Prompt, std: real, baseline: real, reward: real, diversity: real)

  /** A rollout tagged with the generation batch it came from and its group id. */
  datatype Row = Row(sample: Sample, genBatch: nat, group: int)

  datatype Grading = Grading(minRolloutsPerPrompt: int, varianceExponent: real, useDiversity: bool, diversityExponent: real)

  datatype Config = Config(
    numPrompts: nat,
    numGenerations: nat,
    useDynamicSampling: bool,
    maxGenBatches: int,
    graded: Option<Grading>)
  {
    function TrainSize(): nat { numPrompts * numGenerations }
  }

  ghost predicate ValidConfig(cfg: Config) {
    cfg.graded.Some? ==> cfg.graded.value.varianceExponent >= 0.0 && cfg.graded.value.diversityExponent >= 0.0
  }

  function Prompts(batch: seq<Sample>): (p: seq<Prompt>)
    ensures |p| == |batch|
  {
    seq(|batch|, i requires 0 <= i < |batch| => batch[i].prompt)
  }

  function GroupsOf(rows: seq<Row>): (g: seq<int>)
    ensures |g| == |rows|
  {
    seq(|rows|, i requires 0 <= i < |rows| => rows[i].group)
  }

  function Stds(rows: seq<Row>): (s: seq<real>)
    ensures |s| == |rows|
  {
    seq(|rows|, i requires 0 <= i < |rows| => rows[i].sample.std)
  }

  function Diversities(rows: seq<Row>): (d: seq<real>)
    ensures |d| == |rows|
  {
    seq(|rows|, i requires 0 <= i < |rows| => rows[i].sample.diversity)
  }

  function SettingsFor(g: Grading, rows: seq<Row>): Settings {
    Settings(g.minRolloutsPerPrompt, g.varianceExponent,
             if g.useDiversity then Some(Diversities(rows)) else None, g.diversityExponent)
  }

  function Tag(batch: seq<Sample>, ids: seq<int>, ordinal: nat): (rows: seq<Row>)
    requires |ids| == |batch|
    ensures |rows| == |batch|
  {
    seq(|batch|, i requires 0 <= i < |batch| => Row(batch[i], ordinal, ids[i]))
  }

  /** The zero-std gate. */
  function Survivors(rows: seq<Row>): (s: seq<Row>)
    ensures |s| <= |rows|
    ensures forall r :: r in s <==> r in rows && r.sample.std != 0.0
  {
    if rows == [] then []
    else
      var init := Survivors(rows[..|rows| - 1]);
      var last := rows[|rows| - 1];
      assert rows == rows[..|rows| - 1] + [last];
      if last.sample.std != 0.0 then init + [last] else init
  }

  function Select(rows: seq<Row>, kept: seq<nat>): (s: seq<Row>)
    requires InRange(kept, |rows|)
    ensures |s| == |kept|
  {
    seq(|kept|, k requires 0 <= k < |kept| => rows[kept[k]])
  }

  /** The id column the training loop attaches, only when grading is on. */
  function BatchIds(cfg: Config, unique: Unique, batch: seq<Sample>, ordinal: nat): (r: Result<seq<int>>)
    requires ListsUnique(unique)
    ensures r.Ok? ==> |r.value| == |batch|
  {
    if cfg.graded.None? then Ok(seq(|batch|, _ => 0))
    else AssignGroupIds(Prompts(batch), unique(Prompts(batch)), ordinal)
  }

  /** How a generation batch becomes tagged rows, or is refused. */
  type Tagger = (seq<Sample>, nat) -> Result<seq<Row>>

  function TaggedBy(cfg: Config, unique: Unique): Tagger
    requires ListsUnique(unique)
  {
    (batch: seq<Sample>, ordinal: nat) =>
      var ids := BatchIds(cfg, unique, batch, ordinal);
      if ids.Ok? then Ok(Tag(batch, ids.value, ordinal)) else Err(ids.error)
  }

  /** What tagging leaves of a batch: its rollouts, their ordinal and, under grading,
      their group ids; it is refused exactly when there are too many prompts to tell
      apart. */
  lemma TaggingIsExact(cfg: Config, unique: Unique, batch: seq<Sample>, ordinal: nat)
    requires ListsUnique(unique)
    ensures TaggedBy(cfg, unique)(batch, ordinal).Ok? <==>
            cfg.graded.None? || |unique(Prompts(batch))| <= 4294967296
    ensures TaggedBy(cfg, unique)(batch, ordinal).Ok? ==>
              var rows := TaggedBy(cfg, unique)(batch, ordinal).value;
              && |rows| == |batch|
              && forall i :: 0 <= i < |rows| ==>
                   && rows[i].sample == batch[i] && rows[i].genBatch == ordinal
                   && (cfg.graded.Some? ==>
                         && rows[i].group / 4294967296 == ordinal
                         && rows[i].group % 4294967296 < |unique(Prompts(batch))|
                         && unique(Prompts(batch))[rows[i].group % 4294967296] == batch[i].prompt)
  {
    GroupIdsAreAssigned(Prompts(batch), unique(Prompts(batch)), ordinal);
  }

  // ----- one iteration of the training loop -----

  datatype State = State(cache: Option<seq<Row>>, calls: nat)

  datatype Outcome = Trained(rows: seq<Row>) | Continue | Raised(error: Error)

  function Cached(st: State): seq<Row> {
    if st.cache.Some? then st.cache.value else []
  }

  /** Which rows of a full pool the step trains on. */
  function Choose(cfg: Config, pow: Pow, pool: seq<Row>): (rows: seq<Row>)
    requires ValidConfig(cfg) && PowerLaws(pow) && |pool| >= cfg.TrainSize()
  {
    if cfg.graded.Some? then
      var s := SettingsFor(cfg.graded.value, pool);
      AllocationIsExact(GroupsOf(pool), Stds(pool), cfg.TrainSize(), s, pow);
      Select(pool, Allocate(GroupsOf(pool), Stds(pool), cfg.TrainSize(), s, pow))
    else pool[..cfg.TrainSize()]
  }

  /** Which rows of a full pool a step trains on. */
  type Chooser = seq<Row> -> seq<Row>

  /** A full pool yields exactly the train size of its rows. */
  ghost predicate Chooses(cfg: Config, choose: Chooser) {
    forall pool: seq<Row> :: |pool| >= cfg.numPrompts * cfg.numGenerations ==>
      |choose(pool)| == cfg.numPrompts * cfg.numGenerations && DrawnFrom(choose(pool), pool)
  }

  /** `dynamic_sampling` on a tagged batch, with the counter already advanced, and
      the reset the training loop performs after a completed step. */
  function Sampled(cfg: Config, choose: Chooser, cache: Option<seq<Row>>, calls: nat, rows: seq<Row>): (State, Outcome)
  {
    if !cfg.useDynamicSampling then (State(None, 0), Trained(rows))
    else
      var survivors := Survivors(rows);
      var cache' := if survivors == [] then cache
                    else if cache.None? then Some(survivors)
                    else Some(cache.value + survivors);
      var pool := if survivors == [] then [] else cache'.value;
      if |pool| < cfg.TrainSize() then
        if cfg.maxGenBatches <= 0 then (State(cache', calls), Raised(AssertionError))
        else if calls <= cfg.maxGenBatches then (State(cache', calls), Continue)
        else (State(cache', calls), Raised(ValueError))
      else (State(None, 0), Trained(choose(pool)))
  }

  function Step(cfg: Config, choose: Chooser, tag: Tagger, st: State, batch: seq<Sample>): (State, Outcome)
  {
    var calls := st.calls + 1;
    var rows := tag(batch, calls);
    if rows.Err? then (st.(calls := calls), Raised(rows.error))
    else Sampled(cfg, choose, st.cache, calls, rows.value)
  }

  // ----- runs -----

  /** The states and outcomes of a run; it stops at the first refusal. */
  function Run(cfg: Config, choose: Chooser, tag: Tagger, batches: seq<seq<Sample>>): (r: (State, seq<Outcome>))
    ensures |r.1| <= |batches|
  {
    if batches == [] then (State(None, 0), [])
    else
      var n := |batches| - 1;
      var (st, outs) := Run(cfg, choose, tag, batches[..n]);
      if Stopped(outs) then (st, outs)
      else
        var (st', out) := Step(cfg, choose, tag, st, batches[n]);
        (st', outs + [out])
  }

  predicate Stopped(outs: seq<Outcome>) {
    outs != [] && outs[|outs| - 1].Raised?
  }

  /** Generation batches processed since the last completed step. */
  function SinceTrained(outs: seq<Outcome>): (n: nat)
    ensures n <= |outs|
  {
    if outs == [] || outs[|outs| - 1].Trained? then 0 else 1 + SinceTrained(outs[..|outs| - 1])
  }

  /** Survivors of one generation batch, tagged with its ordinal. */
  function Contribution(tag: Tagger, batch: seq<Sample>, ordinal: nat): seq<Row> {
    var rows := tag(batch, ordinal);
    if rows.Ok? then Survivors(rows.value) else []
  }

  /** Survivors of the last `k` of the batches, oldest first, numbered from one. */
  function Pending(tag: Tagger, batches: seq<seq<Sample>>, k: nat): seq<Row>
    requires k <= |batches|
  {
    if k == 0 then []
    else Pending(tag, batches[..|batches| - 1], k - 1) + Contribution(tag, batches[|batches| - 1], k)
  }

  /** What holds of every state a run reaches without being refused. */
  ghost predicate Reachable(cfg: Config, tag: Tagger, batches: seq<seq<Sample>>, st: State, outs: seq<Outcome>)
  {
    && |outs| == |batches|
    && st.calls == SinceTrained(outs)
    && Cached(st) == Pending(tag, batches, SinceTrained(outs))
    && Underfull(cfg, st.cache)
    && (st.calls > 0 ==> cfg.useDynamicSampling && st.calls <= cfg.maxGenBatches && cfg.TrainSize() > 0)
  }

  /** Over every run, the cache is exactly the survivors of the batches since the
      last completed step, stays below the train size between calls, and no step
      takes more than `maxGenBatches` calls without completing. */
  lemma {:induction false} RunKeepsCache(cfg: Config, choose: Chooser, tag: Tagger, batches: seq<seq<Sample>>)
    ensures var (st, outs) := Run(cfg, choose, tag, batches);
            !Stopped(outs) ==> Reachable(cfg, tag, batches, st, outs)
  {
    if batches != [] {
      var n := |batches| - 1;
      RunKeepsCache(cfg, choose, tag, batches[..n]);
      var (st, outs) := Run(cfg, choose, tag, batches[..n]);
      if !Stopped(outs) {
        var (st', out) := Step(cfg, choose, tag, st, batches[n]);
        if !out.Raised? {
          StepKeepsCache(cfg, choose, tag, batches, st, outs);
        }
      }
    }
  }

  /** What a cache holds between calls. */
  predicate Underfull(cfg: Config, cache: Option<seq<Row>>) {
    cache.Some? ==> 0 < |cache.value| < cfg.TrainSize()
  }

  /** One call on a tagged batch, in terms of the pool of cached and new survivors. */
  lemma {:induction false} SampledKeepsPool(cfg: Config, choose: Chooser, st: State, calls: nat, rows: seq<Row>, st': State, out: Outcome)
    requires Underfull(cfg, st.cache)
    requires (st', out) == Sampled(cfg, choose, st.cache, calls, rows)
    ensures out.Trained? ==> st' == State(None, 0)
    ensures out.Continue? ==>
              && Cached(st') == Cached(st) + Survivors(rows) && Underfull(cfg, st'.cache)
              && st'.calls == calls <= cfg.maxGenBatches && cfg.useDynamicSampling && cfg.TrainSize() > 0
  {
    var survivors := Survivors(rows);
    if survivors == [] {
      assert Cached(st) + survivors == Cached(st);
    } else if st.cache.None? {
      assert [] + survivors == survivors;
    }
  }

  lemma {:induction false} SampledCompletes(cfg: Config, choose: Chooser, st: State, calls: nat, rows: seq<Row>,
                                            pool: seq<Row>, out: Outcome)
    requires Underfull(cfg, st.cache) && cfg.useDynamicSampling
    requires pool == Cached(st) + Survivors(rows) && calls > 0
    requires out == Sampled(cfg, choose, st.cache, calls, rows).1
    ensures out.Trained? <==> |pool| >= cfg.numPrompts * cfg.numGenerations
    ensures out.Trained? ==> out.rows == choose(pool)
    ensures out.Continue? <==> |pool| < cfg.numPrompts * cfg.numGenerations && calls <= cfg.maxGenBatches
    ensures out.Raised? ==> out.error == if cfg.maxGenBatches <= 0 then AssertionError else ValueError
  {
    var survivors := Survivors(rows);
    if survivors == [] {
      assert pool == Cached(st);
    } else {
      assert st.cache.None? ==> pool == survivors;
    }
  }

  lemma StepKeepsCache(cfg: Config, choose: Chooser, tag: Tagger, batches: seq<seq<Sample>>, st: State, outs: seq<Outcome>)
    requires batches != []
    requires Reachable(cfg, tag, batches[..|batches| - 1], st, outs)
    requires !Step(cfg, choose, tag, st, batches[|batches| - 1]).1.Raised?
    ensures var (st', out) := Step(cfg, choose, tag, st, batches[|batches| - 1]);
            Reachable(cfg, tag, batches, st', outs + [out])
  {
    var n := |batches| - 1;
    var (st', out) := Step(cfg, choose, tag, st, batches[n]);
    var rows := tag(batches[n], st.calls + 1).value;
    SampledKeepsPool(cfg, choose, st, st.calls + 1, rows, st', out);
    var now := outs + [out];
    assert now[..n] == outs;
    if out.Continue? {
      assert SinceTrained(now) == 1 + SinceTrained(outs);
      assert Pending(tag, batches, st.calls + 1) == Cached(st) + Survivors(rows);
    }
  }

  /** The pool of a step: what the reached state holds and what its batch adds. */
  lemma StepAddsToPool(cfg: Config, tag: Tagger, batches: seq<seq<Sample>>, st: State, outs: seq<Outcome>)
    requires batches != [] && Reachable(cfg, tag, batches[..|batches| - 1], st, outs)
    requires tag(batches[|batches| - 1], st.calls + 1).Ok?
    ensures Underfull(cfg, st.cache) && st.calls < |batches|
    ensures Pending(tag, batches, st.calls + 1) == Cached(st) + Survivors(tag(batches[|batches| - 1], st.calls + 1).value)
  {
  }

  /** When a step completes: exactly when the survivors since the last completed
      step reach the train size; and then it trains on what is chosen among them.
      Otherwise it goes on while calls are left, and says which limit refused it. */
  lemma StepCompletesExactly(cfg: Config, choose: Chooser, tag: Tagger, batches: seq<seq<Sample>>, st: State, outs: seq<Outcome>)
    requires batches != [] && cfg.useDynamicSampling
    requires Reachable(cfg, tag, batches[..|batches| - 1], st, outs)
    requires tag(batches[|batches| - 1], st.calls + 1).Ok?
    ensures var pool := Pending(tag, batches, st.calls + 1);
            var out := Step(cfg, choose, tag, st, batches[|batches| - 1]).1;
            && (out.Trained? <==> |pool| >= cfg.numPrompts * cfg.numGenerations)
            && (out.Trained? ==> out.rows == choose(pool))
            && (out.Continue? <==> |pool| < cfg.numPrompts * cfg.numGenerations && st.calls + 1 <= cfg.maxGenBatches)
            && (out.Raised? ==> out.error == if cfg.maxGenBatches <= 0 then AssertionError else ValueError)
  {
    var n := |batches| - 1;
    var pool := Pending(tag, batches, st.calls + 1);
    var out := Step(cfg, choose, tag, st, batches[n]).1;
    var rows := tag(batches[n], st.calls + 1).value;
    StepAddsToPool(cfg, tag, batches, st, outs);
    SampledCompletes(cfg, choose, st, st.calls + 1, rows, pool, out);
  }

  /** `rows` are distinct positions of `pool`, in order. */
  ghost predicate DrawnFrom(rows: seq<Row>, pool: seq<Row>) {
    exists kept: seq<nat> :: Draws(rows, pool, kept)
  }

  ghost predicate Draws(rows: seq<Row>, pool: seq<Row>, kept: seq<nat>) {
    && InRange(kept, |pool|)
    && (forall a, b :: 0 <= a < b < |kept| ==> kept[a] < kept[b])
    && |rows| == |kept| && (forall k :: 0 <= k < |kept| ==> rows[k] == pool[kept[k]])
  }

  lemma ChooseDraws(cfg: Config, pow: Pow, pool: seq<Row>)
    requires ValidConfig(cfg) && PowerLaws(pow) && |pool| >= cfg.TrainSize()
    ensures |Choose(cfg, pow, pool)| == cfg.TrainSize()
    ensures DrawnFrom(Choose(cfg, pow, pool), pool)
  {
    var t := cfg.TrainSize();
    if cfg.graded.Some? {
      var s := SettingsFor(cfg.graded.value, pool);
      AllocationIsExact(GroupsOf(pool), Stds(pool), t, s, pow);
      assert Draws(Choose(cfg, pow, pool), pool, Allocate(GroupsOf(pool), Stds(pool), t, s, pow));
    } else {
      assert Draws(pool[..t], pool, Iota(t));
    }
  }

  /** The chooser of a configuration: the graded allocator, or the first rows. */
  function ChosenBy(cfg: Config, pow: Pow): Chooser
    requires ValidConfig(cfg) && PowerLaws(pow)
  {
    (pool: seq<Row>) => if |pool| >= cfg.TrainSize() then Choose(cfg, pow, pool) else pool
  }

  /** With or without graded allocation, exactly the train size of rows is drawn. */
  lemma AllocatorChooses(cfg: Config, pow: Pow)
    requires ValidConfig(cfg) && PowerLaws(pow)
    ensures Chooses(cfg, ChosenBy(cfg, pow))
  {
    forall pool: seq<Row> | |pool| >= cfg.TrainSize()
      ensures |ChosenBy(cfg, pow)(pool)| == cfg.TrainSize() && DrawnFrom(ChosenBy(cfg, pow)(pool), pool)
    {
      ChooseDraws(cfg, pow, pool);
    }
  }

  // ----- which rows -----

  /** Without grading the oldest survivors are taken. */
  lemma UngradedTakesOldest(cfg: Config, pow: Pow, pool: seq<Row>)
    requires ValidConfig(cfg) && PowerLaws(pow) && cfg.graded.None? && |pool| >= cfg.numPrompts * cfg.numGenerations
    ensures ChosenBy(cfg, pow)(pool) == pool[..cfg.numPrompts * cfg.numGenerations]
  {
  }

  /** The columns of a pool the grading reads. */
  ghost predicate Columns(pool: seq<Row>, ids: seq<int>, std: seq<real>, diversity: seq<real>) {
    && |ids| == |std| == |diversity| == |pool|
    && forall i :: 0 <= i < |pool| ==>
         ids[i] == pool[i].group && std[i] == pool[i].sample.std && diversity[i] == pool[i].sample.diversity
  }

  /** With grading the rows kept are those the allocator keeps for the groups, the std
      and, where it is used, the diversity of the pool, under the configured minimum
      and exponents. */
  lemma GradedTakes(cfg: Config, pow: Pow, pool: seq<Row>, ids: seq<int>, std: seq<real>, diversity: seq<real>,
                    grading: Grading, s: Settings)
    returns (kept: seq<nat>)
    requires ValidConfig(cfg) && PowerLaws(pow) && cfg.graded == Some(grading) && |pool| >= cfg.numPrompts * cfg.numGenerations
    requires Columns(pool, ids, std, diversity)
    requires s == Settings(grading.minRolloutsPerPrompt, grading.varianceExponent,
                           if grading.useDiversity then Some(diversity) else None, grading.diversityExponent)
    ensures Problem(ids, std, s, pow) && kept == Allocate(ids, std, cfg.numPrompts * cfg.numGenerations, s, pow)
    ensures Draws(ChosenBy(cfg, pow)(pool), pool, kept)
  {
    assert ids == GroupsOf(pool) && std == Stds(pool) && diversity == Diversities(pool);
    assert s == SettingsFor(grading, pool);
    kept := Allocate(ids, std, cfg.TrainSize(), s, pow);
    AllocationIsExact(ids, std, cfg.TrainSize(), s, pow);
  }

  /** So a group of larger mean std trains on at least as many of its rows as another,
      or on all of them, when diversity has no say; and between groups of equal mean
      std so does the more diverse one. */
  lemma GradedFollowsSignal(cfg: Config, pow: Pow, pool: seq<Row>, ids: seq<int>, std: seq<real>, diversity: seq<real>,
                            grading: Grading, g: int, h: int)
    returns (kept: seq<nat>)
    requires ValidConfig(cfg) && PowerLaws(pow) && cfg.graded == Some(grading) && |pool| >= cfg.numPrompts * cfg.numGenerations
    requires Columns(pool, ids, std, diversity) && g in ids && h in ids
    ensures Draws(ChosenBy(cfg, pow)(pool), pool, kept)
    ensures (&& (!grading.useDiversity || grading.diversityExponent == 0.0) && Increasing(pow, grading.varianceExponent)
             && MeanIn(ids, std, g) > MeanIn(ids, std, h))
            ==> KeepsMore(ids, kept, g, h)
    ensures (&& grading.useDiversity && Increasing(pow, grading.diversityExponent)
             && MeanIn(ids, std, g) == MeanIn(ids, std, h) > 0.0 && MeanIn(ids, diversity, g) > MeanIn(ids, diversity, h))
            ==> KeepsMore(ids, kept, g, h)
  {
    var s := Settings(grading.minRolloutsPerPrompt, grading.varianceExponent,
                      if grading.useDiversity then Some(diversity) else None, grading.diversityExponent);
    kept := GradedTakes(cfg, pow, pool, ids, std, diversity, grading, s);
    if (!grading.useDiversity || grading.diversityExponent == 0.0) && Increasing(pow, grading.varianceExponent)
       && MeanIn(ids, std, g) > MeanIn(ids, std, h) {
      LargerStdKeepsMore(ids, std, cfg.numPrompts * cfg.numGenerations, s, pow, g, h);
    }
    if grading.useDiversity && Increasing(pow, grading.diversityExponent)
       && MeanIn(ids, std, g) == MeanIn(ids, std, h) > 0.0 && MeanIn(ids, diversity, g) > MeanIn(ids, diversity, h) {
      MoreDiverseKeepsMore(ids, std, cfg.numPrompts * cfg.numGenerations, s, pow, g, h);
    }
  }

  lemma DrawsExtend(rows: seq<Row>, pool: seq<Row>, kept: seq<nat>, row: Row)
    requires Draws(rows, pool, kept)
    ensures Draws(rows, pool + [row], kept)
    ensures Draws(rows + [row], pool + [row], kept + [|pool|])
  {
  }

  /** The gate keeps every row of non-zero std once, in order. */
  lemma {:induction false} GateKeepsOrder(rows: seq<Row>) returns (kept: seq<nat>)
    ensures Draws(Survivors(rows), rows, kept)
    ensures forall i: nat :: i < |rows| ==> (i in kept <==> rows[i].sample.std != 0.0)
  {
    kept := [];
    if rows != [] {
      var n := |rows| - 1;
      kept := GateKeepsOrder(rows[..n]);
      assert rows == rows[..n] + [rows[n]];
      DrawsExtend(Survivors(rows[..n]), rows[..n], kept, rows[n]);
      if rows[n].sample.std != 0.0 {
        kept := kept + [n];
      }
    }
  }

  // ----- whole-run consequences -----

  /** A completed step holds exactly the train size of rows, none with zero std. */
  predicate Full(cfg: Config, out: Outcome) {
    out.Trained? ==> |out.rows| == cfg.numPrompts * cfg.numGenerations && AllInformative(out.rows)
  }

  predicate AllInformative(rows: seq<Row>) {
    forall r :: r in rows ==> r.sample.std != 0.0
  }

  lemma ChosenAreFull(cfg: Config, choose: Chooser, pool: seq<Row>)
    requires Chooses(cfg, choose) && |pool| >= cfg.TrainSize() && AllInformative(pool)
    ensures Full(cfg, Trained(choose(pool)))
  {
    DrawnMembers(choose(pool), pool);
  }

  /** A completed step trains on what is chosen from a full pool of informative rows. */
  lemma StepPool(cfg: Config, choose: Chooser, tag: Tagger, batches: seq<seq<Sample>>, st: State, outs: seq<Outcome>, out: Outcome)
    returns (pool: seq<Row>)
    requires batches != [] && cfg.useDynamicSampling
    requires Reachable(cfg, tag, batches[..|batches| - 1], st, outs)
    requires out == Step(cfg, choose, tag, st, batches[|batches| - 1]).1 && out.Trained?
    ensures out.rows == choose(pool) && |pool| >= cfg.TrainSize() && AllInformative(pool)
  {
    pool := Pending(tag, batches, st.calls + 1);
    assert out.rows == choose(pool) && |pool| >= cfg.TrainSize() by {
      StepCompletesExactly(cfg, choose, tag, batches, st, outs);
    }
    assert AllInformative(pool) by {
      PendingSurvives(tag, batches, st.calls + 1);
    }
  }

  lemma StepIsFull(cfg: Config, choose: Chooser, tag: Tagger, batches: seq<seq<Sample>>, st: State, outs: seq<Outcome>, out: Outcome)
    requires Chooses(cfg, choose) && batches != [] && cfg.useDynamicSampling
    requires Reachable(cfg, tag, batches[..|batches| - 1], st, outs)
    requires out == Step(cfg, choose, tag, st, batches[|batches| - 1]).1
    ensures Full(cfg, out)
  {
    if out.Trained? {
      var pool := StepPool(cfg, choose, tag, batches, st, outs, out);
      ChosenAreFull(cfg, choose, pool);
    }
  }

  /** Every completed step of every run trained on exactly numPrompts * numGenerations
      rows, none of them with zero std. */
  lemma {:induction false} EveryTrainedStepIsFull(cfg: Config, choose: Chooser, tag: Tagger, batches: seq<seq<Sample>>)
    requires Chooses(cfg, choose) && cfg.useDynamicSampling
    ensures forall k :: 0 <= k < |Run(cfg, choose, tag, batches).1| ==> Full(cfg, Run(cfg, choose, tag, batches).1[k])
  {
    if batches != [] {
      var n := |batches| - 1;
      EveryTrainedStepIsFull(cfg, choose, tag, batches[..n]);
      RunKeepsCache(cfg, choose, tag, batches[..n]);
      var (st, outs) := Run(cfg, choose, tag, batches[..n]);
      if !Stopped(outs) {
        var out := Step(cfg, choose, tag, st, batches[n]).1;
        StepIsFull(cfg, choose, tag, batches, st, outs, out);
        assert Run(cfg, choose, tag, batches).1 == outs + [out];
      }
    }
  }

  /** In particular under the configuration's own tagging and allocation. */
  lemma {:induction false} TrainedStepsAreFull(cfg: Config, pow: Pow, unique: Unique, batches: seq<seq<Sample>>)
    requires ValidConfig(cfg) && PowerLaws(pow) && ListsUnique(unique) && cfg.useDynamicSampling
    ensures var outs := Run(cfg, ChosenBy(cfg, pow), TaggedBy(cfg, unique), batches).1;
            forall k :: 0 <= k < |outs| ==> Full(cfg, outs[k])
  {
    AllocatorChooses(cfg, pow);
    EveryTrainedStepIsFull(cfg, ChosenBy(cfg, pow), TaggedBy(cfg, unique), batches);
  }

  /** A step that trains without grading takes the oldest survivors since the last
      completed step. */
  lemma UngradedStepTakesOldest(cfg: Config, pow: Pow, tag: Tagger, batches: seq<seq<Sample>>, st: State, outs: seq<Outcome>, out: Outcome)
    requires ValidConfig(cfg) && PowerLaws(pow) && cfg.graded.None? && batches != [] && cfg.useDynamicSampling
    requires Reachable(cfg, tag, batches[..|batches| - 1], st, outs)
    requires out == Step(cfg, ChosenBy(cfg, pow), tag, st, batches[|batches| - 1]).1 && out.Trained?
    ensures |Pending(tag, batches, st.calls + 1)| >= cfg.numPrompts * cfg.numGenerations
    ensures out.rows == Pending(tag, batches, st.calls + 1)[..cfg.numPrompts * cfg.numGenerations]
  {
    StepCompletesExactly(cfg, ChosenBy(cfg, pow), tag, batches, st, outs);
    UngradedTakesOldest(cfg, pow, Pending(tag, batches, st.calls + 1));
  }

  /** Without dynamic sampling nothing is cached: every step of a run trains on the
      whole of its own batch, tagged as the first since the last step. */
  lemma {:induction false} StaticRunTrainsEveryBatch(cfg: Config, choose: Chooser, tag: Tagger, batches: seq<seq<Sample>>, k: nat)
    requires !cfg.useDynamicSampling && k < |Run(cfg, choose, tag, batches).1|
    ensures Run(cfg, choose, tag, batches).1[k]
            == match tag(batches[k], 1) case Ok(rows) => Trained(rows) case Err(e) => Raised(e)
  {
    var n := |batches| - 1;
    var (st, outs) := Run(cfg, choose, tag, batches[..n]);
    if k < |outs| {
      StaticRunTrainsEveryBatch(cfg, choose, tag, batches[..n], k);
    } else {
      RunKeepsCache(cfg, choose, tag, batches[..n]);
    }
  }

  lemma DrawnMembers(rows: seq<Row>, pool: seq<Row>)
    requires DrawnFrom(rows, pool)
    ensures forall r :: r in rows ==> r in pool
  {
    var kept :| Draws(rows, pool, kept);
  }

  lemma {:induction false} PendingSurvives(tag: Tagger, batches: seq<seq<Sample>>, k: nat)
    requires k <= |batches|
    ensures AllInformative(Pending(tag, batches, k))
  {
    if k > 0 {
      PendingSurvives(tag, batches[..|batches| - 1], k - 1);
    }
  }

  /** A step completes or is refused by call maxGenBatches + 1. */
  lemma {:induction false} StepEndsInTime(cfg: Config, choose: Chooser, tag: Tagger, batches: seq<seq<Sample>>)
    ensures SinceTrained(Run(cfg, choose, tag, batches).1) <= Max(0, cfg.maxGenBatches) + 1
  {
    if batches != [] {
      var n := |batches| - 1;
      RunKeepsCache(cfg, choose, tag, batches[..n]);
      RunKeepsCache(cfg, choose, tag, batches);
      StepEndsInTime(cfg, choose, tag, batches[..n]);
      var (st, outs) := Run(cfg, choose, tag, batches[..n]);
      var (_, now) := Run(cfg, choose, tag, batches);
      if !Stopped(outs) {
        assert now[..|outs|] == outs;
      }
    }
  }

  /** Row `r` is rollout `i` of a batch tagged with its own ordinal. */
  ghost predicate TaggedAt(unique: Unique, batch: seq<Sample>, r: Row, i: nat)
    requires ListsUnique(unique)
  {
    var ids := AssignGroupIds(Prompts(batch), unique(Prompts(batch)), r.genBatch);
    ids.Ok? && i < |batch| && r.sample == batch[i] && r.group == ids.value[i]
  }

  lemma ContributionTagged(cfg: Config, unique: Unique, batch: seq<Sample>, ordinal: nat, r: Row) returns (i: nat)
    requires ListsUnique(unique) && cfg.graded.Some? && r in Contribution(TaggedBy(cfg, unique), batch, ordinal)
    ensures r.genBatch == ordinal && TaggedAt(unique, batch, r, i)
  {
    var ids := AssignGroupIds(Prompts(batch), unique(Prompts(batch)), ordinal);
    var rows := Tag(batch, ids.value, ordinal);
    assert r in rows;
    i :| 0 <= i < |rows| && rows[i] == r;
  }

  /** A pending row knows where it came from: it survived one of the batches since
      the last completed step, under that batch's ordinal. */
  lemma {:induction false} PendingOrigin(tag: Tagger, batches: seq<seq<Sample>>, k: nat, r: Row)
    returns (at: nat, ordinal: nat, batch: seq<Sample>)
    requires k <= |batches| && r in Pending(tag, batches, k)
    ensures |batches| - k <= at < |batches| && ordinal == at + k + 1 - |batches| && batch == batches[at]
    ensures r in Contribution(tag, batch, ordinal)
  {
    var n := |batches| - 1;
    if r in Pending(tag, batches[..n], k - 1) {
      at, ordinal, batch := PendingOrigin(tag, batches[..n], k - 1, r);
    } else {
      at, ordinal, batch := n, k, batches[n];
    }
  }

  lemma PendingProvenance(cfg: Config, unique: Unique, batches: seq<seq<Sample>>, k: nat, r: Row)
    returns (at: nat, batch: seq<Sample>, i: nat)
    requires ListsUnique(unique) && cfg.graded.Some? && k <= |batches|
    requires r in Pending(TaggedBy(cfg, unique), batches, k)
    ensures at == |batches| - k + r.genBatch - 1 < |batches| && batch == batches[at]
    ensures TaggedAt(unique, batch, r, i)
  {
    var ordinal;
    at, ordinal, batch := PendingOrigin(TaggedBy(cfg, unique), batches, k, r);
    i := ContributionTagged(cfg, unique, batch, ordinal, r);
  }

  lemma {:induction false} PendingGroupsSeparate(cfg: Config, unique: Unique, batches: seq<seq<Sample>>, k: nat, a: Row, b: Row)
    requires ListsUnique(unique) && cfg.graded.Some? && k <= |batches|
    requires a in Pending(TaggedBy(cfg, unique), batches, k) && b in Pending(TaggedBy(cfg, unique), batches, k)
    ensures a.group == b.group <==> a.genBatch == b.genBatch && a.sample.prompt == b.sample.prompt
  {
    var x, left, i := PendingProvenance(cfg, unique, batches, k, a);
    var y, right, j := PendingProvenance(cfg, unique, batches, k, b);
    assert a.genBatch == b.genBatch ==> x == y;
    TaggedRowsSeparate(unique, left, a, i, right, b, j);
  }

  lemma TaggedRowsSeparate(unique: Unique, left: seq<Sample>, a: Row, i: nat, right: seq<Sample>, b: Row, j: nat)
    requires ListsUnique(unique) && TaggedAt(unique, left, a, i) && TaggedAt(unique, right, b, j)
    requires a.genBatch == b.genBatch ==> left == right
    ensures a.group == b.group <==> a.genBatch == b.genBatch && a.sample.prompt == b.sample.prompt
  {
    var pa, pb := Prompts(left), Prompts(right);
    GroupIdsSeparate(pa, unique(pa), a.genBatch, i, pb, unique(pb), b.genBatch, j);
  }

  /** In every cache a run reaches, two rows share a group id exactly when they share
      both the prompt and the generation batch. */
  lemma {:induction false} CachedGroupsSeparate(cfg: Config, pow: Pow, unique: Unique, batches: seq<seq<Sample>>, a: Row, b: Row)
    requires ValidConfig(cfg) && PowerLaws(pow) && ListsUnique(unique) && cfg.graded.Some?
    requires !Stopped(Run(cfg, ChosenBy(cfg, pow), TaggedBy(cfg, unique), batches).1)
    requires var cached := Cached(Run(cfg, ChosenBy(cfg, pow), TaggedBy(cfg, unique), batches).0); a in cached && b in cached
    ensures a.group == b.group <==> a.genBatch == b.genBatch && a.sample.prompt == b.sample.prompt
  {
    var choose, tag := ChosenBy(cfg, pow), TaggedBy(cfg, unique);
    RunKeepsCache(cfg, choose, tag, batches);
    PendingGroupsSeparate(cfg, unique, batches, SinceTrained(Run(cfg, choose, tag, batches).1), a, b);
  }

  /** The gate against the baseline: when std vanishes exactly where the plain group
      variance does, a row survives exactly when its group did not score alike. */
  lemma {:induction false} SurvivorsAreInformative(rows: seq<Row>, rewards: seq<real>, i: nat)
    requires i < |rows| == |rewards|
    requires forall k :: 0 <= k < |rows| ==>
               (rows[k].sample.std == 0.0 <==> VarianceAt(RowPrompts(rows), rewards, false, k) == 0.0)
    ensures rows[i] in Survivors(rows) <==> !AllEqual(RowPrompts(rows), rewards, i)
  {
    PlainGateIsExact(RowPrompts(rows), rewards, i);
  }

  function RowPrompts(rows: seq<Row>): (p: seq<Prompt>)
    ensures |p| == |rows|
  {
    seq(|rows|, i requires 0 <= i < |rows| => rows[i].sample.prompt)
  }

  // ----- the loop variables of the source -----

  /** The training loop's `batch_cache` and `dynamic_sampling_num_gen_batches`. */
  class Sampler {
    var batchCache: Option<seq<Row>>
    var numGenBatches: nat

    constructor ()
      ensures batchCache == None && numGenBatches == 0
    {
      batchCache, numGenBatches := None, 0;
    }

    /** One generation batch through the loop body, up to the reset after training. */
    method ProcessBatch(cfg: Config, pow: Pow, unique: Unique, batch: seq<Sample>) returns (out: Outcome)
      requires ValidConfig(cfg) && PowerLaws(pow) && ListsUnique(unique)
      modifies this
      ensures (State(batchCache, numGenBatches), out)
              == Step(cfg, ChosenBy(cfg, pow), TaggedBy(cfg, unique), State(old(batchCache), old(numGenBatches)), batch)
    {
      numGenBatches := numGenBatches + 1;
      var prompts := Prompts(batch);
      var ids: Result<seq<int>> := Ok(seq(|batch|, _ => 0));
      if cfg.graded.Some? {
        ids := AssignGroupIds(prompts, unique(prompts), numGenBatches);
      }
      if ids.Err? {
        return Raised(ids.error);
      }
      var repeated := Tag(batch, ids.value, numGenBatches);
      if !cfg.useDynamicSampling {
        batchCache, numGenBatches := None, 0;
        return Trained(repeated);
      }
      var filtered := KeepNonZeroStd(repeated);
      if |filtered| > 0 {
        batchCache := Some(if batchCache.None? then filtered else batchCache.value + filtered);
        filtered := batchCache.value;
      }
      if |filtered| < cfg.TrainSize() {
        if cfg.maxGenBatches <= 0 {
          return Raised(AssertionError);
        }
        if numGenBatches <= cfg.maxGenBatches {
          return Continue;
        }
        return Raised(ValueError);
      }
      filtered := ChooseRows(cfg, pow, filtered);
      batchCache, numGenBatches := None, 0;
      out := Trained(filtered);
    }
  }

  /** The surplus of a full pool, spent by group variance or cut off. */
  method ChooseRows(cfg: Config, pow: Pow, pool: seq<Row>) returns (rows: seq<Row>)
    requires ValidConfig(cfg) && PowerLaws(pow) && |pool| >= cfg.TrainSize()
    ensures rows == Choose(cfg, pow, pool)
  {
    if cfg.graded.Some? {
      var settings := SettingsFor(cfg.graded.value, pool);
      var kept := AllocateRolloutBudget(GroupsOf(pool), Stds(pool), cfg.TrainSize(), settings, pow);
      AllocationIsExact(GroupsOf(pool), Stds(pool), cfg.TrainSize(), settings, pow);
      rows := Select(pool, kept);
    } else {
      rows := pool[..cfg.TrainSize()];
    }
  }

  method KeepNonZeroStd(rows: seq<Row>) returns (kept: seq<Row>)
    ensures kept == Survivors(rows)
  {
    kept := [];
    for i := 0 to |rows|
      invariant kept == Survivors(rows[..i])
    {
      assert rows[..i + 1][..i] == rows[..i];
      if rows[i].sample.std != 0.0 {
        kept := kept + [rows[i]];
      }
    }
    assert rows[..|rows|] == rows;
  }
}
