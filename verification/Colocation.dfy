/** Colocated distillation: the memory preflight, and the residency of student and
    teacher through setup, validation and training. */
module Colocation {
  import opened Options
  import opened Arithmetic
  import opened Sums

  // ---- Preflight ---------------------------------------------------------

  /** Per-device bytes of every part, and the memory of the device. */
  datatype Report = Report(
    studentWeight: nat,
    studentOptimizer: nat,
    studentGrad: nat,
    studentActivation: nat,
    teacherWeight: nat,
    teacherActivation: nat,
    fixedOverhead: nat,
    free: nat)

  /** Model shapes a report is built from; sizes are whole-model. */
  datatype Shape = Shape(
    studentParams: nat,
    teacherParams: nat,
    studentWeightBytes: nat,
    teacherWeightBytes: nat,
    optimizerBytes: nat,
    gradBytes: nat,
    studentActivation: nat,
    teacherActivation: nat,
    fixedOverhead: nat,
    free: nat)

  datatype Schedule = Fast | Tight | Infeasible

  /** Any requested name other than "fast" and "tight" is `Auto`. */
  datatype Request = RequestFast | RequestTight | Auto

  function ScoringPhase(r: Report): nat {
    r.studentWeight + r.teacherWeight + r.teacherActivation + r.fixedOverhead
  }

  function TrainingPhase(r: Report): nat {
    r.studentWeight + r.studentOptimizer + r.studentGrad + r.studentActivation + r.fixedOverhead
  }

  function BothResident(r: Report): nat {
    r.studentWeight + r.studentOptimizer + r.studentGrad +
    (if r.studentActivation < r.teacherActivation then r.teacherActivation else r.studentActivation) +
    r.teacherWeight + r.fixedOverhead
  }

  function PerShard(params: nat, bytes: nat, shards: int): nat {
    params * bytes / if shards <= 0 then 1 else shards
  }

  function BuildReport(m: Shape, shards: int): Report {
    Report(
      PerShard(m.studentParams, m.studentWeightBytes, shards),
      PerShard(m.studentParams, m.optimizerBytes, shards),
      PerShard(m.studentParams, m.gradBytes, shards),
      m.studentActivation,
      PerShard(m.teacherParams, m.teacherWeightBytes, shards),
      m.teacherActivation,
      m.fixedOverhead,
      m.free)
  }

  /** Conversion of a real to an integer, toward zero. */
  function Truncate(x: real): int {
    if x >= 0.0 then x.Floor else -(-x).Floor
  }

  function Budget(r: Report, margin: real): int {
    Truncate(r.free as real * (1.0 - margin))
  }

  function Select(r: Report, request: Request, margin: real): Schedule {
    var budget := Budget(r, margin);
    var fastFits := BothResident(r) <= budget;
    var tightFits := ScoringPhase(r) <= budget && TrainingPhase(r) <= budget;
    match request
    case RequestFast => if fastFits then Fast else Infeasible
    case RequestTight => if tightFits then Tight else Infeasible
    case Auto => if fastFits then Fast else if tightFits then Tight else Infeasible
  }

  /** `n` bytes fit a limit; a margin above one leaves less than none, of which less than
      a whole byte is cut off. */
  predicate Fits(n: nat, limit: real) {
    if limit >= 0.0 then n as real <= limit else n == 0 && limit > -1.0
  }

  lemma BudgetIsFloor(n: nat, x: real)
    ensures n <= Truncate(x) <==> Fits(n, x)
  {
  }

  lemma BudgetIs(r: Report, margin: real, limit: real)
    requires limit == r.free as real * (1.0 - margin)
    ensures Budget(r, margin) == Truncate(limit)
  {
    var left := 1.0 - margin;
    assert limit == r.free as real * left;
  }

  /** What each request needs, against the free memory less the margin: the fast schedule
      everything at once, the tight one either phase alone; automatic selection gives up
      exactly when one phase alone is too large, and evicts only when it must. */
  lemma AutoInfeasibleIffPhaseOverflows(r: Report, margin: real, limit: real)
    requires limit == r.free as real * (1.0 - margin)
    ensures var weights, states := r.studentWeight + r.fixedOverhead, r.studentOptimizer + r.studentGrad;
            var scoring, training := weights + r.teacherWeight + r.teacherActivation, weights + states + r.studentActivation;
            var together := weights + r.teacherWeight + states +
              if r.studentActivation < r.teacherActivation then r.teacherActivation else r.studentActivation;
            && Select(r, RequestFast, margin) == (if Fits(together, limit) then Fast else Infeasible)
            && Select(r, RequestTight, margin) == (if Fits(scoring, limit) && Fits(training, limit) then Tight else Infeasible)
            && (Select(r, Auto, margin) == Fast <==> Fits(together, limit))
            && (Select(r, Auto, margin) == Infeasible <==> !Fits(scoring, limit) || !Fits(training, limit))
  {
    BudgetIs(r, margin, limit);
    BudgetIsFloor(BothResident(r), limit);
    BudgetIsFloor(ScoringPhase(r), limit);
    BudgetIsFloor(TrainingPhase(r), limit);
  }

  lemma LimitNonNegative(free: real, left: real, limit: real)
    requires free >= 0.0 && left >= 0.0 && limit == free * left
    ensures limit >= 0.0
  {
  }

  /** Slower schedules rank higher. */
  function Cost(s: Schedule): nat {
    match s case Fast => 0 case Tight => 1 case Infeasible => 2
  }

  lemma DivideByMore(x: nat, m: nat, n: nat)
    requires 0 < m <= n
    ensures x / n <= x / m
  {
    var q, w := x / n, x / m;
    assert q * m <= x by {
      MulOrder(m, n, q);
    }
    assert x < (w + 1) * m;
    if w + 1 <= q {
      MulOrder(w + 1, q, m);
    }
  }

  lemma PerShardShrinks(params: nat, bytes: nat, fewer: int, more: int)
    requires fewer <= more
    ensures PerShard(params, bytes, more) <= PerShard(params, bytes, fewer)
  {
    DivideByMore(params * bytes, if fewer <= 0 then 1 else fewer, if more <= 0 then 1 else more);
  }

  /** Every part of `a` is at most the same part of `b`, on the same device. */
  predicate NoLarger(a: Report, b: Report) {
    a.studentWeight <= b.studentWeight && a.studentOptimizer <= b.studentOptimizer &&
    a.studentGrad <= b.studentGrad && a.studentActivation <= b.studentActivation &&
    a.teacherWeight <= b.teacherWeight && a.teacherActivation <= b.teacherActivation &&
    a.fixedOverhead <= b.fixedOverhead && a.free == b.free
  }

  lemma MoreShardsShrink(m: Shape, fewer: int, more: int)
    requires fewer <= more
    ensures NoLarger(BuildReport(m, more), BuildReport(m, fewer))
  {
    PerShardShrinks(m.studentParams, m.studentWeightBytes, fewer, more);
    PerShardShrinks(m.studentParams, m.optimizerBytes, fewer, more);
    PerShardShrinks(m.studentParams, m.gradBytes, fewer, more);
    PerShardShrinks(m.teacherParams, m.teacherWeightBytes, fewer, more);
  }

  lemma SmallerNeverWorse(a: Report, b: Report, request: Request, margin: real)
    requires NoLarger(a, b)
    ensures Cost(Select(a, request, margin)) <= Cost(Select(b, request, margin))
  {
    assert Budget(a, margin) == Budget(b, margin);
  }

  /** `x` is the whole part of `whole` over `s`. */
  predicate IsPart(x: nat, whole: nat, s: nat) {
    x * s <= whole < x * s + s
  }

  lemma PerShardIsPart(params: nat, bytes: nat, shards: int, s: nat)
    requires s == if shards <= 0 then 1 else shards
    ensures IsPart(PerShard(params, bytes, shards), params * bytes, s)
  {
    DivModLaws(params * bytes, s);
  }

  /** Weights, optimizer state and gradients are split over the shards, each at its own
      size per parameter; activations, overhead and free memory are per device already. */
  lemma ReportSplits(m: Shape, shards: int, s: nat)
    requires s == if shards <= 0 then 1 else shards
    ensures var r := BuildReport(m, shards);
            && IsPart(r.studentWeight, m.studentParams * m.studentWeightBytes, s)
            && IsPart(r.studentOptimizer, m.studentParams * m.optimizerBytes, s)
            && IsPart(r.studentGrad, m.studentParams * m.gradBytes, s)
            && IsPart(r.teacherWeight, m.teacherParams * m.teacherWeightBytes, s)
            && r.studentActivation == m.studentActivation && r.teacherActivation == m.teacherActivation
            && r.fixedOverhead == m.fixedOverhead && r.free == m.free
  {
    PerShardIsPart(m.studentParams, m.studentWeightBytes, shards, s);
    PerShardIsPart(m.studentParams, m.optimizerBytes, shards, s);
    PerShardIsPart(m.studentParams, m.gradBytes, shards, s);
    PerShardIsPart(m.teacherParams, m.teacherWeightBytes, shards, s);
  }

  /** More shards never make any request's schedule worse. */
  lemma MoreShardsNeverWorse(m: Shape, fewer: int, more: int, request: Request, margin: real)
    requires fewer <= more
    ensures Cost(Select(BuildReport(m, more), request, margin)) <=
            Cost(Select(BuildReport(m, fewer), request, margin))
  {
    MoreShardsShrink(m, fewer, more);
    SmallerNeverWorse(BuildReport(m, more), BuildReport(m, fewer), request, margin);
  }

  // ---- Residency ---------------------------------------------------------

  /** Optimizer state exists only after a checkpoint load or a first step. */
  datatype OptimizerState = Absent | Host | Device

  datatype Residency = Residency(
    studentWeights: bool,
    optimizer: OptimizerState,
    gradients: bool,
    studentActive: bool,
    teacherWeights: bool,
    teacherActive: bool)

  /** Worker settings; `restores` says that preparing to train brings the
      optimizer back to the device. */
  datatype Settings = Settings(studentCpuOffload: bool, restores: bool, teacherCpuOffload: bool)

  function Charge(on: bool, bytes: nat): nat {
    if on then bytes else 0
  }

  function Usage(r: Report, s: Residency): nat {
    Charge(s.studentWeights, r.studentWeight) +
    Charge(s.optimizer.Device?, r.studentOptimizer) +
    Charge(s.gradients, r.studentGrad) +
    Charge(s.studentActive, r.studentActivation) +
    Charge(s.teacherWeights, r.teacherWeight) +
    Charge(s.teacherActive, r.teacherActivation) +
    r.fixedOverhead
  }

  /** Every part of the student on the device counts with its own bytes, the optimizer
      state only there. */
  lemma StudentPartsCount(r: Report, s: Residency)
    ensures Usage(r, s.(studentWeights := true)) == Usage(r, s.(studentWeights := false)) + r.studentWeight
    ensures Usage(r, s.(gradients := true)) == Usage(r, s.(gradients := false)) + r.studentGrad
    ensures Usage(r, s.(studentActive := true)) == Usage(r, s.(studentActive := false)) + r.studentActivation
  {
  }

  lemma OptimizerCounts(r: Report, s: Residency)
    ensures Usage(r, s.(optimizer := Device)) == Usage(r, s.(optimizer := Host)) + r.studentOptimizer
    ensures Usage(r, s.(optimizer := Host)) == Usage(r, s.(optimizer := Absent))
  {
  }

  /** So does the teacher, and an empty device holds the fixed overhead. */
  lemma TeacherPartsCount(r: Report, s: Residency)
    ensures Usage(r, s.(teacherWeights := true)) == Usage(r, s.(teacherWeights := false)) + r.teacherWeight
    ensures Usage(r, s.(teacherActive := true)) == Usage(r, s.(teacherActive := false)) + r.teacherActivation
    ensures Usage(r, Residency(false, Absent, false, false, false, false)) == r.fixedOverhead
  {
  }

  /** What every snapshot of a run satisfies: nobody computes without its
      weights, the two models do not compute at once, and under eviction the
      teacher shares the device with neither optimizer nor training. */
  predicate Orderly(c: Settings, schedule: Schedule, s: Residency) {
    !(s.studentActive && s.teacherActive) &&
    (s.gradients ==> s.studentActive) &&
    (s.studentActive ==> s.studentWeights || c.studentCpuOffload) &&
    (s.teacherActive ==> s.teacherWeights || c.teacherCpuOffload) &&
    (schedule == Tight && (s.teacherWeights || s.teacherActive) ==>
       s.optimizer != Device && !s.studentActive)
  }

  /** An orderly snapshot fits whenever its schedule passed the preflight. */
  lemma OrderlyFits(r: Report, request: Request, margin: real, c: Settings, s: Residency)
    requires Select(r, request, margin) != Infeasible
    requires Orderly(c, Select(r, request, margin), s)
    ensures Usage(r, s) <= Budget(r, margin)
    ensures margin <= 1.0 ==> Usage(r, s) as real <= r.free as real * (1.0 - margin)
  {
    var schedule := Select(r, request, margin);
    if schedule == Fast {
      assert Usage(r, s) <= BothResident(r);
    } else if s.teacherWeights || s.teacherActive {
      assert Usage(r, s) <= ScoringPhase(r);
    } else {
      assert Usage(r, s) <= TrainingPhase(r);
    }
    if margin <= 1.0 {
      FittingIsWithin(r, margin, [s]);
      assert [s][0] == s;
    }
  }

  predicate AllOrderly(c: Settings, schedule: Schedule, trace: seq<Residency>) {
    forall i :: 0 <= i < |trace| ==> Orderly(c, schedule, trace[i])
  }

  predicate AllFit(r: Report, budget: int, trace: seq<Residency>) {
    forall i :: 0 <= i < |trace| ==> Usage(r, trace[i]) <= budget
  }

  /** Every snapshot leaves the margin of the free memory free. */
  predicate AllWithin(r: Report, margin: real, trace: seq<Residency>) {
    forall i :: 0 <= i < |trace| ==> Usage(r, trace[i]) as real <= r.free as real * (1.0 - margin)
  }

  lemma FittingIsWithin(r: Report, margin: real, trace: seq<Residency>)
    requires AllFit(r, Budget(r, margin), trace) && margin <= 1.0
    ensures AllWithin(r, margin, trace)
  {
    var limit := r.free as real * (1.0 - margin);
    LimitNonNegative(r.free as real, 1.0 - margin, limit);
    forall i | 0 <= i < |trace|
      ensures Usage(r, trace[i]) as real <= limit
    {
      BudgetIsFloor(Usage(r, trace[i]), limit);
    }
  }

  predicate NeverTogether(trace: seq<Residency>) {
    forall i :: 0 <= i < |trace| ==> !(trace[i].teacherWeights && trace[i].optimizer == Device)
  }

  /** A whole orderly run stays within the budget, and under eviction teacher
      and optimizer are never on the device together. */
  lemma OrderlyRunIsSafe(r: Report, request: Request, margin: real, c: Settings, trace: seq<Residency>)
    requires Select(r, request, margin) != Infeasible
    requires AllOrderly(c, Select(r, request, margin), trace)
    ensures AllFit(r, Budget(r, margin), trace)
    ensures margin <= 1.0 ==> AllWithin(r, margin, trace)
    ensures Select(r, request, margin) == Tight ==> NeverTogether(trace)
  {
    forall i | 0 <= i < |trace|
      ensures Usage(r, trace[i]) <= Budget(r, margin)
    {
      OrderlyFits(r, request, margin, c, trace[i]);
    }
    if margin <= 1.0 {
      FittingIsWithin(r, margin, trace);
    }
  }

  /** Whether any number of training steps finds the optimizer beside the weights. */
  predicate Endures(c: Settings, schedule: Schedule, optimizer: OptimizerState) {
    c.studentCpuOffload || c.restores || (schedule == Fast && optimizer != Host)
  }

  /** How many training steps the run survives otherwise. */
  function StepLimit(optimizer: OptimizerState): nat {
    if optimizer == Absent then 1 else 0
  }

  datatype RunConfig = RunConfig(
    maxSteps: int,
    maxEpochs: int,
    loaderLength: int,
    valPeriod: int,
    valAtStart: bool,
    valAtEnd: bool,
    /** Batches the validation loader yields, if there is one. */
    valLoader: Option<nat>,
    valBatches: int)

  /** How far a run got, relative to how far its settings let it: every number
      of steps when they endure, `StepLimit` otherwise. */
  predicate WithinLimit(c: Settings, schedule: Schedule, first: OptimizerState, now: OptimizerState, steps: nat) {
    if Endures(c, schedule, first) then
      Endures(c, schedule, now) && (c.restores && !c.studentCpuOffload ==> now != Host)
    else
      steps <= StepLimit(first) && (now == Absent ==> first == Absent && steps == 0) &&
      (now != Absent ==> steps == StepLimit(first) && (schedule == Fast ==> now == Host))
  }

  /** Batches of the epochs from `first` up to `last`. */
  function Batches(epochBatches: nat -> nat, first: nat, last: int): nat
    decreases last
  {
    if last <= first then 0 else Batches(epochBatches, first, last - 1) + epochBatches(last - 1)
  }

  lemma {:induction false} BatchesGrow(epochBatches: nat -> nat, first: nat, e: int, last: int)
    requires e <= last
    ensures Batches(epochBatches, first, e) <= Batches(epochBatches, first, last)
    decreases last
  {
    if e < last && first < last {
      BatchesGrow(epochBatches, first, e, last - 1);
    }
  }

  /** Where a run stands: its epochs and batches, and how many steps it counts. */
  datatype Progress = Progress(epoch: nat, step: nat, total: nat)

  /** The steps left when nothing stops the run early. */
  function Planned(c: RunConfig, first: Progress, epochBatches: nat -> nat): nat {
    if first.total >= c.maxSteps then 0
    else Min(c.maxSteps - first.total, Batches(epochBatches, first.epoch, c.maxEpochs))
  }

  /** A run of `steps` steps saw no save timeout before its last. */
  predicate NoTimeout(timesOut: nat -> bool, first: Progress, steps: nat) {
    forall t: nat :: first.total < t < first.total + steps ==> !timesOut(t)
  }

  /** The run took all its steps, or stopped at the first save timeout. */
  predicate RanItsCourse(c: RunConfig, first: Progress, epochBatches: nat -> nat, timesOut: nat -> bool, steps: nat) {
    && steps <= Planned(c, first, epochBatches) && NoTimeout(timesOut, first, steps)
    && (steps < Planned(c, first, epochBatches) ==> steps > 0 && timesOut(first.total + steps))
  }

  /** Between two steps of an epoch: `batch` of its batches are done, and nothing has
      stopped the run. */
  ghost predicate Underway(c: RunConfig, first: Progress, at: Progress, epochBatches: nat -> nat, timesOut: nat -> bool,
                           batch: nat, steps: nat)
  {
    && first.epoch <= at.epoch <= c.maxEpochs && at.total == first.total + steps < c.maxSteps
    && steps == Batches(epochBatches, first.epoch, at.epoch) + batch
    && NoTimeout(timesOut, first, steps + 1)
  }

  lemma UnderwayEnds(c: RunConfig, first: Progress, at: Progress, epochBatches: nat -> nat, timesOut: nat -> bool, batch: nat, steps: nat)
    requires Underway(c, first, at, epochBatches, timesOut, batch, steps)
    requires at.epoch < c.maxEpochs && batch < epochBatches(at.epoch)
    ensures steps + 1 <= Planned(c, first, epochBatches)
    ensures at.total + 1 >= c.maxSteps || timesOut(at.total + 1) ==> RanItsCourse(c, first, epochBatches, timesOut, steps + 1)
  {
    BatchesGrow(epochBatches, first.epoch, at.epoch + 1, c.maxEpochs);
  }

  lemma UnderwayStep(c: RunConfig, first: Progress, at: Progress, epochBatches: nat -> nat, timesOut: nat -> bool, batch: nat, steps: nat)
    requires Underway(c, first, at, epochBatches, timesOut, batch, steps)
    requires !timesOut(at.total + 1) && at.total + 1 < c.maxSteps
    ensures Underway(c, first, Progress(at.epoch, at.step + 1, at.total + 1), epochBatches, timesOut, batch + 1, steps + 1)
  {
  }

  lemma UnderwayTurns(c: RunConfig, first: Progress, at: Progress, epochBatches: nat -> nat, timesOut: nat -> bool, steps: nat)
    requires Underway(c, first, at, epochBatches, timesOut, epochBatches(at.epoch), steps) && at.epoch < c.maxEpochs
    ensures Underway(c, first, Progress(at.epoch + 1, 0, at.total), epochBatches, timesOut, 0, steps)
  {
  }

  /** At the top of an epoch, or before a run that has nothing to do. */
  ghost predicate Standing(c: RunConfig, first: Progress, at: Progress, epochBatches: nat -> nat, timesOut: nat -> bool, steps: nat) {
    if first.epoch < c.maxEpochs && first.total < c.maxSteps then Underway(c, first, at, epochBatches, timesOut, 0, steps)
    else at == first && steps == 0
  }

  lemma StandingEnds(c: RunConfig, first: Progress, at: Progress, epochBatches: nat -> nat, timesOut: nat -> bool, steps: nat)
    requires Standing(c, first, at, epochBatches, timesOut, steps) && (at.epoch >= c.maxEpochs || at.total >= c.maxSteps)
    ensures RanItsCourse(c, first, epochBatches, timesOut, steps)
  {
  }

  class Mesh {
    const settings: Settings
    const report: Report
    var now: Residency
    /** Every residency the mesh has been in. */
    ghost var trace: seq<Residency>
    /** Optimizer steps taken. */
    ghost var trained: nat
    /** Batches the teacher has scored, and passes of the student beside its training. */
    ghost var scored: nat
    ghost var forwarded: nat

    /** The student has just been built, with optimizer state if a checkpoint was loaded. */
    constructor (settings: Settings, report: Report, optimizerLoaded: bool)
      ensures this.settings == settings && this.report == report && trained == scored == forwarded == 0
      ensures Idle() && !now.teacherWeights && trace == [now]
      ensures now.optimizer == if !optimizerLoaded then Absent else if settings.studentCpuOffload then Host else Device
    {
      this.settings := settings;
      this.report := report;
      var placed := if !optimizerLoaded then Absent else if settings.studentCpuOffload then Host else Device;
      now := Residency(!settings.studentCpuOffload, placed, false, false, false, false);
      trained, scored, forwarded := 0, 0, 0;
      new;
      trace := [now];
    }

    /** Between calls nothing computes, and the student keeps its weights where
        its settings put them. */
    ghost predicate Idle()
      reads this
    {
      !now.gradients && !now.studentActive && !now.teacherActive &&
      now.studentWeights == !settings.studentCpuOffload &&
      (settings.studentCpuOffload ==> now.optimizer != Device)
    }

    ghost predicate Ran(schedule: Schedule)
      reads this
    {
      Idle() && AllOrderly(settings, schedule, trace)
    }

    /** What the training loop assumes at the top of each step. */
    ghost predicate Resting(schedule: Schedule)
      reads this
    {
      Ran(schedule) &&
      (schedule == Tight ==> !now.teacherWeights) &&
      (schedule == Fast ==> now.teacherWeights || settings.teacherCpuOffload)
    }

    /** The mesh enters a new residency. */
    method Become(next: Residency)
      modifies this`now, this`trace
      ensures now == next && trace == old(trace) + [next]
    {
      now := next;
      trace := trace + [next];
    }

    method PrepareStudentForTraining()
      modifies this`now, this`trace
      ensures now == old(now).(
              studentWeights := old(now.studentWeights) || !settings.studentCpuOffload,
              optimizer := if old(now.optimizer) != Absent && !settings.studentCpuOffload && settings.restores
                           then Device else old(now.optimizer))
      ensures trace == old(trace) + [now]
    {
      var next := now;
      if !settings.studentCpuOffload {
        next := next.(studentWeights := true);
      }
      if next.optimizer != Absent && !settings.studentCpuOffload && settings.restores {
        next := next.(optimizer := Device);
      }
      Become(next);
    }

    method OffloadStudentOptimizer()
      modifies this`now, this`trace
      ensures now == old(now).(optimizer := if old(now.optimizer) == Absent then Absent else Host)
      ensures trace == old(trace) + [now]
    {
      Become(if now.optimizer == Absent then now else now.(optimizer := Host));
    }

    method PrepareTeacherForInference()
      modifies this`now, this`trace
      ensures now == old(now).(teacherWeights := old(now.teacherWeights) || !settings.teacherCpuOffload)
      ensures trace == old(trace) + [now]
    {
      Become(if settings.teacherCpuOffload then now else now.(teacherWeights := true));
    }

    method OffloadTeacher()
      modifies this`now, this`trace
      ensures now == old(now).(teacherWeights := false)
      ensures trace == old(trace) + [now]
    {
      Become(now.(teacherWeights := false));
    }

    method EnterScoringPhase(schedule: Schedule)
      requires Resting(schedule) && schedule != Infeasible
      modifies this`now, this`trace
      ensures Ran(schedule)
      ensures now.teacherWeights || settings.teacherCpuOffload
      ensures schedule == Tight ==> now.optimizer == if old(now.optimizer) == Absent then Absent else Host
      ensures schedule == Fast ==> now == old(now)
    {
      if schedule == Tight {
        OffloadStudentOptimizer();
        PrepareTeacherForInference();
      }
    }

    method EnterTrainingPhase(schedule: Schedule)
      requires Ran(schedule) && schedule != Infeasible
      requires schedule == Tight ==> now.optimizer != Device
      requires schedule == Fast ==> now.teacherWeights || settings.teacherCpuOffload
      modifies this`now, this`trace
      ensures Resting(schedule)
      ensures schedule == Tight ==>
                now.optimizer == if old(now.optimizer) != Absent && !settings.studentCpuOffload && settings.restores
                                 then Device else old(now.optimizer)
      ensures schedule == Fast ==> now == old(now)
    {
      if schedule == Tight {
        OffloadTeacher();
        PrepareStudentForTraining();
      }
    }

    method SetRestingState(schedule: Schedule)
      requires Ran(schedule) && schedule != Infeasible
      modifies this`now, this`trace
      ensures Resting(schedule) && now.optimizer == old(now.optimizer)
    {
      if schedule == Tight {
        OffloadTeacher();
      } else if schedule == Fast {
        PrepareTeacherForInference();
      }
    }

    /** The teacher's forward pass. */
    method Score(schedule: Schedule)
      requires Ran(schedule)
      requires now.teacherWeights || settings.teacherCpuOffload
      requires schedule == Tight ==> now.optimizer != Device
      modifies this`now, this`trace, this`scored
      ensures Ran(schedule) && now == old(now) && scored == old(scored) + 1
      ensures trace == old(trace) + [now.(teacherActive := true), now]
    {
      Become(now.(teacherActive := true));
      scored := scored + 1;
      Become(now.(teacherActive := false));
    }

    /** A student forward pass: a rollout, or an evaluation batch. */
    method Forward(schedule: Schedule)
      requires Resting(schedule)
      modifies this`now, this`trace, this`forwarded
      ensures Resting(schedule) && now == old(now) && forwarded == old(forwarded) + 1
      ensures trace == old(trace) + [now.(studentActive := true), now]
    {
      Become(now.(studentActive := true));
      forwarded := forwarded + 1;
      Become(now.(studentActive := false));
    }

    /** One optimizer step. State that does not exist yet is created beside the
        weights; state on the other device is refused. */
    method StudentTrain(schedule: Schedule) returns (r: Result<()>)
      requires Resting(schedule)
      modifies this
      ensures AllOrderly(settings, schedule, trace)
      ensures r == if old(now.optimizer) == Host && !settings.studentCpuOffload then Err(RuntimeError) else Ok(())
      ensures r.Ok? ==> Resting(schedule) && trained == old(trained) + 1
      ensures r.Ok? ==> now == old(now).(optimizer := if settings.studentCpuOffload then Host else Device)
      ensures r.Ok? ==> trace == old(trace) + [old(now).(studentActive := true, gradients := true),
                                               now.(studentActive := true, gradients := true), now]
      ensures r.Err? ==> trained == old(trained)
      ensures scored == old(scored) && forwarded == old(forwarded)
    {
      Become(now.(studentActive := true, gradients := true));
      if now.optimizer == Host && !settings.studentCpuOffload {
        return Err(RuntimeError);
      }
      var beside := if settings.studentCpuOffload then Host else Device;
      Become(now.(optimizer := beside));
      trained := trained + 1;
      Become(now.(studentActive := false, gradients := false));
      return Ok(());
    }

    /** Setup from the built student on: the optimizer makes room, the teacher
        loads, and the preflight picks the schedule or refuses. */
    method Setup(request: Request, margin: real) returns (r: Result<Schedule>)
      requires Idle() && !now.teacherWeights && trace == [now]
      modifies this`now, this`trace
      ensures r == (if Select(report, request, margin) == Infeasible then Err(RuntimeError)
                    else Ok(Select(report, request, margin)))
      ensures r.Ok? ==> Resting(r.value)
      ensures r.Ok? ==> AllFit(report, Budget(report, margin), trace) && (margin <= 1.0 ==> AllWithin(report, margin, trace))
      ensures r.Ok? ==> now.optimizer == if old(now.optimizer) == Absent then Absent else Host
    {
      OffloadStudentOptimizer();
      Become(now.(teacherWeights := !settings.teacherCpuOffload));
      var schedule := Select(report, request, margin);
      if schedule == Infeasible {
        return Err(RuntimeError);
      }
      SetRestingState(schedule);
      OrderlyRunIsSafe(report, request, margin, settings, trace);
      return Ok(schedule);
    }

    /** Validation, batch by batch. */
    method Validate(schedule: Schedule, c: RunConfig) returns (r: Result<()>)
      requires Resting(schedule) && schedule != Infeasible
      modifies this`now, this`trace, this`scored, this`forwarded
      ensures Resting(schedule)
      ensures r == if c.valLoader.None? && c.valPeriod > 0 then Err(AssertionError) else Ok(())
      ensures forwarded - old(forwarded) == scored - old(scored)
      ensures scored - old(scored) == if c.valLoader.None? then 0
                                      else if c.valBatches > 0 then Min(c.valLoader.value, c.valBatches) else c.valLoader.value
      ensures old(now.optimizer) == Absent ==> now.optimizer == Absent
      ensures old(now.optimizer) != Absent ==> now.optimizer != Absent
      ensures !settings.restores && schedule == Fast ==> now.optimizer == old(now.optimizer)
      ensures settings.restores && !settings.studentCpuOffload && old(now.optimizer) != Host ==>
                now.optimizer != Host
    {
      if c.valLoader.None? {
        if c.valPeriod > 0 {
          return Err(AssertionError);
        }
        return Ok(());
      }
      PrepareStudentForTraining();
      var i := 0;
      while i < c.valLoader.value
        invariant Resting(schedule)
        invariant forwarded == old(forwarded) + i && scored == old(scored) + i
        invariant i <= c.valLoader.value && (c.valBatches > 0 ==> i < c.valBatches)
        invariant now.optimizer == Absent <==> old(now.optimizer) == Absent
        invariant !settings.restores && schedule == Fast ==> now.optimizer == old(now.optimizer)
      {
        EnterScoringPhase(schedule);
        Score(schedule);
        EnterTrainingPhase(schedule);
        Forward(schedule);
        if c.valBatches > 0 && i >= c.valBatches - 1 {
          break;
        }
        i := i + 1;
      }
      PrepareStudentForTraining();
      return Ok(());
    }

    /** One step of the training loop up to its optimizer step. */
    method TrainStep(schedule: Schedule) returns (r: Result<()>)
      requires Resting(schedule) && schedule != Infeasible
      requires settings.restores && !settings.studentCpuOffload ==> now.optimizer != Host
      modifies this
      ensures AllOrderly(settings, schedule, trace)
      ensures r.Err? ==> r == Err(RuntimeError)
      ensures r.Ok? <==> Endures(settings, schedule, old(now.optimizer)) || old(now.optimizer) == Absent
      ensures r.Ok? ==> Resting(schedule) && trained == old(trained) + 1
      ensures r.Ok? ==> now.optimizer == if settings.studentCpuOffload then Host else Device
      ensures r.Err? ==> trained == old(trained)
      ensures scored == old(scored) + 1 && forwarded == old(forwarded) + 1
    {
      Forward(schedule);
      EnterScoringPhase(schedule);
      Score(schedule);
      EnterTrainingPhase(schedule);
      r := StudentTrain(schedule);
    }

    /** The whole training run. The loop may start from a saved state; epoch
        `e` yields `epochBatches(e)` batches and `timesOut` is the save clock. */
    method DistillationTrain(
      schedule: Schedule, c: RunConfig, first: Progress, epochBatches: nat -> nat, timesOut: nat -> bool,
      request: Request, margin: real)
      returns (r: Result<()>)
      requires schedule == Select(report, request, margin) && schedule != Infeasible
      requires Resting(schedule)
      modifies this
      ensures AllFit(report, Budget(report, margin), trace) && (margin <= 1.0 ==> AllWithin(report, margin, trace))
      ensures schedule == Tight ==> NeverTogether(trace)
      ensures MayEnd(r, schedule, c, old(now.optimizer), old(trained))
      ensures r.Err? ==> trained - old(trained) <= Planned(c, first, epochBatches)
      ensures r.Ok? ==> RanItsCourse(c, first, epochBatches, timesOut, trained - old(trained))
    {
      r := TrainLoop(schedule, c, first, epochBatches, timesOut);
      OrderlyRunIsSafe(report, request, margin, settings, trace);
    }

    /** What every step of a run starts from. */
    ghost predicate Ready(schedule: Schedule, optimizer: OptimizerState, start: nat)
      reads this
    {
      && Resting(schedule) && trained >= start
      && WithinLimit(settings, schedule, optimizer, now.optimizer, trained - start)
    }

    /** How a run may end: with the optimizer state on the wrong device, exactly as late as
        the settings allow, or without a validation loader that validation asks for. */
    ghost predicate MayEnd(r: Result<()>, schedule: Schedule, c: RunConfig, optimizer: OptimizerState, start: nat)
      reads this
    {
      && AllOrderly(settings, schedule, trace) && trained >= start
      && (r == Err(RuntimeError) ==> !Endures(settings, schedule, optimizer) && trained == start + StepLimit(optimizer))
      && (r != Err(RuntimeError) ==> Endures(settings, schedule, optimizer) || trained <= start + StepLimit(optimizer))
      && (r.Err? ==> r == Err(RuntimeError) || (r == Err(AssertionError) && c.valLoader.None? && c.valPeriod > 0))
    }

    lemma ReadyMayEnd(schedule: Schedule, c: RunConfig, optimizer: OptimizerState, start: nat)
      requires Ready(schedule, optimizer, start)
      ensures MayEnd(Ok(()), schedule, c, optimizer, start)
    {
    }

    /** One step, and the validation that may follow it. */
    method StepAndValidate(schedule: Schedule, c: RunConfig, at: Progress, ghost optimizer: OptimizerState, ghost start: nat)
      returns (r: Result<()>)
      requires schedule != Infeasible && Ready(schedule, optimizer, start)
      modifies this
      ensures MayEnd(r, schedule, c, optimizer, start)
      ensures old(trained) <= trained <= old(trained) + 1
      ensures r.Ok? ==> Ready(schedule, optimizer, start) && trained == old(trained) + 1
    {
      r := TrainStep(schedule);
      if r.Err? {
        return;
      }
      var isLast := at.total + 1 >= c.maxSteps || (at.epoch + 1 == c.maxEpochs && at.step + 1 == c.loaderLength);
      if (c.valPeriod > 0 && (at.total + 1) % c.valPeriod == 0) || (c.valAtEnd && isLast) {
        r := Validate(schedule, c);
      }
    }

    /** One batch of an epoch; `stopped` says that the run is over. */
    method TrainBatch(schedule: Schedule, c: RunConfig, at0: Progress, epochBatches: nat -> nat, timesOut: nat -> bool, batch: nat,
                      ghost first: Progress, ghost optimizer: OptimizerState, ghost start: nat)
      returns (r: Result<()>, stopped: bool, at: Progress)
      requires schedule != Infeasible && Ready(schedule, optimizer, start)
      requires at0.epoch < c.maxEpochs && batch < epochBatches(at0.epoch)
      requires Underway(c, first, at0, epochBatches, timesOut, batch, trained - start)
      modifies this
      ensures MayEnd(r, schedule, c, optimizer, start)
      ensures r.Err? ==> trained - start <= Planned(c, first, epochBatches)
      ensures r.Ok? && stopped ==> RanItsCourse(c, first, epochBatches, timesOut, trained - start)
      ensures r.Ok? && !stopped ==> at.epoch == at0.epoch && Ready(schedule, optimizer, start)
      ensures r.Ok? && !stopped ==> Underway(c, first, at, epochBatches, timesOut, batch + 1, trained - start)
    {
      UnderwayEnds(c, first, at0, epochBatches, timesOut, batch, trained - start);
      r := StepAndValidate(schedule, c, at0, optimizer, start);
      at := Progress(at0.epoch, at0.step + 1, at0.total + 1);
      stopped := timesOut(at.total) || at.total >= c.maxSteps;
      if r.Ok? && !stopped {
        UnderwayStep(c, first, at0, epochBatches, timesOut, batch, trained - start - 1);
      }
    }

    /** One epoch. */
    method TrainEpoch(schedule: Schedule, c: RunConfig, at0: Progress, epochBatches: nat -> nat, timesOut: nat -> bool,
                      ghost first: Progress, ghost optimizer: OptimizerState, ghost start: nat)
      returns (r: Result<()>, stopped: bool, at: Progress)
      requires schedule != Infeasible && Ready(schedule, optimizer, start) && at0.epoch < c.maxEpochs
      requires Underway(c, first, at0, epochBatches, timesOut, 0, trained - start)
      modifies this
      ensures MayEnd(r, schedule, c, optimizer, start)
      ensures r.Err? ==> trained - start <= Planned(c, first, epochBatches)
      ensures r.Ok? && stopped ==> RanItsCourse(c, first, epochBatches, timesOut, trained - start)
      ensures r.Ok? && !stopped ==> at.epoch == at0.epoch + 1 && Ready(schedule, optimizer, start)
      ensures r.Ok? && !stopped ==> Underway(c, first, at, epochBatches, timesOut, 0, trained - start)
    {
      at, stopped, r := at0, false, Ok(());
      for batch := 0 to epochBatches(at.epoch)
        invariant at.epoch == at0.epoch && Ready(schedule, optimizer, start)
        invariant Underway(c, first, at, epochBatches, timesOut, batch, trained - start)
      {
        r, stopped, at := TrainBatch(schedule, c, at, epochBatches, timesOut, batch, first, optimizer, start);
        if r.Err? || stopped {
          return;
        }
      }
      UnderwayTurns(c, first, at, epochBatches, timesOut, trained - start);
      ReadyMayEnd(schedule, c, optimizer, start);
      at := Progress(at.epoch + 1, 0, at.total);
      return Ok(()), false, at;
    }

    /** Validation before the first step, if asked for. */
    method BeginTraining(schedule: Schedule, c: RunConfig, first: Progress) returns (r: Result<()>)
      requires schedule != Infeasible && Resting(schedule)
      modifies this`now, this`trace, this`scored, this`forwarded
      ensures MayEnd(r, schedule, c, old(now.optimizer), old(trained))
      ensures r.Ok? ==> Ready(schedule, old(now.optimizer), old(trained))
      ensures r.Err? ==> r == Err(AssertionError)
    {
      if c.valAtStart && first.total == 0 {
        r := Validate(schedule, c);
        if r.Err? {
          return;
        }
      }
      PrepareStudentForTraining();
      return Ok(());
    }

    method TrainLoop(schedule: Schedule, c: RunConfig, first: Progress, epochBatches: nat -> nat, timesOut: nat -> bool)
      returns (r: Result<()>)
      requires schedule != Infeasible && Resting(schedule)
      modifies this
      ensures MayEnd(r, schedule, c, old(now.optimizer), old(trained))
      ensures r.Err? ==> trained - old(trained) <= Planned(c, first, epochBatches)
      ensures r.Ok? ==> RanItsCourse(c, first, epochBatches, timesOut, trained - old(trained))
    {
      ghost var optimizer, start := now.optimizer, trained;
      r := BeginTraining(schedule, c, first);
      if r.Err? {
        return;
      }
      var at := first;
      while at.epoch < c.maxEpochs && at.total < c.maxSteps
        invariant Ready(schedule, optimizer, start)
        invariant Standing(c, first, at, epochBatches, timesOut, trained - start)
        decreases c.maxEpochs - at.epoch
      {
        var stopped;
        r, stopped, at := TrainEpoch(schedule, c, at, epochBatches, timesOut, first, optimizer, start);
        if r.Err? || stopped {
          return;
        }
      }
      StandingEnds(c, first, at, epochBatches, timesOut, trained - start);
      return Ok(());
    }
  }

  /** A run that passes the preflight and still loses its optimizer: eviction
      moves the state of the first step to the host and nothing brings it back. */
  method EvictionWithoutRestore() returns (setup: Result<Schedule>, first: Result<()>, second: Result<()>)
    ensures setup == Ok(Tight) && first.Ok? && second == Err(RuntimeError)
  {
    var report := Report(1, 3, 1, 0, 4, 0, 0, 8);
    var mesh := new Mesh(Settings(false, false, false), report, false);
    assert Budget(report, 0.0) == 8;
    assert BothResident(report) == 9 && ScoringPhase(report) == 5 && TrainingPhase(report) == 5;
    setup := mesh.Setup(Auto, 0.0);
    first := mesh.TrainStep(Tight);
    second := mesh.TrainStep(Tight);
  }
}
