/** Difficulty-gated effort reward: `R = r - c * lambda_eff * k`, where the
    effective coefficient grows with the group's pass rate. */
module EffortReward {
  import opened Options
  import opened Power
  import opened Totals
  import opened GroupBaseline
  import opened Messages
  import opened FlatMessages

  // ----- configuration -----

  datatype Config = Config(
    enabled: bool,
    coefficient: Option<real>,
    maxResponseTokens: Option<int>,
    difficultyExponent: Option<real>,
    difficultyFloor: Option<real>)
  {
    function Coefficient(): real { if coefficient.Some? then coefficient.value else 0.0 }
    function MaxTokens(): int { if maxResponseTokens.Some? then maxResponseTokens.value else 0 }
    function Exponent(): real { if difficultyExponent.Some? then difficultyExponent.value else 1.0 }
    function Floor(): real { if difficultyFloor.Some? then difficultyFloor.value else 0.0 }
  }

  predicate Enabled(cfg: Option<Config>) {
    cfg.Some? && cfg.value.enabled
  }

  /** `validate_effort_reward_config`. */
  function Validate(cfg: Option<Config>, estimator: string, trainer: string): (r: Result<bool>) {
    if !Enabled(cfg) then Ok(false)
    else if !(0.0 <= cfg.value.Coefficient() < 1.0) then Err(ValueError)
    else if cfg.value.MaxTokens() <= 0 then Err(ValueError)
    else if cfg.value.Exponent() < 0.0 then Err(ValueError)
    else if !(0.0 <= cfg.value.Floor() <= 1.0) then Err(ValueError)
    else if estimator != "grpo" then Err(ValueError)
    else if trainer != "sync" then Err(ValueError)
    else Ok(true)
  }

  // ----- the reward -----

  function ClampTo(x: real, low: real, high: real): real {
    var raised := if x < low then low else x;
    if raised > high then high else raised
  }

  /** `response_token_counts` for one sample: every assistant turn. */
  function ResponseTokens(log: Log): nat {
    if log == [] then 0
    else ResponseTokens(log[..|log| - 1]) +
         (if log[|log| - 1].role == ASSISTANT then TokenCount(log[|log| - 1]) else 0)
  }

  /** `normalize_effort_cost`. */
  function EffortCost(tokens: nat, maxTokens: int): (cost: real)
    requires maxTokens > 0
    ensures 0.0 <= cost <= 1.0
  {
    ClampTo(tokens as real / maxTokens as real, 0.0, 1.0)
  }

  /** `group_pass_rate`: the plain group mean of correctness. */
  function PassRate(prompts: seq<Prompt>, correctness: seq<real>, i: nat): real
    requires Batch(prompts, correctness) && i < |prompts|
  {
    BaselineAt(prompts, correctness, false, i)
  }

  /** `effective_coefficient`. */
  function EffectiveCoefficient(passRate: real, cfg: Config, pow: Pow): real {
    cfg.Coefficient() * pow(ClampTo(passRate, cfg.Floor(), 1.0), cfg.Exponent())
  }

  function ShapedReward(r: real, c: real, lambda: real, cost: real): real {
    r - c * lambda * cost
  }

  ghost predicate Inputs(prompts: seq<Prompt>, rewards: seq<real>, correctness: seq<real>, logs: seq<Log>) {
    |prompts| == |rewards| == |correctness| == |logs|
  }

  function CostAt(logs: seq<Log>, cfg: Config, i: nat): real
    requires i < |logs| && cfg.MaxTokens() > 0
  {
    EffortCost(ResponseTokens(logs[i]), cfg.MaxTokens())
  }

  function LambdaAt(prompts: seq<Prompt>, correctness: seq<real>, cfg: Config, pow: Pow, i: nat): real
    requires Batch(prompts, correctness) && i < |prompts|
  {
    EffectiveCoefficient(PassRate(prompts, correctness, i), cfg, pow)
  }

  /** The reward column after the effort term. */
  function Shaped(prompts: seq<Prompt>, rewards: seq<real>, correctness: seq<real>, logs: seq<Log>, cfg: Config, pow: Pow): (s: seq<real>)
    requires Inputs(prompts, rewards, correctness, logs) && cfg.MaxTokens() > 0
    ensures |s| == |rewards|
  {
    seq(|rewards|, i requires 0 <= i < |rewards| =>
      ShapedReward(rewards[i], correctness[i], LambdaAt(prompts, correctness, cfg, pow, i), CostAt(logs, cfg, i)))
  }

  // ----- theorems -----

  /** Under a validated config the effective coefficient is a discount below one. */
  lemma CoefficientBelowOne(passRate: real, cfg: Config, pow: Pow, estimator: string, trainer: string)
    requires cfg.enabled && Validate(Some(cfg), estimator, trainer).Ok? && PowerLaws(pow)
    ensures 0.0 <= EffectiveCoefficient(passRate, cfg, pow) < 1.0
  {
    var gated := ClampTo(passRate, cfg.Floor(), 1.0);
    PowAtMostOne(pow, gated, cfg.Exponent());
    ProductBelow(cfg.Coefficient(), pow(gated, cfg.Exponent()));
  }

  /** What validation accepts: a term that is off, or one under the supported estimator
      and trainer whose settings keep every product below one. */
  lemma AcceptedIff(cfg: Config, estimator: string, trainer: string)
    ensures Validate(Some(cfg), estimator, trainer).Ok? <==>
            || !cfg.enabled
            || (&& (cfg.coefficient.Some? ==> 0.0 <= cfg.coefficient.value < 1.0)
                && cfg.maxResponseTokens.Some? && cfg.maxResponseTokens.value > 0
                && (cfg.difficultyExponent.Some? ==> cfg.difficultyExponent.value >= 0.0)
                && (cfg.difficultyFloor.Some? ==> 0.0 <= cfg.difficultyFloor.value <= 1.0)
                && estimator == "grpo" && trainer == "sync")
  {
  }

  /** The gate opens with the pass rate: the easier the prompt, the larger the
      coefficient, up to the configured one at a pass rate of one, and no smaller below
      the floor than at it. */
  lemma CoefficientGrows(low: real, high: real, cfg: Config, pow: Pow)
    requires cfg.enabled && Validate(Some(cfg), "grpo", "sync").Ok? && PowerLaws(pow) && low <= high
    ensures EffectiveCoefficient(low, cfg, pow) <= EffectiveCoefficient(high, cfg, pow)
    ensures high >= 1.0 ==> EffectiveCoefficient(high, cfg, pow) == cfg.Coefficient()
    ensures high <= cfg.Floor() ==> EffectiveCoefficient(low, cfg, pow) == EffectiveCoefficient(high, cfg, pow)
  {
    var x, y := ClampTo(low, cfg.Floor(), 1.0), ClampTo(high, cfg.Floor(), 1.0);
    PowGrows(pow, x, y, cfg.Exponent());
    Discounted(cfg.Coefficient(), pow(x, cfg.Exponent()), pow(y, cfg.Exponent()));
  }

  lemma Discounted(c: real, x: real, y: real)
    requires 0.0 <= c && x <= y
    ensures c * x <= c * y
    ensures y == 1.0 ==> c * y == c
  {
    ScaleOrder(c, x, y);
  }

  /** With the default exponent the coefficient is proportional to the pass rate, cut off
      at the floor; with exponent zero it ignores the pass rate. */
  lemma CoefficientByExponent(passRate: real, cfg: Config, pow: Pow, coefficient: real, floor: real)
    requires PowerLaws(pow) && (cfg.coefficient == Some(coefficient) || (cfg.coefficient == None && coefficient == 0.0))
    requires 0.0 <= floor <= 1.0 && (cfg.difficultyFloor == Some(floor) || (cfg.difficultyFloor == None && floor == 0.0))
    ensures (cfg.difficultyExponent == None || cfg.difficultyExponent == Some(1.0)) && floor <= passRate <= 1.0 ==>
              EffectiveCoefficient(passRate, cfg, pow) == coefficient * passRate
    ensures (cfg.difficultyExponent == None || cfg.difficultyExponent == Some(1.0)) && passRate <= floor ==>
              EffectiveCoefficient(passRate, cfg, pow) == coefficient * floor
    ensures cfg.difficultyExponent == Some(0.0) ==> EffectiveCoefficient(passRate, cfg, pow) == coefficient
  {
  }

  lemma ProductBelow(a: real, b: real)
    requires 0.0 <= a < 1.0 && 0.0 <= b <= 1.0
    ensures 0.0 <= a * b <= a
  {
  }

  /** A success stays above zero, a failure keeps exactly its reward. */
  lemma ShapedSign(c: real, lambda: real, cost: real)
    requires 0.0 <= lambda < 1.0 && 0.0 <= cost <= 1.0
    ensures c > 0.0 ==> ShapedReward(c, c, lambda, cost) > 0.0
    ensures c == 0.0 ==> forall r :: ShapedReward(r, c, lambda, cost) == r
  {
    ProductBelow(lambda, cost);
    var d := 1.0 - lambda * cost;
    var shaped := ShapedReward(c, c, lambda, cost);
    assert c * lambda * cost == c * (lambda * cost);
    assert shaped == c * d;
    PositiveTimes(c, d, shaped);
  }

  lemma PositiveTimes(x: real, y: real, product: real)
    requires product == x * y && y > 0.0
    ensures x > 0.0 ==> product > 0.0
  {
  }

  /** Success outranks failure: for every accepted config, any token counts and any
      correctness in [0, 1], a rollout with positive correctness has a strictly
      larger group advantage than any failed rollout of its prompt, under both
      baselines, when nothing upstream changed the reward. */
  lemma SuccessOutranksFailure(prompts: seq<Prompt>, correctness: seq<real>, logs: seq<Log>, cfg: Config, pow: Pow,
                               estimator: string, trainer: string, loo: bool, i: nat, j: nat)
    requires Inputs(prompts, correctness, correctness, logs) && PowerLaws(pow)
    requires cfg.enabled && Validate(Some(cfg), estimator, trainer).Ok?
    requires i < |prompts| && j < |prompts| && prompts[i] == prompts[j]
    requires correctness[i] > 0.0 && correctness[j] == 0.0
    ensures var shaped := Shaped(prompts, correctness, correctness, logs, cfg, pow);
            AdvantageAt(prompts, shaped, loo, i) > AdvantageAt(prompts, shaped, loo, j)
  {
    var shaped := Shaped(prompts, correctness, correctness, logs, cfg, pow);
    CoefficientBelowOne(PassRate(prompts, correctness, i), cfg, pow, estimator, trainer);
    CoefficientBelowOne(PassRate(prompts, correctness, j), cfg, pow, estimator, trainer);
    ShapedSign(correctness[i], LambdaAt(prompts, correctness, cfg, pow, i), CostAt(logs, cfg, i));
    ShapedSign(correctness[j], LambdaAt(prompts, correctness, cfg, pow, j), CostAt(logs, cfg, j));
    assert shaped[i] > 0.0 && shaped[j] == 0.0;
    AdvantageFollowsReward(prompts, shaped, loo, i, j);
  }

  /** Whatever an upstream stage added to the correctness survives the term unchanged. */
  lemma UpstreamDeltaPreserved(prompts: seq<Prompt>, rewards: seq<real>, correctness: seq<real>, logs: seq<Log>,
                               cfg: Config, pow: Pow, i: nat)
    requires Inputs(prompts, rewards, correctness, logs) && cfg.MaxTokens() > 0 && i < |prompts|
    ensures Shaped(prompts, rewards, correctness, logs, cfg, pow)[i]
            - Shaped(prompts, correctness, correctness, logs, cfg, pow)[i] == rewards[i] - correctness[i]
  {
  }

  /** Among equally correct rollouts of one prompt, the longer never ranks higher. */
  lemma CostOnlyRanksWithinSuccesses(prompts: seq<Prompt>, correctness: seq<real>, logs: seq<Log>, cfg: Config, pow: Pow,
                                     estimator: string, trainer: string, i: nat, j: nat)
    requires Inputs(prompts, correctness, correctness, logs) && PowerLaws(pow)
    requires cfg.enabled && Validate(Some(cfg), estimator, trainer).Ok?
    requires i < |prompts| && j < |prompts| && prompts[i] == prompts[j]
    requires correctness[i] == correctness[j] >= 0.0
    requires ResponseTokens(logs[i]) <= ResponseTokens(logs[j])
    ensures var shaped := Shaped(prompts, correctness, correctness, logs, cfg, pow);
            shaped[i] >= shaped[j]
  {
    var lambda := LambdaAt(prompts, correctness, cfg, pow, i);
    SamePassRate(prompts, correctness, i, j);
    CoefficientBelowOne(PassRate(prompts, correctness, i), cfg, pow, estimator, trainer);
    CostOrder(ResponseTokens(logs[i]) as real, ResponseTokens(logs[j]) as real, cfg.MaxTokens() as real);
    ShapedOrder(correctness[i], lambda, CostAt(logs, cfg, i), CostAt(logs, cfg, j));
  }

  lemma ShapedOrder(c: real, lambda: real, low: real, high: real)
    requires c >= 0.0 && lambda >= 0.0 && low <= high
    ensures ShapedReward(c, c, lambda, low) >= ShapedReward(c, c, lambda, high)
  {
    assert c * lambda >= 0.0;
    ScaleOrder(c * lambda, low, high);
  }

  lemma SamePassRate(prompts: seq<Prompt>, correctness: seq<real>, i: nat, j: nat)
    requires Batch(prompts, correctness) && i < |prompts| && j < |prompts| && prompts[i] == prompts[j]
    requires correctness[i] == correctness[j]
    ensures PassRate(prompts, correctness, i) == PassRate(prompts, correctness, j)
  {
  }

  lemma CostOrder(x: real, y: real, t: real)
    requires x <= y && t > 0.0
    ensures ClampTo(x / t, 0.0, 1.0) <= ClampTo(y / t, 0.0, 1.0)
  {
    assert (y - x) / t >= 0.0;
    assert y / t - x / t == (y - x) / t;
  }

  lemma ScaleOrder(a: real, x: real, y: real)
    requires a >= 0.0 && x <= y
    ensures a * x <= a * y
  {
  }

  /** The bound is tight: at any coefficient of one or more, which validation
      refuses, a full-length success under a floor of one does not beat a failure. */
  lemma {:induction false} CoefficientBoundIsTight(lambda: real, maxTokens: int, log: Log, pow: Pow)
    requires lambda >= 1.0 && maxTokens > 0 && ResponseTokens(log) >= maxTokens && PowerLaws(pow)
    ensures var cfg := Config(true, Some(lambda), Some(maxTokens), None, Some(1.0));
            var prompts: seq<Prompt> := [[7], [7]];
            && Validate(Some(cfg), "grpo", "sync").Err?
            && (forall loo :: AdvantageAt(prompts, Shaped(prompts, [1.0, 0.0], [1.0, 0.0], [log, []], cfg, pow), loo, 0)
                              <= AdvantageAt(prompts, Shaped(prompts, [1.0, 0.0], [1.0, 0.0], [log, []], cfg, pow), loo, 1))
  {
    var cfg := Config(true, Some(lambda), Some(maxTokens), None, Some(1.0));
    var prompts: seq<Prompt> := [[7], [7]];
    var c := [1.0, 0.0];
    var shaped := FullLengthReward(prompts, log, cfg, pow);
    forall loo
      ensures AdvantageAt(prompts, shaped, loo, 0) <= AdvantageAt(prompts, shaped, loo, 1)
    {
      PairFollowsReward(prompts, shaped, loo);
    }
  }

  lemma FullLengthReward(prompts: seq<Prompt>, log: Log, cfg: Config, pow: Pow) returns (shaped: seq<real>)
    requires |prompts| == 2 && cfg.Coefficient() >= 1.0 && cfg.Floor() == 1.0 && cfg.Exponent() == 1.0
    requires 0 < cfg.MaxTokens() <= ResponseTokens(log) && PowerLaws(pow)
    ensures shaped == Shaped(prompts, [1.0, 0.0], [1.0, 0.0], [log, []], cfg, pow)
    ensures shaped[0] <= 0.0 == shaped[1]
  {
    var c := [1.0, 0.0];
    shaped := Shaped(prompts, c, c, [log, []], cfg, pow);
    FullLengthCost(ResponseTokens(log) as real, cfg.MaxTokens() as real);
    assert pow(1.0, 1.0) == 1.0;
    assert LambdaAt(prompts, c, cfg, pow, 0) == cfg.Coefficient();
    assert CostAt([log, []], cfg, 0) == 1.0;
  }

  lemma PairFollowsReward(prompts: seq<Prompt>, rewards: seq<real>, loo: bool)
    requires Batch(prompts, rewards) && |prompts| == 2 && prompts[0] == prompts[1] && rewards[0] <= rewards[1]
    ensures AdvantageAt(prompts, rewards, loo, 0) <= AdvantageAt(prompts, rewards, loo, 1)
  {
    if rewards[1] > rewards[0] {
      AdvantageFollowsReward(prompts, rewards, loo, 1, 0);
    } else {
      EqualRewardsTie(prompts, rewards, loo);
    }
  }

  lemma FullLengthCost(tokens: real, maxTokens: real)
    requires maxTokens > 0.0 && tokens >= maxTokens
    ensures ClampTo(tokens / maxTokens, 0.0, 1.0) == 1.0
  {
    assert tokens / maxTokens >= 1.0;
  }

  /** Two rollouts of one prompt with equal rewards have equal advantages. */
  lemma EqualRewardsTie(prompts: seq<Prompt>, rewards: seq<real>, loo: bool)
    requires Batch(prompts, rewards) && |prompts| == 2 && prompts[0] == prompts[1] && rewards[0] == rewards[1]
    ensures AdvantageAt(prompts, rewards, loo, 0) == AdvantageAt(prompts, rewards, loo, 1)
  {
    if loo {
      GroupLaws(prompts, 0);
      assert 0 in Group(prompts, 0) && 1 in Group(prompts, 0);
      LeaveOneOutStretches(prompts, rewards, 0);
      LeaveOneOutStretches(prompts, rewards, 1);
    }
  }

  /** Which flat token positions belong to assistant turns. */
  ghost function AssistantTokens(log: Log): Condition {
    (p: nat) => exists k: nat :: InSpan(log, k, p) && log[k].role == "assistant"
  }

  lemma {:induction false} TurnTokens(log: Log, k: nat, p: nat)
    requires k < |log| && Offset(log, k) <= p < Offset(log, k) + TokenCount(log[k])
    ensures AssistantTokens(log)(p) == (log[k].role == "assistant")
  {
    assert InSpan(log, k, p);
    PositionHasOneTurn(log, p);
  }

  lemma TurnTokenCount(log: Log, k: nat)
    requires k < |log|
    ensures CountWhere(AssistantTokens(log), Offset(log, k + 1))
            == CountWhere(AssistantTokens(log), Offset(log, k)) + if log[k].role == "assistant" then TokenCount(log[k]) else 0
  {
    forall p: nat | Offset(log, k) <= p < Offset(log, k) + TokenCount(log[k])
      ensures AssistantTokens(log)(p) == (log[k].role == "assistant")
    {
      TurnTokens(log, k, p);
    }
    CountStretch(AssistantTokens(log), Offset(log, k), TokenCount(log[k]), log[k].role == "assistant");
  }

  lemma {:induction false} ResponseTokensUpTo(log: Log, n: nat)
    requires n <= |log|
    ensures CountWhere(AssistantTokens(log), Offset(log, n)) == ResponseTokens(log[..n])
  {
    if n > 0 {
      ResponseTokensUpTo(log, n - 1);
      assert log[..n][..n - 1] == log[..n - 1];
      TurnTokenCount(log, n - 1);
    }
  }

  /** The cost counts the whole trajectory: of the flat tokens of a log, all those in
      assistant turns. */
  lemma {:induction false} ResponseTokensAreAssistantTokens(log: Log)
    ensures ResponseTokens(log) == CountWhere(AssistantTokens(log), Total(log))
  {
    ResponseTokensUpTo(log, |log|);
    assert log[..|log|] == log;
  }

  lemma {:induction false} MeanOfSame(values: seq<real>, keep: Condition, v: real)
    requires forall r: nat :: r < |values| && keep(r) ==> values[r] == v
    ensures CountWhere(keep, |values|) > 0 ==> MeanWhere(values, keep) == v
  {
    SumOfSame(values, keep, v, |values|);
    if CountWhere(keep, |values|) > 0 {
      QuotientOfProduct(SumWhere(values, keep, |values|), v, CountWhere(keep, |values|) as real);
    }
  }

  lemma QuotientOfProduct(sum: real, v: real, n: real)
    requires n > 0.0 && sum == v * n
    ensures sum / n == v
  {
  }

  lemma {:induction false} SumOfSame(values: seq<real>, keep: Condition, v: real, n: nat)
    requires n <= |values| && forall r: nat :: r < |values| && keep(r) ==> values[r] == v
    ensures SumWhere(values, keep, n) == v * CountWhere(keep, n) as real
  {
    if n > 0 {
      SumOfSame(values, keep, v, n - 1);
      var before := CountWhere(keep, n - 1) as real;
      assert v * (before + 1.0) == v * before + v;
    }
  }

  /** The pass rate is the mean correctness of the rollouts of the same prompt. */
  lemma PassRateIsMean(prompts: seq<Prompt>, correctness: seq<real>, i: nat)
    requires Batch(prompts, correctness) && i < |prompts|
    ensures PassRate(prompts, correctness, i) == MeanWhere(correctness, Carries(prompts, prompts[i]))
  {
    BaselineIsPeerMean(prompts, correctness, false, i);
    var peers, group := PeersOf(prompts, i, false), Carries(prompts, prompts[i]);
    CountAgree(peers, group, |prompts|);
    SumAgree(correctness, correctness, peers, group, |prompts|);
    CountPositive(group, |prompts|, i);
  }

  lemma {:induction false} CountPositive(keep: Condition, n: nat, r: nat)
    requires r < n && keep(r)
    ensures CountWhere(keep, n) > 0
  {
    if r < n - 1 {
      CountPositive(keep, n - 1, r);
    }
  }

  lemma SolvedCoefficient(prompts: seq<Prompt>, correctness: seq<real>, cfg: Config, pow: Pow, i: nat)
    requires Batch(prompts, correctness) && PowerLaws(pow) && i < |prompts|
    requires cfg.enabled && Validate(Some(cfg), "grpo", "sync").Ok?
    requires forall r: nat :: r < |prompts| && prompts[r] == prompts[i] ==> correctness[r] == 1.0
    ensures LambdaAt(prompts, correctness, cfg, pow, i) == cfg.Coefficient()
  {
    PassRateIsMean(prompts, correctness, i);
    MeanOfSame(correctness, Carries(prompts, prompts[i]), 1.0);
    CountPositive(Carries(prompts, prompts[i]), |prompts|, i);
    CoefficientGrows(1.0, 1.0, cfg, pow);
  }

  lemma CostIsShare(tokens: nat, limit: int, share: real)
    requires limit > 0
    requires share == if tokens >= limit then 1.0 else tokens as real / limit as real
    ensures EffortCost(tokens, limit) == share
  {
    ShareOfLimit(tokens as real, limit as real);
  }

  lemma ShareOfLimit(x: real, t: real)
    requires x >= 0.0 && t > 0.0
    ensures x / t >= 0.0 && (x >= t <==> x / t >= 1.0)
  {
    var q := x / t;
    assert q * t == x;
    ScaledOrder(q, t);
  }

  lemma ScaledOrder(q: real, t: real)
    requires t > 0.0
    ensures q >= 1.0 <==> q * t >= t
  {
  }

  lemma SolvedLoss(prompts: seq<Prompt>, rewards: seq<real>, correctness: seq<real>, logs: seq<Log>, cfg: Config, pow: Pow,
                   coefficient: real, share: real, i: nat)
    returns (shaped: seq<real>)
    requires Inputs(prompts, rewards, correctness, logs) && i < |prompts| && cfg.MaxTokens() > 0 && correctness[i] == 1.0
    requires LambdaAt(prompts, correctness, cfg, pow, i) == coefficient && CostAt(logs, cfg, i) == share
    ensures shaped == Shaped(prompts, rewards, correctness, logs, cfg, pow)
    ensures shaped[i] == rewards[i] - coefficient * share
  {
    shaped := Shaped(prompts, rewards, correctness, logs, cfg, pow);
    var c := correctness[i];
    assert c * coefficient == coefficient;
  }

  /** The share of the token limit that a log's assistant turns used, at most one. */
  ghost function UsedShare(log: Log, limit: int): real
    requires limit > 0
  {
    var tokens := CountWhere(AssistantTokens(log), Total(log));
    if tokens >= limit then 1.0 else tokens as real / limit as real
  }

  lemma CostIsUsedShare(logs: seq<Log>, cfg: Config, limit: int, i: nat)
    requires i < |logs| && cfg.maxResponseTokens == Some(limit) && limit > 0
    ensures CostAt(logs, cfg, i) == UsedShare(logs[i], limit)
  {
    ResponseTokensAreAssistantTokens(logs[i]);
    CostIsShare(ResponseTokens(logs[i]), limit, UsedShare(logs[i], limit));
  }

  /** On a prompt every rollout solves, the term is at full strength: a rollout loses the
      configured coefficient times the share of the token limit it used. */
  lemma SolvedPromptPaysInFull(prompts: seq<Prompt>, rewards: seq<real>, correctness: seq<real>, logs: seq<Log>, cfg: Config, pow: Pow,
                               coefficient: real, limit: int, i: nat)
    returns (shaped: seq<real>, share: real)
    requires Inputs(prompts, rewards, correctness, logs) && PowerLaws(pow) && i < |prompts|
    requires cfg.enabled && Validate(Some(cfg), "grpo", "sync").Ok?
    requires cfg.coefficient == Some(coefficient) && cfg.maxResponseTokens == Some(limit)
    requires forall r: nat :: r < |prompts| && prompts[r] == prompts[i] ==> correctness[r] == 1.0
    ensures limit > 0 && share == UsedShare(logs[i], limit)
    ensures shaped == Shaped(prompts, rewards, correctness, logs, cfg, pow)
    ensures shaped[i] == rewards[i] - coefficient * share
  {
    share := UsedShare(logs[i], limit);
    SolvedCoefficient(prompts, correctness, cfg, pow, i);
    CostIsUsedShare(logs, cfg, limit, i);
    shaped := SolvedLoss(prompts, rewards, correctness, logs, cfg, pow, coefficient, share, i);
  }

  /** On any prompt a rollout loses its correctness times the coefficient of the prompt's
      mean correctness times that share. */
  lemma EveryRolloutPays(prompts: seq<Prompt>, rewards: seq<real>, correctness: seq<real>, logs: seq<Log>, cfg: Config, pow: Pow,
                         limit: int, i: nat, correct: real, coefficient: real, share: real, loss: real)
    returns (shaped: seq<real>)
    requires Inputs(prompts, rewards, correctness, logs) && i < |prompts|
    requires cfg.maxResponseTokens == Some(limit) && limit > 0 && correct == correctness[i]
    requires coefficient == EffectiveCoefficient(MeanWhere(correctness, Carries(prompts, prompts[i])), cfg, pow)
    requires share == UsedShare(logs[i], limit) && loss == correct * coefficient * share
    ensures shaped == Shaped(prompts, rewards, correctness, logs, cfg, pow)
    ensures shaped[i] == rewards[i] - loss
  {
    CostIsUsedShare(logs, cfg, limit, i);
    CoefficientOf(prompts, correctness, cfg, pow, i, coefficient);
    shaped := ShapedAt(prompts, rewards, correctness, logs, cfg, pow, correct, coefficient, share, i);
    Loss(rewards[i], correct, coefficient, share, loss);
  }

  lemma CoefficientOf(prompts: seq<Prompt>, correctness: seq<real>, cfg: Config, pow: Pow, i: nat, coefficient: real)
    requires Batch(prompts, correctness) && i < |prompts|
    requires coefficient == EffectiveCoefficient(MeanWhere(correctness, Carries(prompts, prompts[i])), cfg, pow)
    ensures coefficient == LambdaAt(prompts, correctness, cfg, pow, i)
  {
    PassRateIsMean(prompts, correctness, i);
  }

  lemma ShapedAt(prompts: seq<Prompt>, rewards: seq<real>, correctness: seq<real>, logs: seq<Log>, cfg: Config, pow: Pow,
                 correct: real, coefficient: real, share: real, i: nat)
    returns (shaped: seq<real>)
    requires Inputs(prompts, rewards, correctness, logs) && i < |prompts| && cfg.MaxTokens() > 0 && correct == correctness[i]
    requires LambdaAt(prompts, correctness, cfg, pow, i) == coefficient && CostAt(logs, cfg, i) == share
    ensures shaped == Shaped(prompts, rewards, correctness, logs, cfg, pow)
    ensures shaped[i] == ShapedReward(rewards[i], correct, coefficient, share)
  {
    shaped := Shaped(prompts, rewards, correctness, logs, cfg, pow);
  }

  lemma Loss(r: real, c: real, lambda: real, cost: real, loss: real)
    requires loss == c * lambda * cost
    ensures ShapedReward(r, c, lambda, cost) == r - loss
  {
  }

  // ----- the batch it mutates -----

  /** `response_token_counts`. */
  method ResponseTokenCounts(logs: seq<Log>) returns (counts: seq<nat>)
    ensures |counts| == |logs|
    ensures forall i :: 0 <= i < |logs| ==> counts[i] == ResponseTokens(logs[i])
  {
    counts := [];
    for s := 0 to |logs|
      invariant |counts| == s
      invariant forall i :: 0 <= i < s ==> counts[i] == ResponseTokens(logs[i])
    {
      var total := 0;
      for t := 0 to |logs[s]|
        invariant total == ResponseTokens(logs[s][..t])
      {
        var message := logs[s][t];
        assert logs[s][..t + 1][..t] == logs[s][..t];
        if message.role == ASSISTANT && message.tokenIds.Some? {
          total := total + |message.tokenIds.value|;
        }
      }
      assert logs[s][..|logs[s]|] == logs[s];
      counts := counts + [total];
    }
  }

  predicate InUnitRange(c: seq<real>) {
    forall i :: 0 <= i < |c| ==> 0.0 <= c[i] <= 1.0
  }

  /** The columns `apply_effort_reward` reads and writes. */
  class RewardBatch {
    var totalReward: seq<real>
    var unshapedTotalReward: Option<seq<real>>
    var effortCost: Option<seq<real>>
    var effortPassRate: Option<seq<real>>
    const messageLog: seq<Log>

    ghost predicate Valid()
      reads this
    {
      unshapedTotalReward.Some? ==> |unshapedTotalReward.value| == |totalReward|
    }

    constructor (rewards: seq<real>, logs: seq<Log>)
      ensures Valid() && totalReward == rewards && messageLog == logs
      ensures unshapedTotalReward == None && effortCost == None && effortPassRate == None
    {
      totalReward, messageLog := rewards, logs;
      unshapedTotalReward, effortCost, effortPassRate := None, None, None;
    }

    /** `apply_effort_reward`.  On success the reward column is `Shaped`; on any
        refusal it is untouched.  An enabled term always leaves the correctness
        snapshot behind. */
    method ApplyEffortReward(cfg: Option<Config>, prompts: seq<Prompt>, uniq: seq<Prompt>, pow: Pow)
      returns (result: Result<bool>)
      requires Valid() && |prompts| == |totalReward| && UniqueRows(prompts, uniq)
      modifies this
      ensures Valid()
      ensures !(cfg.Some? && cfg.value.enabled) ==>
                result == Ok(false) && totalReward == old(totalReward) && unshapedTotalReward == old(unshapedTotalReward)
      ensures cfg.Some? && cfg.value.enabled ==>
                unshapedTotalReward == (if old(unshapedTotalReward).Some? then old(unshapedTotalReward) else Some(old(totalReward)))
      ensures cfg.Some? && cfg.value.enabled ==> (result.Ok? <==>
                && totalReward != [] && |messageLog| == |old(totalReward)|
                && (forall i :: 0 <= i < |unshapedTotalReward.value| ==> 0.0 <= unshapedTotalReward.value[i] <= 1.0)
                && cfg.value.maxResponseTokens.Some? && cfg.value.maxResponseTokens.value > 0)
      ensures cfg.Some? && cfg.value.enabled && result.Ok? ==>
                && totalReward == Shaped(prompts, old(totalReward), unshapedTotalReward.value, messageLog, cfg.value, pow)
                && effortCost.Some? && |effortCost.value| == |prompts|
                && effortPassRate.Some? && |effortPassRate.value| == |prompts|
                && (forall i :: 0 <= i < |prompts| ==>
                      && effortCost.value[i] == UsedShare(messageLog[i], cfg.value.maxResponseTokens.value)
                      && effortPassRate.value[i] == MeanWhere(unshapedTotalReward.value, Carries(prompts, prompts[i])))
      ensures result.Err? ==> totalReward == old(totalReward) && effortCost == old(effortCost)
                              && effortPassRate == old(effortPassRate)
    {
      if !Enabled(cfg) {
        return Ok(false);
      }
      var rewards := totalReward;
      if unshapedTotalReward.None? {
        unshapedTotalReward := Some(rewards);
      }
      var correctness := unshapedTotalReward.value;
      if correctness == [] {
        return Err(RuntimeError);
      }
      if !InUnitRange(correctness) {
        return Err(ValueError);
      }
      if |messageLog| != |rewards| {
        return Err(ValueError);
      }
      if cfg.value.MaxTokens() <= 0 {
        return Err(ValueError);
      }
      var counts := ResponseTokenCounts(messageLog);
      var cost := seq(|counts|, i requires 0 <= i < |counts| => EffortCost(counts[i], cfg.value.MaxTokens()));
      var passRate, _ := CalculateBaselineAndVariance(prompts, uniq, correctness, false, None);
      effortCost := Some(cost);
      effortPassRate := Some(passRate);
      totalReward := seq(|rewards|, i requires 0 <= i < |rewards| =>
        ShapedReward(rewards[i], correctness[i], EffectiveCoefficient(passRate[i], cfg.value, pow), cost[i]));
      assert totalReward == Shaped(prompts, rewards, correctness, messageLog, cfg.value, pow);
      forall i: nat | i < |prompts|
        ensures cost[i] == UsedShare(messageLog[i], cfg.value.maxResponseTokens.value)
        ensures passRate[i] == MeanWhere(correctness, Carries(prompts, prompts[i]))
      {
        CostIsUsedShare(messageLog, cfg.value, cfg.value.maxResponseTokens.value, i);
        PassRateIsMean(prompts, correctness, i);
      }
      result := Ok(true);
    }
  }
}
