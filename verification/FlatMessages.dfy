/** Flattening of message logs: the turns of a log are concatenated column by
    column.

    Token offsets are defined here once; masks, penalties and reconstruction all
    refer to them. */
module FlatMessages {
  import opened Options
  import opened Messages

  // ---- One column of one log ---------------------------------------------

  function Held<T>(part: Option<seq<T>>): seq<T> {
    if part.Some? then part.value else []
  }

  /** The parts that are present, one after the other. */
  function Gathered<T>(parts: seq<Option<seq<T>>>): seq<T> {
    if parts == [] then [] else Gathered(parts[..|parts| - 1]) + Held(parts[|parts| - 1])
  }

  predicate Present<T>(parts: seq<Option<seq<T>>>) {
    exists k :: 0 <= k < |parts| && parts[k].Some?
  }

  /** A column exists as soon as one turn carries it. */
  function Flat<T>(parts: seq<Option<seq<T>>>): Option<seq<T>> {
    if Present(parts) then Some(Gathered(parts)) else None
  }

  function Join<T>(column: Option<seq<T>>, part: Option<seq<T>>): Option<seq<T>> {
    if part.None? then column else Some(Held(column) + part.value)
  }

  lemma {:induction false} NothingPresent<T>(parts: seq<Option<seq<T>>>)
    requires !Present(parts)
    ensures Gathered(parts) == []
  {
    if parts != [] {
      var n := |parts| - 1;
      assert parts[n].None?;
      forall k | 0 <= k < n
        ensures parts[..n][k].None?
      {
        assert parts[k].None?;
      }
      NothingPresent(parts[..n]);
    }
  }

  lemma {:induction false} HeldFlat<T>(parts: seq<Option<seq<T>>>)
    ensures Held(Flat(parts)) == Gathered(parts)
  {
    if !Present(parts) {
      NothingPresent(parts);
    }
  }

  lemma GatheredStep<T>(parts: seq<Option<seq<T>>>, i: nat)
    requires i < |parts|
    ensures Gathered(parts[..i + 1]) == Gathered(parts[..i]) + Held(parts[i])
  {
    assert parts[..i + 1][..i] == parts[..i];
  }

  lemma PresentStep<T>(parts: seq<Option<seq<T>>>, i: nat)
    requires i < |parts|
    ensures Present(parts[..i + 1]) <==> Present(parts[..i]) || parts[i].Some?
  {
    var longer, before := parts[..i + 1], parts[..i];
    assert forall k :: 0 <= k < i ==> longer[k] == before[k];
    assert longer[i] == parts[i];
  }

  lemma FlatStep<T>(parts: seq<Option<seq<T>>>, i: nat)
    requires i < |parts|
    ensures Flat(parts[..i + 1]) == Join(Flat(parts[..i]), parts[i])
  {
    GatheredStep(parts, i);
    PresentStep(parts, i);
    HeldFlat(parts[..i]);
    var before := Gathered(parts[..i]);
    assert before + [] == before;
  }

  /** Each part lies unbroken in the column, behind all parts before it. */
  lemma {:induction false} PartSpan<T>(parts: seq<Option<seq<T>>>, k: nat)
    requires k < |parts|
    ensures |Gathered(parts[..k])| + |Held(parts[k])| <= |Gathered(parts)|
    ensures Gathered(parts)[|Gathered(parts[..k])|..|Gathered(parts[..k])| + |Held(parts[k])|] == Held(parts[k])
  {
    var n := |parts| - 1;
    if k < n {
      PartSpan(parts[..n], k);
      assert parts[..n][..k] == parts[..k] && parts[..n][k] == parts[k];
    }
  }

  // ---- Token offsets -----------------------------------------------------

  /** Tokens of the turns before turn `k`. */
  function Offset(log: Log, k: nat): nat
    requires k <= |log|
  {
    if k == 0 then 0 else Offset(log, k - 1) + TokenCount(log[k - 1])
  }

  function Total(log: Log): nat {
    Offset(log, |log|)
  }

  predicate InSpan(log: Log, k: nat, p: int) {
    k < |log| && Offset(log, k) <= p < Offset(log, k) + TokenCount(log[k])
  }

  lemma {:induction false} OffsetMonotone(log: Log, j: nat, k: nat)
    requires j <= k <= |log|
    ensures Offset(log, j) <= Offset(log, k)
  {
    if j < k {
      OffsetMonotone(log, j, k - 1);
    }
  }

  lemma SpansDisjoint(log: Log, j: nat, k: nat, p: int)
    requires InSpan(log, j, p) && InSpan(log, k, p)
    ensures j == k
  {
    if j < k {
      OffsetMonotone(log, j + 1, k);
    } else if k < j {
      OffsetMonotone(log, k + 1, j);
    }
  }

  lemma {:induction false} OwnerBelow(log: Log, n: nat, p: nat) returns (k: nat)
    requires n <= |log| && p < Offset(log, n)
    ensures k < n && InSpan(log, k, p)
  {
    if p < Offset(log, n - 1) {
      k := OwnerBelow(log, n - 1, p);
    } else {
      k := n - 1;
    }
  }

  /** Every flat position belongs to exactly one turn. */
  lemma PositionHasOneTurn(log: Log, p: int)
    ensures 0 <= p < Total(log) <==> exists k: nat :: InSpan(log, k, p)
    ensures forall j: nat, k: nat :: InSpan(log, j, p) && InSpan(log, k, p) ==> j == k
  {
    if 0 <= p < Total(log) {
      var k := OwnerBelow(log, |log|, p);
      assert InSpan(log, k, p);
    }
    forall k: nat | InSpan(log, k, p)
      ensures p < Total(log)
    {
      OffsetMonotone(log, k + 1, |log|);
    }
    forall j: nat, k: nat | InSpan(log, j, p) && InSpan(log, k, p)
      ensures j == k
    {
      SpansDisjoint(log, j, k, p);
    }
  }

  /** Every turn's part of the column is as long as its token ids. */
  predicate Aligned<T>(log: Log, parts: seq<Option<seq<T>>>) {
    |parts| == |log| && forall k :: 0 <= k < |log| ==> |Held(parts[k])| == TokenCount(log[k])
  }

  lemma {:induction false} AlignedOffset<T>(log: Log, parts: seq<Option<seq<T>>>, k: nat)
    requires Aligned(log, parts) && k <= |log|
    ensures |Gathered(parts[..k])| == Offset(log, k)
  {
    if k > 0 {
      AlignedOffset(log, parts, k - 1);
      assert parts[..k][..k - 1] == parts[..k - 1];
    }
  }

  /** An aligned column is as long as the flat token ids, and each turn's part
      sits at the turn's token offset. */
  lemma {:induction false} AlignedSpan<T>(log: Log, parts: seq<Option<seq<T>>>, k: nat)
    requires Aligned(log, parts) && k < |log|
    ensures |Gathered(parts)| == Total(log)
    ensures Offset(log, k) + TokenCount(log[k]) <= Total(log)
    ensures Gathered(parts)[Offset(log, k)..Offset(log, k) + TokenCount(log[k])] == Held(parts[k])
  {
    AlignedOffset(log, parts, |log|);
    assert parts[..|log|] == parts;
    AlignedOffset(log, parts, k);
    PartSpan(parts, k);
  }

  // ---- All columns of one log --------------------------------------------

  datatype FlatLog = FlatLog(
    tokenIds: Option<seq<int>>,
    generationLogprobs: Option<seq<real>>,
    routedExperts: Option<seq<Route>>,
    tokenLossMask: Option<seq<int>>)

  function TokenParts(log: Log): seq<Option<seq<int>>> {
    seq(|log|, i requires 0 <= i < |log| => log[i].tokenIds)
  }

  function LogprobParts(log: Log): seq<Option<seq<real>>> {
    seq(|log|, i requires 0 <= i < |log| => log[i].generationLogprobs)
  }

  function RouteParts(log: Log): seq<Option<seq<Route>>> {
    seq(|log|, i requires 0 <= i < |log| => log[i].routedExperts)
  }

  function MaskParts(log: Log): seq<Option<seq<int>>> {
    seq(|log|, i requires 0 <= i < |log| => log[i].tokenLossMask)
  }

  function FlatOf(log: Log): FlatLog {
    FlatLog(Flat(TokenParts(log)), Flat(LogprobParts(log)), Flat(RouteParts(log)), Flat(MaskParts(log)))
  }

  method MessageLogToFlatMessages(log: Log) returns (f: FlatLog)
    ensures f == FlatOf(log)
  {
    f := FlatLog(None, None, None, None);
    for i := 0 to |log|
      invariant f.tokenIds == Flat(TokenParts(log)[..i])
      invariant f.generationLogprobs == Flat(LogprobParts(log)[..i])
      invariant f.routedExperts == Flat(RouteParts(log)[..i])
      invariant f.tokenLossMask == Flat(MaskParts(log)[..i])
    {
      FlatStep(TokenParts(log), i);
      FlatStep(LogprobParts(log), i);
      FlatStep(RouteParts(log), i);
      FlatStep(MaskParts(log), i);
      f := FlatLog(
        Join(f.tokenIds, log[i].tokenIds),
        Join(f.generationLogprobs, log[i].generationLogprobs),
        Join(f.routedExperts, log[i].routedExperts),
        Join(f.tokenLossMask, log[i].tokenLossMask));
    }
    assert TokenParts(log)[..|log|] == TokenParts(log);
    assert LogprobParts(log)[..|log|] == LogprobParts(log);
    assert RouteParts(log)[..|log|] == RouteParts(log);
    assert MaskParts(log)[..|log|] == MaskParts(log);
  }

  lemma TokensAligned(log: Log)
    ensures Aligned(log, TokenParts(log))
  {
  }

  /** The span of turn `k` in a column, as a statement about values. */
  ghost predicate HoldsTurn<T>(log: Log, column: Option<seq<T>>, k: nat, part: Option<seq<T>>) {
    k < |log| && |Held(column)| == Total(log) && |Held(part)| == TokenCount(log[k]) &&
    Offset(log, k) + TokenCount(log[k]) <= Total(log) &&
    Held(column)[Offset(log, k)..Offset(log, k) + TokenCount(log[k])] == Held(part)
  }

  lemma {:induction false} HeldAt<T>(log: Log, column: Option<seq<T>>, k: nat, part: Option<seq<T>>, p: nat)
    requires HoldsTurn(log, column, k, part) && InSpan(log, k, p)
    ensures p < |Held(column)| && Held(column)[p] == Held(part)[p - Offset(log, k)]
  {
    var lo, hi := Offset(log, k), Offset(log, k) + TokenCount(log[k]);
    assert Held(column)[lo..hi][p - lo] == Held(column)[p];
  }

  lemma ColumnHoldsTurn<T>(log: Log, parts: seq<Option<seq<T>>>, column: Option<seq<T>>, k: nat, part: Option<seq<T>>)
    requires Aligned(log, parts) && column == Flat(parts)
    requires k < |log| && part == parts[k]
    ensures HoldsTurn(log, column, k, part)
  {
    AlignedSpan(log, parts, k);
    HeldFlat(parts);
  }

  /** Flat token ids hold each turn's tokens at the turn's offset. */
  lemma FlatTokens(log: Log, k: nat)
    requires k < |log|
    ensures HoldsTurn(log, FlatOf(log).tokenIds, k, log[k].tokenIds)
  {
    TokensAligned(log);
    ColumnHoldsTurn(log, TokenParts(log), FlatOf(log).tokenIds, k, log[k].tokenIds);
  }

  /** Any other column does, too, when each turn has one entry per token. */
  lemma FlatLogprobs(log: Log, k: nat)
    requires k < |log| && Aligned(log, LogprobParts(log))
    ensures HoldsTurn(log, FlatOf(log).generationLogprobs, k, log[k].generationLogprobs)
  {
    ColumnHoldsTurn(log, LogprobParts(log), FlatOf(log).generationLogprobs, k, log[k].generationLogprobs);
  }
}
