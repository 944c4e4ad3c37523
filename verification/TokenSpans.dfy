/** Per-token annotations of message logs. */
module TokenSpans {
  // Route backfill, loss masks and log probabilities all use the token offsets of
  // the flattening.

  import opened Options
  import opened Messages
  import opened FlatMessages
  import opened PaddedBatch

  // ---- Route backfill ----------------------------------------------------

  predicate HasRoutes(log: Log) {
    exists k :: 0 <= k < |log| && log[k].routedExperts.Some?
  }

  function BackfilledTurn(m: Message): Message {
    if m.routedExperts.Some? then m
    else m.(routedExperts := Some(Fill(TokenCount(m), Missing)))
  }

  /** Logs without any routing are left alone. */
  function Backfilled(log: Log): Log {
    if HasRoutes(log) then seq(|log|, k requires 0 <= k < |log| => BackfilledTurn(log[k])) else log
  }

  /** Backfilling touches nothing but missing routes. */
  lemma BackfillKeepsTurns(log: Log)
    ensures |Backfilled(log)| == |log|
    ensures forall k :: 0 <= k < |log| ==>
              log[k] == Backfilled(log)[k].(routedExperts := log[k].routedExperts)
    ensures Tokenized(log) <==> Tokenized(Backfilled(log))
  {
    var filled := Backfilled(log);
    forall k | 0 <= k < |log|
      ensures log[k] == filled[k].(routedExperts := log[k].routedExperts)
    {
    }
    assert forall k :: 0 <= k < |log| ==> filled[k].tokenIds == log[k].tokenIds;
  }

  /** A turn to be filled must say how many tokens it has. */
  predicate Fillable(log: Log) {
    HasRoutes(log) ==> forall k :: 0 <= k < |log| ==> log[k].routedExperts.Some? || log[k].tokenIds.Some?
  }

  /** The first turn that cannot be filled. */
  predicate FirstUnfillable(log: Log, k: nat) {
    HasRoutes(log) && k < |log| && log[k].routedExperts.None? && log[k].tokenIds.None? &&
    forall j :: 0 <= j < k ==> log[j].routedExperts.Some? || log[j].tokenIds.Some?
  }

  function FilledUpTo(log: Log, k: nat): Log {
    seq(|log|, j requires 0 <= j < |log| => if j < k then BackfilledTurn(log[j]) else log[j])
  }

  /** Fills turn after turn, up to the end or the first turn that cannot be filled. */
  method BackfillLog(log: Log) returns (r: Result<()>, after: Log, ghost stop: nat)
    ensures r.Ok? <==> Fillable(log)
    ensures r.Ok? ==> after == Backfilled(log)
    ensures r.Err? ==> r.error == KeyError && FirstUnfillable(log, stop) && after == FilledUpTo(log, stop)
  {
    after, stop := log, 0;
    if !HasRoutes(log) {
      return Ok(()), log, 0;
    }
    for k := 0 to |log|
      invariant forall j :: 0 <= j < k ==> log[j].routedExperts.Some? || log[j].tokenIds.Some?
      invariant after == FilledUpTo(log, k)
    {
      if log[k].routedExperts.None? {
        if log[k].tokenIds.None? {
          return Err(KeyError), after, k;
        }
        after := after[k := log[k].(routedExperts := Some(Fill(|log[k].tokenIds.value|, Missing)))];
      }
    }
    assert after == Backfilled(log);
    r := Ok(());
  }

  /** Where a refused backfill leaves the batch: earlier logs filled, the refused log
      up to its bad turn, later logs untouched. */
  ghost predicate BackfillStopped(before: seq<Log>, after: seq<Log>, i: nat, k: nat) {
    && |after| == |before| && i < |before| && FirstUnfillable(before[i], k)
    && after[i] == FilledUpTo(before[i], k)
    && (forall j :: 0 <= j < i ==> Fillable(before[j]) && after[j] == Backfilled(before[j]))
    && (forall j :: i < j < |before| ==> after[j] == before[j])
  }

  method BackfillRoutedExperts(logs: array<Log>) returns (r: Result<()>)
    modifies logs
    ensures r.Ok? <==>
            forall i: nat, j: nat, k: nat ::
              i < logs.Length && j < |old(logs[i])| && k < |old(logs[i])| && old(logs[i])[j].routedExperts.Some? ==>
                old(logs[i])[k].routedExperts.Some? || old(logs[i])[k].tokenIds.Some?
    ensures r.Ok? ==> forall i :: 0 <= i < logs.Length ==> logs[i] == Backfilled(old(logs[i]))
    ensures r.Err? ==> r.error == KeyError && exists i: nat, k: nat :: BackfillStopped(old(logs[..]), logs[..], i, k)
  {
    ghost var before := logs[..];
    for i := 0 to logs.Length
      invariant forall j :: 0 <= j < i ==> Fillable(before[j]) && logs[j] == Backfilled(before[j])
      invariant forall j :: i <= j < logs.Length ==> logs[j] == before[j]
    {
      var filled, after, stop := BackfillLog(logs[i]);
      logs[i] := after;
      if filled.Err? {
        assert BackfillStopped(before, logs[..], i, stop);
        return Err(filled.error);
      }
    }
    return Ok(());
  }

  // ---- Loss masks --------------------------------------------------------

  /** Only generated turns carry log probabilities before this step. */
  predicate Trainable(m: Message) {
    m.role == ASSISTANT && m.generationLogprobs.Some?
  }

  function MaskedTurn(m: Message): Message {
    m.(tokenLossMask := Some(Fill(TokenCount(m), if Trainable(m) then 1 else 0)),
       generationLogprobs :=
         if m.generationLogprobs.Some? then m.generationLogprobs else Some(Fill(TokenCount(m), 0.0)))
  }

  function Masked(log: Log): Log {
    seq(|log|, k requires 0 <= k < |log| => MaskedTurn(log[k]))
  }

  function Annotated(log: Log): Log {
    Masked(Backfilled(log))
  }

  predicate Tokenized(log: Log) {
    forall k :: 0 <= k < |log| ==> log[k].tokenIds.Some?
  }

  /** The first turn without token ids. */
  predicate FirstUntokenized(log: Log, k: nat) {
    k < |log| && log[k].tokenIds.None? && forall j :: 0 <= j < k ==> log[j].tokenIds.Some?
  }

  function MaskedUpTo(log: Log, k: nat): Log {
    seq(|log|, j requires 0 <= j < |log| => if j < k then MaskedTurn(log[j]) else log[j])
  }

  method MaskTurn(m0: Message) returns (m: Message)
    requires m0.tokenIds.Some?
    ensures m == MaskedTurn(m0)
  {
    m := m0;
    var n := |m.tokenIds.value|;
    if m.role == ASSISTANT && m.generationLogprobs.Some? {
      m := m.(tokenLossMask := Some(Fill(n, 1)));
    } else {
      m := m.(tokenLossMask := Some(Fill(n, 0)));
    }
    if m.generationLogprobs.None? {
      m := m.(generationLogprobs := Some(Fill(n, 0.0)));
    }
  }

  /** Masks turn after turn, up to the end or the first turn without token ids. */
  method MaskLog(log: Log) returns (r: Result<()>, after: Log, ghost stop: nat)
    ensures r.Ok? <==> Tokenized(log)
    ensures r.Ok? ==> after == Masked(log)
    ensures r.Err? ==> r.error == KeyError && FirstUntokenized(log, stop) && after == MaskedUpTo(log, stop)
  {
    after, stop := log, 0;
    for k := 0 to |log|
      invariant forall j :: 0 <= j < k ==> log[j].tokenIds.Some?
      invariant after == MaskedUpTo(log, k)
    {
      if log[k].tokenIds.None? {
        return Err(KeyError), after, k;
      }
      var m := MaskTurn(log[k]);
      after := after[k := m];
    }
    assert after == Masked(log);
    r := Ok(());
  }

  /** Where a refused mask step leaves the batch: every log backfilled, earlier logs
      masked as well, the refused log up to its bad turn. */
  ghost predicate MaskStopped(before: seq<Log>, after: seq<Log>, i: nat, k: nat) {
    && |after| == |before| && i < |before| && FirstUntokenized(before[i], k)
    && after[i] == MaskedUpTo(Backfilled(before[i]), k)
    && (forall j :: 0 <= j < |before| ==> Fillable(before[j]))
    && (forall j :: 0 <= j < i ==> Tokenized(before[j]) && after[j] == Annotated(before[j]))
    && (forall j :: i < j < |before| ==> after[j] == Backfilled(before[j]))
  }

  lemma BackfillKeepsTokens(log: Log)
    ensures Tokenized(log) ==> Fillable(log)
    ensures Tokenized(log) <==> Tokenized(Backfilled(log))
    ensures forall k: nat :: FirstUntokenized(Backfilled(log), k) ==> FirstUntokenized(log, k)
  {
    BackfillKeepsTurns(log);
    var filled := Backfilled(log);
    assert forall k :: 0 <= k < |log| ==> filled[k].tokenIds == log[k].tokenIds;
  }

  method AddTokenLossMasksAndGenerationLogprobs(logs: array<Log>) returns (r: Result<()>)
    modifies logs
    ensures r.Ok? <==>
            forall i: nat, k: nat :: i < logs.Length && k < |old(logs[i])| ==> old(logs[i])[k].tokenIds.Some?
    ensures r.Ok? ==> forall i :: 0 <= i < logs.Length ==> logs[i] == Annotated(old(logs[i]))
    ensures r.Err? ==> r.error == KeyError && exists i: nat, k: nat ::
              BackfillStopped(old(logs[..]), logs[..], i, k) || MaskStopped(old(logs[..]), logs[..], i, k)
  {
    ghost var before := logs[..];
    forall i | 0 <= i < logs.Length
      ensures Tokenized(before[i]) ==> Fillable(before[i])
      ensures Tokenized(before[i]) <==> Tokenized(Backfilled(before[i]))
    {
      BackfillKeepsTokens(before[i]);
    }
    r := BackfillRoutedExperts(logs);
    if r.Err? {
      return;
    }
    for i := 0 to logs.Length
      invariant forall j :: 0 <= j < i ==> Tokenized(before[j]) && logs[j] == Annotated(before[j])
      invariant forall j :: i <= j < logs.Length ==> logs[j] == Backfilled(before[j])
    {
      var masked, after, stop := MaskLog(logs[i]);
      logs[i] := after;
      if masked.Err? {
        BackfillKeepsTokens(before[i]);
        assert MaskStopped(before, logs[..], i, stop);
        return Err(masked.error);
      }
    }
    return Ok(());
  }

  // ---- Offsets after annotation ------------------------------------------

  /** What exists per token before the step matches the token ids. */
  predicate Fresh(log: Log) {
    Tokenized(log) &&
    forall k :: 0 <= k < |log| ==>
      (log[k].generationLogprobs.Some? ==> |log[k].generationLogprobs.value| == TokenCount(log[k])) &&
      (log[k].routedExperts.Some? ==> |log[k].routedExperts.value| == TokenCount(log[k]))
  }

  lemma AnnotatedTurn(log: Log, k: nat)
    requires k < |log|
    ensures |Annotated(log)| == |log|
    ensures Annotated(log)[k] == MaskedTurn(if HasRoutes(log) then BackfilledTurn(log[k]) else log[k])
    ensures Annotated(log)[k].tokenIds == log[k].tokenIds
    ensures TokenCount(Annotated(log)[k]) == TokenCount(log[k])
  {
  }

  /** Annotation touches nothing but missing routes and log probabilities, and masks. */
  lemma AnnotationKeepsTurns(log: Log, k: nat)
    requires k < |log|
    ensures |Annotated(log)| == |log|
    ensures var m := Annotated(log)[k];
            && m.role == log[k].role && m.content == log[k].content && m.tokenIds == log[k].tokenIds
            && m.advantagePenalty == log[k].advantagePenalty
            && (log[k].routedExperts.Some? ==> m.routedExperts == log[k].routedExperts)
            && (log[k].generationLogprobs.Some? ==> m.generationLogprobs == log[k].generationLogprobs)
  {
    AnnotatedTurn(log, k);
  }

  lemma {:induction false} AnnotatedOffset(log: Log, k: nat)
    requires k <= |log|
    ensures |Annotated(log)| == |log| && Offset(Annotated(log), k) == Offset(log, k)
  {
    if k > 0 {
      AnnotatedOffset(log, k - 1);
      AnnotatedTurn(log, k - 1);
    }
  }

  lemma AnnotatedParts(log: Log)
    requires Fresh(log)
    ensures Aligned(Annotated(log), LogprobParts(Annotated(log)))
    ensures Aligned(Annotated(log), MaskParts(Annotated(log)))
    ensures HasRoutes(log) ==> Aligned(Annotated(log), RouteParts(Annotated(log)))
    ensures !HasRoutes(log) ==> !Present(RouteParts(Annotated(log)))
  {
    var a := Annotated(log);
    AnnotatedOffset(log, 0);
    forall k | 0 <= k < |log|
      ensures |Held(LogprobParts(a)[k])| == TokenCount(a[k])
      ensures |Held(MaskParts(a)[k])| == TokenCount(a[k])
      ensures HasRoutes(log) ==> |Held(RouteParts(a)[k])| == TokenCount(a[k])
      ensures !HasRoutes(log) ==> RouteParts(a)[k].None?
    {
      AnnotatedTurn(log, k);
    }
  }

  lemma SameSpans<T>(log: Log, column: Option<seq<T>>, k: nat, part: Option<seq<T>>)
    requires HoldsTurn(Annotated(log), column, k, part)
    ensures HoldsTurn(log, column, k, part)
  {
    AnnotatedOffset(log, 0);
    AnnotatedOffset(log, k);
    AnnotatedOffset(log, |log|);
    AnnotatedTurn(log, k);
  }

  function MaskOf(m: Message): seq<int> {
    Fill(TokenCount(m), if Trainable(m) then 1 else 0)
  }

  function LogprobsOf(m: Message): seq<real> {
    if m.generationLogprobs.Some? then m.generationLogprobs.value else Fill(TokenCount(m), 0.0)
  }

  function RoutesOf(m: Message): seq<Route> {
    if m.routedExperts.Some? then m.routedExperts.value else Fill(TokenCount(m), Missing)
  }

  /** Annotation leaves the flat tokens where they were. */
  lemma TokensKeepOffsets(log: Log, k: nat)
    requires k < |log|
    ensures HoldsTurn(log, FlatOf(Annotated(log)).tokenIds, k, log[k].tokenIds)
  {
    var a := Annotated(log);
    AnnotatedTurn(log, k);
    FlatTokens(a, k);
    SameSpans(log, FlatOf(a).tokenIds, k, log[k].tokenIds);
  }

  /** The mask of a turn sits at the offset of the turn's tokens. */
  lemma MaskSharesOffsets(log: Log, k: nat)
    requires Fresh(log) && k < |log|
    ensures HoldsTurn(log, FlatOf(Annotated(log)).tokenLossMask, k, Some(MaskOf(log[k])))
  {
    var a := Annotated(log);
    AnnotatedTurn(log, k);
    AnnotatedParts(log);
    ColumnHoldsTurn(a, MaskParts(a), FlatOf(a).tokenLossMask, k, a[k].tokenLossMask);
    SameSpans(log, FlatOf(a).tokenLossMask, k, a[k].tokenLossMask);
  }

  /** So do its log probabilities, zero where none were recorded. */
  lemma LogprobsShareOffsets(log: Log, k: nat)
    requires Fresh(log) && k < |log|
    ensures HoldsTurn(log, FlatOf(Annotated(log)).generationLogprobs, k, Some(LogprobsOf(log[k])))
  {
    var a := Annotated(log);
    AnnotatedTurn(log, k);
    AnnotatedParts(log);
    FlatLogprobs(a, k);
    SameSpans(log, FlatOf(a).generationLogprobs, k, a[k].generationLogprobs);
  }

  /** And its routes, the sentinel where none were recorded; a log that recorded
      no route at all gets no such column. */
  lemma RoutesShareOffsets(log: Log, k: nat)
    requires Fresh(log) && k < |log|
    ensures if HasRoutes(log)
            then HoldsTurn(log, FlatOf(Annotated(log)).routedExperts, k, Some(RoutesOf(log[k])))
            else FlatOf(Annotated(log)).routedExperts == None
  {
    var a := Annotated(log);
    AnnotatedParts(log);
    if HasRoutes(log) {
      AnnotatedTurn(log, k);
      ColumnHoldsTurn(a, RouteParts(a), FlatOf(a).routedExperts, k, a[k].routedExperts);
      SameSpans(log, FlatOf(a).routedExperts, k, a[k].routedExperts);
    }
  }

  /** The flat mask is one exactly on the spans of generated assistant turns,
      and zero on all others. */
  lemma MaskIsExact(log: Log, p: nat)
    requires Fresh(log) && p < Total(log)
    ensures var mask := Held(FlatOf(Annotated(log)).tokenLossMask);
            |mask| == Total(log) && (mask[p] == 0 || mask[p] == 1) &&
            (mask[p] == 1 <==>
              exists k: nat :: InSpan(log, k, p) && log[k].role == "assistant" && log[k].generationLogprobs.Some?)
  {
    var k := OwnerBelow(log, |log|, p);
    MaskSharesOffsets(log, k);
    HeldAt(log, FlatOf(Annotated(log)).tokenLossMask, k, Some(MaskOf(log[k])), p);
    assert Held(FlatOf(Annotated(log)).tokenLossMask)[p] == if Trainable(log[k]) then 1 else 0;
    PositionHasOneTurn(log, p);
  }

  // ---- Annotating twice --------------------------------------------------

  /** Annotating again changes nothing exactly when every assistant turn with
      tokens was generated: the zero log probabilities filled in for the others
      would make them look generated. */
  lemma AnnotatingTwice(log: Log)
    requires Tokenized(log)
    ensures Annotated(Annotated(log)) == Annotated(log) <==>
            forall k :: 0 <= k < |log| && log[k].role == ASSISTANT && TokenCount(log[k]) > 0 ==>
              log[k].generationLogprobs.Some?
  {
    var once := Annotated(log);
    var twice := Annotated(once);
    AnnotatedOffset(log, 0);
    AnnotatedOffset(once, 0);
    assert HasRoutes(once) <==> HasRoutes(log) by {
      RoutesKept(log);
    }
    forall k | 0 <= k < |log|
      ensures twice[k] == once[k] <==>
              (log[k].role == ASSISTANT && TokenCount(log[k]) > 0 ==> log[k].generationLogprobs.Some?)
    {
      AnnotatedTurn(log, k);
      AnnotatedTurn(once, k);
      TurnTwice(log[k]);
      assert twice[k].tokenLossMask == Some(Fill(TokenCount(log[k]), if log[k].role == ASSISTANT then 1 else 0));
      assert once[k].tokenLossMask == Some(Fill(TokenCount(log[k]), if Trainable(log[k]) then 1 else 0));
    }
    assert twice == once <==> forall k :: 0 <= k < |log| ==> twice[k] == once[k];
  }

  /** One assistant turn of the prompt history is enough to tell the two apart. */
  lemma HistoryTurnIsUnmasked()
    ensures var log := [Message(ASSISTANT, None, Some([1]), None, None, None, 0.0)];
            Annotated(Annotated(log)) != Annotated(log)
  {
    var log := [Message(ASSISTANT, None, Some([1]), None, None, None, 0.0)];
    AnnotatingTwice(log);
    assert log[0].role == ASSISTANT && TokenCount(log[0]) > 0;
  }

  lemma RoutesKept(log: Log)
    ensures HasRoutes(Annotated(log)) <==> HasRoutes(log)
  {
    var once := Annotated(log);
    AnnotatedOffset(log, 0);
    if HasRoutes(log) {
      var k :| 0 <= k < |log| && log[k].routedExperts.Some?;
      AnnotatedTurn(log, k);
      assert once[k].routedExperts.Some?;
    } else {
      forall k | 0 <= k < |once|
        ensures once[k].routedExperts.None?
      {
        AnnotatedTurn(log, k);
      }
    }
  }

  lemma TurnTwice(m: Message)
    ensures Fill(TokenCount(m), 1) == Fill(TokenCount(m), 0) <==> TokenCount(m) == 0
  {
    if TokenCount(m) > 0 {
      assert Fill(TokenCount(m), 1)[0] == 1 && Fill(TokenCount(m), 0)[0] == 0;
    }
  }
}
