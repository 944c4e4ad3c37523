/** The wire form of a message log: decomposition into per-field arrays,
    reconstruction from the padded token matrix, and the round trip. */
module MessageLog {
  import opened Sums
  import opened Options
  import opened Permutations
  import opened Messages
  import opened FlatMessages
  import opened PaddedBatch

  // ---- Decomposition -----------------------------------------------------

  datatype Decomposed = Decomposed(
    turnLengths: seq<seq<nat>>,
    roles: seq<seq<string>>,
    contents: seq<seq<string>>,
    responseLengths: seq<nat>)

  function ContentOf(m: Message): string {
    if m.content.Some? then m.content.value else ""
  }

  function Roles(log: Log): seq<string> {
    seq(|log|, t requires 0 <= t < |log| => log[t].role)
  }

  function Contents(log: Log): seq<string> {
    seq(|log|, t requires 0 <= t < |log| => ContentOf(log[t]))
  }

  /** The lengths of a log's turns, then zeros. */
  predicate IsTurnLengths(log: Log, lengths: seq<nat>) {
    |log| <= |lengths| &&
    forall t :: 0 <= t < |lengths| ==> lengths[t] == if t < |log| then TokenCount(log[t]) else 0
  }

  predicate Answers(m: Message) {
    m.role == ASSISTANT && TokenCount(m) > 0
  }

  /** The length of the first assistant turn that has tokens, or zero. */
  predicate IsResponseLength(log: Log, n: nat) {
    if n == 0 then forall t :: 0 <= t < |log| ==> !Answers(log[t])
    else exists t :: 0 <= t < |log| && Answers(log[t]) && TokenCount(log[t]) == n &&
           forall s :: 0 <= s < t ==> !Answers(log[s])
  }

  method DecomposeTurns(log: Log, maxTurns: nat)
    returns (lengths: seq<nat>, roles: seq<string>, contents: seq<string>, response: nat)
    requires |log| <= maxTurns
    ensures IsTurnLengths(log, lengths) && |lengths| == maxTurns
    ensures roles == Roles(log) && contents == Contents(log)
    ensures IsResponseLength(log, response)
  {
    lengths, roles, contents, response := Fill(maxTurns, 0), [], [], 0;
    for t := 0 to |log|
      invariant |lengths| == maxTurns
      invariant forall s :: 0 <= s < maxTurns ==> lengths[s] == if s < t then TokenCount(log[s]) else 0
      invariant roles == Roles(log)[..t] && contents == Contents(log)[..t]
      invariant IsResponseLength(log[..t], response)
    {
      ghost var before := response;
      roles := roles + [log[t].role];
      contents := contents + [ContentOf(log[t])];
      if log[t].tokenIds.Some? {
        lengths := lengths[t := |log[t].tokenIds.value|];
        if log[t].role == ASSISTANT && response == 0 {
          response := |log[t].tokenIds.value|;
        }
      }
      ResponseStep(log, t, before, response);
    }
    assert log[..|log|] == log;
  }

  lemma ResponseStep(log: Log, t: nat, before: nat, now: nat)
    requires t < |log| && IsResponseLength(log[..t], before)
    requires now == if before == 0 && log[t].role == ASSISTANT then TokenCount(log[t]) else before
    ensures IsResponseLength(log[..t + 1], now)
  {
    var longer := log[..t + 1];
    assert forall s :: 0 <= s < t ==> longer[s] == log[..t][s];
    if before > 0 {
      var k :| 0 <= k < t && Answers(log[..t][k]) && TokenCount(log[..t][k]) == before &&
        forall s :: 0 <= s < k ==> !Answers(log[..t][s]);
      assert Answers(longer[k]);
    } else if now > 0 {
      assert Answers(longer[t]);
    }
  }

  ghost predicate Decomposes(logs: seq<Log>, d: Decomposed) {
    |d.turnLengths| == |logs| && |d.roles| == |logs| && |d.contents| == |logs| && |d.responseLengths| == |logs| &&
    forall i :: 0 <= i < |logs| ==>
      IsTurnLengths(logs[i], d.turnLengths[i]) && d.roles[i] == Roles(logs[i]) &&
      d.contents[i] == Contents(logs[i]) && IsResponseLength(logs[i], d.responseLengths[i])
  }

  function TurnCounts(logs: seq<Log>): seq<nat> {
    seq(|logs|, i requires 0 <= i < |logs| => |logs[i]|)
  }

  method DecomposeMessageLog(logs: seq<Log>) returns (d: Decomposed)
    ensures Decomposes(logs, d)
    ensures forall i :: 0 <= i < |logs| ==> |d.turnLengths[i]| == MaxOf(TurnCounts(logs))
  {
    var maxTurns := MaxOf(TurnCounts(logs));
    d := Decomposed([], [], [], []);
    for i := 0 to |logs|
      invariant |d.turnLengths| == i && |d.roles| == i && |d.contents| == i && |d.responseLengths| == i
      invariant forall j :: 0 <= j < i ==>
                  IsTurnLengths(logs[j], d.turnLengths[j]) && |d.turnLengths[j]| == maxTurns &&
                  d.roles[j] == Roles(logs[j]) && d.contents[j] == Contents(logs[j]) &&
                  IsResponseLength(logs[j], d.responseLengths[j])
    {
      assert TurnCounts(logs)[i] <= maxTurns;
      var lengths, roles, contents, response := DecomposeTurns(logs[i], maxTurns);
      d := Decomposed(
        d.turnLengths + [lengths], d.roles + [roles], d.contents + [contents], d.responseLengths + [response]);
    }
  }

  // ---- Reconstruction ----------------------------------------------------

  function SumTo(lengths: seq<nat>, t: nat): nat
    requires t <= |lengths|
  {
    if t == 0 then 0 else SumTo(lengths, t - 1) + lengths[t - 1]
  }

  function RowOf<T>(m: Option<Matrix<T>>, i: nat): Option<seq<T>> {
    if m.Some? && i < |m.value.rows| then Some(m.value.rows[i]) else None
  }

  function RebuiltTurn(row: seq<int>, length: nat, offset: nat, role: string, content: string,
                       logprobs: Option<seq<real>>): Message
  {
    if length == 0 then Message(role, Some(content), None, None, None, None, 0.0)
    else
      Message(role, Some(content), Some(Slice(row, offset, offset + length)),
              if logprobs.Some? && role == ASSISTANT then Some(Slice(logprobs.value, offset, offset + length)) else None,
              None, None, 0.0)
  }

  /** The first `n` turns, each cut at the sum of the lengths before it. */
  function TurnsUpTo(row: seq<int>, lengths: seq<nat>, roles: seq<string>, contents: seq<string>,
                     logprobs: Option<seq<real>>, n: nat): (turns: Log)
    requires n <= |roles| && n <= |lengths| && n <= |contents|
    ensures |turns| == n
  {
    if n == 0 then []
    else TurnsUpTo(row, lengths, roles, contents, logprobs, n - 1) +
         [RebuiltTurn(row, lengths[n - 1], SumTo(lengths, n - 1), roles[n - 1], contents[n - 1], logprobs)]
  }

  function RebuiltLog(row: seq<int>, lengths: seq<nat>, roles: seq<string>, contents: seq<string>,
                      logprobs: Option<seq<real>>): (log: Log)
    requires |roles| <= |lengths| && |roles| <= |contents|
    ensures |log| == |roles|
  {
    TurnsUpTo(row, lengths, roles, contents, logprobs, |roles|)
  }

  lemma {:induction false} TurnAt(row: seq<int>, lengths: seq<nat>, roles: seq<string>, contents: seq<string>,
                                  logprobs: Option<seq<real>>, n: nat, t: nat)
    requires t < n <= |roles| && n <= |lengths| && n <= |contents|
    ensures TurnsUpTo(row, lengths, roles, contents, logprobs, n)[t] ==
            RebuiltTurn(row, lengths[t], SumTo(lengths, t), roles[t], contents[t], logprobs)
  {
    if t < n - 1 {
      TurnAt(row, lengths, roles, contents, logprobs, n - 1, t);
    }
  }

  /** An assistant turn with tokens asks for a row of log probabilities that is not there. */
  predicate RowMissing(logprobs: Option<Matrix<real>>, i: nat, role: string, length: nat) {
    logprobs.Some? && i >= |logprobs.value.rows| && role == ASSISTANT && length != 0
  }

  /** Turn `t` of sample `i` finds what it reads. */
  predicate Readable(lengths: seq<nat>, roles: seq<string>, contents: seq<string>,
                     logprobs: Option<Matrix<real>>, i: nat, t: nat)
  {
    t < |roles| && t < |lengths| && t < |contents| && !RowMissing(logprobs, i, roles[t], lengths[t])
  }

  /** The arrays of one sample cover its turns. */
  predicate Rebuildable(lengths: seq<nat>, roles: seq<string>, contents: seq<string>,
                        logprobs: Option<Matrix<real>>, i: nat)
  {
    |roles| <= |lengths| && |roles| <= |contents| &&
    forall t: nat :: t < |roles| ==> Readable(lengths, roles, contents, logprobs, i, t)
  }

  method BuildTurn(row: seq<int>, length: nat, offset: nat, role: string, content: string,
                   logprobs: Option<Matrix<real>>, i: nat)
    returns (r: Result<Message>)
    ensures r == if RowMissing(logprobs, i, role, length)
                 then Err(IndexError)
                 else Ok(RebuiltTurn(row, length, offset, role, content, RowOf(logprobs, i)))
  {
    var turn := Message(role, Some(content), None, None, None, None, 0.0);
    if length != 0 {
      turn := turn.(tokenIds := Some(Slice(row, offset, offset + length)));
      if logprobs.Some? && role == ASSISTANT {
        if i >= |logprobs.value.rows| {
          return Err(IndexError);
        }
        turn := turn.(generationLogprobs := Some(Slice(logprobs.value.rows[i], offset, offset + length)));
      }
    }
    return Ok(turn);
  }

  /** The loop over the turns, up to the first that finds something missing. */
  method BuildTurns(row: seq<int>, lengths: seq<nat>, roles: seq<string>, contents: seq<string>,
                    logprobs: Option<Matrix<real>>, i: nat)
    returns (built: nat, turns: Log)
    ensures built <= |roles| && built <= |lengths| && built <= |contents|
    ensures forall t: nat :: t < built ==> Readable(lengths, roles, contents, logprobs, i, t)
    ensures built < |roles| ==> !Readable(lengths, roles, contents, logprobs, i, built)
    ensures turns == TurnsUpTo(row, lengths, roles, contents, RowOf(logprobs, i), built)
  {
    built, turns := 0, [];
    var offset := 0;
    ghost var values := RowOf(logprobs, i);
    while built < |roles| && built < |lengths| && built < |contents|
      invariant built <= |roles| && built <= |lengths| && built <= |contents|
      invariant offset == SumTo(lengths, built)
      invariant forall t: nat :: t < built ==> Readable(lengths, roles, contents, logprobs, i, t)
      invariant turns == TurnsUpTo(row, lengths, roles, contents, values, built)
    {
      var turn := BuildTurn(row, lengths[built], offset, roles[built], contents[built], logprobs, i);
      if turn.Err? {
        return;
      }
      turns := turns + [turn.value];
      offset, built := offset + lengths[built], built + 1;
    }
  }

  method ReconstructTurns(row: seq<int>, lengths: seq<nat>, roles: seq<string>, contents: seq<string>,
                          logprobs: Option<Matrix<real>>, i: nat)
    returns (r: Result<Log>)
    ensures r.Ok? <==> Rebuildable(lengths, roles, contents, logprobs, i)
    ensures r.Ok? ==> r.value == RebuiltLog(row, lengths, roles, contents, RowOf(logprobs, i))
    ensures r.Err? ==> r.error == IndexError
  {
    var built, turns := BuildTurns(row, lengths, roles, contents, logprobs, i);
    if built < |roles| {
      return Err(IndexError);
    }
    return Ok(turns);
  }

  /** There is a length and a content for each turn of sample `i` and, if any log
      probabilities came, a row of them for each assistant turn with tokens. */
  ghost predicate CoversSample(lengths: seq<nat>, roles: seq<string>, contents: seq<string>, logprobRows: Option<nat>, i: nat) {
    && |roles| <= |lengths| && |roles| <= |contents|
    && forall t: nat :: t < |roles| && roles[t] == "assistant" && lengths[t] > 0 && logprobRows.Some? ==> i < logprobRows.value
  }

  ghost predicate CoversBatch(n: nat, turnLengths: seq<seq<nat>>, roles: seq<seq<string>>, contents: seq<seq<string>>,
                              logprobRows: Option<nat>)
  {
    && n <= |turnLengths| && n <= |roles| && n <= |contents|
    && forall i: nat :: i < n ==> CoversSample(turnLengths[i], roles[i], contents[i], logprobRows, i)
  }

  function RowCount<T>(m: Option<Matrix<T>>): Option<nat> {
    if m.Some? then Some(|m.value.rows|) else None
  }

  lemma CoversSampleIff(lengths: seq<nat>, roles: seq<string>, contents: seq<string>, logprobs: Option<Matrix<real>>, i: nat)
    ensures Rebuildable(lengths, roles, contents, logprobs, i) <==> CoversSample(lengths, roles, contents, RowCount(logprobs), i)
  {
    if |roles| <= |lengths| && |roles| <= |contents| {
      forall t: nat | t < |roles|
        ensures Readable(lengths, roles, contents, logprobs, i, t) <==>
                (roles[t] == "assistant" && lengths[t] > 0 && RowCount(logprobs).Some? ==> i < RowCount(logprobs).value)
      {
      }
    }
  }

  method ReconstructMessageLog(inputIds: Matrix<int>, turnLengths: seq<seq<nat>>, roles: seq<seq<string>>,
                               contents: seq<seq<string>>, logprobs: Option<Matrix<real>>)
    returns (r: Result<seq<Log>>)
    ensures r.Ok? <==> CoversBatch(|inputIds.rows|, turnLengths, roles, contents, RowCount(logprobs))
    ensures r.Ok? ==> |r.value| == |inputIds.rows|
    ensures r.Ok? ==>
              forall i: nat :: i < |r.value| ==>
                r.value[i] == RebuiltLog(inputIds.rows[i], turnLengths[i], roles[i], contents[i], RowOf(logprobs, i))
    ensures r.Err? ==> r.error == IndexError
  {
    var out: seq<Log> := [];
    for i := 0 to |inputIds.rows|
      invariant CoversBatch(i, turnLengths, roles, contents, RowCount(logprobs))
      invariant |out| == i
      invariant forall j: nat :: j < i ==>
                  out[j] == RebuiltLog(inputIds.rows[j], turnLengths[j], roles[j], contents[j], RowOf(logprobs, j))
    {
      if i >= |roles| || i >= |contents| || i >= |turnLengths| {
        return Err(IndexError);
      }
      CoversSampleIff(turnLengths[i], roles[i], contents[i], logprobs, i);
      var log := ReconstructTurns(inputIds.rows[i], turnLengths[i], roles[i], contents[i], logprobs, i);
      if log.Err? {
        return Err(IndexError);
      }
      out := out + [log.value];
    }
    return Ok(out);
  }

  // ---- The round trip ----------------------------------------------------

  /** What a turn must look like after the round trip. */
  predicate SameTurn(m: Message, back: Message) {
    back.role == m.role && back.content == Some(ContentOf(m)) &&
    back.tokenIds == if TokenCount(m) > 0 then m.tokenIds else None
  }

  /** Routes, masks and penalties do not travel. */
  predicate Bare(m: Message) {
    m.routedExperts == None && m.tokenLossMask == None && m.advantagePenalty == 0.0
  }

  predicate SameTurns(log: Log, back: Log) {
    |back| == |log| && forall t :: 0 <= t < |log| ==> SameTurn(log[t], back[t])
  }

  /** Assistant turns with tokens carry their log probabilities, no other turn does. */
  predicate SameLogprobs(log: Log, back: Log) {
    |back| == |log| && forall t :: 0 <= t < |log| ==>
      back[t].generationLogprobs == if Answers(log[t]) then log[t].generationLogprobs else None
  }

  ghost predicate StartsWith<T>(row: seq<T>, prefix: seq<T>) {
    |prefix| <= |row| && row[..|prefix|] == prefix
  }

  lemma SliceOfPrefix<T>(row: seq<T>, prefix: seq<T>, lo: nat, hi: nat, part: seq<T>)
    requires StartsWith(row, prefix) && lo <= hi <= |prefix| && prefix[lo..hi] == part
    ensures Slice(row, lo, hi) == part
  {
    assert row[..|prefix|][lo..hi] == row[lo..hi];
  }

  /** A row that starts with a column holds each turn's part at the turn's offset. */
  lemma {:induction false} PartAtOffset<T>(log: Log, column: Option<seq<T>>, row: seq<T>, t: nat, part: Option<seq<T>>)
    requires HoldsTurn(log, column, t, part) && StartsWith(row, Held(column))
    ensures Slice(row, Offset(log, t), Offset(log, t) + TokenCount(log[t])) == Held(part)
  {
    SliceOfPrefix(row, Held(column), Offset(log, t), Offset(log, t) + TokenCount(log[t]), Held(part));
  }

  /** The row a log's probabilities arrived in, or none if the log has none. */
  ghost predicate BringsLogprobs(log: Log, logprobs: Option<seq<real>>) {
    if logprobs.Some? then StartsWith(logprobs.value, Held(FlatOf(log).generationLogprobs))
    else !Present(LogprobParts(log))
  }

  lemma {:induction false} LogprobsComeBack(log: Log, row: seq<int>, logprobs: Option<seq<real>>, t: nat)
    requires t < |log| && BringsLogprobs(log, logprobs) && Aligned(log, LogprobParts(log))
    ensures RebuiltTurn(row, TokenCount(log[t]), Offset(log, t), log[t].role, ContentOf(log[t]), logprobs).generationLogprobs ==
            if Answers(log[t]) then log[t].generationLogprobs else None
  {
    if logprobs.Some? {
      FlatLogprobs(log, t);
      PartAtOffset(log, FlatOf(log).generationLogprobs, logprobs.value, t, log[t].generationLogprobs);
    } else {
      assert LogprobParts(log)[t].None?;
    }
  }

  lemma {:induction false} TurnComesBack(log: Log, row: seq<int>, offset: nat, logprobs: Option<seq<real>>, t: nat)
    requires t < |log| && StartsWith(row, Held(FlatOf(log).tokenIds)) && offset == Offset(log, t)
    ensures SameTurn(log[t], RebuiltTurn(row, TokenCount(log[t]), offset, log[t].role, ContentOf(log[t]), logprobs))
  {
    FlatTokens(log, t);
    PartAtOffset(log, FlatOf(log).tokenIds, row, t, log[t].tokenIds);
  }

  /** The lengths of the first `kept` turns, then zeros. */
  predicate CutLengths(log: Log, lengths: seq<nat>, kept: nat) {
    |log| <= |lengths| &&
    forall t :: 0 <= t < |lengths| ==> lengths[t] == if t < |log| && t < kept then TokenCount(log[t]) else 0
  }

  /** Turns ahead of the cut come back with their tokens, the others without any;
      all come back with role and content, and without annotations. */
  predicate BackUpTo(log: Log, back: Log, kept: nat) {
    |back| == |log| && forall t :: 0 <= t < |log| ==>
      back[t].role == log[t].role && back[t].content == Some(ContentOf(log[t])) && Bare(back[t]) &&
      if t < kept then SameTurn(log[t], back[t]) else back[t].tokenIds == None
  }

  /** Assistant turns with tokens ahead of the cut carry their log probabilities, no
      other turn does. */
  predicate LogprobsUpTo(log: Log, back: Log, kept: nat) {
    |back| == |log| && forall t :: 0 <= t < |log| ==>
      back[t].generationLogprobs == if t < kept && Answers(log[t]) then log[t].generationLogprobs else None
  }

  lemma {:induction false} CutLengthsGiveOffsets(log: Log, lengths: seq<nat>, kept: nat, t: nat)
    requires CutLengths(log, lengths, kept) && t <= |log| && t <= kept
    ensures SumTo(lengths, t) == Offset(log, t)
  {
    if t > 0 {
      CutLengthsGiveOffsets(log, lengths, kept, t - 1);
    }
  }

  /** Reconstruction from cut lengths, turn by turn. */
  lemma CutLogComesBack(log: Log, row: seq<int>, lengths: seq<nat>, kept: nat, logprobs: Option<seq<real>>)
    requires StartsWith(row, Held(FlatOf(log).tokenIds)) && CutLengths(log, lengths, kept)
    ensures BackUpTo(log, RebuiltLog(row, lengths, Roles(log), Contents(log), logprobs), kept)
  {
    var back := RebuiltLog(row, lengths, Roles(log), Contents(log), logprobs);
    forall t | 0 <= t < |log|
      ensures back[t].role == log[t].role && back[t].content == Some(ContentOf(log[t])) && Bare(back[t])
      ensures if t < kept then SameTurn(log[t], back[t]) else back[t].tokenIds == None
    {
      TurnAt(row, lengths, Roles(log), Contents(log), logprobs, |log|, t);
      if t < kept {
        CutLengthsGiveOffsets(log, lengths, kept, t);
        TurnComesBack(log, row, Offset(log, t), logprobs, t);
      }
    }
  }

  /** The same for the log probabilities. */
  lemma CutLogprobsComeBack(log: Log, row: seq<int>, lengths: seq<nat>, kept: nat, logprobs: Option<seq<real>>)
    requires BringsLogprobs(log, logprobs) && CutLengths(log, lengths, kept) && Aligned(log, LogprobParts(log))
    ensures LogprobsUpTo(log, RebuiltLog(row, lengths, Roles(log), Contents(log), logprobs), kept)
  {
    var back := RebuiltLog(row, lengths, Roles(log), Contents(log), logprobs);
    forall t | 0 <= t < |log|
      ensures back[t].generationLogprobs == if t < kept && Answers(log[t]) then log[t].generationLogprobs else None
    {
      TurnAt(row, lengths, Roles(log), Contents(log), logprobs, |log|, t);
      if t < kept {
        CutLengthsGiveOffsets(log, lengths, kept, t);
        LogprobsComeBack(log, row, logprobs, t);
      }
    }
  }

  /** With whole lengths, reconstruction undoes flattening on any row that starts with
      the flat tokens. */
  lemma RebuildUndoesFlatten(log: Log, row: seq<int>, lengths: seq<nat>, logprobs: Option<seq<real>>)
    requires StartsWith(row, Held(FlatOf(log).tokenIds)) && IsTurnLengths(log, lengths)
    ensures SameTurns(log, RebuiltLog(row, lengths, Roles(log), Contents(log), logprobs))
  {
    CutLogComesBack(log, row, lengths, |log|, logprobs);
  }

  lemma RebuildRestoresLogprobs(log: Log, row: seq<int>, lengths: seq<nat>, logprobs: seq<real>)
    requires StartsWith(logprobs, Held(FlatOf(log).generationLogprobs)) && IsTurnLengths(log, lengths)
    requires Aligned(log, LogprobParts(log))
    ensures SameLogprobs(log, RebuiltLog(row, lengths, Roles(log), Contents(log), Some(logprobs)))
  {
    CutLogprobsComeBack(log, row, lengths, |log|, Some(logprobs));
  }

  /** A stacked column is rectangular, and each row starts with its log's values. */
  lemma StackedRows<T>(columns: seq<Option<seq<T>>>, lengths: seq<nat>, width: nat, pad: T)
    requires Present(columns) && |columns| == |lengths|
    requires forall i :: 0 <= i < |lengths| ==> |Held(columns[i])| <= lengths[i] <= width
    ensures Fits(Stacked(columns, width, pad).value, lengths)
    ensures forall i :: 0 <= i < |lengths| ==>
              Stacked(columns, width, pad).value.rows[i][..|Held(columns[i])|] == Held(columns[i])
  {
  }

  /** Flattened, packed, shipped and materialized, a column's rows still start
      with their logs' values. */
  lemma ColumnSurvives<T>(columns: seq<Option<seq<T>>>, lengths: seq<nat>, width: nat, pad: T, wirePad: T, padTo: nat)
    requires Present(columns) && |columns| == |lengths|
    requires forall i :: 0 <= i < |lengths| ==> |Held(columns[i])| <= lengths[i] <= width
    ensures var back := MaterializeLeaf(MaybePackJagged(Stacked(columns, width, pad).value, lengths), wirePad, padTo);
            |back.rows| == |lengths| &&
            forall i :: 0 <= i < |lengths| ==> StartsWith(back.rows[i], Held(columns[i]))
  {
    var m := Stacked(columns, width, pad).value;
    StackedRows(columns, lengths, width, pad);
    WireKeepsPrefixes(m, lengths, wirePad, padTo);
    var back := MaterializeLeaf(MaybePackJagged(m, lengths), wirePad, padTo);
    forall i | 0 <= i < |lengths|
      ensures StartsWith(back.rows[i], Held(columns[i]))
    {
      var n := |Held(columns[i])|;
      assert back.rows[i][..lengths[i]][..n] == back.rows[i][..n];
      assert m.rows[i][..lengths[i]][..n] == m.rows[i][..n];
    }
  }

  predicate HasTokens(logs: seq<Log>) {
    exists i :: 0 <= i < |logs| && Present(TokenParts(logs[i]))
  }

  predicate MixesRoutes(logs: seq<Log>) {
    exists i, j :: 0 <= i < |logs| && 0 <= j < |logs| && Present(RouteParts(logs[i])) && !Present(RouteParts(logs[j]))
  }

  /** The padded width holds every column. */
  lemma ColumnsFit(flats: seq<FlatLog>, divisor: nat)
    requires divisor > 0
    ensures var lengths, width := Lengths(flats), RoundUp(MaxOf(Lengths(flats)), divisor);
            forall i :: 0 <= i < |flats| ==>
              |Held(TokenColumns(flats)[i])| <= lengths[i] <= width &&
              |Held(LogprobColumns(flats)[i])| <= lengths[i]
  {
    RoundUpIsLeastMultiple(MaxOf(Lengths(flats)), divisor);
    forall i | 0 <= i < |flats|
      ensures Lengths(flats)[i] <= RoundUp(MaxOf(Lengths(flats)), divisor)
    {
      assert Lengths(flats)[i] <= MaxOf(Lengths(flats));
    }
  }

  lemma TokensPresent(logs: seq<Log>)
    ensures Present(TokenColumns(Flats(logs))) <==> HasTokens(logs)
  {
    var columns := TokenColumns(Flats(logs));
    assert forall i :: 0 <= i < |logs| ==> (columns[i].Some? <==> Present(TokenParts(logs[i])));
  }

  lemma MixedAlike(logs: seq<Log>)
    ensures RoutesMixed(Flats(logs)) <==> MixesRoutes(logs)
  {
    var flats := Flats(logs);
    assert forall i :: 0 <= i < |logs| ==> (flats[i].routedExperts.Some? <==> Present(RouteParts(logs[i])));
  }

  lemma TokensAreTensors(logs: seq<Log>)
    requires HasTokens(logs)
    ensures exists i :: 0 <= i < |Flats(logs)| && HasTensor(Flats(logs)[i])
  {
    var i :| 0 <= i < |logs| && Present(TokenParts(logs[i]));
    assert HasTensor(Flats(logs)[i]);
  }

  /** Why a batch cannot be shipped: the first of the obstacles in its way. */
  function Refusal(logs: seq<Log>, divisor: nat): Error {
    if logs != [] && divisor == 0 then ZeroDivisionError
    else if MixesRoutes(logs) then RuntimeError
    else KeyError
  }

  lemma FlattenSucceeds(logs: seq<Log>, divisor: nat, pads: Pads)
    ensures var r := BatchOf(logs, divisor, pads);
            r.Ok? && r.value.tokenIds.Some? <==> divisor > 0 && HasTokens(logs) && !MixesRoutes(logs)
    ensures var r := BatchOf(logs, divisor, pads);
            (r.Err? ==> r.error == Refusal(logs, divisor)) &&
            (r.Ok? && r.value.tokenIds.None? ==> Refusal(logs, divisor) == KeyError)
  {
    TokensPresent(logs);
    MixedAlike(logs);
    if HasTokens(logs) {
      TokensAreTensors(logs);
    }
  }

  /** Sends one column over the wire. */
  method ShipColumn<T>(name: string, m: Matrix<T>, lengths: seq<nat>, wirePad: T, padTo: nat) returns (back: Matrix<T>)
    ensures back == MaterializeLeaf(MaybePackJagged(m, lengths), wirePad, padTo)
  {
    var packed := PackJaggedFields(map[name := m], Some(lengths));
    var out := Materialize(packed, map[], wirePad, padTo);
    back := out[name];
  }

  /** Every row of the matrix starts with its log's column. */
  ghost predicate Carries<T>(m: Matrix<T>, columns: seq<Option<seq<T>>>) {
    |m.rows| == |columns| && forall i :: 0 <= i < |columns| ==> StartsWith(m.rows[i], Held(columns[i]))
  }

  /** What the consumer holds: token rows, and log probabilities if any log has them. */
  ghost predicate Arrived(flats: seq<FlatLog>, inputIds: Matrix<int>, logprobs: Option<Matrix<real>>) {
    Carries(inputIds, TokenColumns(flats)) &&
    (logprobs.Some? <==> Present(LogprobColumns(flats))) &&
    (logprobs.Some? ==> Carries(logprobs.value, LogprobColumns(flats)))
  }

  lemma BatchArrives(flats: seq<FlatLog>, divisor: nat, pads: Pads, wirePads: Pads, padTo: nat)
    requires divisor > 0 && Present(TokenColumns(flats))
    ensures var lengths, width := Lengths(flats), RoundUp(MaxOf(Lengths(flats)), divisor);
            Carries(MaterializeLeaf(MaybePackJagged(Stacked(TokenColumns(flats), width, pads.token).value, lengths),
                                    wirePads.token, padTo), TokenColumns(flats)) &&
            (Present(LogprobColumns(flats)) ==>
              Carries(MaterializeLeaf(MaybePackJagged(Stacked(LogprobColumns(flats), width, pads.logprob).value, lengths),
                                      wirePads.logprob, padTo), LogprobColumns(flats)))
  {
    var lengths, width := Lengths(flats), RoundUp(MaxOf(Lengths(flats)), divisor);
    ColumnsFit(flats, divisor);
    ColumnSurvives(TokenColumns(flats), lengths, width, pads.token, wirePads.token, padTo);
    if Present(LogprobColumns(flats)) {
      ColumnSurvives(LogprobColumns(flats), lengths, width, pads.logprob, wirePads.logprob, padTo);
    }
  }

  method SendColumns(logs: seq<Log>, divisor: nat, pads: Pads, wirePads: Pads, padTo: nat)
    returns (r: Result<(Matrix<int>, Option<Matrix<real>>)>)
    ensures r.Ok? <==> divisor > 0 && HasTokens(logs) && !MixesRoutes(logs)
    ensures r.Err? ==> r.error == Refusal(logs, divisor)
    ensures r.Ok? ==> Arrived(Flats(logs), r.value.0, r.value.1)
  {
    var batch := BatchedMessageLogToFlatMessage(logs, divisor, pads);
    FlattenSucceeds(logs, divisor, pads);
    if batch.Err? {
      return Err(batch.error);
    }
    if batch.value.tokenIds.None? {
      return Err(KeyError);
    }
    var b := batch.value;
    BatchArrives(Flats(logs), divisor, pads, wirePads, padTo);
    var inputIds := ShipColumn("input_ids", b.tokenIds.value, b.lengths, wirePads.token, padTo);
    if b.generationLogprobs.None? {
      return Ok((inputIds, None));
    }
    var logprobs := ShipColumn("generation_logprobs", b.generationLogprobs.value, b.lengths, wirePads.logprob, padTo);
    return Ok((inputIds, Some(logprobs)));
  }

  // ---- Turn lengths on the wire ------------------------------------------

  /** Turn lengths ride the same wire. When the most turns of a log happen to
      equal the longest token row they pass for a per-token column, and each
      row is cut at its log's token count. */
  predicate LengthsCut(logs: seq<Log>) {
    MaxOf(TurnCounts(logs)) == MaxOf(Lengths(Flats(logs)))
  }

  /** How many turns of a log are ahead of the cut. */
  function KeptTurns(logs: seq<Log>, log: Log): nat {
    if LengthsCut(logs) then Longest(FlatOf(log)) else |log|
  }

  /** Whether the cut, if any, spares every turn of the log that has tokens. */
  predicate LengthsSurvive(logs: seq<Log>, log: Log) {
    forall t :: KeptTurns(logs, log) <= t < |log| ==> TokenCount(log[t]) == 0
  }

  /** Whether it spares every assistant turn that has log probabilities to its tokens. */
  predicate LogprobsSurvive(logs: seq<Log>, log: Log) {
    forall t :: KeptTurns(logs, log) <= t < |log| && Answers(log[t]) ==> log[t].generationLogprobs == None
  }

  /** A log without empty turns has no more turns than tokens. */
  lemma {:induction false} TurnsBelowTokens(log: Log, t: nat)
    requires t <= |log|
    requires forall s :: 0 <= s < t ==> TokenCount(log[s]) > 0
    ensures t <= Offset(log, t)
  {
    if t > 0 {
      TurnsBelowTokens(log, t - 1);
    }
  }

  /** So its turn lengths survive in any batch. */
  lemma FullTurnsSurvive(logs: seq<Log>, log: Log)
    requires forall t :: 0 <= t < |log| ==> TokenCount(log[t]) > 0
    ensures LengthsSurvive(logs, log)
  {
    TurnsBelowTokens(log, |log|);
    if log != [] {
      FlatTokens(log, 0);
    }
  }

  function Turn(tokens: seq<int>): Message {
    Message("user", None, Some(tokens), None, None, None, 0.0)
  }

  /** Beside a log of two one-token turns, a log whose only token comes in its
      second turn is cut before that turn. */
  lemma EmptyTurnIsCut()
    ensures var short := [Turn([]), Turn([7])];
            KeptTurns([[Turn([1]), Turn([2])], short], short) == 1
  {
    TwoTurns([1], [2]);
    TwoTurns([], [7]);
    PairIsCut([Turn([1]), Turn([2])], [Turn([]), Turn([7])]);
  }

  function ShortPair(): seq<Log> {
    [[Turn([1]), Turn([2])], [Turn([]), Turn([7])]]
  }

  /** And so it comes back with the token gone. */
  method EmptyTurnCostsTokens(divisor: nat, pads: Pads, wirePads: Pads, padTo: nat) returns (back: Message)
    requires divisor > 0
    ensures back.role == "user" && back.tokenIds == None
  {
    ShortPairShips();
    var r := ShipMessageLogs(ShortPair(), divisor, pads, wirePads, padTo);
    assert BackUpTo(ShortPair()[1], r.value[1], 1);
    back := r.value[1][1];
  }

  lemma ShortPairShips()
    ensures HasTokens(ShortPair()) && !MixesRoutes(ShortPair())
    ensures KeptTurns(ShortPair(), ShortPair()[1]) == 1
  {
    EmptyTurnIsCut();
    PlainTurns([1], [2]);
    PlainTurns([], [7]);
    PlainPairShips([Turn([1]), Turn([2])], [Turn([]), Turn([7])]);
  }

  lemma PlainPairShips(a: Log, b: Log)
    requires Present(TokenParts(a)) && !Present(RouteParts(a)) && !Present(RouteParts(b))
    ensures HasTokens([a, b]) && !MixesRoutes([a, b])
  {
    assert [a, b][0] == a && [a, b][1] == b;
  }

  lemma PlainTurns(a: seq<int>, b: seq<int>)
    ensures Present(TokenParts([Turn(a), Turn(b)])) && !Present(RouteParts([Turn(a), Turn(b)]))
  {
    assert TokenParts([Turn(a), Turn(b)])[0].Some?;
  }

  function RoutedTurn(): Message {
    Message(ASSISTANT, None, Some([1]), None, Some([Recorded([[0]])]), None, 0.0)
  }

  /** A batch of one routed and one plain log is refused, whatever the padding. */
  lemma MixedRoutingIsRefused(divisor: nat, pads: Pads)
    requires divisor > 0
    ensures BatchOf([[RoutedTurn()], [Turn([2])]], divisor, pads) == Err(RuntimeError)
  {
    var logs := [[RoutedTurn()], [Turn([2])]];
    var flats := Flats(logs);
    assert RouteParts(logs[0])[0].Some? && RouteParts(logs[1])[0].None?;
    assert flats[0].routedExperts.Some? && flats[1].routedExperts.None?;
    assert HasTensor(flats[0]) && RoutesMixed(flats);
  }

  lemma MaxOfPair(a: nat, b: nat)
    ensures MaxOf([a, b]) == Max(a, b)
  {
    MaxOfSnoc([a], b);
    MaxOfSnoc([], a);
    assert [] + [a] == [a] && [a] + [b] == [a, b];
  }

  lemma PairIsCut(a: Log, b: Log)
    requires Max(|a|, |b|) == Max(Longest(FlatOf(a)), Longest(FlatOf(b)))
    ensures LengthsCut([a, b])
  {
    var flats := Flats([a, b]);
    assert Lengths(flats) == [Longest(FlatOf(a)), Longest(FlatOf(b))];
    assert TurnCounts([a, b]) == [|a|, |b|];
    MaxOfPair(Longest(FlatOf(a)), Longest(FlatOf(b)));
    MaxOfPair(|a|, |b|);
  }

  lemma TwoTurns(a: seq<int>, b: seq<int>)
    ensures Longest(FlatOf([Turn(a), Turn(b)])) == |a| + |b|
  {
    var log := [Turn(a), Turn(b)];
    FlatTokens(log, 0);
    assert Offset(log, 2) == |a| + |b|;
    assert !Present(LogprobParts(log)) && !Present(RouteParts(log)) && !Present(MaskParts(log));
  }

  /** Entry by entry, what the wire does to a matrix of turn lengths. */
  lemma {:induction false} ShippedLengths(m: Matrix<nat>, lengths: seq<nat>, padTo: nat, i: nat)
    requires Rectangular(m) && |m.rows| == |lengths| && i < |lengths|
    ensures var back := MaterializeLeaf(MaybePackJagged(m, lengths), 0, padTo);
            |back.rows| == |lengths| && |back.rows[i]| >= m.width &&
            forall t :: 0 <= t < |back.rows[i]| ==>
              back.rows[i][t] == if t < m.width && (m.width == MaxOf(lengths) ==> t < lengths[i]) then m.rows[i][t] else 0
  {
    if m.width == MaxOf(lengths) {
      assert Fits(m, lengths);
      NestedWidth(m, lengths);
    }
  }

  lemma SurvivingLengths(logs: seq<Log>, m: Matrix<nat>, row: seq<nat>, i: nat)
    requires i < |logs| && i < |m.rows| && m.width == MaxOf(TurnCounts(logs)) == |m.rows[i]|
    requires IsTurnLengths(logs[i], m.rows[i]) && |row| >= m.width
    requires forall t :: 0 <= t < |row| ==>
               row[t] == if t < m.width && (LengthsCut(logs) ==> t < Longest(FlatOf(logs[i]))) then m.rows[i][t] else 0
    ensures CutLengths(logs[i], row, KeptTurns(logs, logs[i]))
  {
  }

  /** Turn by turn and log by log: everything is back exactly when no turn behind the
      cut has tokens. */
  lemma SameIffNothingCut(log: Log, back: Log, kept: nat)
    requires BackUpTo(log, back, kept)
    ensures SameTurns(log, back) <==> forall t :: kept <= t < |log| ==> TokenCount(log[t]) == 0
  {
    if SameTurns(log, back) {
      forall t | kept <= t < |log|
        ensures TokenCount(log[t]) == 0
      {
        assert SameTurn(log[t], back[t]);
      }
    }
  }

  lemma LogprobsSameIff(log: Log, back: Log, kept: nat)
    requires LogprobsUpTo(log, back, kept)
    ensures SameLogprobs(log, back) <==> forall t :: kept <= t < |log| && Answers(log[t]) ==> log[t].generationLogprobs == None
  {
    if SameLogprobs(log, back) {
      forall t | kept <= t < |log| && Answers(log[t])
        ensures log[t].generationLogprobs == None
      {
        assert back[t].generationLogprobs == log[t].generationLogprobs;
      }
    }
  }

  // ---- End to end --------------------------------------------------------

  /** Flatten, pack, materialize, decompose and reconstruct, for any divisor,
      any padding and any requested width. */
  method ShipMessageLogs(logs: seq<Log>, divisor: nat, pads: Pads, wirePads: Pads, padTo: nat)
    returns (r: Result<seq<Log>>)
    ensures r.Ok? <==> divisor > 0 && HasTokens(logs) && !MixesRoutes(logs)
    ensures r.Err? ==> r.error == Refusal(logs, divisor)
    ensures r.Ok? ==> |r.value| == |logs|
    ensures r.Ok? ==> forall i :: 0 <= i < |logs| ==>
              BackUpTo(logs[i], r.value[i], KeptTurns(logs, logs[i]))
    ensures r.Ok? ==> forall i :: 0 <= i < |logs| ==>
              (SameTurns(logs[i], r.value[i]) <==> LengthsSurvive(logs, logs[i]))
    ensures r.Ok? ==> forall i :: 0 <= i < |logs| && Aligned(logs[i], LogprobParts(logs[i])) ==>
              LogprobsUpTo(logs[i], r.value[i], KeptTurns(logs, logs[i])) &&
              (SameLogprobs(logs[i], r.value[i]) <==> LogprobsSurvive(logs, logs[i]))
  {
    var sent := SendColumns(logs, divisor, pads, wirePads, padTo);
    if sent.Err? {
      return Err(sent.error);
    }
    var inputIds, logprobs := sent.value.0, sent.value.1;
    var d := DecomposeMessageLog(logs);
    var m := Matrix(d.turnLengths, MaxOf(TurnCounts(logs)));
    var turnLengths := ShipColumn("turn_lengths", m, Lengths(Flats(logs)), 0, padTo);
    forall i: nat | i < |logs|
      ensures CoversSample(turnLengths.rows[i], d.roles[i], d.contents[i], RowCount(logprobs), i)
    {
      ShippedLengths(m, Lengths(Flats(logs)), padTo, i);
      CoversSampleIff(turnLengths.rows[i], d.roles[i], d.contents[i], logprobs, i);
    }
    r := ReconstructMessageLog(inputIds, turnLengths.rows, d.roles, d.contents, logprobs);
    forall i: nat | i < |logs|
      ensures ComesBack(logs, logs[i], r.value[i])
    {
      ShippedLogComesBack(logs, m, inputIds, logprobs, padTo, i);
    }
  }

  /** What the round trip promises of one log of a batch. */
  ghost predicate ComesBack(logs: seq<Log>, log: Log, back: Log) {
    && BackUpTo(log, back, KeptTurns(logs, log))
    && (SameTurns(log, back) <==> LengthsSurvive(logs, log))
    && (Aligned(log, LogprobParts(log)) ==>
          LogprobsUpTo(log, back, KeptTurns(logs, log)) && (SameLogprobs(log, back) <==> LogprobsSurvive(logs, log)))
  }

  lemma ShippedLogComesBack(logs: seq<Log>, m: Matrix<nat>, inputIds: Matrix<int>, logprobs: Option<Matrix<real>>,
                            padTo: nat, i: nat)
    requires i < |logs| && Arrived(Flats(logs), inputIds, logprobs)
    requires Rectangular(m) && |m.rows| == |logs| && m.width == MaxOf(TurnCounts(logs))
    requires IsTurnLengths(logs[i], m.rows[i])
    ensures var back := MaterializeLeaf(MaybePackJagged(m, Lengths(Flats(logs))), 0, padTo);
            && |back.rows| == |logs| && |logs[i]| <= |back.rows[i]|
            && ComesBack(logs, logs[i], RebuiltLog(inputIds.rows[i], back.rows[i], Roles(logs[i]), Contents(logs[i]), RowOf(logprobs, i)))
  {
    var lengths := Lengths(Flats(logs));
    ShippedLengths(m, lengths, padTo, i);
    var row := MaterializeLeaf(MaybePackJagged(m, lengths), 0, padTo).rows[i];
    assert lengths[i] == Longest(FlatOf(logs[i]));
    SurvivingLengths(logs, m, row, i);
    RowComesBack(Flats(logs), logs[i], KeptTurns(logs, logs[i]), row, inputIds, logprobs, i);
    if Aligned(logs[i], LogprobParts(logs[i])) {
      LogprobsSameIff(logs[i], RebuiltLog(inputIds.rows[i], row, Roles(logs[i]), Contents(logs[i]), RowOf(logprobs, i)),
                      KeptTurns(logs, logs[i]));
    }
  }

  lemma LogprobsArrive(flats: seq<FlatLog>, log: Log, inputIds: Matrix<int>, logprobs: Option<Matrix<real>>, i: nat)
    requires i < |flats| && flats[i] == FlatOf(log) && Arrived(flats, inputIds, logprobs)
    ensures BringsLogprobs(log, RowOf(logprobs, i))
  {
    if logprobs.Some? {
      assert StartsWith(logprobs.value.rows[i], Held(LogprobColumns(flats)[i]));
    } else {
      assert LogprobColumns(flats)[i].None?;
    }
  }

  lemma RowComesBack(flats: seq<FlatLog>, log: Log, kept: nat, row: seq<nat>, inputIds: Matrix<int>,
                     logprobs: Option<Matrix<real>>, i: nat)
    requires i < |flats| && flats[i] == FlatOf(log) && Arrived(flats, inputIds, logprobs)
    requires CutLengths(log, row, kept)
    ensures var back := RebuiltLog(inputIds.rows[i], row, Roles(log), Contents(log), RowOf(logprobs, i));
            && BackUpTo(log, back, kept)
            && (SameTurns(log, back) <==> forall t :: kept <= t < |log| ==> TokenCount(log[t]) == 0)
            && (Aligned(log, LogprobParts(log)) ==> LogprobsUpTo(log, back, kept))
  {
    var back := RebuiltLog(inputIds.rows[i], row, Roles(log), Contents(log), RowOf(logprobs, i));
    assert StartsWith(inputIds.rows[i], Held(TokenColumns(flats)[i]));
    CutLogComesBack(log, inputIds.rows[i], row, kept, RowOf(logprobs, i));
    SameIffNothingCut(log, back, kept);
    if Aligned(log, LogprobParts(log)) {
      LogprobsArrive(flats, log, inputIds, logprobs, i);
      CutLogprobsComeBack(log, inputIds.rows[i], row, kept, RowOf(logprobs, i));
    }
  }
}
