/** Advantage penalties on the token spans of flagged turns. */
module SpanPenalties {
  // The penalties are written in place, so it matters whether the matrix owns its
  // cells: an estimator that expands one advantage per sample to token width
  // returns rows whose cells all share one memory location.  Whether the library
  // writes a slice of such cells or refuses it is an input.

  import opened Options
  import opened Messages
  import opened FlatMessages
  import opened GroupBaseline
  import opened Grouping
  import opened Sums
  import opened Totals

  predicate Flagged(m: Message) {
    TokenCount(m) > 0 && m.advantagePenalty > 0.0
  }

  predicate AnyFlagged(log: Log) {
    exists k :: 0 <= k < |log| && Flagged(log[k])
  }

  function FlaggedCount(log: Log, n: nat): nat
    requires n <= |log|
  {
    if n == 0 then 0 else FlaggedCount(log, n - 1) + if Flagged(log[n - 1]) then 1 else 0
  }

  function FlaggedTotal(logs: seq<Log>, n: nat): nat
    requires n <= |logs|
  {
    if n == 0 then 0 else FlaggedTotal(logs, n - 1) + FlaggedCount(logs[n - 1], |logs[n - 1]|)
  }

  // ---- A cell of its own -------------------------------------------------

  /** What a cell of its own holds after the first `n` turns. */
  function CellAfter(log: Log, n: nat, j: nat, v: real): real
    requires n <= |log|
  {
    if n == 0 then v
    else if Flagged(log[n - 1]) && InSpan(log, n - 1, j) then -log[n - 1].advantagePenalty
    else CellAfter(log, n - 1, j, v)
  }

  /** A cell of its own whose token belongs to a flagged turn gets that turn's penalty. */
  lemma {:induction false} PenaltyHits(log: Log, n: nat, j: nat, v: real, k: nat)
    requires k < n <= |log| && InSpan(log, k, j) && log[k].advantagePenalty > 0.0
    ensures CellAfter(log, n, j, v) == -log[k].advantagePenalty
  {
    if InSpan(log, n - 1, j) {
      SpansDisjoint(log, k, n - 1, j);
    } else {
      PenaltyHits(log, n - 1, j, v, k);
    }
  }

  /** Every other cell of its own keeps its advantage, padding included. */
  lemma {:induction false} PenaltySpares(log: Log, n: nat, j: nat, v: real)
    requires n <= |log|
    requires forall k: nat :: k < n && InSpan(log, k, j) ==> log[k].advantagePenalty <= 0.0
    ensures CellAfter(log, n, j, v) == v
  {
    if n > 0 {
      assert InSpan(log, n - 1, j) ==> log[n - 1].advantagePenalty <= 0.0;
      PenaltySpares(log, n - 1, j, v);
    }
  }

  // ---- A cell shared by the row ------------------------------------------

  /** A flagged turn whose span reaches into a row of this width. */
  predicate Reaches(log: Log, width: nat, k: nat) {
    k < |log| && Flagged(log[k]) && Offset(log, k) < width
  }

  /** That is, one of its tokens has a cell in the row. */
  lemma ReachesIff(log: Log, width: nat, k: nat)
    ensures Reaches(log, width, k) <==>
            exists j: nat :: j < width && InSpan(log, k, j) && log[k].advantagePenalty > 0.0
  {
    if k < |log| && Flagged(log[k]) {
      assert InSpan(log, k, Offset(log, k));
    }
  }

  /** What the one cell of a broadcast row holds after the first `n` turns. */
  function SharedAfter(log: Log, n: nat, width: nat, v: real): real
    requires n <= |log|
  {
    if n == 0 then v
    else if Reaches(log, width, n - 1) then -log[n - 1].advantagePenalty
    else SharedAfter(log, n - 1, width, v)
  }

  /** The last flagged turn that reaches into the row decides the whole row. */
  lemma {:induction false} LastPenaltyWins(log: Log, n: nat, width: nat, v: real, k: nat)
    requires k < n <= |log| && Reaches(log, width, k)
    requires forall m: nat :: k < m < n ==> !Reaches(log, width, m)
    ensures SharedAfter(log, n, width, v) == -log[k].advantagePenalty
  {
    if k < n - 1 {
      LastPenaltyWins(log, n - 1, width, v, k);
    }
  }

  lemma {:induction false} NoPenaltyKeepsRow(log: Log, n: nat, width: nat, v: real)
    requires n <= |log| && forall k: nat :: k < n ==> !Reaches(log, width, k)
    ensures SharedAfter(log, n, width, v) == v
  {
    if n > 0 {
      NoPenaltyKeepsRow(log, n - 1, width, v);
    }
  }

  lemma {:induction false} LastReaching(log: Log, n: nat, width: nat, k: nat) returns (last: nat)
    requires k < n <= |log| && Reaches(log, width, k)
    ensures k <= last < n && Reaches(log, width, last)
    ensures forall m: nat :: last < m < n ==> !Reaches(log, width, m)
  {
    if Reaches(log, width, n - 1) {
      last := n - 1;
    } else {
      last := LastReaching(log, n - 1, width, k);
    }
  }

  // ---- When one shared cell is right for the whole row -------------------

  predicate NoneReaches(log: Log, width: nat) {
    forall k: nat :: k < |log| ==> !Reaches(log, width, k)
  }

  /** Every penalty that reaches into the row is `p`. */
  predicate OnePenalty(log: Log, width: nat, p: real) {
    forall k: nat :: k < |log| && Reaches(log, width, k) ==> log[k].advantagePenalty == p
  }

  /** Token `j` belongs to a flagged turn. */
  ghost predicate Covered(log: Log, j: nat) {
    exists k: nat :: InSpan(log, k, j) && Flagged(log[k])
  }

  /** The flagged turns cover the whole row. */
  ghost predicate AllCovered(log: Log, width: nat) {
    forall j: nat :: j < width ==> Covered(log, j)
  }

  /** The spans of the flagged turns hold their penalties and no other cell of the
      broadcast row changed. */
  ghost predicate SpansOnly(log: Log, width: nat, v: real) {
    forall j: nat :: j < width ==> SharedAfter(log, |log|, width, v) == CellAfter(log, |log|, j, v)
  }

  /** All penalties that reach the row are turn `k`'s, and the flagged turns cover
      the whole row or the penalty is what the row held anyway. */
  ghost predicate Repeats(log: Log, width: nat, v: real, k: nat) {
    Reaches(log, width, k) && OnePenalty(log, width, log[k].advantagePenalty) &&
    (AllCovered(log, width) || v == -log[k].advantagePenalty)
  }

  ghost predicate Harmless(log: Log, width: nat, v: real) {
    NoneReaches(log, width) || exists k: nat :: Repeats(log, width, v, k)
  }

  lemma {:induction false} CoveredCell(log: Log, width: nat, j: nat, v: real, k: nat)
    requires j < width && InSpan(log, k, j) && Flagged(log[k])
    ensures Reaches(log, width, k) && CellAfter(log, |log|, j, v) == -log[k].advantagePenalty
  {
    PenaltyHits(log, |log|, j, v, k);
  }

  lemma {:induction false} UncoveredCell(log: Log, j: nat, v: real)
    requires !Covered(log, j)
    ensures CellAfter(log, |log|, j, v) == v
  {
    forall k: nat | k < |log| && InSpan(log, k, j)
      ensures log[k].advantagePenalty <= 0.0
    {
      assert !(InSpan(log, k, j) && Flagged(log[k]));
    }
    PenaltySpares(log, |log|, j, v);
  }

  /** With one penalty, a cell is right when it is covered or held the penalty anyway. */
  lemma {:induction false} OnePenaltyCell(log: Log, width: nat, j: nat, v: real, p: real)
    requires j < width && OnePenalty(log, width, p)
    ensures CellAfter(log, |log|, j, v) == if Covered(log, j) then -p else v
  {
    if Covered(log, j) {
      var k: nat :| InSpan(log, k, j) && Flagged(log[k]);
      CoveredCell(log, width, j, v, k);
    } else {
      UncoveredCell(log, j, v);
    }
  }

  lemma HarmlessIsEnough(log: Log, width: nat, v: real)
    requires Harmless(log, width, v)
    ensures SpansOnly(log, width, v)
  {
    if NoneReaches(log, width) {
      NoPenaltyKeepsRow(log, |log|, width, v);
      forall j: nat | j < width
        ensures CellAfter(log, |log|, j, v) == v
      {
        NothingCovered(log, width, j);
        UncoveredCell(log, j, v);
      }
    } else {
      var k: nat :| Repeats(log, width, v, k);
      var last := LastReaching(log, |log|, width, k);
      LastPenaltyWins(log, |log|, width, v, last);
      forall j: nat | j < width
        ensures CellAfter(log, |log|, j, v) == -log[last].advantagePenalty
      {
        OnePenaltyCell(log, width, j, v, log[k].advantagePenalty);
      }
    }
  }

  lemma NothingCovered(log: Log, width: nat, j: nat)
    requires NoneReaches(log, width) && j < width
    ensures !Covered(log, j)
  {
    forall k: nat | InSpan(log, k, j)
      ensures !Flagged(log[k])
    {
      assert !Reaches(log, width, k);
    }
  }

  lemma HarmlessIsNeeded(log: Log, width: nat, v: real, k: nat)
    requires SpansOnly(log, width, v) && Reaches(log, width, k)
    ensures Harmless(log, width, v)
  {
    var last := LastReaching(log, |log|, width, k);
    var p := log[last].advantagePenalty;
    LastPenaltyWins(log, |log|, width, v, last);
    forall m: nat | m < |log| && Reaches(log, width, m)
      ensures log[m].advantagePenalty == p
    {
      var j := Offset(log, m);
      assert InSpan(log, m, j);
      CoveredCell(log, width, j, v, m);
    }
    if !AllCovered(log, width) {
      var j: nat :| j < width && !Covered(log, j);
      UncoveredCell(log, j, v);
    }
    assert Repeats(log, width, v, last);
  }

  lemma SpansOnlyIff(log: Log, width: nat, v: real)
    ensures SpansOnly(log, width, v) <==> Harmless(log, width, v)
  {
    if Harmless(log, width, v) {
      HarmlessIsEnough(log, width, v);
    } else if SpansOnly(log, width, v) && !NoneReaches(log, width) {
      var k: nat :| k < |log| && Reaches(log, width, k);
      HarmlessIsNeeded(log, width, v, k);
    }
  }

  /** Flagged turns of turn `k`'s penalty cover the whole row. */
  ghost predicate Covers(log: Log, width: nat, k: nat) {
    Reaches(log, width, k) && OnePenalty(log, width, log[k].advantagePenalty) && AllCovered(log, width)
  }

  ghost predicate AlwaysHarmless(log: Log, width: nat) {
    NoneReaches(log, width) || exists k: nat :: Covers(log, width, k)
  }

  lemma AlwaysHarmlessIff(log: Log, width: nat)
    ensures (forall v: real :: Harmless(log, width, v)) <==> AlwaysHarmless(log, width)
  {
    if (forall v: real :: Harmless(log, width, v)) && !NoneReaches(log, width) {
      assert Harmless(log, width, 0.0);
      var k: nat :| Repeats(log, width, 0.0, k);
      assert log[k].advantagePenalty > 0.0;
      assert Covers(log, width, k);
    }
    if exists k: nat :: Covers(log, width, k) {
      var k: nat :| Covers(log, width, k);
      forall v: real
        ensures Harmless(log, width, v)
      {
        assert Repeats(log, width, v, k);
      }
    }
  }

  // ---- The library's answer ----------------------------------------------

  /** How a matrix is stored and written: `width` cells a row, which share one memory
      location when `broadcast`; `strict` says that the library refuses to write a
      slice of two or more cells that share memory. */
  datatype Kind = Kind(width: nat, broadcast: bool, strict: bool)

  /** Whether `row[lo:hi] = v` is refused: two cells of the slice lie in the row and
      share memory. */
  predicate Clashes(kind: Kind, lo: nat, hi: nat) {
    kind.broadcast && kind.strict && lo + 1 < hi && lo + 1 < kind.width
  }

  /** Turn `k` is flagged and its write is refused. */
  predicate Refused(kind: Kind, log: Log, k: nat) {
    k < |log| && Flagged(log[k]) && Clashes(kind, Offset(log, k), Offset(log, k) + TokenCount(log[k]))
  }

  predicate NoneRefused(kind: Kind, log: Log) {
    forall k: nat :: k < |log| ==> !Refused(kind, log, k)
  }

  /** How many of the first `n` turns are handled: all, or those before the first
      refused one. */
  function HandledTurns(kind: Kind, log: Log, n: nat): (h: nat)
    requires n <= |log|
    ensures h <= n
  {
    if n == 0 then 0
    else
      var h := HandledTurns(kind, log, n - 1);
      if h < n - 1 || Refused(kind, log, n - 1) then h else n
  }

  lemma {:induction false} HandledUpToRefusal(kind: Kind, log: Log, n: nat)
    requires n <= |log|
    ensures var h := HandledTurns(kind, log, n);
            (h < n ==> Refused(kind, log, h)) && forall k: nat :: k < h ==> !Refused(kind, log, k)
  {
    if n > 0 {
      HandledUpToRefusal(kind, log, n - 1);
    }
  }

  /** All turns are handled exactly when none is refused. */
  lemma {:induction false} HandledAllIff(kind: Kind, log: Log)
    ensures HandledTurns(kind, log, |log|) == |log| <==> NoneRefused(kind, log)
  {
    HandledUpToRefusal(kind, log, |log|);
  }

  /** What a cell of a row holds after the first `n` turns were handled. */
  function Penalized(kind: Kind, log: Log, n: nat, j: nat, v: real): real
    requires n <= |log|
  {
    if kind.broadcast then SharedAfter(log, n, kind.width, v) else CellAfter(log, n, j, v)
  }

  /** The row is handled to the end, and its flagged spans and nothing else changed. */
  ghost predicate RowIsRight(kind: Kind, log: Log, v: real) {
    NoneRefused(kind, log) &&
    forall j: nat :: j < kind.width ==> Penalized(kind, log, |log|, j, v) == CellAfter(log, |log|, j, v)
  }

  /** Of either kind of row and under either answer of the library: exactly when the
      row owns its cells, or is harmless and no flagged turn writes two or more of its
      cells where that is refused. */
  lemma RowIsRightIff(kind: Kind, log: Log, v: real)
    ensures RowIsRight(kind, log, v) <==>
            !kind.broadcast || (Harmless(log, kind.width, v) && NoneRefused(kind, log))
  {
    SpansOnlyIff(log, kind.width, v);
    if kind.broadcast && RowIsRight(kind, log, v) {
      forall j: nat | j < kind.width
        ensures SharedAfter(log, |log|, kind.width, v) == CellAfter(log, |log|, j, v)
      {
        assert Penalized(kind, log, |log|, j, v) == CellAfter(log, |log|, j, v);
      }
    }
  }

  /** Whatever the advantages are: exactly when the row owns its cells, or nothing
      reaches it or flagged turns of one penalty cover it whole, none of them refused. */
  lemma RowIsAlwaysRightIff(kind: Kind, log: Log)
    ensures (forall v: real :: RowIsRight(kind, log, v)) <==>
            !kind.broadcast || (AlwaysHarmless(log, kind.width) && NoneRefused(kind, log))
  {
    forall v: real
      ensures RowIsRight(kind, log, v) <==> !kind.broadcast || (Harmless(log, kind.width, v) && NoneRefused(kind, log))
    {
      RowIsRightIff(kind, log, v);
    }
    AlwaysHarmlessIff(log, kind.width);
    if kind.broadcast && forall v: real :: RowIsRight(kind, log, v) {
      assert RowIsRight(kind, log, 0.0);
      forall v: real
        ensures Harmless(log, kind.width, v)
      {
        assert RowIsRight(kind, log, v);
      }
    }
  }

  // ---- The matrix --------------------------------------------------------

  /** A matrix of advantages: its rows own their cells, or each row is one cell
      expanded to the width. */
  class AdvantageMatrix {
    const rows: nat
    const kind: Kind
    const storage: array2<real>

    ghost predicate Valid() {
      storage.Length0 == rows && storage.Length1 == if kind.broadcast then 1 else kind.width
    }

    /** Where a cell lives in its row of the storage. */
    function Slot(j: nat): nat {
      if kind.broadcast then 0 else j
    }

    function At(i: nat, j: nat): real
      requires Valid() && i < rows && j < kind.width
      reads storage
    {
      storage[i, Slot(j)]
    }

    /** `column.unsqueeze(-1).expand(-1, width)`. */
    constructor Expand(column: seq<real>, width: nat, strict: bool)
      ensures Valid() && fresh(storage) && rows == |column| && kind == Kind(width, true, strict)
      ensures forall i: nat, j: nat :: i < rows && j < width ==> At(i, j) == column[i]
    {
      this.rows, this.kind := |column|, Kind(width, true, strict);
      storage := new real[|column|, 1]((i, _) => if 0 <= i < |column| then column[i] else 0.0);
    }

    /** A matrix that owns its cells, such as the result of element-wise arithmetic. */
    constructor Own(rows: nat, width: nat, strict: bool, cell: (nat, nat) -> real)
      ensures Valid() && fresh(storage) && this.rows == rows && kind == Kind(width, false, strict)
      ensures forall i: nat, j: nat :: i < rows && j < width ==> At(i, j) == cell(i, j)
    {
      this.rows, this.kind := rows, Kind(width, false, strict);
      storage := new real[rows, width]((i, j) => if 0 <= i && 0 <= j then cell(i, j) else 0.0);
    }

    /** `self[i, lo:hi] = v`: refused where the library refuses it, otherwise every cell
        of the slice is written where it lives. */
    method Overwrite(i: nat, lo: nat, hi: nat, v: real) returns (r: Result<()>)
      requires Valid() && i < rows && lo < hi
      modifies storage
      ensures r == if Clashes(kind, lo, hi) then Err(RuntimeError) else Ok(())
      ensures forall a, b :: 0 <= a < storage.Length0 && 0 <= b < storage.Length1 ==>
                storage[a, b] == if r.Ok? && a == i && (if kind.broadcast then lo < kind.width else lo <= b < hi) then v
                                 else old(storage[a, b])
    {
      if Clashes(kind, lo, hi) {
        return Err(RuntimeError);
      }
      var j := lo;
      while j < hi && j < kind.width
        invariant lo <= j <= hi && (lo < j ==> j <= kind.width)
        invariant forall a, b :: 0 <= a < storage.Length0 && 0 <= b < storage.Length1 ==>
                    storage[a, b] == if a == i && (if kind.broadcast then lo < j else lo <= b < j) then v
                                     else old(storage[a, b])
      {
        storage[i, Slot(j)] := v;
        j := j + 1;
      }
      return Ok(());
    }

    /** The inner loop: one log and its running token offset.  A refused write leaves
        the row as the turns before it made it. */
    method PenalizeRow(i: nat, log: Log) returns (r: Result<nat>)
      requires Valid()
      modifies storage
      ensures r == if i >= rows && AnyFlagged(log) then Err(IndexError)
                   else if i < rows && !NoneRefused(kind, log) then Err(RuntimeError)
                   else Ok(FlaggedCount(log, |log|))
      ensures forall a, b :: 0 <= a < storage.Length0 && 0 <= b < storage.Length1 ==>
                storage[a, b] == if a == i then Penalized(kind, log, HandledTurns(kind, log, |log|), b, old(storage[a, b]))
                                 else old(storage[a, b])
    {
      var offset, spans := 0, 0;
      for n := 0 to |log|
        invariant offset == Offset(log, n) && spans == FlaggedCount(log, n)
        invariant i >= rows ==> forall k :: 0 <= k < n ==> !Flagged(log[k])
        invariant i < rows ==> forall k: nat :: k < n ==> !Refused(kind, log, k)
        invariant forall a, b :: 0 <= a < storage.Length0 && 0 <= b < storage.Length1 ==>
                    storage[a, b] == if a == i then Penalized(kind, log, n, b, old(storage[a, b]))
                                     else old(storage[a, b])
      {
        var length := TokenCount(log[n]);
        if length > 0 && log[n].advantagePenalty > 0.0 {
          if i >= rows {
            return Err(IndexError);
          }
          var written := Overwrite(i, offset, offset + length, -log[n].advantagePenalty);
          if written.Err? {
            assert Refused(kind, log, n);
            StopsAt(kind, log, n);
            return Err(RuntimeError);
          }
          spans := spans + 1;
        }
        offset := offset + length;
      }
      if i < rows {
        HandledAllIff(kind, log);
      }
      return Ok(spans);
    }
  }

  lemma {:induction false} StopsAt(kind: Kind, log: Log, n: nat)
    requires Refused(kind, log, n) && forall k: nat :: k < n ==> !Refused(kind, log, k)
    ensures HandledTurns(kind, log, |log|) == n
  {
    HandledUpToRefusal(kind, log, |log|);
  }

  /** Whether log `i` ends the call: a row that is not there, or a refused write. */
  predicate Fails(kind: Kind, rows: nat, logs: seq<Log>, i: nat) {
    i < |logs| && if i >= rows then AnyFlagged(logs[i]) else !NoneRefused(kind, logs[i])
  }

  /** How many of the first `n` logs are handled whole. */
  function HandledLogs(kind: Kind, rows: nat, logs: seq<Log>, n: nat): (h: nat)
    requires n <= |logs|
    ensures h <= n
  {
    if n == 0 then 0
    else
      var h := HandledLogs(kind, rows, logs, n - 1);
      if h < n - 1 || Fails(kind, rows, logs, n - 1) then h else n
  }

  lemma {:induction false} HandledUpToFailure(kind: Kind, rows: nat, logs: seq<Log>, n: nat)
    requires n <= |logs|
    ensures var h := HandledLogs(kind, rows, logs, n);
            (h < n ==> Fails(kind, rows, logs, h)) && forall i: nat :: i < h ==> !Fails(kind, rows, logs, i)
  {
    if n > 0 {
      HandledUpToFailure(kind, rows, logs, n - 1);
    }
  }

  /** What a cell holds after the call: rows before the failing log are handled whole,
      its own row up to the refused turn, later rows not at all. */
  function CellAfterCall(kind: Kind, rows: nat, logs: seq<Log>, i: nat, j: nat, v: real): real {
    if i < |logs| && i <= HandledLogs(kind, rows, logs, |logs|)
    then Penalized(kind, logs[i], HandledTurns(kind, logs[i], |logs[i]|), j, v)
    else v
  }

  /** `apply_message_span_advantage_penalties`, on a matrix of either kind and under
      either answer of the library. */
  method ApplyMessageSpanAdvantagePenalties(advantages: AdvantageMatrix, logs: seq<Log>, enabled: bool)
    returns (r: Result<nat>)
    requires advantages.Valid()
    modifies advantages.storage
    ensures var failing := HandledLogs(advantages.kind, advantages.rows, logs, |logs|);
            r == if !enabled then Ok(0)
                 else if failing == |logs| then Ok(FlaggedTotal(logs, |logs|))
                 else if failing >= advantages.rows then Err(IndexError)
                 else Err(RuntimeError)
    ensures forall i: nat, j: nat :: i < advantages.rows && j < advantages.kind.width ==>
              advantages.At(i, j) ==
              if enabled then CellAfterCall(advantages.kind, advantages.rows, logs, i, j, old(advantages.At(i, j)))
              else old(advantages.At(i, j))
  {
    if !enabled {
      return Ok(0);
    }
    var spans := 0;
    ghost var m, kind, rows := advantages, advantages.kind, advantages.rows;
    for i := 0 to |logs|
      invariant spans == FlaggedTotal(logs, i)
      invariant forall k: nat :: k < i ==> !Fails(kind, rows, logs, k)
      invariant forall a, b :: 0 <= a < m.storage.Length0 && 0 <= b < m.storage.Length1 ==>
                  m.storage[a, b] == if a < i then Penalized(kind, logs[a], HandledTurns(kind, logs[a], |logs[a]|), b, old(m.storage[a, b]))
                                     else old(m.storage[a, b])
    {
      var row := advantages.PenalizeRow(i, logs[i]);
      if row.Err? {
        FailsAt(kind, rows, logs, i);
        return Err(row.error);
      }
      spans := spans + row.value;
    }
    NothingFails(kind, rows, logs);
    return Ok(spans);
  }

  lemma {:induction false} FailsAt(kind: Kind, rows: nat, logs: seq<Log>, i: nat)
    requires Fails(kind, rows, logs, i) && forall k: nat :: k < i ==> !Fails(kind, rows, logs, k)
    ensures HandledLogs(kind, rows, logs, |logs|) == i
  {
    HandledUpToFailure(kind, rows, logs, |logs|);
  }

  lemma {:induction false} NothingFails(kind: Kind, rows: nat, logs: seq<Log>)
    requires forall k: nat :: k < |logs| ==> !Fails(kind, rows, logs, k)
    ensures HandledLogs(kind, rows, logs, |logs|) == |logs|
  {
    HandledUpToFailure(kind, rows, logs, |logs|);
  }

  /** How many cells of the row the tokens of turn `k` have. */
  function CellsIn(log: Log, k: nat, width: nat): int
    requires k < |log|
  {
    Min(Offset(log, k) + TokenCount(log[k]), width) - Offset(log, k)
  }

  /** No flagged turn of log `i` is without a row, or has two or more cells in its row
      that share memory under a library that minds. */
  ghost predicate Passes(kind: Kind, rows: nat, logs: seq<Log>, i: nat)
    requires i < |logs|
  {
    forall k: nat :: k < |logs[i]| && TokenCount(logs[i][k]) > 0 && logs[i][k].advantagePenalty > 0.0 ==>
      && i < rows
      && !(kind.broadcast && kind.strict && CellsIn(logs[i], k, kind.width) >= 2)
  }

  /** The call is refused exactly when it is enabled and some log does not pass. */
  lemma {:induction false} CallSucceedsIff(kind: Kind, rows: nat, logs: seq<Log>)
    ensures HandledLogs(kind, rows, logs, |logs|) == |logs| <==> forall i: nat :: i < |logs| ==> Passes(kind, rows, logs, i)
  {
    HandledUpToFailure(kind, rows, logs, |logs|);
    forall i: nat | i < |logs|
      ensures Fails(kind, rows, logs, i) <==> !Passes(kind, rows, logs, i)
    {
      FailsIff(kind, rows, logs, i);
    }
    if forall i: nat :: i < |logs| ==> Passes(kind, rows, logs, i) {
      NothingFails(kind, rows, logs);
    }
  }

  lemma FailsIff(kind: Kind, rows: nat, logs: seq<Log>, i: nat)
    requires i < |logs|
    ensures Fails(kind, rows, logs, i) <==> !Passes(kind, rows, logs, i)
  {
    var log := logs[i];
    forall k: nat | k < |log|
      ensures Refused(kind, log, k) <==>
              && TokenCount(log[k]) > 0 && log[k].advantagePenalty > 0.0
              && kind.broadcast && kind.strict && CellsIn(log, k, kind.width) >= 2
    {
    }
    if AnyFlagged(log) {
      var k: nat :| k < |log| && Flagged(log[k]);
      assert TokenCount(log[k]) > 0 && log[k].advantagePenalty > 0.0;
    }
    if !NoneRefused(kind, log) {
      var k: nat :| k < |log| && Refused(kind, log, k);
      assert TokenCount(log[k]) > 0 && log[k].advantagePenalty > 0.0;
    }
  }

  /** On rows that own their cells the whole call does what it should: a cell holds the
      negated penalty of the turn its token belongs to if there is one, and its old
      value otherwise. */
  lemma OwnedRowsArePenalized(kind: Kind, rows: nat, logs: seq<Log>, i: nat, j: nat, v: real)
    requires !kind.broadcast && i < rows
    ensures forall k: nat :: i < |logs| && InSpan(logs[i], k, j) && logs[i][k].advantagePenalty > 0.0 ==>
              CellAfterCall(kind, rows, logs, i, j, v) == -logs[i][k].advantagePenalty
    ensures i >= |logs| || (forall k: nat :: InSpan(logs[i], k, j) ==> logs[i][k].advantagePenalty <= 0.0) ==>
              CellAfterCall(kind, rows, logs, i, j, v) == v
  {
    if i < |logs| {
      HandledUpToFailure(kind, rows, logs, |logs|);
      HandledAllIff(kind, logs[i]);
      forall k: nat | InSpan(logs[i], k, j) && logs[i][k].advantagePenalty > 0.0
        ensures CellAfter(logs[i], |logs[i]|, j, v) == -logs[i][k].advantagePenalty
      {
        PenaltyHits(logs[i], |logs[i]|, j, v, k);
      }
      if forall k: nat :: InSpan(logs[i], k, j) ==> logs[i][k].advantagePenalty <= 0.0 {
        PenaltySpares(logs[i], |logs[i]|, j, v);
      }
    }
  }

  /** Which turns of a log are flagged. */
  ghost function FlagsOf(log: Log): Condition {
    (k: nat) => k < |log| && TokenCount(log[k]) > 0 && log[k].advantagePenalty > 0.0
  }

  lemma {:induction false} FlaggedCountIs(log: Log, n: nat)
    requires n <= |log|
    ensures FlaggedCount(log, n) == CountWhere(FlagsOf(log), n)
  {
    if n > 0 {
      FlaggedCountIs(log, n - 1);
    }
  }

  /** The call reports how many turns it penalised. */
  lemma {:induction false} FlaggedTotalIs(logs: seq<Log>, counts: seq<nat>)
    requires |counts| == |logs| && forall i :: 0 <= i < |logs| ==> counts[i] == CountWhere(FlagsOf(logs[i]), |logs[i]|)
    ensures FlaggedTotal(logs, |logs|) == Sum(counts)
  {
    FlaggedTotalUpTo(logs, counts, |logs|);
    assert counts[..|logs|] == counts;
  }

  lemma {:induction false} FlaggedTotalUpTo(logs: seq<Log>, counts: seq<nat>, n: nat)
    requires n <= |counts| == |logs| && forall i :: 0 <= i < |logs| ==> counts[i] == CountWhere(FlagsOf(logs[i]), |logs[i]|)
    ensures FlaggedTotal(logs, n) == Sum(counts[..n])
  {
    if n > 0 {
      FlaggedTotalUpTo(logs, counts, n - 1);
      FlaggedCountIs(logs[n - 1], |logs[n - 1]|);
      assert counts[..n][..n - 1] == counts[..n - 1];
    }
  }

  // ---- The estimator's output --------------------------------------------

  const EPSILON: real := 0.000001

  /** A sample's advantage, divided by its group's std plus epsilon when rewards are
      normalised and the std is positive; `root` is the square root. */
  function EstimateAt(prompts: seq<Prompt>, rewards: seq<real>, loo: bool, normalize: bool, root: real -> real, i: nat): real
    requires Batch(prompts, rewards) && i < |prompts|
  {
    var std := root(VarianceAt(prompts, rewards, loo, i));
    if normalize && std > 0.0 then AdvantageAt(prompts, rewards, loo, i) / (std + EPSILON)
    else AdvantageAt(prompts, rewards, loo, i)
  }

  /** Where rewards are normalised and the peers' std is positive, the estimate times
      the std plus one millionth is the advantage; elsewhere it is the advantage. */
  lemma EstimateIsNormalised(prompts: seq<Prompt>, rewards: seq<real>, loo: bool, normalize: bool, root: real -> real, i: nat,
                             std: real, estimate: real)
    requires Batch(prompts, rewards) && i < |prompts|
    requires std == root(VarianceAt(prompts, rewards, loo, i)) && estimate == EstimateAt(prompts, rewards, loo, normalize, root, i)
    ensures normalize && std > 0.0 ==> estimate * (std + 0.000001) == AdvantageAt(prompts, rewards, loo, i)
    ensures !normalize || std <= 0.0 ==> estimate == AdvantageAt(prompts, rewards, loo, i)
  {
    if std > 0.0 {
      QuotientTimes(AdvantageAt(prompts, rewards, loo, i), std + EPSILON);
    }
  }

  lemma QuotientTimes(a: real, d: real)
    requires d > 0.0
    ensures a / d * d == a
  {
  }

  /** Normalising favours the quiet groups: of two rows of the same positive advantage
      the one whose peers scatter less has the larger estimate, and only that one. */
  lemma QuietGroupsWeighMore(prompts: seq<Prompt>, rewards: seq<real>, loo: bool, root: real -> real, i: nat, j: nat)
    requires Batch(prompts, rewards) && i < |prompts| && j < |prompts|
    requires AdvantageAt(prompts, rewards, loo, i) == AdvantageAt(prompts, rewards, loo, j) > 0.0
    requires root(VarianceAt(prompts, rewards, loo, i)) > 0.0 && root(VarianceAt(prompts, rewards, loo, j)) > 0.0
    ensures EstimateAt(prompts, rewards, loo, true, root, i) > EstimateAt(prompts, rewards, loo, true, root, j)
            <==> root(VarianceAt(prompts, rewards, loo, i)) < root(VarianceAt(prompts, rewards, loo, j))
  {
    var x, y := root(VarianceAt(prompts, rewards, loo, i)), root(VarianceAt(prompts, rewards, loo, j));
    QuotientOrder(AdvantageAt(prompts, rewards, loo, i), x + EPSILON, y + EPSILON);
  }

  lemma QuotientPositive(a: real, d: real)
    requires a > 0.0 && d > 0.0
    ensures a / d > 0.0
  {
  }

  lemma QuotientOrder(a: real, d: real, e: real)
    requires a > 0.0 && d > 0.0 && e > 0.0
    ensures a / d > a / e <==> d < e
  {
    QuotientTimes(a, d);
    QuotientTimes(a, e);
    QuotientPositive(a, e);
    ProductOrder(a / d, d, a / e, e);
  }

  lemma ProductOrder(p: real, d: real, q: real, e: real)
    requires d > 0.0 && q > 0.0 && p * d == q * e
    ensures p > q <==> d < e
  {
    LeftFactorOrder(p, q, d);
    RightFactorOrder(q, e, d);
  }

  lemma LeftFactorOrder(p: real, q: real, d: real)
    requires d > 0.0
    ensures p * d > q * d <==> p > q
  {
  }

  lemma RightFactorOrder(q: real, e: real, d: real)
    requires q > 0.0
    ensures q * e > q * d <==> e > d
  {
  }

  /** `GRPOAdvantageEstimator.compute_advantage`: one advantage per sample, expanded to
      token width. */
  method ComputeAdvantage(prompts: seq<Prompt>, uniq: seq<Prompt>, rewards: seq<real>, loo: bool, normalize: bool,
                          root: real -> real, width: nat, strict: bool)
    returns (advantages: AdvantageMatrix)
    requires Batch(prompts, rewards) && UniqueRows(prompts, uniq)
    ensures advantages.Valid() && fresh(advantages.storage)
    ensures advantages.rows == |prompts| && advantages.kind == Kind(width, true, strict)
    ensures forall i: nat, j: nat :: i < |prompts| && j < width ==>
              advantages.At(i, j) == EstimateAt(prompts, rewards, loo, normalize, root, i)
  {
    var baseline, variance := CalculateBaselineAndVariance(prompts, uniq, rewards, loo, None);
    var column := seq(|rewards|, i requires 0 <= i < |rewards| => rewards[i] - baseline[i]);
    if normalize {
      column := seq(|rewards|, i requires 0 <= i < |rewards| =>
        var std := root(variance[i]);
        if std > 0.0 then (rewards[i] - baseline[i]) / (std + EPSILON) else rewards[i] - baseline[i]);
    }
    advantages := new AdvantageMatrix.Expand(column, width, strict);
  }

  function PromptTurn(): Message {
    Message("user", None, Some([1]), None, None, None, 0.0)
  }

  function FlaggedTurn(tokens: seq<int>, penalty: real): Message {
    Message(ASSISTANT, None, Some(tokens), None, None, None, penalty)
  }

  /** A flagged answer of one token costs its prompt as well: the write goes through
      under either answer of the library, and both cells hold the penalty. */
  lemma {:induction false} PromptPaysForAnswer(v: real, penalty: real, strict: bool)
    requires penalty > 0.0
    ensures var log, kind := [PromptTurn(), FlaggedTurn([2], penalty)], Kind(2, true, strict);
            && NoneRefused(kind, log)
            && CellAfter(log, 2, 0, v) == v && CellAfter(log, 2, 1, v) == -penalty
            && Penalized(kind, log, 2, 0, v) == -penalty && Penalized(kind, log, 2, 1, v) == -penalty
            && (RowIsRight(kind, log, v) <==> v == -penalty)
  {
    var log, kind := [PromptTurn(), FlaggedTurn([2], penalty)], Kind(2, true, strict);
    assert Offset(log, 0) == 0 && Offset(log, 1) == 1;
    assert !Flagged(log[0]) && Flagged(log[1]);
    assert InSpan(log, 1, 1) && !InSpan(log, 1, 0);
    assert Reaches(log, 2, 1);
    PenaltySpares(log, 2, 0, v);
    PenaltyHits(log, 2, 1, v, 1);
    if RowIsRight(kind, log, v) {
      assert Penalized(kind, log, |log|, 0, v) == CellAfter(log, |log|, 0, v);
    }
  }

  /** A flagged answer of two tokens that fills its row: right where the library writes
      shared cells, refused with the row untouched where it does not. */
  lemma WideAnswer(v: real, penalty: real, strict: bool)
    requires penalty > 0.0
    ensures var log, kind := [FlaggedTurn([2, 3], penalty)], Kind(2, true, strict);
            && Harmless(log, 2, v)
            && (NoneRefused(kind, log) <==> !strict) && (RowIsRight(kind, log, v) <==> !strict)
            && HandledTurns(kind, log, 1) == (if strict then 0 else 1)
            && Penalized(kind, log, 0, 0, v) == v && Penalized(kind, log, 1, 0, v) == -penalty
  {
    var log, kind := [FlaggedTurn([2, 3], penalty)], Kind(2, true, strict);
    assert Offset(log, 0) == 0 && TokenCount(log[0]) == 2 && Flagged(log[0]);
    assert Reaches(log, 2, 0);
    assert Refused(kind, log, 0) <==> strict;
    forall j: nat | j < 2
      ensures Covered(log, j)
    {
      assert InSpan(log, 0, j);
    }
    assert Repeats(log, 2, v, 0);
    RowIsRightIff(kind, log, v);
  }

  /** The one-token answer on what the estimator returns: of two samples of one prompt
      the better one's answer is flagged, and its prompt token loses its advantage. */
  method FlaggedAnswer(penalty: real, strict: bool) returns (before: real, prompt: real, answer: real)
    requires penalty > 0.0
    ensures before == 0.5 && prompt == -penalty && answer == -penalty
  {
    var log := [PromptTurn(), FlaggedTurn([2], penalty)];
    var advantages := PairEstimate(strict);
    before := advantages.At(0, 0);
    PromptPaysForAnswer(before, penalty, strict);
    HandledAllIff(advantages.kind, log);
    var r := ApplyMessageSpanAdvantagePenalties(advantages, [log], true);
    prompt, answer := advantages.At(0, 0), advantages.At(0, 1);
  }

  /** The two-token answer on what the estimator returns. */
  method FlaggedWideAnswer(penalty: real, strict: bool) returns (r: Result<nat>, first: real, second: real)
    requires penalty > 0.0
    ensures r == if strict then Err(RuntimeError) else Ok(1)
    ensures first == second == if strict then 0.5 else -penalty
  {
    var log := [FlaggedTurn([2, 3], penalty)];
    var advantages := PairEstimate(strict);
    WideAnswer(0.5, penalty, strict);
    r := ApplyMessageSpanAdvantagePenalties(advantages, [log], true);
    OneLog(advantages.kind, 2, log);
    first, second := advantages.At(0, 0), advantages.At(0, 1);
  }

  lemma {:induction false} OneLog(kind: Kind, rows: nat, log: Log)
    requires rows > 0
    ensures HandledLogs(kind, rows, [log], 1) == if NoneRefused(kind, log) then 1 else 0
    ensures FlaggedTotal([log], 1) == FlaggedCount(log, |log|)
  {
    assert Fails(kind, rows, [log], 0) <==> !NoneRefused(kind, log);
  }

  /** On a matrix that owns its cells the same answer costs its own token only. */
  method OwnedAnswer(penalty: real, strict: bool) returns (prompt: real, answer: real)
    requires penalty > 0.0
    ensures prompt == 0.5 && answer == -penalty
  {
    var log := [PromptTurn(), FlaggedTurn([2], penalty)];
    var advantages := new AdvantageMatrix.Own(1, 2, strict, (i, j) => 0.5);
    PromptPaysForAnswer(0.5, penalty, strict);
    HandledAllIff(advantages.kind, log);
    var r := ApplyMessageSpanAdvantagePenalties(advantages, [log], true);
    prompt, answer := advantages.At(0, 0), advantages.At(0, 1);
  }

  /** The estimator on a success and a failure of one prompt, at token width two. */
  method PairEstimate(strict: bool) returns (advantages: AdvantageMatrix)
    ensures advantages.Valid() && fresh(advantages.storage)
    ensures advantages.rows == 2 && advantages.kind == Kind(2, true, strict)
    ensures advantages.At(0, 0) == advantages.At(0, 1) == 0.5
  {
    var prompts: seq<Prompt> := [[7], [7]];
    var rewards := [1.0, 0.0];
    assert UniqueRows(prompts, [[7]]) by {
      assert prompts[0] in prompts;
    }
    advantages := ComputeAdvantage(prompts, [[7]], rewards, false, false, x => x, 2, strict);
    PairAdvantage(prompts, rewards);
  }

  lemma PairAdvantage(prompts: seq<Prompt>, rewards: seq<real>)
    requires prompts == [[7], [7]] && rewards == [1.0, 0.0]
    ensures AdvantageAt(prompts, rewards, false, 0) == 0.5
  {
    assert RowsOf(prompts[..1], [7]) == [0] by {
      assert prompts[..1][..0] == [];
    }
    assert RowsOf(prompts, [7]) == [0, 1];
    assert RealSumAt(rewards, [1]) == 0.0 && [0, 1][1..] == [1];
  }
}
