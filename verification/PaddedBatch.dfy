/** Batches of flattened logs: right-padding to a common width, the jagged wire
    layout, and padding back on the consumer.

    A column is a matrix of any element type. */
module PaddedBatch {
  import opened Sums
  import opened Options
  import opened Messages
  import opened Arithmetic
  import opened FlatMessages

  /** A rectangular tensor; the width is kept for the empty batch. */
  datatype Matrix<T> = Matrix(rows: seq<seq<T>>, width: nat)

  predicate Rectangular<T>(m: Matrix<T>) {
    forall i :: 0 <= i < |m.rows| ==> |m.rows[i]| == m.width
  }

  // ---- Widths ------------------------------------------------------------

  function MaxOf(s: seq<nat>): (m: nat)
    ensures forall i :: 0 <= i < |s| ==> s[i] <= m
  {
    if s == [] then 0
    else
      Max(MaxOf(s[..|s| - 1]), s[|s| - 1])
  }

  lemma {:induction false} MaxOfIsAttained(s: seq<nat>)
    requires s != []
    ensures exists i :: 0 <= i < |s| && s[i] == MaxOf(s)
  {
    var n := |s| - 1;
    if s[n] != MaxOf(s) {
      assert MaxOf(s) == MaxOf(s[..n]);
      if n > 0 {
        MaxOfIsAttained(s[..n]);
        var i :| 0 <= i < n && s[..n][i] == MaxOf(s[..n]);
        assert s[i] == MaxOf(s);
      }
    }
  }

  lemma {:induction false} MaxOfSnoc(s: seq<nat>, x: nat)
    ensures MaxOf(s + [x]) == Max(MaxOf(s), x)
  {
    assert (s + [x])[..|s|] == s;
  }

  function RoundUp(n: nat, divisor: nat): nat
    requires divisor > 0
  {
    if n % divisor != 0 then (n / divisor + 1) * divisor else n
  }

  /** Rounding gives the least multiple that is no smaller. */
  lemma RoundUpIsLeastMultiple(n: nat, divisor: nat)
    requires divisor > 0
    ensures n <= RoundUp(n, divisor) < n + divisor
    ensures RoundUp(n, divisor) % divisor == 0
  {
    var q := n / divisor;
    assert n == q * divisor + n % divisor;
    assert (q + 1) * divisor == q * divisor + divisor;
    DivModUnique(q + 1, 0, divisor);
  }

  function PadRight<T>(s: seq<T>, width: nat, pad: T): seq<T> {
    if |s| >= width then s else s + Fill(width - |s|, pad)
  }

  function Fill<T>(n: nat, pad: T): seq<T> {
    seq(n, _ => pad)
  }

  // ---- Stacking a column -------------------------------------------------

  /** One column of the batch: logs without it become all padding; no column at
      all when no log has it. */
  function Stacked<T>(columns: seq<Option<seq<T>>>, width: nat, pad: T): Option<Matrix<T>> {
    if Present(columns) then
      Some(Matrix(seq(|columns|, i requires 0 <= i < |columns| => PadRight(Held(columns[i]), width, pad)), width))
    else None
  }

  method StackColumn<T>(columns: seq<Option<seq<T>>>, width: nat, pad: T) returns (m: Option<Matrix<T>>)
    ensures m == Stacked(columns, width, pad)
  {
    var rows, found := [], false;
    for i := 0 to |columns|
      invariant |rows| == i
      invariant forall j :: 0 <= j < i ==> rows[j] == PadRight(Held(columns[j]), width, pad)
      invariant found <==> exists k :: 0 <= k < i && columns[k].Some?
    {
      found := found || columns[i].Some?;
      rows := rows + [PadRight(Held(columns[i]), width, pad)];
    }
    assert rows == seq(|columns|, i requires 0 <= i < |columns| => PadRight(Held(columns[i]), width, pad));
    assert found == Present(columns);
    m := if found then Some(Matrix(rows, width)) else None;
  }

  // ---- Flattening a batch ------------------------------------------------

  datatype Pads = Pads(token: int, logprob: real, route: Route, mask: int)

  datatype FlatBatch = FlatBatch(
    tokenIds: Option<Matrix<int>>,
    generationLogprobs: Option<Matrix<real>>,
    routedExperts: Option<Matrix<Route>>,
    tokenLossMask: Option<Matrix<int>>,
    lengths: seq<nat>)

  const NOTHING: FlatBatch := FlatBatch(None, None, None, None, [])

  predicate HasTensor(f: FlatLog) {
    f.tokenIds.Some? || f.generationLogprobs.Some? || f.routedExperts.Some? || f.tokenLossMask.Some?
  }

  /** The longest column of a log. */
  function Longest(f: FlatLog): nat {
    Max(
      Max(|Held(f.tokenIds)|, |Held(f.generationLogprobs)|),
      Max(|Held(f.routedExperts)|, |Held(f.tokenLossMask)|))
  }

  function Flats(logs: seq<Log>): seq<FlatLog> {
    seq(|logs|, i requires 0 <= i < |logs| => FlatOf(logs[i]))
  }

  function Lengths(flats: seq<FlatLog>): seq<nat> {
    seq(|flats|, i requires 0 <= i < |flats| => Longest(flats[i]))
  }

  function TokenColumns(flats: seq<FlatLog>): seq<Option<seq<int>>> {
    seq(|flats|, i requires 0 <= i < |flats| => flats[i].tokenIds)
  }

  function LogprobColumns(flats: seq<FlatLog>): seq<Option<seq<real>>> {
    seq(|flats|, i requires 0 <= i < |flats| => flats[i].generationLogprobs)
  }

  function RouteColumns(flats: seq<FlatLog>): seq<Option<seq<Route>>> {
    seq(|flats|, i requires 0 <= i < |flats| => flats[i].routedExperts)
  }

  function MaskColumns(flats: seq<FlatLog>): seq<Option<seq<int>>> {
    seq(|flats|, i requires 0 <= i < |flats| => flats[i].tokenLossMask)
  }

  /** Some log carries routes and another does not: the filler of the missing
      rows has one dimension, so the rows do not stack. */
  predicate RoutesMixed(flats: seq<FlatLog>) {
    exists i, j :: 0 <= i < |flats| && 0 <= j < |flats| &&
      flats[i].routedExperts.Some? && flats[j].routedExperts.None?
  }

  function Batch(flats: seq<FlatLog>, width: nat, pads: Pads): FlatBatch {
    FlatBatch(
      Stacked(TokenColumns(flats), width, pads.token),
      Stacked(LogprobColumns(flats), width, pads.logprob),
      Stacked(RouteColumns(flats), width, pads.route),
      Stacked(MaskColumns(flats), width, pads.mask),
      Lengths(flats))
  }

  function BatchOf(logs: seq<Log>, divisor: nat, pads: Pads): Result<FlatBatch> {
    var flats := Flats(logs);
    if logs == [] then Ok(NOTHING)
    else if divisor == 0 then Err(ZeroDivisionError)
    else if forall i :: 0 <= i < |flats| ==> !HasTensor(flats[i]) then Ok(NOTHING)
    else if RoutesMixed(flats) then Err(RuntimeError)
    else Ok(Batch(flats, RoundUp(MaxOf(Lengths(flats)), divisor), pads))
  }

  method FlattenEach(logs: seq<Log>) returns (flats: seq<FlatLog>)
    ensures flats == Flats(logs)
  {
    flats := [];
    for i := 0 to |logs|
      invariant |flats| == i
      invariant forall j :: 0 <= j < i ==> flats[j] == FlatOf(logs[j])
    {
      var f := MessageLogToFlatMessages(logs[i]);
      flats := flats + [f];
    }
  }

  method MeasureEach(flats: seq<FlatLog>) returns (lengths: seq<nat>, maxLen: nat)
    ensures lengths == Lengths(flats)
    ensures maxLen == MaxOf(lengths)
  {
    lengths, maxLen := [], 0;
    for i := 0 to |flats|
      invariant |lengths| == i
      invariant forall j :: 0 <= j < i ==> lengths[j] == Longest(flats[j])
      invariant maxLen == MaxOf(lengths)
    {
      var length := Longest(flats[i]);
      MaxOfSnoc(lengths, length);
      lengths, maxLen := lengths + [length], Max(maxLen, length);
    }
  }

  method BatchedMessageLogToFlatMessage(logs: seq<Log>, divisor: nat, pads: Pads) returns (r: Result<FlatBatch>)
    ensures r == BatchOf(logs, divisor, pads)
  {
    if logs == [] {
      return Ok(NOTHING);
    }
    var flats := FlattenEach(logs);
    var lengths, maxLen := MeasureEach(flats);
    if divisor == 0 {
      return Err(ZeroDivisionError);
    }
    var width := RoundUp(maxLen, divisor);
    if forall i :: 0 <= i < |flats| ==> !HasTensor(flats[i]) {
      return Ok(NOTHING);
    }
    if RoutesMixed(flats) {
      return Err(RuntimeError);
    }
    var tokens := StackColumn(TokenColumns(flats), width, pads.token);
    var logprobs := StackColumn(LogprobColumns(flats), width, pads.logprob);
    var routes := StackColumn(RouteColumns(flats), width, pads.route);
    var mask := StackColumn(MaskColumns(flats), width, pads.mask);
    return Ok(FlatBatch(tokens, logprobs, routes, mask, lengths));
  }

  // ---- What a batch holds ------------------------------------------------

  /** A column of the batch, cell by cell: it exists once a log has it, each row is the
      log's values and then nothing but padding. */
  ghost predicate PadsColumn<T>(m: Option<Matrix<T>>, n: nat, values: nat -> Option<seq<T>>, width: nat, pad: T) {
    && (m.Some? <==> exists i: nat :: i < n && values(i).Some?)
    && (m.Some? ==>
          && |m.value.rows| == n && m.value.width == width
          && forall i: nat :: i < n ==>
               && |m.value.rows[i]| == width
               && forall j: nat :: j < width ==>
                    m.value.rows[i][j] == if values(i).Some? && j < |values(i).value| then values(i).value[j] else pad)
  }

  /** A column of the flattened logs. */
  ghost function ColumnOf<T>(logs: seq<Log>, pick: FlatLog -> Option<seq<T>>): nat -> Option<seq<T>> {
    (i: nat) => if i < |logs| then pick(FlatOf(logs[i])) else None
  }

  /** Every column, padded with its own value. */
  ghost predicate PadsColumns(b: FlatBatch, logs: seq<Log>, width: nat, pads: Pads) {
    && PadsColumn(b.tokenIds, |logs|, ColumnOf(logs, (f: FlatLog) => f.tokenIds), width, pads.token)
    && PadsColumn(b.generationLogprobs, |logs|, ColumnOf(logs, (f: FlatLog) => f.generationLogprobs), width, pads.logprob)
    && PadsColumn(b.routedExperts, |logs|, ColumnOf(logs, (f: FlatLog) => f.routedExperts), width, pads.route)
    && PadsColumn(b.tokenLossMask, |logs|, ColumnOf(logs, (f: FlatLog) => f.tokenLossMask), width, pads.mask)
  }

  lemma ColumnPads<T>(logs: seq<Log>, columns: seq<Option<seq<T>>>, pick: FlatLog -> Option<seq<T>>, width: nat, pad: T)
    requires |columns| == |logs|
    requires forall i: nat :: i < |logs| ==> columns[i] == pick(FlatOf(logs[i])) && |Held(columns[i])| <= width
    ensures PadsColumn(Stacked(columns, width, pad), |logs|, ColumnOf(logs, pick), width, pad)
  {
    assert forall i: nat :: i < |logs| ==> ColumnOf(logs, pick)(i) == columns[i];
  }

  /** Some log carries one of the four columns. */
  ghost predicate AnyTensor(logs: seq<Log>) {
    exists i :: 0 <= i < |logs| &&
      var f := FlatOf(logs[i]);
      f.tokenIds.Some? || f.generationLogprobs.Some? || f.routedExperts.Some? || f.tokenLossMask.Some?
  }

  /** The length of a longest column of a log. */
  ghost predicate IsLongest(f: FlatLog, n: nat) {
    && |Held(f.tokenIds)| <= n && |Held(f.generationLogprobs)| <= n && |Held(f.routedExperts)| <= n && |Held(f.tokenLossMask)| <= n
    && (n == |Held(f.tokenIds)| || n == |Held(f.generationLogprobs)| || n == |Held(f.routedExperts)| || n == |Held(f.tokenLossMask)|)
  }

  lemma NoMultipleBetween(n: nat, divisor: nat, w: nat, m: nat)
    requires divisor > 0 && w % divisor == 0 && m % divisor == 0 && w < n + divisor && n <= m
    ensures w <= m
  {
    MultiplesApart(divisor, w / divisor, m / divisor, w, m);
  }

  lemma MultiplesApart(divisor: nat, a: nat, b: nat, w: nat, m: nat)
    requires w == a * divisor && m == b * divisor && w < m + divisor
    ensures w <= m
  {
    if b < a {
      MulLess(b, a, divisor);
    }
  }

  /** When a batch is empty and when it is refused: for a divisor of zero, and when one
      log has routes and another has none. */
  lemma BatchRefusedIff(logs: seq<Log>, divisor: nat, pads: Pads)
    ensures BatchOf(logs, divisor, pads) == Ok(FlatBatch(None, None, None, None, [])) <==>
            logs == [] || (divisor > 0 && !AnyTensor(logs))
    ensures BatchOf(logs, divisor, pads) == Err(ZeroDivisionError) <==> logs != [] && divisor == 0
    ensures BatchOf(logs, divisor, pads) == Err(RuntimeError) <==>
            divisor > 0 && exists i, j :: 0 <= i < |logs| && 0 <= j < |logs| &&
                             FlatOf(logs[i]).routedExperts.Some? && FlatOf(logs[j]).routedExperts.None?
    ensures BatchOf(logs, divisor, pads).Err? ==> BatchOf(logs, divisor, pads).error in {ZeroDivisionError, RuntimeError}
  {
    var flats := Flats(logs);
    if i, j :| 0 <= i < |logs| && 0 <= j < |logs| && FlatOf(logs[i]).routedExperts.Some? && FlatOf(logs[j]).routedExperts.None? {
      assert HasTensor(flats[i]) && flats[i].routedExperts.Some? && flats[j].routedExperts.None?;
    }
    assert forall i :: 0 <= i < |logs| ==> flats[i] == FlatOf(logs[i]);
    assert AnyTensor(logs) <==> exists i :: 0 <= i < |flats| && HasTensor(flats[i]);
  }

  /** Each log's length is that of its longest column. */
  ghost predicate MeasuresLogs(lengths: seq<nat>, logs: seq<Log>) {
    |lengths| == |logs| && forall i :: 0 <= i < |logs| ==> IsLongest(FlatOf(logs[i]), lengths[i])
  }

  /** The least multiple of the divisor that no length exceeds. */
  ghost predicate IsLeastWidth(width: nat, lengths: seq<nat>, divisor: nat)
    requires divisor > 0
  {
    && Holds(lengths, width) && width % divisor == 0
    && forall w: nat :: w % divisor == 0 && Holds(lengths, w) ==> width <= w
  }

  predicate Holds(lengths: seq<nat>, width: nat) {
    forall i :: 0 <= i < |lengths| ==> lengths[i] <= width
  }

  /** What a batch with a column holds: each log's columns, padded each with its own
      value, to the least multiple of the divisor that holds the longest of them all;
      and the length of the longest column of every log. */
  lemma BatchIsExact(logs: seq<Log>, divisor: nat, pads: Pads, b: FlatBatch) returns (width: nat)
    requires divisor > 0 && AnyTensor(logs) && BatchOf(logs, divisor, pads) == Ok(b)
    ensures PadsColumns(b, logs, width, pads)
    ensures MeasuresLogs(b.lengths, logs)
    ensures IsLeastWidth(width, b.lengths, divisor)
  {
    var flats := Flats(logs);
    width := RoundUp(MaxOf(Lengths(flats)), divisor);
    BatchIsStacked(logs, divisor, pads);
    LengthsMeasure(logs);
    LeastWidth(Lengths(flats), divisor);
    ColumnsPad(logs, flats, width, pads);
  }

  lemma LengthsMeasure(logs: seq<Log>)
    ensures MeasuresLogs(Lengths(Flats(logs)), logs)
  {
  }

  lemma BatchIsStacked(logs: seq<Log>, divisor: nat, pads: Pads)
    requires divisor > 0 && AnyTensor(logs) && BatchOf(logs, divisor, pads).Ok?
    ensures var flats := Flats(logs);
            BatchOf(logs, divisor, pads).value == Batch(flats, RoundUp(MaxOf(Lengths(flats)), divisor), pads)
  {
    var i :| 0 <= i < |logs| && HasTensor(FlatOf(logs[i]));
    assert HasTensor(Flats(logs)[i]);
  }

  lemma {:induction false} LeastWidth(lengths: seq<nat>, divisor: nat)
    requires divisor > 0 && lengths != []
    ensures IsLeastWidth(RoundUp(MaxOf(lengths), divisor), lengths, divisor)
  {
    var n := MaxOf(lengths);
    RoundUpIsLeastMultiple(n, divisor);
    forall w: nat | w % divisor == 0 && Holds(lengths, w)
      ensures RoundUp(n, divisor) <= w
    {
      MaxOfIsAttained(lengths);
      NoMultipleBetween(n, divisor, RoundUp(n, divisor), w);
    }
  }

  lemma ColumnsPad(logs: seq<Log>, flats: seq<FlatLog>, width: nat, pads: Pads)
    requires flats == Flats(logs) && Holds(Lengths(flats), width)
    ensures PadsColumns(Batch(flats, width, pads), logs, width, pads)
  {
    var b := Batch(flats, width, pads);
    forall k: nat | k < |logs|
      ensures flats[k] == FlatOf(logs[k]) && Longest(flats[k]) <= width
    {
      assert Lengths(flats)[k] <= width;
    }
    assert PadsColumn(b.tokenIds, |logs|, ColumnOf(logs, (f: FlatLog) => f.tokenIds), width, pads.token) by {
      ColumnPads(logs, TokenColumns(flats), (f: FlatLog) => f.tokenIds, width, pads.token);
    }
    assert PadsColumn(b.generationLogprobs, |logs|, ColumnOf(logs, (f: FlatLog) => f.generationLogprobs), width, pads.logprob) by {
      ColumnPads(logs, LogprobColumns(flats), (f: FlatLog) => f.generationLogprobs, width, pads.logprob);
    }
    assert PadsColumn(b.routedExperts, |logs|, ColumnOf(logs, (f: FlatLog) => f.routedExperts), width, pads.route) by {
      ColumnPads(logs, RouteColumns(flats), (f: FlatLog) => f.routedExperts, width, pads.route);
    }
    assert PadsColumn(b.tokenLossMask, |logs|, ColumnOf(logs, (f: FlatLog) => f.tokenLossMask), width, pads.mask) by {
      ColumnPads(logs, MaskColumns(flats), (f: FlatLog) => f.tokenLossMask, width, pads.mask);
    }
  }

  // ---- Wire layout -------------------------------------------------------

  datatype Wire<T> = Dense(matrix: Matrix<T>) | Jagged(rows: seq<seq<T>>)

  /** Strips the right padding; a row shorter than its length stays whole. */
  function ToNestedByLength<T>(m: Matrix<T>, lengths: seq<nat>): Wire<T>
    requires |m.rows| == |lengths|
  {
    Jagged(seq(|m.rows|, i requires 0 <= i < |m.rows| =>
      if lengths[i] <= |m.rows[i]| then m.rows[i][..lengths[i]] else m.rows[i]))
  }

  /** Converts only what looks like a per-token column of exactly the batch's width. */
  function MaybePackJagged<T>(m: Matrix<T>, lengths: seq<nat>): Wire<T> {
    if |lengths| == 0 || |m.rows| != |lengths| || m.width != MaxOf(lengths) then Dense(m)
    else ToNestedByLength(m, lengths)
  }

  /** Converts a known per-token column, which may be wider than the batch. */
  function PackPerTokenField<T>(m: Matrix<T>, lengths: seq<nat>): Wire<T> {
    if |lengths| == 0 || |m.rows| != |lengths| || m.width < MaxOf(lengths) then Dense(m)
    else ToNestedByLength(m, lengths)
  }

  function RowLengths<T>(rows: seq<seq<T>>): seq<nat> {
    seq(|rows|, i requires 0 <= i < |rows| => |rows[i]|)
  }

  function Padded<T>(rows: seq<seq<T>>, width: nat, pad: T): Matrix<T> {
    Matrix(seq(|rows|, i requires 0 <= i < |rows| => PadRight(rows[i], width, pad)), width)
  }

  /** One leaf on the consumer: nested rows are padded to the longest, then
      everything to the requested length when that is larger. */
  function MaterializeLeaf<T>(w: Wire<T>, pad: T, padTo: nat): Matrix<T> {
    var m := if w.Dense? then w.matrix else Padded(w.rows, MaxOf(RowLengths(w.rows)), pad);
    if padTo > 0 && m.width < padTo then Padded(m.rows, padTo, pad) else m
  }

  ghost predicate SamePrefixes<T>(a: Matrix<T>, b: Matrix<T>, lengths: seq<nat>) {
    |a.rows| == |lengths| == |b.rows| &&
    forall i :: 0 <= i < |lengths| ==>
      lengths[i] <= |a.rows[i]| && lengths[i] <= |b.rows[i]| &&
      a.rows[i][..lengths[i]] == b.rows[i][..lengths[i]]
  }

  /** Per-row lengths that the matrix can hold. */
  predicate Fits<T>(m: Matrix<T>, lengths: seq<nat>) {
    Rectangular(m) && |m.rows| == |lengths| && forall i :: 0 <= i < |lengths| ==> lengths[i] <= m.width
  }

  lemma NestedWidth<T>(m: Matrix<T>, lengths: seq<nat>)
    requires Fits(m, lengths)
    ensures RowLengths(ToNestedByLength(m, lengths).rows) == lengths
  {
  }

  lemma {:induction false} MaterializeNested<T>(m: Matrix<T>, lengths: seq<nat>, pad: T, padTo: nat)
    requires Fits(m, lengths)
    ensures SamePrefixes(m, MaterializeLeaf(ToNestedByLength(m, lengths), pad, padTo), lengths)
    ensures Rectangular(MaterializeLeaf(ToNestedByLength(m, lengths), pad, padTo))
    ensures MaterializeLeaf(ToNestedByLength(m, lengths), pad, padTo).width == Max(MaxOf(lengths), padTo)
  {
    var inner := Padded(ToNestedByLength(m, lengths).rows, MaxOf(lengths), pad);
    NestedWidth(m, lengths);
    NestedPrefixes(m, lengths, pad);
    MaterializeDense(inner, lengths, pad, padTo);
    PrefixesCompose(m, inner, MaterializeLeaf(Dense(inner), pad, padTo), lengths);
  }

  lemma NestedPrefixes<T>(m: Matrix<T>, lengths: seq<nat>, pad: T)
    requires Fits(m, lengths)
    ensures var inner := Padded(ToNestedByLength(m, lengths).rows, MaxOf(lengths), pad);
            Fits(inner, lengths) && SamePrefixes(m, inner, lengths)
  {
  }

  lemma PrefixesCompose<T>(a: Matrix<T>, b: Matrix<T>, c: Matrix<T>, lengths: seq<nat>)
    requires SamePrefixes(a, b, lengths) && SamePrefixes(b, c, lengths)
    ensures SamePrefixes(a, c, lengths)
  {
  }

  lemma MaterializeDense<T>(m: Matrix<T>, lengths: seq<nat>, pad: T, padTo: nat)
    requires Fits(m, lengths)
    ensures SamePrefixes(m, MaterializeLeaf(Dense(m), pad, padTo), lengths)
    ensures Rectangular(MaterializeLeaf(Dense(m), pad, padTo))
    ensures MaterializeLeaf(Dense(m), pad, padTo).width == Max(m.width, padTo)
  {
  }

  /** A column travels jagged exactly when some row fills it; then each row is cut at its
      own length. */
  lemma JaggedIff<T>(m: Matrix<T>, lengths: seq<nat>)
    requires Fits(m, lengths)
    ensures MaybePackJagged(m, lengths).Jagged? <==> exists i :: 0 <= i < |lengths| && lengths[i] == m.width
    ensures MaybePackJagged(m, lengths).Jagged? ==>
              && |MaybePackJagged(m, lengths).rows| == |lengths|
              && forall i :: 0 <= i < |lengths| ==> MaybePackJagged(m, lengths).rows[i] == m.rows[i][..lengths[i]]
    ensures MaybePackJagged(m, lengths).Dense? ==> MaybePackJagged(m, lengths).matrix == m
  {
    if lengths != [] {
      MaxOfIsAttained(lengths);
    }
  }

  /** From this column on there is only padding. */
  ghost predicate PadsBeyond<T>(m: Matrix<T>, width: nat, pad: T) {
    forall i, j :: 0 <= i < |m.rows| && width <= j < |m.rows[i]| ==> m.rows[i][j] == pad
  }

  /** A row that is padding beyond its length already. */
  ghost predicate PaddedRows<T>(m: Matrix<T>, lengths: seq<nat>, pad: T) {
    |m.rows| == |lengths| && forall i, j :: 0 <= i < |lengths| && lengths[i] <= j < |m.rows[i]| ==> m.rows[i][j] == pad
  }

  /** Through the wire and back, every row keeps its valid prefix, and the width
      is the old one or the requested one, whichever is larger: which of the two
      layouts was chosen cannot be seen. */
  lemma WireKeepsPrefixes<T>(m: Matrix<T>, lengths: seq<nat>, pad: T, padTo: nat)
    requires Fits(m, lengths)
    ensures var back := MaterializeLeaf(MaybePackJagged(m, lengths), pad, padTo);
            && SamePrefixes(m, back, lengths) && Rectangular(back) && back.width == Max(m.width, padTo)
            && PadsBeyond(back, m.width, pad)
  {
    if |lengths| == 0 || m.width != MaxOf(lengths) {
      MaterializeDense(m, lengths, pad, padTo);
      DensePadsBeyond(m, pad, padTo);
    } else {
      MaterializeNested(m, lengths, pad, padTo);
      NestedPadsBeyond(m, lengths, pad, padTo);
    }
  }

  lemma DensePadsBeyond<T>(m: Matrix<T>, pad: T, padTo: nat)
    requires Rectangular(m)
    ensures PadsBeyond(MaterializeLeaf(Dense(m), pad, padTo), m.width, pad)
  {
  }

  /** With one pad value on both sides a padded column comes back as it was sent, up to
      the wider padding asked for: only what the wire was free to drop is replaced. */
  lemma WireRestoresPadding<T>(m: Matrix<T>, lengths: seq<nat>, pad: T, padTo: nat, i: nat, j: nat)
    requires Fits(m, lengths) && PaddedRows(m, lengths, pad) && i < |lengths|
    ensures var back := MaterializeLeaf(MaybePackJagged(m, lengths), pad, padTo);
            && i < |back.rows| && (j < |back.rows[i]| <==> j < Max(m.width, padTo))
            && (j < |back.rows[i]| ==> back.rows[i][j] == if j < m.width then m.rows[i][j] else pad)
  {
    if |lengths| != 0 && m.width == MaxOf(lengths) {
      NestedWidth(m, lengths);
    }
  }

  /** The forced conversion drops what lies beyond the batch's longest row and
      nothing else. */
  lemma {:induction false} ForcedWireKeepsPrefixes<T>(m: Matrix<T>, lengths: seq<nat>, pad: T, padTo: nat)
    requires Fits(m, lengths) && lengths != []
    ensures var back := MaterializeLeaf(PackPerTokenField(m, lengths), pad, padTo);
            && SamePrefixes(m, back, lengths) && Rectangular(back) && back.width == Max(MaxOf(lengths), padTo)
            && PadsBeyond(back, MaxOf(lengths), pad)
  {
    MaxOfIsAttained(lengths);
    assert PackPerTokenField(m, lengths) == ToNestedByLength(m, lengths);
    MaterializeNested(m, lengths, pad, padTo);
    NestedPadsBeyond(m, lengths, pad, padTo);
  }

  lemma {:induction false} NestedPadsBeyond<T>(m: Matrix<T>, lengths: seq<nat>, pad: T, padTo: nat)
    requires Fits(m, lengths)
    ensures PadsBeyond(MaterializeLeaf(ToNestedByLength(m, lengths), pad, padTo), MaxOf(lengths), pad)
  {
    NestedWidth(m, lengths);
  }

  // ---- Dictionaries of columns -------------------------------------------

  method PackJaggedFields<T>(fields: map<string, Matrix<T>>, lengths: Option<seq<nat>>)
    returns (packed: map<string, Wire<T>>)
    ensures packed.Keys == fields.Keys
    ensures forall k :: k in fields ==>
              packed[k] == if lengths.Some? then MaybePackJagged(fields[k], lengths.value) else Dense(fields[k])
  {
    packed := map[];
    var left := fields.Keys;
    while left != {}
      invariant left <= fields.Keys
      invariant packed.Keys == fields.Keys - left
      invariant forall k :: k in packed ==>
                  packed[k] == if lengths.Some? then MaybePackJagged(fields[k], lengths.value) else Dense(fields[k])
      decreases |left|
    {
      var k :| k in left;
      packed := packed[k := if lengths.Some? then MaybePackJagged(fields[k], lengths.value) else Dense(fields[k])];
      left := left - {k};
    }
  }

  method Materialize<T>(td: map<string, Wire<T>>, pads: map<string, T>, zero: T, padTo: nat)
    returns (out: map<string, Matrix<T>>)
    ensures out.Keys == td.Keys
    ensures forall k :: k in td ==> out[k] == MaterializeLeaf(td[k], if k in pads then pads[k] else zero, padTo)
  {
    out := map[];
    var left := td.Keys;
    while left != {}
      invariant left <= td.Keys
      invariant out.Keys == td.Keys - left
      invariant forall k :: k in out ==>
                  out[k] == MaterializeLeaf(td[k], if k in pads then pads[k] else zero, padTo)
      decreases |left|
    {
      var k :| k in left;
      out := out[k := MaterializeLeaf(td[k], if k in pads then pads[k] else zero, padTo)];
      left := left - {k};
    }
  }
}
