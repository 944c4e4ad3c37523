/** `BatchedDataDict.shard_by_batch_size`: chunks of `batch_size` rows, each cut
    into equal parts that are aggregated by position. */
module BatchSharding {
  import opened Sums
  import opened Options
  import opened Permutations
  import opened Arithmetic

  // ----- specification -----

  /** Chunk size, part size and number of chunks. */
  datatype Plan = Plan(chunk: nat, part: nat, chunks: nat)

  /** The size arithmetic and its refusals, in the source's order. */
  function MakePlan(total: nat, shards: nat, batchSize: Option<nat>, allowUneven: bool): (r: Result<Plan>) {
    if allowUneven && batchSize.Some? then Err(AssertionError)
    else
      var chunk := if batchSize.Some? then batchSize.value else total;
      if chunk == 0 then Err(ZeroDivisionError)
      else if total % chunk != 0 then Err(AssertionError)
      else if shards == 0 then Err(ZeroDivisionError)
      else if !allowUneven && chunk % shards != 0 then Err(AssertionError)
      else Ok(Plan(chunk, if allowUneven then (chunk + shards - 1) / shards else chunk / shards, total / chunk))
  }

  /** First row of shard `s` in chunk `c`. */
  function Offset(plan: Plan, c: nat, s: nat): nat {
    c * plan.chunk + s * plan.part
  }

  /** Where shard `s` lies in the first `m` chunks. */
  function Ranges(plan: Plan, s: nat, m: nat): (r: seq<(nat, nat)>)
    ensures |r| == m
  {
    seq(m, c requires 0 <= c < m => (Offset(plan, c, s), Offset(plan, c, s + 1)))
  }

  /** The rows of a list of ranges, one after the other. */
  function Slices<T>(rows: seq<T>, ranges: seq<(nat, nat)>): seq<T> {
    if ranges == [] then []
    else
      var last := ranges[|ranges| - 1];
      Slices(rows, ranges[..|ranges| - 1]) + Slice(rows, last.0, last.1)
  }

  /** Rows of shard `s` from the first `m` chunks. */
  function ShardUpTo<T>(rows: seq<T>, plan: Plan, s: nat, m: nat): seq<T> {
    Slices(rows, Ranges(plan, s, m))
  }

  lemma ShardStep<T>(rows: seq<T>, plan: Plan, s: nat, c: nat)
    ensures ShardUpTo(rows, plan, s, c + 1) ==
            ShardUpTo(rows, plan, s, c) + Slice(rows, Offset(plan, c, s), Offset(plan, c, s + 1))
  {
    assert Ranges(plan, s, c + 1)[..c] == Ranges(plan, s, c);
  }

  function ShardsFor<T>(rows: seq<T>, plan: Plan, shards: nat): (r: seq<seq<T>>)
    ensures |r| == shards
  {
    seq(shards, s requires 0 <= s < shards => ShardUpTo(rows, plan, s, plan.chunks))
  }

  function Shards<T>(rows: seq<T>, shards: nat, batchSize: Option<nat>, allowUneven: bool): (r: Result<seq<seq<T>>>) {
    var plan := MakePlan(|rows|, shards, batchSize, allowUneven);
    if plan.Err? then Err(plan.error) else Ok(ShardsFor(rows, plan.value, shards))
  }

  // ----- even plans -----

  /** The even plan: `total = chunks * chunk` and `chunk = shards * part`. */
  ghost predicate EvenPlan(plan: Plan, total: nat, shards: nat) {
    plan.part > 0 && shards > 0 && plan.chunk == shards * plan.part && total == plan.chunks * plan.chunk
  }

  lemma EvenPlanFrom(total: nat, shards: nat, batchSize: Option<nat>)
    requires MakePlan(total, shards, batchSize, false).Ok?
    ensures EvenPlan(MakePlan(total, shards, batchSize, false).value, total, shards)
  {
    var plan := MakePlan(total, shards, batchSize, false).value;
    assert plan.chunk == plan.chunk / shards * shards + plan.chunk % shards;
    assert total == total / plan.chunk * plan.chunk + total % plan.chunk;
    assert shards * plan.part == plan.chunk;
  }

  // ----- striped sharding is a bijection -----

  function ShardOf(plan: Plan, j: nat): nat
    requires plan.chunk > 0 && plan.part > 0
  {
    j % plan.chunk / plan.part
  }

  function PositionOf(plan: Plan, j: nat): nat
    requires plan.chunk > 0 && plan.part > 0
  {
    j / plan.chunk * plan.part + j % plan.chunk % plan.part
  }

  function RowAt(plan: Plan, s: nat, p: nat): nat
    requires plan.part > 0
  {
    p / plan.part * plan.chunk + s * plan.part + p % plan.part
  }

  /** The arithmetic of one row: chunk `c`, shard `s`, offset `x`. */
  lemma PlaceOfParts(plan: Plan, total: nat, shards: nat, c: nat, s: nat, x: nat)
    requires EvenPlan(plan, total, shards) && c < plan.chunks && s < shards && x < plan.part
    ensures c * plan.part + x < plan.chunks * plan.part
    ensures s * plan.part + x < plan.chunk && c * plan.chunk + (s * plan.part + x) < total
    ensures RowAt(plan, s, c * plan.part + x) == c * plan.chunk + (s * plan.part + x)
  {
    MulLess(c, plan.chunks, plan.part);
    MulLess(s, shards, plan.part);
    MulLess(c, plan.chunks, plan.chunk);
    DivModUnique(c, x, plan.part);
  }

  lemma PartsOfRow(plan: Plan, c: nat, s: nat, x: nat, o: nat)
    requires plan.part > 0 && x < plan.part && o == s * plan.part + x < plan.chunk
    ensures ShardOf(plan, c * plan.chunk + o) == s
    ensures PositionOf(plan, c * plan.chunk + o) == c * plan.part + x
  {
    DivModUnique(c, o, plan.chunk);
    DivModUnique(s, x, plan.part);
  }

  /** Every row has a shard and a position there, and they lead back to the row. */
  lemma RowHasOnePlace(plan: Plan, total: nat, shards: nat, j: nat)
    requires EvenPlan(plan, total, shards) && plan.chunk > 0 && j < total
    ensures ShardOf(plan, j) < shards
    ensures PositionOf(plan, j) < plan.chunks * plan.part
    ensures RowAt(plan, ShardOf(plan, j), PositionOf(plan, j)) == j
  {
    var c, o := j / plan.chunk, j % plan.chunk;
    DivModLaws(j, plan.chunk);
    QuotientBelow(j, plan.chunks, plan.chunk);
    var s, x := o / plan.part, o % plan.part;
    DivModLaws(o, plan.part);
    QuotientBelow(o, shards, plan.part);
    PlaceOfParts(plan, total, shards, c, s, x);
  }

  /** Every place holds a row, and the row's coordinates are that place. */
  lemma PlaceHasOneRow(plan: Plan, total: nat, shards: nat, s: nat, p: nat)
    requires EvenPlan(plan, total, shards) && plan.chunk > 0 && s < shards && p < plan.chunks * plan.part
    ensures RowAt(plan, s, p) < total
    ensures ShardOf(plan, RowAt(plan, s, p)) == s && PositionOf(plan, RowAt(plan, s, p)) == p
  {
    var c, x := p / plan.part, p % plan.part;
    DivModLaws(p, plan.part);
    QuotientBelow(p, plan.chunks, plan.part);
    PlaceOfParts(plan, total, shards, c, s, x);
    PartsOfRow(plan, c, s, x, s * plan.part + x);
  }

  /** Entry `p` of the list is row `at(p)`. */
  ghost predicate Lists<T>(list: seq<T>, n: nat, rows: seq<T>, at: nat -> nat) {
    |list| == n && forall p: nat :: p < n ==> at(p) < |rows| && list[p] == rows[at(p)]
  }

  lemma ListsMore<T>(init: seq<T>, done: nat, rows: seq<T>, at: nat -> nat, from: nat, width: nat)
    requires Lists(init, done, rows, at) && from + width <= |rows|
    requires forall p: nat :: done <= p < done + width ==> at(p) == from + (p - done)
    ensures Lists(init + rows[from..from + width], done + width, rows, at)
  {
  }

  function RowsAt(plan: Plan, s: nat): nat -> nat {
    (p: nat) => if plan.part > 0 then RowAt(plan, s, p) else 0
  }

  function Multiples(width: nat): nat -> nat {
    (c: nat) => c * width
  }

  /** Range `c` holds `width` rows, which entries `size(c)` onwards come from. */
  ghost predicate PieceAt(ranges: seq<(nat, nat)>, total: nat, width: nat, size: nat -> nat, at: nat -> nat, c: nat) {
    && c < |ranges| && ranges[c].1 == ranges[c].0 + width <= total
    && size(c + 1) == size(c) + width
    && forall p: nat :: size(c) <= p < size(c) + width ==> at(p) == ranges[c].0 + (p - size(c))
  }

  lemma {:induction false} SlicesList<T>(rows: seq<T>, ranges: seq<(nat, nat)>, width: nat, size: nat -> nat, at: nat -> nat, m: nat)
    requires m <= |ranges| && size(0) == 0
    requires forall c: nat :: c < |ranges| ==> PieceAt(ranges, |rows|, width, size, at, c)
    ensures Lists(Slices(rows, ranges[..m]), size(m), rows, at)
  {
    if m > 0 {
      var c := m - 1;
      SlicesList(rows, ranges, width, size, at, c);
      assert PieceAt(ranges, |rows|, width, size, at, c);
      ListsMore(Slices(rows, ranges[..c]), size(c), rows, at, ranges[c].0, width);
      SlicesStep(rows, ranges, c, width);
    }
  }

  lemma {:induction false} SlicesStep<T>(rows: seq<T>, ranges: seq<(nat, nat)>, c: nat, width: nat)
    requires c < |ranges| && ranges[c].1 == ranges[c].0 + width <= |rows|
    ensures Slices(rows, ranges[..c + 1]) == Slices(rows, ranges[..c]) + rows[ranges[c].0..ranges[c].0 + width]
  {
    assert ranges[..c + 1][..c] == ranges[..c];
    assert Slice(rows, ranges[c].0, ranges[c].1) == rows[ranges[c].0..ranges[c].0 + width];
  }

  lemma ShardPiece(plan: Plan, total: nat, shards: nat, s: nat, m: nat, c: nat)
    requires EvenPlan(plan, total, shards) && s < shards && c < m <= plan.chunks
    ensures PieceAt(Ranges(plan, s, m), total, plan.part, Multiples(plan.part), RowsAt(plan, s), c)
  {
    var done, from := c * plan.part, Offset(plan, c, s);
    PieceFits(plan, total, shards, s, c);
    assert (c + 1) * plan.part == done + plan.part;
    forall p: nat | done <= p < done + plan.part
      ensures RowsAt(plan, s)(p) == from + (p - done)
    {
      PlaceOfParts(plan, total, shards, c, s, p - done);
    }
  }

  lemma ShardLists<T>(rows: seq<T>, plan: Plan, shards: nat, s: nat, m: nat)
    requires EvenPlan(plan, |rows|, shards) && s < shards && m <= plan.chunks
    ensures Lists(ShardUpTo(rows, plan, s, m), m * plan.part, rows, RowsAt(plan, s))
  {
    var ranges := Ranges(plan, s, m);
    forall c: nat | c < m
      ensures PieceAt(ranges, |rows|, plan.part, Multiples(plan.part), RowsAt(plan, s), c)
    {
      ShardPiece(plan, |rows|, shards, s, m, c);
    }
    SlicesList(rows, ranges, plan.part, Multiples(plan.part), RowsAt(plan, s), m);
    assert ranges[..m] == ranges;
  }

  /** Size of a shard, and where each of its entries comes from. */
  lemma ShardContents<T>(rows: seq<T>, plan: Plan, shards: nat, s: nat, m: nat)
    requires EvenPlan(plan, |rows|, shards) && s < shards && m <= plan.chunks
    ensures |ShardUpTo(rows, plan, s, m)| == m * plan.part
    ensures forall p: nat :: p < m * plan.part ==>
              RowAt(plan, s, p) < |rows| && ShardUpTo(rows, plan, s, m)[p] == rows[RowAt(plan, s, p)]
  {
    ShardLists(rows, plan, shards, s, m);
    forall p: nat | p < m * plan.part
      ensures RowAt(plan, s, p) < |rows| && ShardUpTo(rows, plan, s, m)[p] == rows[RowAt(plan, s, p)]
    {
      assert RowsAt(plan, s)(p) == RowAt(plan, s, p);
    }
  }

  lemma PieceFits(plan: Plan, total: nat, shards: nat, s: nat, c: nat)
    requires EvenPlan(plan, total, shards) && s < shards && c < plan.chunks
    ensures Offset(plan, c, s + 1) == Offset(plan, c, s) + plan.part <= total
  {
    MulLess(c, plan.chunks, plan.chunk);
    MulLess(s, shards, plan.part);
    assert (s + 1) * plan.part == s * plan.part + plan.part;
  }

  /** Without uneven shards a batch is accepted exactly when the batch size divides it
      and the shard count divides the batch size, none of them zero; uneven shards take
      any non-empty batch, but no batch size. */
  lemma AcceptedIff<T>(rows: seq<T>, shards: nat, batchSize: Option<nat>, b: nat)
    requires b == if batchSize.Some? then batchSize.value else |rows|
    ensures Shards(rows, shards, batchSize, false).Ok? <==> b > 0 && |rows| % b == 0 && shards > 0 && b % shards == 0
    ensures Shards(rows, shards, batchSize, false) == Err(ZeroDivisionError) <==> b == 0 || (|rows| % b == 0 && shards == 0)
    ensures Shards(rows, shards, None, true).Ok? <==> rows != [] && shards > 0
    ensures batchSize.Some? ==> Shards(rows, shards, batchSize, true) == Err(AssertionError)
  {
    if rows != [] {
      OneChunk(|rows|);
    }
  }

  /** With `b` rows a chunk and `w` of them a shard, row `j` is in the shard of its
      stripe, behind the shard's parts of the chunks before. */
  ghost predicate RowPlaced<T>(rows: seq<T>, parts: seq<seq<T>>, b: nat, w: nat, j: nat)
    requires b > 0 && w > 0
  {
    var s, p := j % b / w, j / b * w + j % b % w;
    j < |rows| && s < |parts| && p < |parts[s]| && parts[s][p] == rows[j]
  }

  /** Place `p` of shard `s` holds the row that belongs there. */
  ghost predicate PlaceFilled<T>(rows: seq<T>, parts: seq<seq<T>>, b: nat, w: nat, s: nat, p: nat)
    requires w > 0
  {
    var j := p / w * b + s * w + p % w;
    s < |parts| && p < |parts[s]| && j < |rows| && parts[s][p] == rows[j]
  }

  lemma PlanIs(total: nat, shards: nat, batchSize: Option<nat>, b: nat, w: nat) returns (plan: Plan)
    requires MakePlan(total, shards, batchSize, false).Ok?
    requires b == (if batchSize.Some? then batchSize.value else total) && w == b / shards
    ensures plan == MakePlan(total, shards, batchSize, false).value && EvenPlan(plan, total, shards)
    ensures plan.chunk == b > 0 && plan.part == w > 0
  {
    EvenPlanFrom(total, shards, batchSize);
    plan := MakePlan(total, shards, batchSize, false).value;
  }

  lemma RowIsPlaced<T>(rows: seq<T>, plan: Plan, shards: nat, j: nat)
    requires EvenPlan(plan, |rows|, shards) && plan.chunk > 0 && j < |rows|
    ensures RowPlaced(rows, ShardsFor(rows, plan, shards), plan.chunk, plan.part, j)
  {
    RowHasOnePlace(plan, |rows|, shards, j);
    ShardContents(rows, plan, shards, ShardOf(plan, j), plan.chunks);
  }

  lemma PlaceIsFilled<T>(rows: seq<T>, plan: Plan, shards: nat, s: nat, p: nat)
    requires EvenPlan(plan, |rows|, shards) && s < shards && p < |ShardsFor(rows, plan, shards)[s]|
    ensures PlaceFilled(rows, ShardsFor(rows, plan, shards), plan.chunk, plan.part, s, p)
  {
    ShardContents(rows, plan, shards, s, plan.chunks);
    assert RowAt(plan, s, p) == p / plan.part * plan.chunk + s * plan.part + p % plan.part;
  }

  lemma PartIsEven<T>(rows: seq<T>, plan: Plan, shards: nat, s: nat)
    requires EvenPlan(plan, |rows|, shards) && s < shards
    ensures shards * |ShardsFor(rows, plan, shards)[s]| == |rows|
  {
    ShardContents(rows, plan, shards, s, plan.chunks);
    SizesAgree(plan, |rows|, shards);
  }

  /** Striping: the shards are equal in size, every row is where its stripe belongs,
      and every place holds the row that belongs there; so rows and places correspond
      one to one. */
  lemma StripedShardingIsBijective<T>(rows: seq<T>, shards: nat, batchSize: Option<nat>, b: nat, w: nat)
    requires Shards(rows, shards, batchSize, false).Ok?
    requires b == (if batchSize.Some? then batchSize.value else |rows|) && w == b / shards
    ensures var parts := Shards(rows, shards, batchSize, false).value;
            && b > 0 && w > 0 && |parts| == shards
            && (forall s: nat :: s < shards ==> shards * |parts[s]| == |rows|)
            && (forall j: nat :: j < |rows| ==> RowPlaced(rows, parts, b, w, j))
            && (forall s: nat, p: nat :: s < shards && p < |parts[s]| ==> PlaceFilled(rows, parts, b, w, s, p))
  {
    var parts := Shards(rows, shards, batchSize, false).value;
    var plan := PlanIs(|rows|, shards, batchSize, b, w);
    forall s: nat | s < shards ensures shards * |parts[s]| == |rows| {
      PartIsEven(rows, plan, shards, s);
    }
    forall j: nat | j < |rows| ensures RowPlaced(rows, parts, b, w, j) {
      RowIsPlaced(rows, plan, shards, j);
    }
    forall s: nat, p: nat | s < shards && p < |parts[s]| ensures PlaceFilled(rows, parts, b, w, s, p) {
      PlaceIsFilled(rows, plan, shards, s, p);
    }
  }

  /** A shard keeps batch order. */
  lemma ShardKeepsOrder(plan: Plan, total: nat, shards: nat, s: nat, p: nat, p': nat)
    requires EvenPlan(plan, total, shards) && s < shards && p < p'
    ensures RowAt(plan, s, p) < RowAt(plan, s, p')
  {
    var c, x := p / plan.part, p % plan.part;
    var c', x' := p' / plan.part, p' % plan.part;
    assert p == c * plan.part + x && p' == c' * plan.part + x';
    if c < c' {
      MulLess(c, c', plan.chunk);
      MulLess(0, shards, plan.part);
    } else if c > c' {
      MulLess(c', c, plan.part);
    }
  }

  // ----- one chunk: contiguous blocks -----

  /** Part `s` is the block between two consecutive ends. */
  ghost predicate BlockAt<T>(rows: seq<T>, parts: seq<seq<T>>, ends: nat -> nat, s: nat) {
    s < |parts| && ends(s) <= ends(s + 1) && parts[s] == Slice(rows, ends(s), ends(s + 1))
  }

  lemma {:induction false} BlocksConcatenate<T>(rows: seq<T>, parts: seq<seq<T>>, ends: nat -> nat, m: nat)
    requires m <= |parts| && ends(0) == 0 && forall s: nat :: s < |parts| ==> BlockAt(rows, parts, ends, s)
    ensures Flatten(parts[..m]) == rows[..Min(ends(m), |rows|)]
  {
    if m > 0 {
      BlocksConcatenate(rows, parts, ends, m - 1);
      assert BlockAt(rows, parts, ends, m - 1);
      assert parts[..m][..m - 1] == parts[..m - 1];
      BlockExtends(rows, ends(m - 1), ends(m));
    }
  }

  lemma ShardBlock<T>(rows: seq<T>, plan: Plan, s: nat)
    ensures ShardUpTo(rows, plan, s, 1) == Slice(rows, s * plan.part, (s + 1) * plan.part)
    ensures s * plan.part <= (s + 1) * plan.part
  {
    ShardStep(rows, plan, s, 0);
    assert ShardUpTo(rows, plan, s, 0) == [];
    MulOrder(s, s + 1, plan.part);
  }

  /** With one chunk the shards are consecutive blocks, so their concatenation is the
      batch again; trailing shards of an uneven split may be empty. */
  lemma OneChunkConcatenates<T>(rows: seq<T>, plan: Plan, m: nat)
    requires plan.chunks == 1
    ensures Flatten(ShardsFor(rows, plan, m)) == rows[..Min(m * plan.part, |rows|)]
  {
    var parts, ends := ShardsFor(rows, plan, m), Multiples(plan.part);
    forall s: nat | s < m
      ensures BlockAt(rows, parts, ends, s)
    {
      ShardIsBlock(rows, plan, m, s);
    }
    BlocksConcatenate(rows, parts, ends, m);
    assert parts[..m] == parts;
  }

  lemma ShardIsBlock<T>(rows: seq<T>, plan: Plan, m: nat, s: nat)
    requires plan.chunks == 1 && s < m
    ensures BlockAt(rows, ShardsFor(rows, plan, m), Multiples(plan.part), s)
  {
    ShardBlock(rows, plan, s);
    var ends := Multiples(plan.part);
    assert ends(s) == s * plan.part && ends(s + 1) == (s + 1) * plan.part;
  }

  lemma BlockExtends<T>(rows: seq<T>, a: nat, b: nat)
    requires a <= b
    ensures rows[..Min(a, |rows|)] + Slice(rows, a, b) == rows[..Min(b, |rows|)]
  {
  }

  /** Uneven shards are blocks of the least size that covers the batch, cut off at its
      end. */
  lemma UnevenShardsAreBlocks<T>(rows: seq<T>, shards: nat) returns (w: nat)
    requires rows != [] && shards > 0
    ensures Shards(rows, shards, None, true).Ok?
    ensures w > 0 && (w - 1) * shards < |rows| <= w * shards
    ensures var parts := Shards(rows, shards, None, true).value;
            && |parts| == shards
            && forall s: nat :: s < shards ==>
                 && 0 <= Min(s * w, |rows|) <= Min((s + 1) * w, |rows|)
                 && parts[s] == rows[Min(s * w, |rows|)..Min((s + 1) * w, |rows|)]
  {
    var n := |rows|;
    OneChunk(n);
    w := (n + shards - 1) / shards;
    assert n + shards - 1 == w * shards + (n + shards - 1) % shards;
    assert w * shards == (w - 1) * shards + shards;
    var plan := Plan(n, w, 1);
    assert MakePlan(n, shards, None, true) == Ok(plan);
    forall s: nat | s < shards
      ensures 0 <= Min(s * w, n) <= Min((s + 1) * w, n)
      ensures ShardUpTo(rows, plan, s, 1) == rows[Min(s * w, n)..Min((s + 1) * w, n)]
    {
      ShardBlock(rows, plan, s);
    }
  }

  lemma UnevenShardsConcatenate<T>(rows: seq<T>, shards: nat)
    requires Shards(rows, shards, None, true).Ok?
    ensures Flatten(Shards(rows, shards, None, true).value) == rows
  {
    var plan := UnevenPlanCovers(|rows|, shards);
    OneChunkConcatenates(rows, plan, shards);
    assert rows[..|rows|] == rows;
  }

  lemma UnevenPlanCovers(total: nat, shards: nat) returns (plan: Plan)
    requires MakePlan(total, shards, None, true).Ok?
    ensures plan == MakePlan(total, shards, None, true).value
    ensures plan.chunks == 1 && shards * plan.part >= total
  {
    plan := MakePlan(total, shards, None, true).value;
    OneChunk(total);
    CeilingCovers(total, shards);
  }

  lemma OneChunk(n: nat)
    requires n > 0
    ensures n / n == 1 && n % n == 0
  {
    DivModUnique(1, 0, n);
  }

  lemma CeilingCovers(n: nat, d: nat)
    requires d > 0
    ensures d * ((n + d - 1) / d) >= n
    ensures (n + d - 1) / d * d >= n
  {
    var q := (n + d - 1) / d;
    assert n + d - 1 == q * d + (n + d - 1) % d;
  }

  lemma WholeBatchShardsConcatenate<T>(rows: seq<T>, shards: nat)
    requires Shards(rows, shards, None, false).Ok?
    ensures Flatten(Shards(rows, shards, None, false).value) == rows
  {
    var plan := MakePlan(|rows|, shards, None, false).value;
    OneChunk(|rows|);
    EvenPlanFrom(|rows|, shards, None);
    OneChunkConcatenates(rows, plan, shards);
  }

  lemma {:induction false} FlattenSize<T>(parts: seq<seq<T>>, w: nat)
    requires forall s :: 0 <= s < |parts| ==> |parts[s]| == w
    ensures |Flatten(parts)| == |parts| * w
  {
    if parts != [] {
      FlattenSize(parts[..|parts| - 1], w);
      assert |parts| * w == (|parts| - 1) * w + w;
    }
  }

  /** Parts whose entries know their own shard and position never repeat an entry. */
  lemma {:induction false} KeyedPartsDistinct(parts: seq<seq<nat>>, shardOf: nat -> nat, positionOf: nat -> nat, total: nat)
    requires forall s, p :: 0 <= s < |parts| && 0 <= p < |parts[s]| ==>
               parts[s][p] < total && shardOf(parts[s][p]) == s && positionOf(parts[s][p]) == p
    ensures Distinct(Flatten(parts)) && InRange(Flatten(parts), total)
    ensures forall x :: x in Flatten(parts) ==> shardOf(x) < |parts|
  {
    if parts != [] {
      var n := |parts| - 1;
      KeyedPartsDistinct(parts[..n], shardOf, positionOf, total);
      assert forall p :: 0 <= p < |parts[n]| ==> shardOf(parts[n][p]) == n;
      var init := Flatten(parts[..n]);
      forall a, b | 0 <= a < |init| && 0 <= b < |parts[n]| ensures init[a] != parts[n][b] {
        assert init[a] in init;
      }
      forall a, b | 0 <= a < b < |parts[n]| ensures parts[n][a] != parts[n][b] {
        assert positionOf(parts[n][a]) == a && positionOf(parts[n][b]) == b;
      }
    }
  }

  function ShardKey(plan: Plan): nat -> nat {
    (x: nat) => if plan.chunk > 0 && plan.part > 0 then ShardOf(plan, x) else 0
  }

  function PositionKey(plan: Plan): nat -> nat {
    (x: nat) => if plan.chunk > 0 && plan.part > 0 then PositionOf(plan, x) else 0
  }

  lemma PartEntry(plan: Plan, total: nat, shards: nat, s: nat, p: nat)
    requires EvenPlan(plan, total, shards)
    requires s < shards && p < |ShardUpTo(Iota(total), plan, s, plan.chunks)|
    ensures var x := ShardUpTo(Iota(total), plan, s, plan.chunks)[p];
            x < total && ShardKey(plan)(x) == s && PositionKey(plan)(x) == p
  {
    MulAtLeast(shards, plan.part);
    ShardContents(Iota(total), plan, shards, s, plan.chunks);
    PlaceHasOneRow(plan, total, shards, s, p);
  }

  lemma PartsSize(plan: Plan, total: nat, shards: nat)
    requires EvenPlan(plan, total, shards)
    ensures |Flatten(ShardsFor(Iota(total), plan, shards))| == total
  {
    var parts := ShardsFor(Iota(total), plan, shards);
    forall s: nat | s < shards ensures |parts[s]| == plan.chunks * plan.part {
      ShardContents(Iota(total), plan, shards, s, plan.chunks);
    }
    FlattenSize(parts, plan.chunks * plan.part);
    SizesAgree(plan, total, shards);
  }

  /** Read in rank order, the shards list every row index exactly once. */
  lemma StripedIsPermutation(total: nat, shards: nat, batchSize: Option<nat>)
    requires Shards(Iota(total), shards, batchSize, false).Ok?
    ensures IsPermutation(Flatten(Shards(Iota(total), shards, batchSize, false).value), total)
  {
    var plan := MakePlan(total, shards, batchSize, false).value;
    EvenPlanFrom(total, shards, batchSize);
    EvenPlanPermutes(plan, total, shards);
  }

  lemma EvenPlanPermutes(plan: Plan, total: nat, shards: nat)
    requires EvenPlan(plan, total, shards)
    ensures IsPermutation(Flatten(ShardsFor(Iota(total), plan, shards)), total)
  {
    var parts := ShardsFor(Iota(total), plan, shards);
    forall s: nat, p: nat | s < |parts| && p < |parts[s]|
      ensures parts[s][p] < total && ShardKey(plan)(parts[s][p]) == s && PositionKey(plan)(parts[s][p]) == p
    {
      PartEntry(plan, total, shards, s, p);
    }
    KeyedPartsDistinct(parts, ShardKey(plan), PositionKey(plan), total);
    PartsSize(plan, total, shards);
  }

  lemma SizesAgree(plan: Plan, total: nat, shards: nat)
    requires EvenPlan(plan, total, shards)
    ensures shards * (plan.chunks * plan.part) == total
  {
    assert plan.chunks * (shards * plan.part) == shards * (plan.chunks * plan.part);
  }

  // ----- the loops of the source -----

  /** `shard_by_batch_size` on the un-packed path. */
  method ShardByBatchSize<T>(rows: seq<T>, shards: nat, batchSize: Option<nat>, allowUneven: bool)
    returns (r: Result<seq<seq<T>>>)
    ensures r == Shards(rows, shards, batchSize, allowUneven)
  {
    if allowUneven && batchSize.Some? {
      return Err(AssertionError);
    }
    var total := |rows|;
    var chunkSize := if batchSize.Some? then batchSize.value else total;
    if chunkSize == 0 {
      return Err(ZeroDivisionError);
    }
    if total % chunkSize != 0 {
      return Err(AssertionError);
    }
    if shards == 0 {
      return Err(ZeroDivisionError);
    }
    if !allowUneven && chunkSize % shards != 0 {
      return Err(AssertionError);
    }
    var numChunks := total / chunkSize;
    var shardSize := if allowUneven then (chunkSize + shards - 1) / shards else chunkSize / shards;
    var aggregated := AggregateShards(rows, Plan(chunkSize, shardSize, numChunks), shards);
    r := Ok(aggregated);
  }

  /** The inner loops: one shard's ranges in all chunks, and their rows. */
  method AggregateShard<T>(rows: seq<T>, plan: Plan, shard: nat) returns (values: seq<T>)
    ensures values == ShardUpTo(rows, plan, shard, plan.chunks)
  {
    var shardRanges: seq<(nat, nat)> := [];
    for chunk := 0 to plan.chunks
      invariant shardRanges == Ranges(plan, shard, chunk)
    {
      var shardStart, shardEnd := Offset(plan, chunk, shard), Offset(plan, chunk, shard + 1);
      shardRanges := shardRanges + [(shardStart, shardEnd)];
    }
    values := [];
    for k := 0 to |shardRanges|
      invariant values == Slices(rows, shardRanges[..k])
    {
      assert shardRanges[..k + 1][..k] == shardRanges[..k];
      values := values + Slice(rows, shardRanges[k].0, shardRanges[k].1);
    }
    assert shardRanges[..|shardRanges|] == shardRanges;
  }

  /** The double loop over shards and chunks. */
  method AggregateShards<T>(rows: seq<T>, plan: Plan, shards: nat) returns (aggregated: seq<seq<T>>)
    ensures aggregated == ShardsFor(rows, plan, shards)
  {
    aggregated := [];
    for shard := 0 to shards
      invariant |aggregated| == shard
      invariant forall s :: 0 <= s < shard ==> aggregated[s] == ShardUpTo(rows, plan, s, plan.chunks)
    {
      var values := AggregateShard(rows, plan, shard);
      aggregated := aggregated + [values];
    }
  }

  /** The named columns of a batch. */
  class BatchedDataDict<T> {
    var columns: map<string, seq<T>>

    constructor (data: map<string, seq<T>>)
      ensures columns == data
    {
      columns := data;
    }

    /** `reorder_data`: every column is gathered by the same indices. */
    method ReorderData(indices: seq<nat>)
      requires forall k :: k in columns ==> InRange(indices, |columns[k]|)
      modifies this
      ensures columns.Keys == old(columns.Keys)
      ensures forall k :: k in columns ==> columns[k] == Pick(old(columns[k]), indices)
    {
      var pending := columns.Keys;
      while pending != {}
        invariant columns.Keys == old(columns.Keys) && pending <= columns.Keys
        invariant forall k :: k in pending ==> columns[k] == old(columns[k])
        invariant forall k :: k in columns && k !in pending ==> columns[k] == Pick(old(columns[k]), indices)
        decreases pending
      {
        var k :| k in pending;
        columns := columns[k := Pick(columns[k], indices)];
        pending := pending - {k};
      }
    }
  }
}
