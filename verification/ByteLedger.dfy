/** Live-byte accounting of the data-plane client. */
module ByteLedger {
  // A successful put charges its bytes to the written keys, a successful clear
  // refunds what the dropped keys were charged.

  import opened Options

  /** Bytes charged to each key of one partition. */
  type Shares = map<string, nat>
  /** The shares of every partition that holds a key. */
  type Partitions = map<string, Shares>

  /** One client call; `ok` says whether the underlying call succeeded. No keys
      in a clear means the whole partition. */
  datatype Op =
    | Put(partition: string, keys: seq<string>, nBytes: int, ok: bool)
    | Clear(partition: string, dropped: Option<seq<string>>, ok: bool)

  // ---- Sums over finite maps --------------------------------------------

  ghost function SumOver(m: map<string, nat>): nat {
    if m == map[] then 0
    else
      var k :| k in m;
      m[k] + SumOver(m - {k})
  }

  lemma {:induction false} SumOverRemove(m: map<string, nat>, k: string)
    requires k in m
    ensures SumOver(m) == m[k] + SumOver(m - {k})
    decreases |m|
  {
    var j :| j in m && SumOver(m) == m[j] + SumOver(m - {j});
    if j != k {
      SumOverRemove(m - {j}, k);
      SumOverRemove(m - {k}, j);
      assert m - {j} - {k} == m - {k} - {j};
    }
  }

  lemma SumOverUpdate(m: map<string, nat>, k: string, v: nat)
    ensures SumOver(m[k := v]) == SumOver(m) - (if k in m then m[k] else 0) + v
  {
    SumOverRemove(m[k := v], k);
    assert m[k := v] - {k} == m - {k};
    if k in m {
      SumOverRemove(m, k);
    } else {
      assert m - {k} == m;
    }
  }

  ghost function Totals(ps: Partitions): map<string, nat> {
    map p | p in ps :: SumOver(ps[p])
  }

  /** Bytes charged to all keys of all partitions. */
  ghost function Held(ps: Partitions): nat {
    SumOver(Totals(ps))
  }

  lemma {:induction false} HeldUpdate(ps: Partitions, p: string, d: Shares)
    ensures Held(ps[p := d]) == Held(ps) - SumOver(Charged(ps, p)) + SumOver(d)
  {
    assert Totals(ps[p := d]) == Totals(ps)[p := SumOver(d)];
    SumOverUpdate(Totals(ps), p, SumOver(d));
  }

  lemma HeldRemove(ps: Partitions, p: string)
    requires p in ps
    ensures Held(ps - {p}) == Held(ps) - SumOver(ps[p])
  {
    assert Totals(ps - {p}) == Totals(ps) - {p};
    SumOverRemove(Totals(ps), p);
  }

  // ---- One operation -----------------------------------------------------

  function Charged(ps: Partitions, p: string): Shares {
    if p in ps then ps[p] else map[]
  }

  function Share(d: Shares, k: string): nat {
    if k in d then d[k] else 0
  }

  /** The even split of `n` bytes over `count` keys, early keys taking the rest. */
  function Portion(n: nat, count: nat, i: nat): nat
    requires i < count
  {
    n / count + if i < n % count then 1 else 0
  }

  /** The shares after the first `n` keys of a put have been charged. */
  function Charge(d: Shares, keys: seq<string>, bytes: nat, n: nat): Shares
    requires n <= |keys|
  {
    if n == 0 then d
    else
      var before := Charge(d, keys, bytes, n - 1);
      before[keys[n - 1] := Share(before, keys[n - 1]) + Portion(bytes, |keys|, n - 1)]
  }

  function Drop(d: Shares, keys: seq<string>): Shares {
    map k | k in d && k !in keys :: d[k]
  }

  /** Whether a call reaches the ledger at all. */
  predicate Charges(op: Op) {
    op.Put? && op.ok && op.keys != [] && op.nBytes > 0
  }

  function Step(ps: Partitions, op: Op): Partitions {
    if op.Put? then
      if Charges(op) then
        ps[op.partition := Charge(Charged(ps, op.partition), op.keys, op.nBytes, |op.keys|)]
      else ps
    else if !op.ok || op.partition !in ps then ps
    else if op.dropped.None? then ps - {op.partition}
    else
      var left := Drop(ps[op.partition], op.dropped.value);
      if left == map[] then ps - {op.partition} else ps[op.partition := left]
  }

  /** The ledger after a history of calls, from an empty client. */
  function After(ops: seq<Op>): Partitions {
    if ops == [] then map[] else Step(After(ops[..|ops| - 1]), ops[|ops| - 1])
  }

  /** The most bytes held at any point of the history. */
  ghost function Peak(ops: seq<Op>): nat {
    if ops == [] then 0
    else
      var before := Peak(ops[..|ops| - 1]);
      if Held(After(ops)) > before then Held(After(ops)) else before
  }

  // ---- Conservation ------------------------------------------------------

  /** The even split hands out every byte. */
  function PortionSum(n: nat, count: nat, i: nat): nat
    requires i <= count
  {
    if i == 0 then 0 else PortionSum(n, count, i - 1) + Portion(n, count, i - 1)
  }

  lemma {:induction false} PortionSumClosed(n: nat, count: nat, i: nat)
    requires i <= count && 0 < count
    ensures PortionSum(n, count, i) == n / count * i + if i < n % count then i else n % count
  {
    if i > 0 {
      PortionSumClosed(n, count, i - 1);
      MultipleStep(n / count, i);
    }
  }

  lemma MultipleStep(q: nat, i: nat)
    requires i > 0
    ensures q * i == q * (i - 1) + q
  {
  }

  lemma {:induction false} PortionsConserve(n: nat, count: nat)
    requires 0 < count
    ensures PortionSum(n, count, count) == n
  {
    PortionSumClosed(n, count, count);
  }

  lemma {:induction false} ChargeTotal(d: Shares, keys: seq<string>, bytes: nat, n: nat)
    requires n <= |keys|
    ensures SumOver(Charge(d, keys, bytes, n)) == SumOver(d) + PortionSum(bytes, |keys|, n)
  {
    if n > 0 {
      ChargeTotal(d, keys, bytes, n - 1);
      var before := Charge(d, keys, bytes, n - 1);
      ChargeKey(before, keys[n - 1], Portion(bytes, |keys|, n - 1));
    }
  }

  lemma ChargeKey(d: Shares, k: string, add: nat)
    ensures SumOver(d[k := Share(d, k) + add]) == SumOver(d) + add
  {
    SumOverUpdate(d, k, Share(d, k) + add);
  }

  /** A put raises the held bytes by exactly its size, however often a key
      repeats; a call that does not succeed changes nothing. */
  lemma StepConserves(ps: Partitions, op: Op)
    ensures op.Put? && op.ok && op.keys != [] && op.nBytes > 0 ==> Held(Step(ps, op)) == Held(ps) + op.nBytes
    ensures op.Put? && (op.keys == [] || op.nBytes <= 0) ==> Step(ps, op) == ps
    ensures !op.ok ==> Step(ps, op) == ps
    ensures op.Clear? ==> Held(Step(ps, op)) == Held(ps) - Refund(ps, op)
  {
    if Charges(op) {
      var d := Charged(ps, op.partition);
      ChargeTotal(d, op.keys, op.nBytes, |op.keys|);
      PortionsConserve(op.nBytes, |op.keys|);
      HeldUpdate(ps, op.partition, Charge(d, op.keys, op.nBytes, |op.keys|));
    } else if op.Clear? && op.ok && op.partition in ps {
      HeldRemove(ps, op.partition);
      if op.dropped.Some? {
        HeldUpdate(ps, op.partition, Drop(ps[op.partition], op.dropped.value));
      }
    }
  }

  /** What a clear gives back: all that its keys were charged. */
  ghost function Refund(ps: Partitions, op: Op): int
    requires op.Clear?
  {
    if !op.ok || op.partition !in ps then 0
    else if op.dropped.None? then SumOver(ps[op.partition])
    else SumOver(ps[op.partition]) - SumOver(Drop(ps[op.partition], op.dropped.value))
  }

  predicate NoEmptyEntry(ps: Partitions) {
    forall p :: p in ps ==> ps[p] != map[]
  }

  lemma {:induction false} ChargeKeys(d: Shares, keys: seq<string>, bytes: nat, n: nat)
    requires n <= |keys|
    ensures Charge(d, keys, bytes, n).Keys == d.Keys + set i | 0 <= i < n :: keys[i]
  {
    if n > 0 {
      ChargeKeys(d, keys, bytes, n - 1);
    }
  }

  lemma StepLeavesNoEmptyEntry(ps: Partitions, op: Op)
    requires NoEmptyEntry(ps)
    ensures NoEmptyEntry(Step(ps, op))
  {
    if Charges(op) {
      ChargeKeys(Charged(ps, op.partition), op.keys, op.nBytes, |op.keys|);
      assert op.keys[0] in Charge(Charged(ps, op.partition), op.keys, op.nBytes, |op.keys|).Keys;
    }
  }

  lemma {:induction false} HistoryLeavesNoEmptyEntry(ops: seq<Op>)
    ensures NoEmptyEntry(After(ops))
  {
    if ops != [] {
      HistoryLeavesNoEmptyEntry(ops[..|ops| - 1]);
      StepLeavesNoEmptyEntry(After(ops[..|ops| - 1]), ops[|ops| - 1]);
    }
  }

  /** The peak is the maximum of the held bytes over every prefix of the history. */
  lemma {:induction false} PeakIsMaximum(ops: seq<Op>)
    ensures forall n :: 0 <= n <= |ops| ==> Held(After(ops[..n])) <= Peak(ops)
    ensures exists n :: 0 <= n <= |ops| && Held(After(ops[..n])) == Peak(ops)
  {
    assert ops[..|ops|] == ops;
    if ops != [] {
      var before := ops[..|ops| - 1];
      PeakIsMaximum(before);
      forall n | 0 <= n <= |ops|
        ensures Held(After(ops[..n])) <= Peak(ops)
      {
        if n < |ops| {
          assert before[..n] == ops[..n];
        }
      }
      var m :| 0 <= m <= |before| && Held(After(before[..m])) == Peak(before);
      assert before[..m] == ops[..m];
      var n := if Held(After(ops)) > Peak(before) then |ops| else m;
      assert Held(After(ops[..n])) == Peak(ops);
    } else {
      assert Held(After(ops[..0])) == Peak(ops);
    }
  }

  // ---- Per-key history ---------------------------------------------------

  /** Whether a call drops the key. */
  predicate Drops(op: Op, p: string, k: string) {
    op.Clear? && op.ok && op.partition == p && (op.dropped.None? || k in op.dropped.value)
  }

  /** Whether a call charges the key, possibly with zero bytes. */
  predicate Writes(op: Op, p: string, k: string) {
    op.Put? && op.ok && op.nBytes > 0 && op.partition == p && k in op.keys
  }

  /** Portions that the first `n` positions of a put give to one key. */
  function KeyPortion(keys: seq<string>, bytes: nat, k: string, n: nat): nat
    requires n <= |keys|
  {
    if n == 0 then 0
    else KeyPortion(keys, bytes, k, n - 1) + if keys[n - 1] == k then Portion(bytes, |keys|, n - 1) else 0
  }

  /** What the key has been charged since it was last dropped. */
  function Owed(ops: seq<Op>, p: string, k: string): nat {
    if ops == [] then 0
    else
      var before := Owed(ops[..|ops| - 1], p, k);
      var op := ops[|ops| - 1];
      if Drops(op, p, k) then 0
      else if Writes(op, p, k) then before + KeyPortion(op.keys, op.nBytes, k, |op.keys|)
      else before
  }

  /** The last call to touch the key wrote it. */
  predicate Written(ops: seq<Op>, p: string, k: string) {
    ops != [] &&
    var op := ops[|ops| - 1];
    Writes(op, p, k) || (!Drops(op, p, k) && Written(ops[..|ops| - 1], p, k))
  }

  predicate Live(ps: Partitions, p: string, k: string) {
    p in ps && k in ps[p]
  }

  lemma {:induction false} ChargeShare(d: Shares, keys: seq<string>, bytes: nat, n: nat, k: string)
    requires n <= |keys|
    ensures Share(Charge(d, keys, bytes, n), k) == Share(d, k) + KeyPortion(keys, bytes, k, n)
  {
    if n > 0 {
      ChargeShare(d, keys, bytes, n - 1, k);
    }
  }

  lemma {:induction false} StepShare(ps: Partitions, op: Op, p: string, k: string)
    ensures Live(Step(ps, op), p, k) == (Writes(op, p, k) || (!Drops(op, p, k) && Live(ps, p, k)))
    ensures Share(Charged(Step(ps, op), p), k) ==
            if Drops(op, p, k) then 0
            else if Writes(op, p, k) then
              Share(Charged(ps, p), k) + KeyPortion(op.keys, op.nBytes, k, |op.keys|)
            else Share(Charged(ps, p), k)
  {
    if Charges(op) && op.partition == p {
      var d := Charged(ps, p);
      ChargeKeys(d, op.keys, op.nBytes, |op.keys|);
      ChargeShare(d, op.keys, op.nBytes, |op.keys|, k);
      if k !in op.keys {
        KeyPortionZero(op.keys, op.nBytes, k, |op.keys|);
      }
    } else if op.Clear? && op.ok && op.partition == p && p in ps && op.dropped.Some? {
      var left := Drop(ps[p], op.dropped.value);
      assert k in left <==> k in ps[p] && k !in op.dropped.value;
    }
  }

  lemma {:induction false} KeyPortionZero(keys: seq<string>, bytes: nat, k: string, n: nat)
    requires n <= |keys| && k !in keys
    ensures KeyPortion(keys, bytes, k, n) == 0
  {
    if n > 0 {
      KeyPortionZero(keys, bytes, k, n - 1);
    }
  }

  // ---- One call, key by key ----------------------------------------------

  /** What one call adds to the share of a key. */
  function Gain(ps: Partitions, op: Op, p: string, k: string): int {
    Share(Charged(Step(ps, op), p), k) - Share(Charged(ps, p), k)
  }

  lemma {:induction false} KeyPortionOnce(keys: seq<string>, bytes: nat, i: nat, n: nat)
    requires i < |keys| && n <= |keys| && forall a, b :: 0 <= a < b < |keys| ==> keys[a] != keys[b]
    ensures KeyPortion(keys, bytes, keys[i], n) == if i < n then Portion(bytes, |keys|, i) else 0
  {
    if n > 0 {
      KeyPortionOnce(keys, bytes, i, n - 1);
    }
  }

  /** A put of distinct keys splits its bytes evenly: no key gains less than a later
      one, none gains two bytes more than another, and no other key gains any. */
  lemma PutSplitsEvenly(ps: Partitions, p: string, keys: seq<string>, nBytes: int, i: nat, j: nat)
    requires i < j < |keys| && nBytes > 0 && forall a, b :: 0 <= a < b < |keys| ==> keys[a] != keys[b]
    ensures var op := Put(p, keys, nBytes, true);
            Gain(ps, op, p, keys[j]) <= Gain(ps, op, p, keys[i]) <= Gain(ps, op, p, keys[j]) + 1
    ensures forall q, k :: q != p || k !in keys ==> Gain(ps, Put(p, keys, nBytes, true), q, k) == 0
  {
    var op := Put(p, keys, nBytes, true);
    KeyPortionOnce(keys, nBytes, i, |keys|);
    KeyPortionOnce(keys, nBytes, j, |keys|);
    forall q, k
      ensures (q == p && k in keys) || Gain(ps, op, q, k) == 0
    {
      StepShare(ps, op, q, k);
    }
    StepShare(ps, op, p, keys[i]);
    StepShare(ps, op, p, keys[j]);
  }

  /** A clear that succeeds takes out the keys it names, or the whole partition if it
      names none, and leaves every other key its share. */
  lemma ClearIsExact(ps: Partitions, p: string, keys: Option<seq<string>>, q: string, k: string)
    ensures Live(Step(ps, Clear(p, keys, true)), q, k) <==>
            Live(ps, q, k) && !(q == p && (keys.None? || k in keys.value))
    ensures Live(Step(ps, Clear(p, keys, true)), q, k) ==> Step(ps, Clear(p, keys, true))[q][k] == ps[q][k]
  {
    StepShare(ps, Clear(p, keys, true), q, k);
  }

  /** A key is in the ledger exactly when its last touching call wrote it, and
      its share is what it was charged since it was last dropped. */
  lemma {:induction false} ShareIsOwed(ops: seq<Op>, p: string, k: string)
    ensures Live(After(ops), p, k) == Written(ops, p, k)
    ensures Share(Charged(After(ops), p), k) == Owed(ops, p, k)
  {
    if ops != [] {
      ShareIsOwed(ops[..|ops| - 1], p, k);
      StepShare(After(ops[..|ops| - 1]), ops[|ops| - 1], p, k);
    }
  }

  predicate OnlyClears(ops: seq<Op>) {
    forall i :: 0 <= i < |ops| ==> ops[i].Clear?
  }

  predicate DroppedBy(ops: seq<Op>, p: string, k: string) {
    exists i :: 0 <= i < |ops| && Drops(ops[i], p, k)
  }

  lemma {:induction false} LiveAfterClears(puts: seq<Op>, clears: seq<Op>, p: string, k: string)
    requires OnlyClears(clears)
    ensures Live(After(puts + clears), p, k) == (Live(After(puts), p, k) && !DroppedBy(clears, p, k))
  {
    if clears == [] {
      assert puts + clears == puts;
    } else {
      var n := |clears| - 1;
      var ops := puts + clears;
      assert ops[..|ops| - 1] == puts + clears[..n];
      LiveAfterClears(puts, clears[..n], p, k);
      StepShare(After(puts + clears[..n]), clears[n], p, k);
      assert DroppedBy(clears, p, k) == (DroppedBy(clears[..n], p, k) || Drops(clears[n], p, k));
    }
  }

  /** After any history, a round of clears empties the ledger exactly when it
      drops every key whose last touching call wrote it; then no byte is held. */
  lemma {:induction false} ClearingEveryKeyEmpties(ops: seq<Op>, clears: seq<Op>)
    requires OnlyClears(clears)
    ensures After(ops + clears) == map[] <==>
            (forall p, k :: Written(ops, p, k) ==> DroppedBy(clears, p, k))
    ensures After(ops + clears) == map[] ==> Held(After(ops + clears)) == 0
  {
    var ps := After(ops + clears);
    forall p, k
      ensures Live(ps, p, k) == (Written(ops, p, k) && !DroppedBy(clears, p, k))
    {
      LiveAfterClears(ops, clears, p, k);
      ShareIsOwed(ops, p, k);
    }
    HistoryLeavesNoEmptyEntry(ops + clears);
    if ps != map[] {
      var p :| p in ps;
      var k :| k in ps[p];
      assert Live(ps, p, k);
    }
    assert Totals(map[]) == map[];
  }

  // ---- The client --------------------------------------------------------

  method SumValues(m: Shares) returns (total: nat)
    ensures total == SumOver(m)
  {
    total := 0;
    var left := m;
    while left != map[]
      invariant total + SumOver(left) == SumOver(m)
      decreases |left|
    {
      var k :| k in left;
      SumOverRemove(left, k);
      total := total + left[k];
      left := left - {k};
    }
  }

  class MetricsClient {
    var bytesByPartition: Partitions
    var bytesOutstanding: int
    var peakBytesOutstanding: int
    /** Every call so far. */
    ghost var history: seq<Op>

    ghost predicate Valid()
      reads this
    {
      bytesByPartition == After(history) &&
      bytesOutstanding == Held(bytesByPartition) &&
      peakBytesOutstanding == Peak(history) &&
      NoEmptyEntry(bytesByPartition)
    }

    constructor ()
      ensures Valid() && history == []
    {
      bytesByPartition := map[];
      bytesOutstanding := 0;
      peakBytesOutstanding := 0;
      history := [];
      assert Totals(map[]) == map[];
    }

    method RecordPut(partition: string, keys: seq<string>, nBytes: int)
      modifies this`bytesByPartition, this`bytesOutstanding, this`peakBytesOutstanding
      ensures bytesByPartition == Step(old(bytesByPartition), Put(partition, keys, nBytes, true))
      ensures bytesOutstanding == old(bytesOutstanding) +
                                  if keys == [] || nBytes <= 0 then 0 else nBytes
      ensures peakBytesOutstanding ==
              if keys != [] && nBytes > 0 && bytesOutstanding > old(peakBytesOutstanding)
              then bytesOutstanding else old(peakBytesOutstanding)
    {
      if keys == [] || nBytes <= 0 {
        return;
      }
      var perKey, remainder := nBytes / |keys|, nBytes % |keys|;
      var d := if partition in bytesByPartition then bytesByPartition[partition] else map[];
      ghost var before := d;
      for i := 0 to |keys|
        invariant d == Charge(before, keys, nBytes, i)
      {
        var share := perKey + if i < remainder then 1 else 0;
        d := d[keys[i] := (if keys[i] in d then d[keys[i]] else 0) + share];
      }
      bytesByPartition := bytesByPartition[partition := d];
      bytesOutstanding := bytesOutstanding + nBytes;
      if bytesOutstanding > peakBytesOutstanding {
        peakBytesOutstanding := bytesOutstanding;
      }
    }

    method RecordClear(partition: string, keys: Option<seq<string>>)
      modifies this`bytesByPartition, this`bytesOutstanding
      ensures bytesByPartition == Step(old(bytesByPartition), Clear(partition, keys, true))
      ensures bytesOutstanding == old(bytesOutstanding) -
                                  Refund(old(bytesByPartition), Clear(partition, keys, true))
    {
      if partition !in bytesByPartition {
        return;
      }
      var freed: int;
      if keys.None? {
        freed := SumValues(bytesByPartition[partition]);
        bytesByPartition := bytesByPartition - {partition};
      } else {
        var d;
        freed, d := PopKeys(bytesByPartition[partition], keys.value);
        if d == map[] {
          bytesByPartition := bytesByPartition - {partition};
        } else {
          bytesByPartition := bytesByPartition[partition := d];
        }
      }
      bytesOutstanding := bytesOutstanding - freed;
    }

    /** The call's effect on the ledger, applied only after the call succeeded. */
    method PutSamples(keys: seq<string>, partition: string, nBytes: int, ok: bool)
      requires Valid()
      modifies this
      ensures Valid() && history == old(history) + [Put(partition, keys, nBytes, ok)]
    {
      ghost var op := Put(partition, keys, nBytes, ok);
      ghost var ps := bytesByPartition;
      if ok {
        RecordPut(partition, keys, nBytes);
      }
      StepConserves(ps, op);
      Extend(op);
    }

    method ClearSamples(keys: Option<seq<string>>, partition: string, ok: bool)
      requires Valid()
      modifies this
      ensures Valid() && history == old(history) + [Clear(partition, keys, ok)]
      ensures bytesOutstanding <= old(bytesOutstanding)
    {
      ghost var op := Clear(partition, keys, ok);
      ghost var ps := bytesByPartition;
      if ok {
        RecordClear(partition, keys);
      }
      StepConserves(ps, op);
      RefundNonNegative(ps, op);
      PeakAbove(history);
      Extend(op);
    }

    /** Logs a call whose effect on the ledger is already in place. */
    ghost method Extend(op: Op)
      requires bytesByPartition == Step(After(history), op)
      requires NoEmptyEntry(After(history))
      requires bytesOutstanding == Held(bytesByPartition)
      requires peakBytesOutstanding ==
               if bytesOutstanding > Peak(history) then bytesOutstanding else Peak(history)
      modifies this`history
      ensures Valid() && history == old(history) + [op]
    {
      StepLeavesNoEmptyEntry(After(history), op);
      var longer := history + [op];
      assert longer[..|longer| - 1] == history;
      history := longer;
    }
  }

  method PopKeys(m: Shares, keys: seq<string>) returns (freed: nat, left: Shares)
    ensures left == Drop(m, keys)
    ensures freed == SumOver(m) - SumOver(left)
  {
    freed, left := 0, m;
    for i := 0 to |keys|
      invariant left == Drop(m, keys[..i])
      invariant freed == SumOver(m) - SumOver(left)
    {
      if keys[i] in left {
        SumOverRemove(left, keys[i]);
        freed := freed + left[keys[i]];
        left := left - {keys[i]};
      }
      assert keys[..i + 1] == keys[..i] + [keys[i]];
    }
    assert keys[..|keys|] == keys;
  }

  lemma {:induction false} SumOverSubset(m: map<string, nat>, sub: map<string, nat>)
    requires forall k :: k in sub ==> k in m && m[k] == sub[k]
    ensures SumOver(sub) <= SumOver(m)
    decreases |m|
  {
    if m != map[] {
      var k :| k in m;
      SumOverRemove(m, k);
      if k in sub {
        SumOverRemove(sub, k);
        SumOverSubset(m - {k}, sub - {k});
      } else {
        SumOverSubset(m - {k}, sub);
      }
    } else {
      assert sub == map[];
    }
  }

  lemma RefundNonNegative(ps: Partitions, op: Op)
    requires op.Clear?
    ensures 0 <= Refund(ps, op)
  {
    if op.ok && op.partition in ps && op.dropped.Some? {
      SumOverSubset(ps[op.partition], Drop(ps[op.partition], op.dropped.value));
    }
  }

  lemma {:induction false} PeakAbove(ops: seq<Op>)
    ensures Held(After(ops)) <= Peak(ops)
  {
    PeakIsMaximum(ops);
    assert ops[..|ops|] == ops;
  }
}
