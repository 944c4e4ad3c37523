/** Index lists that reorder a batch: gathering by one, scattering by one, and the
    inverse permutations that undo them.

    `Pick` is the gather every model uses, `Flatten` the concatenation of parts,
    and `Slice` the clipped slice of Python and torch. */
module Permutations {
  import opened Sums

  /** `v[start:end]`, clipped to the rows there are. */
  function Slice<T>(rows: seq<T>, start: nat, end: nat): seq<T> {
    var from := Min(start, |rows|);
    var to := Min(end, |rows|);
    if from < to then rows[from..to] else []
  }

  predicate IsPermutation(p: seq<nat>, n: nat) {
    |p| == n && InRange(p, n) && Distinct(p)
  }

  /** Gather: row `k` of the result is row `idx[k]`. */
  function Pick<T>(rows: seq<T>, idx: seq<nat>): (r: seq<T>)
    requires InRange(idx, |rows|)
    ensures |r| == |idx|
    ensures forall k :: 0 <= k < |idx| ==> r[k] == rows[idx[k]]
  {
    seq(|idx|, k requires 0 <= k < |idx| => rows[idx[k]])
  }

  function Map<T, R>(f: T -> R, rows: seq<T>): (r: seq<R>)
    ensures |r| == |rows|
    ensures forall k :: 0 <= k < |rows| ==> r[k] == f(rows[k])
  {
    seq(|rows|, k requires 0 <= k < |rows| => f(rows[k]))
  }

  /** `inv` sends every entry of `p` back to its position. */
  ghost predicate Inverts(inv: seq<nat>, p: seq<nat>) {
    && InRange(p, |inv|)
    && forall k :: 0 <= k < |p| ==> inv[p[k]] == k
  }

  ghost function Elements(p: seq<nat>): (s: set<nat>)
    ensures forall k: nat :: k in s <==> k in p
  {
    set k | k in p
  }

  lemma {:induction false} ElementsSize(p: seq<nat>)
    requires Distinct(p)
    ensures |Elements(p)| == |p|
  {
    if p != [] {
      var n := |p| - 1;
      ElementsSize(p[..n]);
      assert p == p[..n] + [p[n]];
      assert Elements(p) == Elements(p[..n]) + {p[n]};
      assert p[n] !in p[..n];
    }
  }

  lemma SubsetOfSameSize(a: set<nat>, b: set<nat>)
    requires a <= b && |a| == |b|
    ensures a == b
  {
    if a != b {
      var x :| x in b && x !in a;
      assert a <= b - {x};
      SubsetSize(a, b - {x});
    }
  }

  lemma {:induction false} SubsetSize(a: set<nat>, b: set<nat>)
    requires a <= b
    ensures |a| <= |b|
    decreases a
  {
    if a != {} {
      var x :| x in a;
      SubsetSize(a - {x}, b - {x});
    }
  }

  /** A permutation hits every index. */
  lemma PermutationCovers(p: seq<nat>, n: nat)
    requires IsPermutation(p, n)
    ensures forall i: nat :: i < n ==> i in p
  {
    ElementsSize(Iota(n));
    ElementsSize(p);
    forall k: nat | k in p ensures k in Iota(n) {
      var a :| 0 <= a < |p| && p[a] == k;
      assert Iota(n)[k] == k;
    }
    SubsetOfSameSize(Elements(p), Elements(Iota(n)));
    forall i: nat | i < n ensures i in p {
      assert Iota(n)[i] == i;
      assert i in Elements(p);
    }
  }

  /** An inverse of a permutation is its two-sided inverse, and undoes a gather. */
  lemma InverseUndoes(p: seq<nat>, inv: seq<nat>, n: nat)
    requires IsPermutation(p, n) && |inv| == n && Inverts(inv, p)
    ensures IsPermutation(inv, n)
    ensures forall i :: 0 <= i < n ==> p[inv[i]] == i
  {
    PermutationCovers(p, n);
    forall i | 0 <= i < n ensures inv[i] < n && p[inv[i]] == i {
      assert i in p;
      var k :| 0 <= k < n && p[k] == i;
    }
    forall a, b | 0 <= a < b < n ensures inv[a] != inv[b] {
      assert p[inv[a]] == a && p[inv[b]] == b;
    }
  }

  lemma PickInverse<T>(rows: seq<T>, p: seq<nat>, inv: seq<nat>)
    requires IsPermutation(p, |rows|) && |inv| == |rows| && Inverts(inv, p)
    ensures InRange(inv, |rows|)
    ensures Pick(Pick(rows, p), inv) == rows
  {
    InverseUndoes(p, inv, |rows|);
  }

  /** Per-row work commutes with gathering. */
  lemma MapPick<T, R>(f: T -> R, rows: seq<T>, idx: seq<nat>)
    requires InRange(idx, |rows|)
    ensures Map(f, Pick(rows, idx)) == Pick(Map(f, rows), idx)
  {
  }

  lemma MapConcat<T, R>(f: T -> R, a: seq<T>, b: seq<T>)
    ensures Map(f, a + b) == Map(f, a) + Map(f, b)
  {
  }

  lemma PickConcat<T>(rows: seq<T>, a: seq<nat>, b: seq<nat>)
    requires InRange(a, |rows|) && InRange(b, |rows|)
    ensures InRange(a + b, |rows|)
    ensures Pick(rows, a + b) == Pick(rows, a) + Pick(rows, b)
  {
  }

  // ----- lists of lists -----

  function Flatten<T>(parts: seq<seq<T>>): seq<T> {
    if parts == [] then [] else Flatten(parts[..|parts| - 1]) + parts[|parts| - 1]
  }

  lemma {:induction false} FlattenPick<T>(rows: seq<T>, parts: seq<seq<nat>>, picked: seq<seq<T>>)
    requires |picked| == |parts|
    requires forall k :: 0 <= k < |parts| ==> InRange(parts[k], |rows|) && picked[k] == Pick(rows, parts[k])
    ensures InRange(Flatten(parts), |rows|)
    ensures Flatten(picked) == Pick(rows, Flatten(parts))
  {
    if parts != [] {
      var n := |parts| - 1;
      FlattenPick(rows, parts[..n], picked[..n]);
      PickConcat(rows, Flatten(parts[..n]), parts[n]);
    }
  }

  // ----- the loops of the source -----

  /** `inverse[original_idx] = sorted_pos` for every position. */
  method BuildInverse(p: seq<nat>, n: nat) returns (inverse: seq<nat>)
    requires IsPermutation(p, n)
    ensures |inverse| == n && Inverts(inverse, p)
  {
    inverse := seq(n, _ => 0);
    for pos := 0 to n
      invariant |inverse| == n
      invariant forall k :: 0 <= k < pos ==> inverse[p[k]] == k
    {
      inverse := inverse[p[pos] := pos];
    }
  }

  /** `restored[index] = outputs`: row `j` of the outputs lands on row `order[j]`. */
  method Scatter<R(0)>(order: seq<nat>, outputs: seq<R>) returns (restored: seq<R>)
    requires IsPermutation(order, |outputs|)
    ensures |restored| == |outputs| && Pick(restored, order) == outputs
  {
    var buffer := new R[|outputs|];
    for j := 0 to |outputs|
      invariant forall k :: 0 <= k < j ==> buffer[order[k]] == outputs[k]
    {
      buffer[order[j]] := outputs[j];
    }
    restored := buffer[..];
  }

  /** A gather through a permutation determines the rows it came from. */
  lemma PickInjective<T>(a: seq<T>, b: seq<T>, p: seq<nat>)
    requires |a| == |b| && IsPermutation(p, |a|) && Pick(a, p) == Pick(b, p)
    ensures a == b
  {
    PermutationCovers(p, |a|);
    forall i | 0 <= i < |a| ensures a[i] == b[i] {
      assert i in p;
      var k :| 0 <= k < |p| && p[k] == i;
      assert Pick(a, p)[k] == a[i] && Pick(b, p)[k] == b[i];
    }
  }

  // ----- removing an entry -----

  /** Taking the largest entry out of a permutation leaves a permutation. */
  lemma DropLargest(p: seq<nat>, j: nat)
    requires j < |p| && IsPermutation(p, |p|) && p[j] == |p| - 1
    ensures IsPermutation(p[..j] + p[j + 1..], |p| - 1)
  {
    var q := p[..j] + p[j + 1..];
    forall k | 0 <= k < |q| ensures q[k] < |p| - 1 {
      assert q[k] == if k < j then p[k] else p[k + 1];
    }
    forall a, b | 0 <= a < b < |q| ensures q[a] != q[b] {
      assert q[a] == (if a < j then p[a] else p[a + 1]) && q[b] == (if b < j then p[b] else p[b + 1]);
    }
  }

  lemma LargestPosition(p: seq<nat>) returns (j: nat)
    requires p != [] && IsPermutation(p, |p|)
    ensures j < |p| && p[j] == |p| - 1
  {
    PermutationCovers(p, |p|);
    assert |p| - 1 in p;
    j :| 0 <= j < |p| && p[j] == |p| - 1;
  }

  lemma PickAround<T>(rows: seq<T>, p: seq<nat>, j: nat)
    requires InRange(p, |rows|) && j < |p|
    ensures InRange(p[..j], |rows|) && InRange(p[j + 1..], |rows|) && InRange(p[..j] + p[j + 1..], |rows|)
    ensures Pick(rows, p) == Pick(rows, p[..j]) + [rows[p[j]]] + Pick(rows, p[j + 1..])
    ensures Pick(rows, p[..j] + p[j + 1..]) == Pick(rows, p[..j]) + Pick(rows, p[j + 1..])
  {
  }

  lemma PickPrefix<T>(rows: seq<T>, n: nat, q: seq<nat>)
    requires n <= |rows| && InRange(q, n)
    ensures InRange(q, |rows|) && Pick(rows[..n], q) == Pick(rows, q)
  {
  }

  /** Gathering by a permutation rearranges and nothing else. */
  lemma {:induction false} PickMultiset<T>(rows: seq<T>, p: seq<nat>)
    requires IsPermutation(p, |rows|)
    ensures multiset(Pick(rows, p)) == multiset(rows)
  {
    if rows != [] {
      var n := |rows| - 1;
      var j := LargestPosition(p);
      DropLargest(p, j);
      PickAround(rows, p, j);
      PickPrefix(rows, n, p[..j] + p[j + 1..]);
      PickMultiset(rows[..n], p[..j] + p[j + 1..]);
      MultisetInsert(Pick(rows, p[..j]), rows[n], Pick(rows, p[j + 1..]));
      assert rows == rows[..n] + [rows[n]];
    }
  }

  lemma MultisetInsert<T>(a: seq<T>, x: T, b: seq<T>)
    ensures multiset(a + [x] + b) == multiset(a + b) + multiset{x}
  {
    assert multiset(a + [x] + b) == multiset(a) + multiset([x]) + multiset(b);
    assert multiset(a + b) == multiset(a) + multiset(b);
  }
}
