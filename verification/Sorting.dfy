/** Python's `sorted`: a stable sort by a total preorder, modelled as insertion
    sort so that equal elements keep their input order.

    A preorder is a function value; the laws say that sorting permutes, orders,
    and depends only on how the preorder compares the elements present. */
module Sorting {
  import opened Sums

  function Insert<T>(le: (T, T) -> bool, x: T, s: seq<T>): (r: seq<T>)
    ensures |r| == |s| + 1
  {
    if s == [] || le(x, s[0]) then [x] + s else [s[0]] + Insert(le, x, s[1..])
  }

  function Sort<T>(le: (T, T) -> bool, s: seq<T>): (r: seq<T>)
    ensures |r| == |s|
  {
    if s == [] then [] else Insert(le, s[0], Sort(le, s[1..]))
  }

  ghost predicate TotalPreorder<T(!new)>(le: (T, T) -> bool) {
    && (forall x, y :: le(x, y) || le(y, x))
    && (forall x, y, z :: le(x, y) && le(y, z) ==> le(x, z))
  }

  ghost predicate Ordered<T>(le: (T, T) -> bool, s: seq<T>) {
    forall a, b :: 0 <= a < b < |s| ==> le(s[a], s[b])
  }

  lemma {:induction false} InsertMultiset<T>(le: (T, T) -> bool, x: T, s: seq<T>)
    ensures multiset(Insert(le, x, s)) == multiset{x} + multiset(s)
  {
    if s == [] || le(x, s[0]) {
    } else {
      assert s == [s[0]] + s[1..];
      InsertMultiset(le, x, s[1..]);
    }
  }

  /** Sorting permutes. */
  lemma {:induction false} SortMultiset<T>(le: (T, T) -> bool, s: seq<T>)
    ensures multiset(Sort(le, s)) == multiset(s)
  {
    if s != [] {
      assert s == [s[0]] + s[1..];
      SortMultiset(le, s[1..]);
      InsertMultiset(le, s[0], Sort(le, s[1..]));
    }
  }

  lemma {:induction false} SortMembers<T>(le: (T, T) -> bool, s: seq<T>)
    ensures forall x :: x in Sort(le, s) <==> x in s
  {
    SortMultiset(le, s);
    forall x
      ensures x in Sort(le, s) <==> x in s
    {
      assert x in Sort(le, s) <==> x in multiset(Sort(le, s));
      assert x in s <==> x in multiset(s);
    }
  }

  lemma {:induction false} InsertOrdered<T(!new)>(le: (T, T) -> bool, x: T, s: seq<T>)
    requires TotalPreorder(le) && Ordered(le, s)
    ensures Ordered(le, Insert(le, x, s))
  {
    if s == [] || le(x, s[0]) {
      assert forall b :: 0 < b < |s| ==> le(s[0], s[b]);
    } else {
      InsertOrdered(le, x, s[1..]);
      InsertMultiset(le, x, s[1..]);
      var r := Insert(le, x, s[1..]);
      forall k | 0 <= k < |r|
        ensures le(s[0], r[k])
      {
        assert r[k] in multiset(r);
        assert r[k] == x || r[k] in s[1..];
      }
    }
  }

  lemma {:induction false} SortOrdered<T(!new)>(le: (T, T) -> bool, s: seq<T>)
    requires TotalPreorder(le)
    ensures Ordered(le, Sort(le, s))
  {
    if s != [] {
      SortOrdered(le, s[1..]);
      InsertOrdered(le, s[0], Sort(le, s[1..]));
    }
  }

  /** Two comparisons that agree on the elements sort them alike. */
  lemma {:induction false} SortAgree<T>(le: (T, T) -> bool, le': (T, T) -> bool, s: seq<T>)
    requires forall x, y :: x in s && y in s ==> le(x, y) == le'(x, y)
    ensures Sort(le, s) == Sort(le', s)
  {
    if s != [] {
      SortAgree(le, le', s[1..]);
      var t := Sort(le, s[1..]);
      SortMultiset(le, s[1..]);
      forall y | y in t
        ensures le(s[0], y) == le'(s[0], y)
      {
        assert y in multiset(t);
        assert y in s[1..];
      }
      InsertAgree(le, le', s[0], t);
    }
  }

  lemma {:induction false} InsertAgree<T>(le: (T, T) -> bool, le': (T, T) -> bool, x: T, s: seq<T>)
    requires forall y :: y in s ==> le(x, y) == le'(x, y)
    ensures Insert(le, x, s) == Insert(le', x, s)
  {
    if s == [] || le(x, s[0]) {
    } else {
      InsertAgree(le, le', x, s[1..]);
    }
  }

  lemma {:induction false} SortDistinct<T>(le: (T, T) -> bool, s: seq<T>)
    requires Distinct(s)
    ensures Distinct(Sort(le, s))
  {
    SortMultiset(le, s);
    DistinctIffSingle(s);
    DistinctIffSingle(Sort(le, s));
  }

  lemma {:induction false} DistinctIffSingle<T>(s: seq<T>)
    ensures Distinct(s) <==> forall x :: x in multiset(s) ==> multiset(s)[x] == 1
  {
    if s != [] {
      var t := s[1..];
      assert s == [s[0]] + t;
      DistinctIffSingle(t);
      if Distinct(s) {
        assert Distinct(t) by {
          forall a, b | 0 <= a < b < |t| ensures t[a] != t[b] {
            assert s[a + 1] != s[b + 1];
          }
        }
        assert s[0] !in t by {
          forall k | 0 <= k < |t| ensures t[k] != s[0] {
            assert s[0] != s[k + 1];
          }
        }
      }
      if forall x :: x in multiset(s) ==> multiset(s)[x] == 1 {
        assert multiset(s)[s[0]] == 1 + multiset(t)[s[0]];
        assert s[0] !in t;
        forall x | x in multiset(t) ensures multiset(t)[x] == 1 {
          assert x in multiset(s) && x != s[0];
        }
        forall a, b | 0 <= a < b < |s| ensures s[a] != s[b] {
          if a == 0 { assert s[b] == t[b - 1]; } else { assert t[a - 1] != t[b - 1]; }
        }
      }
    }
  }

  /** The preorder that breaks its ties by index. */
  function Stable(le: (nat, nat) -> bool): (nat, nat) -> bool {
    (x: nat, y: nat) => le(x, y) && (le(y, x) ==> x <= y)
  }

  lemma {:induction false} StableOnAscending(le: (nat, nat) -> bool, s: seq<nat>)
    requires forall a, b :: 0 <= a < b < |s| ==> s[a] < s[b]
    ensures Sort(le, s) == Sort(Stable(le), s)
  {
    if s != [] {
      StableOnAscending(le, s[1..]);
      var t := Sort(le, s[1..]);
      SortMembers(le, s[1..]);
      forall y | y in t
        ensures le(s[0], y) == Stable(le)(s[0], y)
      {
        assert y in s[1..];
      }
      InsertAgree(le, Stable(le), s[0], t);
    }
  }

  lemma StablePreorder(le: (nat, nat) -> bool)
    requires TotalPreorder(le)
    ensures TotalPreorder(Stable(le))
  {
    var stable := Stable(le);
    forall x, y, z | stable(x, y) && stable(y, z) ensures stable(x, z) {
      assert le(x, y) && le(y, z) && le(x, z);
      if le(z, x) {
        assert le(z, y) && le(y, x);
      }
    }
  }

  /** Sorting row numbers is stable: equal rows stay in batch order. */
  lemma SortIsStable(le: (nat, nat) -> bool, n: nat)
    requires TotalPreorder(le)
    ensures forall a, b :: 0 <= a < b < n ==>
              var x, y := Sort(le, Iota(n))[a], Sort(le, Iota(n))[b];
              le(x, y) && (le(y, x) ==> x < y)
  {
    var sorted := Sort(le, Iota(n));
    StableOnAscending(le, Iota(n));
    StablePreorder(le);
    SortOrdered(Stable(le), Iota(n));
    SortDistinct(le, Iota(n));
    forall a, b | 0 <= a < b < n
      ensures le(sorted[a], sorted[b]) && (le(sorted[b], sorted[a]) ==> sorted[a] < sorted[b])
    {
      assert Stable(le)(sorted[a], sorted[b]);
    }
  }

  /** Sums over an index list do not depend on the order of the list. */
  lemma {:induction false} SumAtSort(le: (nat, nat) -> bool, s: seq<int>, idxs: seq<nat>)
    requires InRange(idxs, |s|)
    ensures InRange(Sort(le, idxs), |s|)
    ensures SumAt(s, Sort(le, idxs)) == SumAt(s, idxs)
  {
    if idxs != [] {
      SumAtSort(le, s, idxs[1..]);
      SumAtInsert(le, s, idxs[0], Sort(le, idxs[1..]));
    }
  }

  lemma {:induction false} SumAtInsert(le: (nat, nat) -> bool, s: seq<int>, x: nat, idxs: seq<nat>)
    requires InRange(idxs, |s|) && x < |s|
    ensures InRange(Insert(le, x, idxs), |s|)
    ensures SumAt(s, Insert(le, x, idxs)) == s[x] + SumAt(s, idxs)
  {
    if idxs == [] || le(x, idxs[0]) {
      assert ([x] + idxs)[1..] == idxs;
    } else {
      SumAtInsert(le, s, x, idxs[1..]);
      assert Insert(le, x, idxs)[1..] == Insert(le, x, idxs[1..]);
    }
  }

  lemma {:induction false} RealSumAtSort(le: (nat, nat) -> bool, s: seq<real>, idxs: seq<nat>)
    requires InRange(idxs, |s|)
    ensures InRange(Sort(le, idxs), |s|)
    ensures RealSumAt(s, Sort(le, idxs)) == RealSumAt(s, idxs)
  {
    if idxs != [] {
      RealSumAtSort(le, s, idxs[1..]);
      RealSumAtInsert(le, s, idxs[0], Sort(le, idxs[1..]));
    }
  }

  lemma {:induction false} RealSumAtInsert(le: (nat, nat) -> bool, s: seq<real>, x: nat, idxs: seq<nat>)
    requires InRange(idxs, |s|) && x < |s|
    ensures InRange(Insert(le, x, idxs), |s|)
    ensures RealSumAt(s, Insert(le, x, idxs)) == s[x] + RealSumAt(s, idxs)
  {
    if idxs == [] || le(x, idxs[0]) {
      assert ([x] + idxs)[1..] == idxs;
    } else {
      RealSumAtInsert(le, s, x, idxs[1..]);
      assert Insert(le, x, idxs)[1..] == Insert(le, x, idxs[1..]);
    }
  }
}
