/** Partition of a batch's rows by a key column.

    Groups come in order of first appearance, and the rows of a group in batch
    order, as the source's insertion-ordered dictionaries keep them. */
module Grouping {
  import opened Sums

  /** Group ids in first-appearance order. */
  function GroupOrder<T(==)>(ids: seq<T>): seq<T> {
    if ids == [] then []
    else
      var o := GroupOrder(ids[..|ids| - 1]);
      var g := ids[|ids| - 1];
      if g in o then o else o + [g]
  }

  /** Rows of group `g`, in batch order. */
  function RowsOf<T(==)>(ids: seq<T>, g: T): seq<nat> {
    if ids == [] then []
    else
      var r := RowsOf(ids[..|ids| - 1], g);
      if ids[|ids| - 1] == g then r + [|ids| - 1] else r
  }

  lemma {:induction false} GroupOrderLaws<T>(ids: seq<T>)
    ensures Distinct(GroupOrder(ids))
    ensures forall g :: g in GroupOrder(ids) <==> g in ids
  {
    if ids != [] {
      GroupOrderLaws(ids[..|ids| - 1]);
      assert ids == ids[..|ids| - 1] + [ids[|ids| - 1]];
    }
  }

  lemma {:induction false} RowsOfLaws<T>(ids: seq<T>, g: T)
    ensures InRange(RowsOf(ids, g), |ids|)
    ensures forall a, b :: 0 <= a < b < |RowsOf(ids, g)| ==> RowsOf(ids, g)[a] < RowsOf(ids, g)[b]
    ensures forall r: nat :: r in RowsOf(ids, g) <==> r < |ids| && ids[r] == g
  {
    if ids != [] {
      var n := |ids| - 1;
      RowsOfLaws(ids[..n], g);
      forall r: nat
        ensures r in RowsOf(ids, g) <==> r < |ids| && ids[r] == g
      {
        if r < n { assert ids[..n][r] == ids[r]; }
      }
    }
  }

  lemma {:induction false} RowsOfEmpty<T>(ids: seq<T>, g: T)
    ensures RowsOf(ids, g) == [] <==> g !in ids
  {
    if ids != [] {
      RowsOfEmpty(ids[..|ids| - 1], g);
      assert ids == ids[..|ids| - 1] + [ids[|ids| - 1]];
    }
  }

  lemma {:induction false} OrderListed<T>(ids: seq<T>, k: nat)
    requires k < |GroupOrder(ids)|
    ensures GroupOrder(ids)[k] in ids
  {
    var init := ids[..|ids| - 1];
    assert ids == init + [ids[|ids| - 1]];
    if k < |GroupOrder(init)| {
      OrderListed(init, k);
    }
  }

  /** The group order is the order of first appearance. */
  lemma {:induction false} GroupOrderFirst<T>(ids: seq<T>, i: nat, j: nat)
    requires i < j < |GroupOrder(ids)|
    ensures GroupOrder(ids)[i] in ids && GroupOrder(ids)[j] in ids
    ensures IndexIn(ids, GroupOrder(ids)[i]) < IndexIn(ids, GroupOrder(ids)[j])
  {
    var n := |ids| - 1;
    var init, last := ids[..n], ids[n];
    var order := GroupOrder(init);
    assert ids == init + [last];
    GroupOrderLaws(init);
    OrderListed(init, i);
    FirstIndexKept(init, last, order[i]);
    if j < |order| {
      OrderListed(init, j);
      GroupOrderFirst(init, i, j);
      FirstIndexKept(init, last, order[j]);
    } else {
      FirstIndexNew(init, last);
    }
  }

  lemma {:induction false} FirstIndexKept<T>(ids: seq<T>, last: T, g: T)
    requires g in ids
    ensures IndexIn(ids + [last], g) == IndexIn(ids, g)
  {
    if ids[0] != g {
      assert (ids + [last])[1..] == ids[1..] + [last];
      FirstIndexKept(ids[1..], last, g);
    }
  }

  lemma {:induction false} FirstIndexNew<T>(ids: seq<T>, g: T)
    requires g !in ids
    ensures IndexIn(ids + [g], g) == |ids|
  {
    if ids != [] {
      assert (ids + [g])[1..] == ids[1..] + [g];
      FirstIndexNew(ids[1..], g);
    }
  }
}
