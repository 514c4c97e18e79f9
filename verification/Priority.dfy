/** The sorted position lists: which orders they name, once each, and in which order. */
module Priority {
  import opened Domain
  import opened EngineSpec
  import opened OrderTable

  predicate Distinct(ps: seq<nat>) { forall i, j :: 0 <= i < j < |ps| ==> ps[i] != ps[j] }

  predicate SortedBy(orders: seq<Order>, stopsFirst: bool, ps: seq<nat>)
    requires Within(ps, |orders|)
  {
    forall i, j :: 0 <= i < j < |ps| ==> Precedes(orders, stopsFirst, ps[i], ps[j])
  }

  lemma {:induction false} InsertKeepsMembers(orders: seq<Order>, stopsFirst: bool, sorted: seq<nat>, p: nat)
    requires p < |orders| && Within(sorted, |orders|)
    ensures var r := InsertSorted(orders, stopsFirst, sorted, p);
      && (forall q: nat :: q in r <==> q == p || q in sorted)
      && (Distinct(sorted) && p !in sorted ==> Distinct(r))
  {
    if sorted != [] && !Precedes(orders, stopsFirst, sorted[|sorted| - 1], p) {
      var rest, last := sorted[..|sorted| - 1], sorted[|sorted| - 1];
      assert sorted == rest + [last];
      InsertKeepsMembers(orders, stopsFirst, rest, p);
      if Distinct(sorted) && p !in sorted {
        var r := InsertSorted(orders, stopsFirst, rest, p);
        forall i | 0 <= i < |r| ensures r[i] != last { assert r[i] in r; }
      }
    }
  }

  lemma {:induction false} InsertKeepsOrder(orders: seq<Order>, stopsFirst: bool, sorted: seq<nat>, p: nat)
    requires p < |orders| && Within(sorted, |orders|) && SortedBy(orders, stopsFirst, sorted)
    ensures SortedBy(orders, stopsFirst, InsertSorted(orders, stopsFirst, sorted, p))
  {
    if sorted != [] && !Precedes(orders, stopsFirst, sorted[|sorted| - 1], p) {
      var rest, last := sorted[..|sorted| - 1], sorted[|sorted| - 1];
      InsertKeepsOrder(orders, stopsFirst, rest, p);
      InsertKeepsMembers(orders, stopsFirst, rest, p);
      var r := InsertSorted(orders, stopsFirst, rest, p);
      forall i | 0 <= i < |r| ensures Precedes(orders, stopsFirst, r[i], last) {
        assert r[i] in r;
      }
    }
  }

  /** The list names each due OPEN order exactly once, in priority order. */
  lemma {:induction false} DuePositionsSorted(orders: seq<Order>, stopsFirst: bool, bound: Option<int>, n: nat)
    requires n <= |orders|
    ensures var r := DuePositions(orders, stopsFirst, bound, n);
      && (forall q: nat :: q in r <==> q < n && Due(orders[q], bound))
      && Distinct(r) && SortedBy(orders, stopsFirst, r)
  {
    if n > 0 {
      DuePositionsSorted(orders, stopsFirst, bound, n - 1);
      var rest := DuePositions(orders, stopsFirst, bound, n - 1);
      if Due(orders[n - 1], bound) {
        InsertKeepsMembers(orders, stopsFirst, rest, n - 1);
        InsertKeepsOrder(orders, stopsFirst, rest, n - 1);
      }
    }
  }

  /** An engine stop can only be the first eligible order of its candle. */
  lemma {:induction false} StopComesFirst(orders: seq<Order>, index: int)
    requires AtMostOneStop(orders)
    ensures var r := EligiblePositions(orders, index);
      && (forall q: nat :: q in r <==> q < |orders| && Due(orders[q], Some(index)))
      && Distinct(r)
      && (forall k :: 0 < k < |r| ==> r[k] < |orders| && !IsStop(orders[r[k]]))
  {
    DuePositionsSorted(orders, true, Some(index), |orders|);
    var r := EligiblePositions(orders, index);
    forall k | 0 < k < |r| ensures !IsStop(orders[r[k]]) {
      assert r[0] in r && r[k] in r;
      assert Precedes(orders, true, r[0], r[k]);
    }
  }

  /** The strategy sees every OPEN order and nothing else. */
  lemma {:induction false} ViewShowsOpenOrders(orders: seq<Order>)
    ensures forall i :: 0 <= i < |OpenOrderView(orders)| ==> OpenOrderView(orders)[i].status == Open
    ensures forall q :: 0 <= q < |orders| && orders[q].status == Open ==> orders[q] in OpenOrderView(orders)
  {
    DuePositionsSorted(orders, false, None, |orders|);
    var ps := DuePositions(orders, false, None, |orders|);
    forall i | 0 <= i < |ps| ensures orders[ps[i]].status == Open { assert ps[i] in ps; }
    forall q: nat | q < |orders| && orders[q].status == Open ensures orders[q] in OpenOrderView(orders) {
      assert q in ps;
      var i :| 0 <= i < |ps| && ps[i] == q;
      assert OpenOrderView(orders)[i] == orders[q];
    }
  }

  /** The order that is processed first: the one that became eligible first, or else was created first. */
  predicate Earlier(x: Order, y: Order) {
    x.eligibleIndex < y.eligibleIndex || (x.eligibleIndex == y.eligibleIndex && x.sequence < y.sequence)
  }

  predicate Sequenced(orders: seq<Order>) { forall i :: 0 <= i < |orders| ==> orders[i].sequence == i + 1 }

  /** Eligible orders are processed engine stops first and then in order of eligibility and creation. */
  lemma {:induction false} EligibleInOrder(orders: seq<Order>, index: int)
    requires Sequenced(orders)
    ensures var r := EligiblePositions(orders, index);
      forall i, j :: 0 <= i < j < |r| ==>
        var x, y := orders[r[i]], orders[r[j]];
        if IsStop(x) != IsStop(y) then IsStop(x) else Earlier(x, y)
  {
    DuePositionsSorted(orders, true, Some(index), |orders|);
    var r := EligiblePositions(orders, index);
    forall i, j | 0 <= i < j < |r|
      ensures var x, y := orders[r[i]], orders[r[j]]; if IsStop(x) != IsStop(y) then IsStop(x) else Earlier(x, y)
    {
      assert r[i] != r[j] && Precedes(orders, true, r[i], r[j]);
    }
  }

  /** The strategy sees the OPEN orders in order of eligibility and creation. */
  lemma {:induction false} ViewInOrder(orders: seq<Order>)
    requires Sequenced(orders)
    ensures var v := OpenOrderView(orders); forall i, j :: 0 <= i < j < |v| ==> Earlier(v[i], v[j])
  {
    DuePositionsSorted(orders, false, None, |orders|);
    var r := DuePositions(orders, false, None, |orders|);
    forall i, j | 0 <= i < j < |r| ensures Earlier(orders[r[i]], orders[r[j]]) {
      assert r[i] != r[j] && Precedes(orders, false, r[i], r[j]);
    }
  }
}
