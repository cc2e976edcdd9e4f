/** The bounded history of orders, recorded in the order of time. */
module OrderHistory {
  import opened Prelude
  import opened RuntimeStates

  ghost predicate InOrder(orders: seq<OrderRecord>) {
    forall i, j :: 0 <= i <= j < |orders| ==>
      orders[i].stamp.At? && orders[j].stamp.At? && orders[i].stamp.minute <= orders[j].stamp.minute
  }

  ghost predicate UpTo(orders: seq<OrderRecord>, now: real) {
    forall i :: 0 <= i < |orders| ==> orders[i].stamp.At? && orders[i].stamp.minute <= now
  }

  lemma LatestOfAppended(orders: seq<OrderRecord>, o: OrderRecord, s: Symbol)
    requires o.stamp.At? && UpTo(orders, o.stamp.minute)
    ensures LatestSell(orders + [o], s) == if IsSellOutcome(o, s) then Some(o) else LatestSell(orders, s)
  {
    assert (orders + [o])[..|orders|] == orders;
    LatestSellIsLatest(orders, s);
  }

  /** Forgetting old records either leaves the latest outcome of a symbol or leaves none of its outcomes at all. */
  lemma {:induction false} LatestOfDropped(orders: seq<OrderRecord>, k: nat, s: Symbol)
    requires InOrder(orders) && k <= |orders|
    ensures LatestSell(orders[k..], s) == LatestSell(orders, s) || LatestSell(orders[k..], s) == None
  {
    if k < |orders| {
      var n := |orders| - 1;
      LatestOfDropped(orders[..n], k, s);
      assert orders == orders[..n] + [orders[n]] && orders[k..] == orders[..n][k..] + [orders[n]];
      LatestOfAppended(orders[..n], orders[n], s);
      LatestOfAppended(orders[..n][k..], orders[n], s);
    }
  }

  lemma AppendedInOrder(orders: seq<OrderRecord>, o: OrderRecord)
    requires InOrder(orders) && o.stamp.At? && UpTo(orders, o.stamp.minute)
    ensures InOrder(orders + [o]) && UpTo(orders + [o], o.stamp.minute)
  {
  }

  lemma DroppedInOrder(orders: seq<OrderRecord>, k: nat, now: real)
    requires InOrder(orders) && UpTo(orders, now) && k <= |orders|
    ensures InOrder(orders[k..]) && UpTo(orders[k..], now)
  {
  }

  function Appended(orders: seq<OrderRecord>, o: OrderRecord): seq<OrderRecord> {
    Last(orders + [o], RECENT_ORDERS_CAP)
  }

  lemma KeptInOrder(orders: seq<OrderRecord>, o: OrderRecord)
    requires InOrder(orders) && o.stamp.At? && UpTo(orders, o.stamp.minute)
    ensures InOrder(Appended(orders, o)) && UpTo(Appended(orders, o), o.stamp.minute)
  {
    AppendedInOrder(orders, o);
    if |orders + [o]| > RECENT_ORDERS_CAP {
      DroppedInOrder(orders + [o], |orders + [o]| - RECENT_ORDERS_CAP, o.stamp.minute);
    }
  }

  /** After recording an order it is the latest outcome of its symbol; that of another symbol stays or is forgotten. */
  lemma KeptLatest(orders: seq<OrderRecord>, o: OrderRecord, s: Symbol)
    requires InOrder(orders) && o.stamp.At? && UpTo(orders, o.stamp.minute)
    ensures IsSellOutcome(o, s) ==> LatestSell(Appended(orders, o), s) == Some(o)
    ensures !IsSellOutcome(o, s) ==>
      LatestSell(Appended(orders, o), s) == LatestSell(orders, s) || LatestSell(Appended(orders, o), s) == None
  {
    LatestOfAppended(orders, o, s);
    if |orders + [o]| > RECENT_ORDERS_CAP {
      var k := |orders + [o]| - RECENT_ORDERS_CAP;
      DroppedInOrder(orders, k, o.stamp.minute);
      LatestOfDropped(orders, k, s);
      DropOfConcat(orders, [o], k);
      LatestOfAppended(orders[k..], o, s);
    }
  }

  // ----- filling the history up -----

  /** The history after the same kind of record was appended `n` times. */
  function Flooded(orders: seq<OrderRecord>, o: OrderRecord, n: nat): seq<OrderRecord> {
    if n == 0 then orders else Appended(Flooded(orders, o, n - 1), o)
  }

  /** The record `j` places from the end. */
  predicate IsFromEnd(orders: seq<OrderRecord>, j: int, o: OrderRecord) {
    1 <= j <= |orders| && orders[|orders| - j] == o
  }

  lemma AppendedFromEnd(orders: seq<OrderRecord>, o: OrderRecord, j: int, last: OrderRecord)
    requires 1 <= j <= RECENT_ORDERS_CAP && ((j == 1 && last == o) || IsFromEnd(orders, j - 1, last))
    ensures IsFromEnd(Appended(orders, o), j, last)
  {
    assert IsFromEnd(orders + [o], j, last);
  }

  lemma {:induction false} FloodReaches(orders: seq<OrderRecord>, o: OrderRecord, n: nat)
    requires n > 0
    ensures |Flooded(orders, o, n)| <= RECENT_ORDERS_CAP
    ensures forall j :: 1 <= j <= n && j <= RECENT_ORDERS_CAP ==> IsFromEnd(Flooded(orders, o, n), j, o)
  {
    if n > 1 {
      FloodReaches(orders, o, n - 1);
    }
    forall j | 1 <= j <= n && j <= RECENT_ORDERS_CAP
      ensures IsFromEnd(Flooded(orders, o, n), j, o)
    {
      AppendedFromEnd(Flooded(orders, o, n - 1), o, j, o);
    }
  }

  /** As many records as the history holds push everything else out of it. */
  lemma FloodFills(orders: seq<OrderRecord>, o: OrderRecord, n: nat)
    requires n >= RECENT_ORDERS_CAP
    ensures forall i :: 0 <= i < |Flooded(orders, o, n)| ==> Flooded(orders, o, n)[i] == o
  {
    FloodReaches(orders, o, n);
    var f := Flooded(orders, o, n);
    forall i | 0 <= i < |f|
      ensures f[i] == o
    {
      assert IsFromEnd(f, |f| - i, o);
    }
  }

  lemma FloodHidesSells(orders: seq<OrderRecord>, o: OrderRecord, n: nat, s: Symbol)
    requires n >= RECENT_ORDERS_CAP && !IsSellOutcome(o, s)
    ensures LatestSell(Flooded(orders, o, n), s) == None
  {
    FloodFills(orders, o, n);
    LatestSellIsLatest(Flooded(orders, o, n), s);
  }
}
