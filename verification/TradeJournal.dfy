/** First-in-first-out pairing of a session's successful orders into trades. */
module TradeJournals {
  import opened Prelude

  datatype Action = BuySucceeded | SellSucceeded | OtherAction

  /** `id` tells apart orders that agree in everything else. */
  datatype Order = Order(id: nat, timestamp: string, symbol: string, action: Action)

  datatype Trade = Closed(buy: Order, sell: Order) | SellOnly(sell: Order) | Open(buy: Order)

  predicate IsBuyOf(o: Order, symbol: string) {
    o.symbol == symbol && symbol != "" && o.action.BuySucceeded?
  }

  predicate IsSellOf(o: Order, symbol: string) {
    o.symbol == symbol && symbol != "" && o.action.SellSucceeded?
  }

  // ----- stable ordering by timestamp -----

  /** Character-by-character comparison of timestamps. */
  predicate Before(a: string, b: string) {
    b != [] && (a == [] || a[0] < b[0] || (a[0] == b[0] && Before(a[1..], b[1..])))
  }

  /** Places `o` after every order that is not later. */
  function Insert(o: Order, sorted: seq<Order>): seq<Order> {
    if sorted == [] || !Before(o.timestamp, sorted[|sorted| - 1].timestamp) then sorted + [o]
    else Insert(o, sorted[..|sorted| - 1]) + [sorted[|sorted| - 1]]
  }

  function ByTimestamp(orders: seq<Order>): seq<Order> {
    if orders == [] then [] else Insert(orders[|orders| - 1], ByTimestamp(orders[..|orders| - 1]))
  }

  // ----- the pairing -----

  datatype Book = Book(queues: map<string, seq<Order>>, trades: seq<Trade>)

  /** The waiting buys of a symbol, oldest first. */
  function Waiting(queues: map<string, seq<Order>>, symbol: string): seq<Order> {
    if symbol in queues then queues[symbol] else []
  }

  function Step(b: Book, o: Order): Book {
    var waiting := Waiting(b.queues, o.symbol);
    if o.symbol == "" then b
    else
      match o.action
      case BuySucceeded => b.(queues := b.queues[o.symbol := waiting + [o]])
      case SellSucceeded =>
        if waiting == [] then b.(trades := b.trades + [SellOnly(o)])
        else Book(b.queues[o.symbol := waiting[1..]], b.trades + [Closed(waiting[0], o)])
      case OtherAction => b
  }

  function Process(orders: seq<Order>): Book {
    if orders == [] then Book(map[], [])
    else Step(Process(orders[..|orders| - 1]), orders[|orders| - 1])
  }

  // ----- what a symbol's orders and trades amount to -----

  function BuysOf(orders: seq<Order>, symbol: string): seq<Order> {
    if orders == [] then []
    else
      var o := orders[|orders| - 1];
      BuysOf(orders[..|orders| - 1], symbol) + (if IsBuyOf(o, symbol) then [o] else [])
  }

  function SellsOf(orders: seq<Order>, symbol: string): seq<Order> {
    if orders == [] then []
    else
      var o := orders[|orders| - 1];
      SellsOf(orders[..|orders| - 1], symbol) + (if IsSellOf(o, symbol) then [o] else [])
  }

  /** The largest surplus of sells over buys in any prefix. */
  function Shortfall(orders: seq<Order>, symbol: string): nat {
    if orders == [] then 0
    else Max(Shortfall(orders[..|orders| - 1], symbol), |SellsOf(orders, symbol)| - |BuysOf(orders, symbol)|)
  }

  function ClosedBuys(trades: seq<Trade>, symbol: string): seq<Order> {
    if trades == [] then []
    else
      var t := trades[|trades| - 1];
      ClosedBuys(trades[..|trades| - 1], symbol) + (if t.Closed? && t.buy.symbol == symbol then [t.buy] else [])
  }

  function OpenBuys(trades: seq<Trade>, symbol: string): seq<Order> {
    if trades == [] then []
    else
      var t := trades[|trades| - 1];
      OpenBuys(trades[..|trades| - 1], symbol) + (if t.Open? && t.buy.symbol == symbol then [t.buy] else [])
  }

  /** The sells of closed and sell-only trades together. */
  function SellsShown(trades: seq<Trade>, symbol: string): seq<Order> {
    if trades == [] then []
    else
      var t := trades[|trades| - 1];
      SellsShown(trades[..|trades| - 1], symbol) + (if !t.Open? && t.sell.symbol == symbol then [t.sell] else [])
  }

  function SellOnlyCount(trades: seq<Trade>, symbol: string): nat {
    if trades == [] then 0
    else
      var t := trades[|trades| - 1];
      SellOnlyCount(trades[..|trades| - 1], symbol) + (if t.SellOnly? && t.sell.symbol == symbol then 1 else 0)
  }

  /** Some buy came before some sell of the same symbol, and `t` closed the one with the other. */
  ghost predicate PairedInOrder(orders: seq<Order>, t: Trade)
    requires t.Closed?
  {
    && IsBuyOf(t.buy, t.sell.symbol) && IsSellOf(t.sell, t.sell.symbol)
    && exists i, j :: 0 <= i < j < |orders| && orders[i] == t.buy && orders[j] == t.sell
  }

  ghost predicate PairsInOrder(orders: seq<Order>, trades: seq<Trade>) {
    forall t :: t in trades && t.Closed? ==> PairedInOrder(orders, t)
  }

  /** What the journal of `orders` shows of one symbol: nothing is lost or shown twice, and buys close oldest first. */
  ghost predicate Accounts(orders: seq<Order>, trades: seq<Trade>, waiting: seq<Order>, symbol: string) {
    && ClosedBuys(trades, symbol) + waiting == BuysOf(orders, symbol)
    && SellsShown(trades, symbol) == SellsOf(orders, symbol)
    && SellOnlyCount(trades, symbol) == Shortfall(orders, symbol)
    && |ClosedBuys(trades, symbol)| == |SellsOf(orders, symbol)| - Shortfall(orders, symbol)
    && OpenBuys(trades, symbol) == []
  }

  lemma ShownWithOneMore(trades: seq<Trade>, t: Trade, symbol: string)
    ensures
      var all := trades + [t];
      && ClosedBuys(all, symbol)
        == ClosedBuys(trades, symbol) + (if t.Closed? && t.buy.symbol == symbol then [t.buy] else [])
      && OpenBuys(all, symbol) == OpenBuys(trades, symbol) + (if t.Open? && t.buy.symbol == symbol then [t.buy] else [])
      && SellsShown(all, symbol)
        == SellsShown(trades, symbol) + (if !t.Open? && t.sell.symbol == symbol then [t.sell] else [])
      && SellOnlyCount(all, symbol)
        == SellOnlyCount(trades, symbol) + (if t.SellOnly? && t.sell.symbol == symbol then 1 else 0)
  {
    var all := trades + [t];
    assert all[..|all| - 1] == trades;
  }

  lemma OrdersWithOneMore(orders: seq<Order>, o: Order, symbol: string)
    ensures
      var all := orders + [o];
      && BuysOf(all, symbol) == BuysOf(orders, symbol) + (if IsBuyOf(o, symbol) then [o] else [])
      && SellsOf(all, symbol) == SellsOf(orders, symbol) + (if IsSellOf(o, symbol) then [o] else [])
      && Shortfall(all, symbol) == Max(Shortfall(orders, symbol), |SellsOf(all, symbol)| - |BuysOf(all, symbol)|)
  {
    var all := orders + [o];
    assert all[..|all| - 1] == orders;
  }

  lemma {:induction false} SurplusWithinShortfall(orders: seq<Order>, symbol: string)
    ensures |SellsOf(orders, symbol)| - |BuysOf(orders, symbol)| <= Shortfall(orders, symbol)
  {
  }

  lemma SellOnlyStep(orders: seq<Order>, trades: seq<Trade>, waiting: seq<Order>, o: Order, symbol: string)
    requires Accounts(orders, trades, waiting, symbol)
    requires IsSellOf(o, o.symbol) && (o.symbol == symbol ==> waiting == [])
    ensures Accounts(orders + [o], trades + [SellOnly(o)], waiting, symbol)
  {
    OrdersWithOneMore(orders, o, symbol);
    ShownWithOneMore(trades, SellOnly(o), symbol);
    SurplusWithinShortfall(orders, symbol);
  }

  lemma ClosedStep(orders: seq<Order>, trades: seq<Trade>, waiting: seq<Order>, buy: Order, o: Order, symbol: string)
    requires Accounts(orders, trades, waiting, symbol)
    requires IsSellOf(o, o.symbol) && buy.symbol == o.symbol
    requires o.symbol == symbol ==> waiting != [] && waiting[0] == buy
    ensures Accounts(orders + [o], trades + [Closed(buy, o)], if o.symbol == symbol then waiting[1..] else waiting,
                     symbol)
  {
    OrdersWithOneMore(orders, o, symbol);
    ShownWithOneMore(trades, Closed(buy, o), symbol);
    SurplusWithinShortfall(orders, symbol);
    if o.symbol == symbol {
      assert ClosedBuys(trades, symbol) + [buy] + waiting[1..] == ClosedBuys(trades, symbol) + waiting;
    }
  }

  lemma QuietStep(orders: seq<Order>, trades: seq<Trade>, waiting: seq<Order>, o: Order, symbol: string)
    requires Accounts(orders, trades, waiting, symbol)
    requires !IsSellOf(o, symbol)
    ensures Accounts(orders + [o], trades, if IsBuyOf(o, symbol) then waiting + [o] else waiting, symbol)
  {
    OrdersWithOneMore(orders, o, symbol);
    SurplusWithinShortfall(orders, symbol);
    assert ClosedBuys(trades, symbol) + (waiting + [o]) == ClosedBuys(trades, symbol) + waiting + [o];
  }

  lemma {:induction false} ProcessAccounts(orders: seq<Order>, symbol: string)
    requires symbol != ""
    ensures var b := Process(orders); Accounts(orders, b.trades, Waiting(b.queues, symbol), symbol)
  {
    if orders != [] {
      var n := |orders| - 1;
      var before, o := Process(orders[..n]), orders[n];
      assert orders == orders[..n] + [o];
      ProcessAccounts(orders[..n], symbol);
      var waiting := Waiting(before.queues, symbol);
      if !IsSellOf(o, o.symbol) {
        QuietStep(orders[..n], before.trades, waiting, o, symbol);
      } else if Waiting(before.queues, o.symbol) == [] {
        SellOnlyStep(orders[..n], before.trades, waiting, o, symbol);
      } else {
        WaitingAreBuys(orders[..n], o.symbol);
        var buy := Waiting(before.queues, o.symbol)[0];
        assert buy in Waiting(before.queues, o.symbol);
        ClosedStep(orders[..n], before.trades, waiting, buy, o, symbol);
      }
    }
  }

  lemma {:induction false} WaitingAreBuys(orders: seq<Order>, symbol: string)
    requires symbol != ""
    ensures forall o :: o in Waiting(Process(orders).queues, symbol) ==> o in orders && IsBuyOf(o, symbol)
  {
    if orders != [] {
      WaitingAreBuys(orders[..|orders| - 1], symbol);
    }
  }

  lemma {:induction false} ProcessPairsInOrder(orders: seq<Order>)
    ensures PairsInOrder(orders, Process(orders).trades)
  {
    if orders != [] {
      var n := |orders| - 1;
      ProcessPairsInOrder(orders[..n]);
      var before, after := Process(orders[..n]), Process(orders);
      if orders[n].symbol != "" {
        WaitingAreBuys(orders[..n], orders[n].symbol);
      }
      forall t | t in after.trades && t.Closed?
        ensures PairedInOrder(orders, t)
      {
        if t in before.trades {
          var i, j :| 0 <= i < j < n && orders[..n][i] == t.buy && orders[..n][j] == t.sell;
          assert orders[i] == t.buy && orders[j] == t.sell;
        } else {
          assert t.buy in Waiting(before.queues, orders[n].symbol);
          var i :| 0 <= i < n && orders[..n][i] == t.buy;
          assert orders[i] == t.buy && orders[n] == t.sell;
        }
      }
    }
  }

  // ----- no pairing that respects the order of events closes more trades -----

  /** `pairing` sends the index of a sell to the index of an earlier buy of the same symbol, using no buy twice. */
  ghost predicate OrderRespecting(orders: seq<Order>, symbol: string, pairing: map<int, int>) {
    && (forall j :: j in pairing ==>
      0 <= pairing[j] < j < |orders| && IsSellOf(orders[j], symbol) && IsBuyOf(orders[pairing[j]], symbol))
    && (forall j, k :: j in pairing && k in pairing && j != k ==> pairing[j] != pairing[k])
  }

  function BuyPlaces(orders: seq<Order>, symbol: string): set<int> {
    set i | 0 <= i < |orders| && IsBuyOf(orders[i], symbol)
  }

  function SellPlaces(orders: seq<Order>, symbol: string): set<int> {
    set i | 0 <= i < |orders| && IsSellOf(orders[i], symbol)
  }

  lemma {:induction false} CountBuyPlaces(orders: seq<Order>, symbol: string)
    ensures |BuyPlaces(orders, symbol)| == |BuysOf(orders, symbol)|
  {
    if orders == [] {
      assert BuyPlaces(orders, symbol) == {};
    } else {
      var n := |orders| - 1;
      var rest := BuyPlaces(orders[..n], symbol);
      CountBuyPlaces(orders[..n], symbol);
      assert BuyPlaces(orders, symbol) == rest + (if IsBuyOf(orders[n], symbol) then {n} else {});
      assert n !in rest;
    }
  }

  lemma {:induction false} CountSellPlaces(orders: seq<Order>, symbol: string)
    ensures |SellPlaces(orders, symbol)| == |SellsOf(orders, symbol)|
  {
    if orders == [] {
      assert SellPlaces(orders, symbol) == {};
    } else {
      var n := |orders| - 1;
      var rest := SellPlaces(orders[..n], symbol);
      CountSellPlaces(orders[..n], symbol);
      assert SellPlaces(orders, symbol) == rest + (if IsSellOf(orders[n], symbol) then {n} else {});
      assert n !in rest;
    }
  }

  /** `Shortfall` is reached by some prefix and exceeded by none. */
  lemma {:induction false} ShortfallIsMax(orders: seq<Order>, symbol: string) returns (p: nat)
    ensures p <= |orders|
    ensures Shortfall(orders, symbol) == |SellsOf(orders[..p], symbol)| - |BuysOf(orders[..p], symbol)|
    ensures forall q :: 0 <= q <= |orders| ==>
      |SellsOf(orders[..q], symbol)| - |BuysOf(orders[..q], symbol)| <= Shortfall(orders, symbol)
  {
    assert orders[..|orders|] == orders;
    if orders == [] {
      p := 0;
    } else {
      var n := |orders| - 1;
      var p0 := ShortfallIsMax(orders[..n], symbol);
      assert forall q :: 0 <= q <= n ==> orders[..n][..q] == orders[..q];
      p := if Shortfall(orders, symbol) == Shortfall(orders[..n], symbol) then p0 else n + 1;
    }
  }

  lemma {:induction false} ImageSize(pairing: map<int, int>, keys: set<int>)
    requires keys <= pairing.Keys
    requires forall j, k :: j in keys && k in keys && j != k ==> pairing[j] != pairing[k]
    ensures |set j | j in keys :: pairing[j]| == |keys|
  {
    if keys != {} {
      var k := Pick(keys);
      ImageSize(pairing, keys - {k});
      assert (set j | j in keys :: pairing[j]) == (set j | j in keys - {k} :: pairing[j]) + {pairing[k]};
    }
  }

  lemma SubsetSize<T>(a: set<T>, b: set<T>)
    requires a <= b
    ensures |a| <= |b|
  {
    assert b == a + (b - a);
  }

  lemma {:induction false} FifoClosesTheMost(orders: seq<Order>, symbol: string, pairing: map<int, int>)
    requires symbol != "" && OrderRespecting(orders, symbol, pairing)
    ensures |pairing| <= |ClosedBuys(Process(orders).trades, symbol)|
  {
    var p := ShortfallIsMax(orders, symbol);
    PairsAround(orders, symbol, pairing, p);
    ProcessAccounts(orders, symbol);
  }

  /** Every cut through the orders bounds the pairs by the buys before it and the sells behind it. */
  lemma PairsAround(orders: seq<Order>, symbol: string, pairing: map<int, int>, p: nat)
    requires p <= |orders| && OrderRespecting(orders, symbol, pairing)
    ensures |pairing|
      <= |BuysOf(orders[..p], symbol)| + |SellsOf(orders, symbol)| - |SellsOf(orders[..p], symbol)|
  {
    var early, late := set j | j in pairing && j < p, set j | j in pairing && j >= p;
    EarlyPairs(orders, symbol, pairing, p, early);
    LatePairs(orders, symbol, pairing, p, late);
    assert pairing.Keys == early + late;
  }

  /** Sells in a prefix can only be paired with buys in it. */
  lemma EarlyPairs(orders: seq<Order>, symbol: string, pairing: map<int, int>, p: nat, early: set<int>)
    requires p <= |orders| && OrderRespecting(orders, symbol, pairing)
    requires early == set j | j in pairing && j < p
    ensures |early| <= |BuysOf(orders[..p], symbol)|
  {
    var used := set j | j in early :: pairing[j];
    ImageSize(pairing, early);
    assert used <= BuyPlaces(orders[..p], symbol);
    SubsetSize(used, BuyPlaces(orders[..p], symbol));
    CountBuyPlaces(orders[..p], symbol);
  }

  lemma LatePairs(orders: seq<Order>, symbol: string, pairing: map<int, int>, p: nat, late: set<int>)
    requires p <= |orders| && OrderRespecting(orders, symbol, pairing)
    requires late == set j | j in pairing && j >= p
    ensures |late| <= |SellsOf(orders, symbol)| - |SellsOf(orders[..p], symbol)|
  {
    var allSells, earlySells := SellPlaces(orders, symbol), SellPlaces(orders[..p], symbol);
    assert earlySells <= allSells && late <= allSells - earlySells;
    SubsetSize(late, allSells - earlySells);
    CountSellPlaces(orders, symbol);
    CountSellPlaces(orders[..p], symbol);
  }

  // ----- the journal itself -----

  method BuildTradeJournal(orders: seq<Order>) returns (trades: seq<Trade>)
    ensures
      var sorted := ByTimestamp(orders);
      && PairsInOrder(sorted, trades)
      && (forall t :: t in trades && t.Closed? ==> !IsEarlier(t.sell.timestamp, t.buy.timestamp))
      && forall s :: s != "" ==>
        && ClosedBuys(trades, s) + OpenBuys(trades, s) == BuysOf(sorted, s)
        && SellsShown(trades, s) == SellsOf(sorted, s)
        && SellOnlyCount(trades, s) == Shortfall(sorted, s)
  {
    var sorted := ByTimestamp(orders);
    var queues, paired := PairOrders(sorted);
    ProcessPairsInOrder(sorted);
    ProcessHasNamedQueues(sorted);
    forall s: string, o: Order | s in queues && o in queues[s]
      ensures o.symbol == s
    {
      WaitingAreBuys(sorted, s);
      assert o in Waiting(Process(sorted).queues, s);
    }
    forall s | s != ""
      ensures OpenBuys(paired, s) == []
      ensures ClosedBuys(paired, s) + (if s in queues then queues[s] else []) == BuysOf(sorted, s)
      ensures SellsShown(paired, s) == SellsOf(sorted, s) && SellOnlyCount(paired, s) == Shortfall(sorted, s)
    {
      ProcessAccounts(sorted, s);
    }
    trades := AppendAllOpen(paired, queues);
    forall t | t in trades && t.Closed?
      ensures !IsEarlier(t.sell.timestamp, t.buy.timestamp)
    {
      ClosedInTime(orders, t);
    }
  }

  /** Appends an open trade for every waiting buy of every symbol, in any order of symbols. */
  method AppendAllOpen(paired: seq<Trade>, queues: map<string, seq<Order>>) returns (trades: seq<Trade>)
    requires forall s: string, o: Order :: s in queues && o in queues[s] ==> o.symbol == s
    ensures forall s :: ClosedBuys(trades, s) == ClosedBuys(paired, s)
    ensures forall s :: SellsShown(trades, s) == SellsShown(paired, s)
    ensures forall s :: SellOnlyCount(trades, s) == SellOnlyCount(paired, s)
    ensures forall s :: OpenBuys(trades, s) == OpenBuys(paired, s) + if s in queues then queues[s] else []
    ensures forall t :: t in trades && t.Closed? ==> t in paired
  {
    trades := paired;
    var rest := queues.Keys;
    while rest != {}
      invariant rest <= queues.Keys
      invariant forall s :: ClosedBuys(trades, s) == ClosedBuys(paired, s)
      invariant forall s :: SellsShown(trades, s) == SellsShown(paired, s)
      invariant forall s :: SellOnlyCount(trades, s) == SellOnlyCount(paired, s)
      invariant forall s ::
        OpenBuys(trades, s) == OpenBuys(paired, s) + if s in queues && s !in rest then queues[s] else []
      invariant forall t :: t in trades && t.Closed? ==> t in paired
      decreases rest
    {
      var symbol :| symbol in rest;
      trades := AppendOpen(trades, queues[symbol], symbol);
      rest := rest - {symbol};
    }
  }

  /** Pairs orders that are already in timestamp order. */
  method PairOrders(sorted: seq<Order>) returns (queues: map<string, seq<Order>>, trades: seq<Trade>)
    ensures Book(queues, trades) == Process(sorted)
  {
    queues, trades := map[], [];
    for i := 0 to |sorted|
      invariant Book(queues, trades) == Process(sorted[..i])
    {
      var order := sorted[i];
      assert sorted[..i + 1][..i] == sorted[..i];
      if order.symbol == "" {
        continue;
      }
      if order.action == BuySucceeded {
        queues := queues[order.symbol := Waiting(queues, order.symbol) + [order]];
      } else if order.action == SellSucceeded {
        if order.symbol in queues && queues[order.symbol] != [] {
          var buy := queues[order.symbol][0];
          queues := queues[order.symbol := queues[order.symbol][1..]];
          trades := trades + [Closed(buy, order)];
        } else {
          trades := trades + [SellOnly(order)];
        }
      }
    }
    assert sorted[..|sorted|] == sorted;
  }

  lemma {:induction false} ProcessHasNamedQueues(orders: seq<Order>)
    ensures "" !in Process(orders).queues
  {
    if orders != [] {
      ProcessHasNamedQueues(orders[..|orders| - 1]);
    }
  }

  /** Appends one open trade for every buy still waiting. */
  method AppendOpen(trades: seq<Trade>, waiting: seq<Order>, symbol: string) returns (r: seq<Trade>)
    requires forall o :: o in waiting ==> o.symbol == symbol
    ensures forall s :: ClosedBuys(r, s) == ClosedBuys(trades, s)
    ensures forall s :: SellsShown(r, s) == SellsShown(trades, s)
    ensures forall s :: SellOnlyCount(r, s) == SellOnlyCount(trades, s)
    ensures forall s :: OpenBuys(r, s) == OpenBuys(trades, s) + if s == symbol then waiting else []
    ensures forall t :: t in r ==> t in trades || (t.Open? && t.buy.symbol == symbol)
  {
    r := trades;
    for i := 0 to |waiting|
      invariant forall s :: ClosedBuys(r, s) == ClosedBuys(trades, s)
      invariant forall s :: SellsShown(r, s) == SellsShown(trades, s)
      invariant forall s :: SellOnlyCount(r, s) == SellOnlyCount(trades, s)
      invariant forall s :: OpenBuys(r, s) == OpenBuys(trades, s) + if s == symbol then waiting[..i] else []
      invariant forall t :: t in r ==> t in trades || (t.Open? && t.buy.symbol == symbol)
    {
      forall s {
        ShownWithOneMore(r, Open(waiting[i]), s);
      }
      assert waiting[..i] + [waiting[i]] == waiting[..i + 1];
      r := r + [Open(waiting[i])];
    }
    assert waiting[..|waiting|] == waiting;
  }

  // ----- the ordering step -----

  ghost predicate Ordered(orders: seq<Order>) {
    forall i, j :: 0 <= i < j < |orders| ==> !Before(orders[j].timestamp, orders[i].timestamp)
  }

  lemma {:induction false} BeforeIsTotal(a: string, b: string, c: string)
    ensures !(Before(a, b) && Before(b, a))
    ensures !Before(b, a) && !Before(c, b) ==> !Before(c, a)
  {
    if a != [] && b != [] && c != [] {
      BeforeIsTotal(a[1..], b[1..], c[1..]);
    } else if a != [] && b != [] {
      BeforeIsTotal(a[1..], b[1..], []);
    }
  }

  /** The texts agree on their first `k` characters; there the first one ends, or has the smaller character. */
  predicate PartsAt(a: string, b: string, k: int) {
    && 0 <= k <= |a| && k < |b|
    && (forall i :: 0 <= i < k ==> a[i] == b[i])
    && (k == |a| || a[k] < b[k])
  }

  /** The earlier of two timestamps, told by the place at which they part. */
  ghost predicate IsEarlier(a: string, b: string) {
    exists k :: PartsAt(a, b, k)
  }

  lemma {:induction false} BeforeParts(a: string, b: string) returns (k: int)
    requires Before(a, b)
    ensures PartsAt(a, b, k)
  {
    if a == [] || a[0] < b[0] {
      k := 0;
    } else {
      var rest := BeforeParts(a[1..], b[1..]);
      k := rest + 1;
      assert forall i :: 0 < i < k ==> a[i] == a[1..][i - 1] && b[i] == b[1..][i - 1];
    }
  }

  lemma {:induction false} PartsIsBefore(a: string, b: string, k: int)
    requires PartsAt(a, b, k)
    ensures Before(a, b)
    decreases |a|
  {
    if k > 0 {
      PartsIsBefore(a[1..], b[1..], k - 1);
    }
  }

  /** Sorting puts the earlier of two timestamps first. */
  lemma EarlierComesFirst(orders: seq<Order>, i: int, j: int)
    requires 0 <= i < |ByTimestamp(orders)| && 0 <= j < |ByTimestamp(orders)|
    requires IsEarlier(ByTimestamp(orders)[i].timestamp, ByTimestamp(orders)[j].timestamp)
    ensures i < j
  {
    var sorted := ByTimestamp(orders);
    var k :| PartsAt(sorted[i].timestamp, sorted[j].timestamp, k);
    PartsIsBefore(sorted[i].timestamp, sorted[j].timestamp, k);
    BeforeIsTotal(sorted[i].timestamp, sorted[j].timestamp, []);
    ByTimestampSorts(orders);
  }

  lemma ClosedInTime(orders: seq<Order>, t: Trade)
    requires t.Closed? && PairedInOrder(ByTimestamp(orders), t)
    ensures !IsEarlier(t.sell.timestamp, t.buy.timestamp)
  {
    var sorted := ByTimestamp(orders);
    var i, j :| 0 <= i < j < |sorted| && sorted[i] == t.buy && sorted[j] == t.sell;
    if IsEarlier(sorted[j].timestamp, sorted[i].timestamp) {
      EarlierComesFirst(orders, j, i);
    }
  }

  lemma OrderedWithOneMore(sorted: seq<Order>, o: Order)
    requires Ordered(sorted)
    requires forall x :: x in sorted ==> !Before(o.timestamp, x.timestamp)
    ensures Ordered(sorted + [o])
  {
  }

  lemma {:induction false} InsertSorts(o: Order, sorted: seq<Order>)
    requires Ordered(sorted)
    ensures Ordered(Insert(o, sorted)) && multiset(Insert(o, sorted)) == multiset(sorted) + multiset{o}
    ensures forall x :: x in Insert(o, sorted) ==> x == o || x in sorted
  {
    if sorted != [] {
      var n := |sorted| - 1;
      var last := sorted[n];
      assert sorted == sorted[..n] + [last];
      if Before(o.timestamp, last.timestamp) {
        InsertSorts(o, sorted[..n]);
        BeforeIsTotal(o.timestamp, last.timestamp, o.timestamp);
        OrderedWithOneMore(Insert(o, sorted[..n]), last);
      } else {
        forall x | x in sorted
          ensures !Before(o.timestamp, x.timestamp)
        {
          BeforeIsTotal(x.timestamp, last.timestamp, o.timestamp);
        }
        OrderedWithOneMore(sorted, o);
      }
    }
  }

  lemma {:induction false} ByTimestampSorts(orders: seq<Order>)
    ensures Ordered(ByTimestamp(orders)) && multiset(ByTimestamp(orders)) == multiset(orders)
  {
    if orders != [] {
      var n := |orders| - 1;
      ByTimestampSorts(orders[..n]);
      InsertSorts(orders[n], ByTimestamp(orders[..n]));
      assert orders == orders[..n] + [orders[n]];
    }
  }

  /** The processed orders are the given ones, none of them after a later one. */
  lemma SortedByTime(orders: seq<Order>)
    ensures multiset(ByTimestamp(orders)) == multiset(orders)
    ensures
      var sorted := ByTimestamp(orders);
      forall i, j :: 0 <= i < j < |sorted| ==> !IsEarlier(sorted[j].timestamp, sorted[i].timestamp)
  {
    ByTimestampSorts(orders);
    var sorted := ByTimestamp(orders);
    forall i, j | 0 <= i < j < |sorted|
      ensures !IsEarlier(sorted[j].timestamp, sorted[i].timestamp)
    {
      if IsEarlier(sorted[j].timestamp, sorted[i].timestamp) {
        EarlierComesFirst(orders, j, i);
      }
    }
  }

  function AtTime(orders: seq<Order>, timestamp: string): seq<Order> {
    if orders == [] then []
    else
      var o := orders[|orders| - 1];
      AtTime(orders[..|orders| - 1], timestamp) + (if o.timestamp == timestamp then [o] else [])
  }

  lemma AtTimeWithOneMore(orders: seq<Order>, o: Order, timestamp: string)
    ensures AtTime(orders + [o], timestamp)
      == AtTime(orders, timestamp) + (if o.timestamp == timestamp then [o] else [])
  {
    assert (orders + [o])[..|orders|] == orders;
  }

  lemma SwapWithEmpty<T>(a: seq<T>, b: seq<T>, c: seq<T>)
    requires b == [] || c == []
    ensures a + b + c == a + c + b
  {
  }

  lemma {:induction false} InsertIsStable(o: Order, sorted: seq<Order>, timestamp: string)
    ensures AtTime(Insert(o, sorted), timestamp)
      == AtTime(sorted, timestamp) + if o.timestamp == timestamp then [o] else []
  {
    if sorted == [] || !Before(o.timestamp, sorted[|sorted| - 1].timestamp) {
      AtTimeWithOneMore(sorted, o, timestamp);
    } else {
      var n := |sorted| - 1;
      InsertIsStable(o, sorted[..n], timestamp);
      assert o.timestamp != sorted[n].timestamp by {
        BeforeIsTotal(o.timestamp, sorted[n].timestamp, o.timestamp);
      }
      AtTimeWithOneMore(Insert(o, sorted[..n]), sorted[n], timestamp);
      SwapWithEmpty(AtTime(sorted[..n], timestamp), if o.timestamp == timestamp then [o] else [],
                    if sorted[n].timestamp == timestamp then [sorted[n]] else []);
    }
  }

  /** Orders with the same timestamp keep the order they were given in. */
  lemma {:induction false} ByTimestampIsStable(orders: seq<Order>, timestamp: string)
    ensures AtTime(ByTimestamp(orders), timestamp) == AtTime(orders, timestamp)
  {
    if orders != [] {
      var n := |orders| - 1;
      ByTimestampIsStable(orders[..n], timestamp);
      InsertIsStable(orders[n], ByTimestamp(orders[..n]), timestamp);
    }
  }
}
