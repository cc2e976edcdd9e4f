/**
 * The trader's persisted state of one trading day: order history, SELL reservations and the flags that say whether it
 * can be trusted. Times are minutes on one clock; texts such as symbols and triggers stand for their stripped form.
 */
module RuntimeStates {
  import opened Prelude
  import opened Visits

  /** A stock code. */
  datatype Symbol = Symbol(code: string)

  const NO_SYMBOL := Symbol("")

  type Date = real

  const RECENT_ORDERS_CAP := 50
  const INTENT_ADJUSTMENTS_CAP := 50
  const SELL_INTENT_TTL := 10.0
  const SELL_INTENT_EMERGENCY_TTL := 3.0
  const MINUTES_PER_DAY := 1440.0
  const SELL_EMERGENCY_TRIGGERS := {"stop_loss"}

  datatype Side = BuySide | SellSide

  datatype Action =
    | OrderSubmitted | OrderSucceeded | OrderFailed
    | SellSubmitted | SellSucceeded | SellFailed
    | OtherAction(code: string)

  /** A recorded time: missing, present but unparseable, or readable. */
  datatype Stamp = Blank | Unreadable | At(minute: real)

  datatype OrderRecord = OrderRecord(stamp: Stamp, day: Date, side: Side, symbol: Symbol, qty: int, action: Action)

  /** A reservation of shares for submitted sells; `Scalar` is the older form without a submit time. */
  datatype Reservation = Scalar(amount: int) | Intent(amount: int, submitted: Stamp, trigger: string)

  datatype Cause = PositionGone | PositionShrunk | ClampedToActual | Drained | TtlExpired

  /** One audited change of a reservation. */
  datatype Adjustment = Adjustment(symbol: Symbol, before: int, after: int, cause: Cause)

  /** A reservation let go because it outlived its time to live. */
  datatype Release = Release(symbol: Symbol, qty: int, age: real, ttl: real, lastAction: Option<Action>)

  /** What an order attempt is remembered by; the SELL key leaves the quantity out. */
  datatype Signature = NoSignature | BuySignature(symbol: Symbol, qty: int) | SellKey(symbol: Symbol, trigger: string)

  datatype Attempt = Attempt(signature: Signature, at: Stamp)

  /** The part of the state that says whether orders may be submitted at all. */
  datatype Trust = Trust(trustedFlag: Option<bool>, safetyStatus: string, blockedFlag: bool, reason: string)

  datatype StateView = StateView(
    accountSignature: string,
    tradingDay: Date,
    trust: Trust,
    pending: map<Symbol, Reservation>,
    recentOrders: seq<OrderRecord>,
    buyEntriesToday: map<Symbol, int>,
    lastBuyAttempt: Attempt,
    lastSellAttempt: Attempt,
    soldToday: seq<Symbol>,
    sellTriggeredToday: seq<Symbol>,
    blockedBuyToday: seq<Symbol>,
    buyBlockedToday: seq<Symbol>,
    blockedSellToday: seq<Symbol>,
    sellBlockedToday: seq<Symbol>,
    rebalanceSellsToday: int,
    lastSynced: map<Symbol, int>,
    lastSyncedAt: Stamp,
    intentAdjustments: seq<Adjustment>)

  /** The calendar day of a moment, given by the midnight it starts at. */
  function Day(now: real): Date
    decreases if now < 0.0 then 1 + (-now).Floor else if now < MINUTES_PER_DAY then 0 else now.Floor
  {
    if now < 0.0 then Day(now + MINUTES_PER_DAY) - MINUTES_PER_DAY
    else if now < MINUTES_PER_DAY then 0.0
    else Day(now - MINUTES_PER_DAY) + MINUTES_PER_DAY
  }

  /** A day starts at a midnight that is not later, and ends with the next one. */
  lemma {:induction false} DayIsMidnight(now: real) returns (k: int)
    ensures Day(now) == k as real * 1440.0 && Day(now) <= now < Day(now) + 1440.0
    decreases if now < 0.0 then 1 + (-now).Floor else if now < MINUTES_PER_DAY then 0 else now.Floor
  {
    if now < 0.0 {
      k := DayIsMidnight(now + MINUTES_PER_DAY);
      k := k - 1;
    } else if now < MINUTES_PER_DAY {
      k := 0;
    } else {
      k := DayIsMidnight(now - MINUTES_PER_DAY);
      k := k + 1;
    }
  }

  predicate IsTrusted(t: Trust) {
    t.trustedFlag != Some(false) && t.safetyStatus != "blocked" && !t.blockedFlag
  }

  function UniqueAppend(items: seq<Symbol>, value: Symbol): seq<Symbol> {
    if value == NO_SYMBOL || value in items then items else items + [value]
  }

  /** The shares a reservation map holds back for a symbol. */
  function Reserved(pending: map<Symbol, Reservation>, symbol: Symbol): nat {
    if symbol in pending then Max(0, pending[symbol].amount) else 0
  }

  function Amount(pending: map<Symbol, Reservation>, symbol: Symbol): int {
    if symbol in pending then pending[symbol].amount else 0
  }

  // ----- what each operation does to the reservations -----

  function WithSubmitted(
    pending: map<Symbol, Reservation>, symbol: Symbol, qty: int, submitted: Stamp, trigger: string)
    : map<Symbol, Reservation>
  {
    if symbol == NO_SYMBOL || qty <= 0 then pending
    else
      var kept := if symbol in pending && pending[symbol].Intent? then pending[symbol].trigger else "";
      pending[symbol := Intent(Amount(pending, symbol) + qty, submitted, if trigger != "" then trigger else kept)]
  }

  function WithResolved(pending: map<Symbol, Reservation>, symbol: Symbol, qty: int, clear: bool, now: real)
    : map<Symbol, Reservation>
  {
    if symbol == NO_SYMBOL || symbol !in pending then pending
    else
      var remaining := pending[symbol].amount - Max(0, qty);
      if clear || remaining <= 0 then pending - {symbol}
      else
        var submitted := if pending[symbol].Intent? && pending[symbol].submitted != Blank
                         then pending[symbol].submitted else At(now);
        pending[symbol := Intent(remaining, submitted, "")]
  }

  /** The reservations as a reload rebuilds them: positive ones only, without their trigger. */
  function Reloaded(pending: map<Symbol, Reservation>): map<Symbol, Reservation> {
    map s | s in pending && s != NO_SYMBOL && pending[s].amount > 0
      :: Intent(pending[s].amount, if pending[s].Intent? then pending[s].submitted else Blank, "")
  }

  predicate IsSellOutcome(o: OrderRecord, symbol: Symbol) {
    o.symbol == symbol && (o.action.SellSubmitted? || o.action.SellFailed? || o.action.SellSucceeded?)
      && o.stamp.At?
  }

  /** The latest recorded SELL outcome of a symbol; of several at the same time, the one recorded last. */
  function LatestSell(orders: seq<OrderRecord>, symbol: Symbol): Option<OrderRecord> {
    if orders == [] then None
    else
      var earlier, o := LatestSell(orders[..|orders| - 1], symbol), orders[|orders| - 1];
      if && IsSellOutcome(o, symbol)
         && (earlier.None? || !earlier.value.stamp.At? || o.stamp.minute >= earlier.value.stamp.minute)
      then Some(o) else earlier
  }

  function LatestSellAction(orders: seq<OrderRecord>, symbol: Symbol): Option<Action> {
    match LatestSell(orders, symbol)
    case Some(o) => Some(o.action)
    case None => None
  }

  predicate MayBeLive(last: Option<Action>) {
    last == Some(SellSubmitted) || last == Some(SellSucceeded)
  }

  function ApplicableTtl(entry: Reservation, ttl: real, emergencyTtl: real): real {
    if entry.Intent? && entry.trigger in SELL_EMERGENCY_TRIGGERS then emergencyTtl else ttl
  }

  /** The reservation has outlived its time to live and its last recorded outcome does not speak for a live order. */
  predicate Releasable(entry: Reservation, last: Option<Action>, ttl: real, emergencyTtl: real, now: real) {
    && entry.Intent? && entry.submitted.At?
    && now - entry.submitted.minute >= ApplicableTtl(entry, ttl, emergencyTtl)
    && !MayBeLive(last)
  }

  /** A kept reservation; one without a readable submit time starts to age now. */
  function Refreshed(entry: Reservation, now: real): Reservation {
    match entry
    case Scalar(amount) => Intent(Max(0, amount), At(now), "")
    case Intent(amount, submitted, trigger) => if submitted.At? then entry else Intent(amount, At(now), trigger)
  }

  /** What one prune run works with besides the reservations themselves. */
  datatype PruneRun = PruneRun(orders: seq<OrderRecord>, ttl: real, emergencyTtl: real, now: real)

  function DefaultRun(orders: seq<OrderRecord>, now: real): PruneRun {
    PruneRun(orders, SELL_INTENT_TTL, SELL_INTENT_EMERGENCY_TTL, now)
  }

  /** The reservation of a symbol is due for release in this run. */
  predicate Due(run: PruneRun, symbol: Symbol, entry: Reservation) {
    Releasable(entry, LatestSellAction(run.orders, symbol), run.ttl, run.emergencyTtl, run.now)
  }

  function PruneEntry(run: PruneRun): (Symbol, Reservation) -> Option<Reservation> {
    (symbol, entry) => if Due(run, symbol, entry) then None else Some(Refreshed(entry, run.now))
  }

  /** The reservations after a prune. */
  function Pruned(pending: map<Symbol, Reservation>, run: PruneRun): map<Symbol, Reservation> {
    if run.ttl <= 0.0 then pending else Revised(pending, PruneEntry(run))
  }

  function ReleaseOf(run: PruneRun, symbol: Symbol, entry: Reservation): Release
    requires Due(run, symbol, entry)
  {
    Release(symbol, Max(0, entry.amount), run.now - entry.submitted.minute,
            ApplicableTtl(entry, run.ttl, run.emergencyTtl), LatestSellAction(run.orders, symbol))
  }

  function ReleasesOfOne(pending: map<Symbol, Reservation>, run: PruneRun, symbol: Symbol): seq<Release> {
    if run.ttl > 0.0 && symbol in pending && Due(run, symbol, pending[symbol])
    then [ReleaseOf(run, symbol, pending[symbol])]
    else []
  }

  function ReleaseEntry(pending: map<Symbol, Reservation>, run: PruneRun): Symbol -> seq<Release> {
    symbol => ReleasesOfOne(pending, run, symbol)
  }

  function ReleaseSymbol(r: Release): Symbol { r.symbol }

  /** Each symbol is released at most once, and exactly when it should be; the order of symbols is left open. */
  ghost predicate ReportsAll(released: seq<Release>, pending: map<Symbol, Reservation>, run: PruneRun) {
    forall s :: Of(released, ReleaseSymbol, s) == ReleasesOfOne(pending, run, s)
  }

  function AuditOf(r: Release): Adjustment {
    Adjustment(r.symbol, r.qty, 0, TtlExpired)
  }

  function AuditsOf(released: seq<Release>): seq<Adjustment> {
    if released == [] then []
    else AuditsOf(released[..|released| - 1]) + [AuditOf(released[|released| - 1])]
  }

  class RuntimeState {
    var accountSignature: string
    var tradingDay: Date
    var trust: Trust
    var pending: map<Symbol, Reservation>
    var recentOrders: seq<OrderRecord>
    var buyEntriesToday: map<Symbol, int>
    var lastBuyAttempt: Attempt
    var lastSellAttempt: Attempt
    var soldToday: seq<Symbol>
    var sellTriggeredToday: seq<Symbol>
    var blockedBuyToday: seq<Symbol>
    var buyBlockedToday: seq<Symbol>
    var blockedSellToday: seq<Symbol>
    var sellBlockedToday: seq<Symbol>
    var rebalanceSellsToday: int
    var lastSynced: map<Symbol, int>
    var lastSyncedAt: Stamp
    var intentAdjustments: seq<Adjustment>

    constructor (v: StateView)
      ensures View() == v
    {
      accountSignature, tradingDay, trust := v.accountSignature, v.tradingDay, v.trust;
      pending, recentOrders, buyEntriesToday := v.pending, v.recentOrders, v.buyEntriesToday;
      lastBuyAttempt, lastSellAttempt := v.lastBuyAttempt, v.lastSellAttempt;
      soldToday, sellTriggeredToday := v.soldToday, v.sellTriggeredToday;
      blockedBuyToday, buyBlockedToday := v.blockedBuyToday, v.buyBlockedToday;
      blockedSellToday, sellBlockedToday := v.blockedSellToday, v.sellBlockedToday;
      rebalanceSellsToday, lastSynced, lastSyncedAt := v.rebalanceSellsToday, v.lastSynced, v.lastSyncedAt;
      intentAdjustments := v.intentAdjustments;
    }

    function View(): StateView
      reads this
    {
      StateView(accountSignature, tradingDay, trust, pending, recentOrders, buyEntriesToday, lastBuyAttempt,
                lastSellAttempt, soldToday, sellTriggeredToday, blockedBuyToday, buyBlockedToday, blockedSellToday,
                sellBlockedToday, rebalanceSellsToday, lastSynced, lastSyncedAt, intentAdjustments)
    }

    /** Appends an order record, keeping the latest fifty, and counts BUY entries of the day. */
    method AddRecentOrder(side: Side, symbol: Symbol, qty: int, action: Action, timestamp: Option<real>, now: real)
      modifies this`recentOrders, this`buyEntriesToday
      ensures View() == WithRecorded(old(View()), side, symbol, qty, action, timestamp, now)
    {
      var stamp := At(if timestamp.Some? then timestamp.value else now);
      recentOrders := recentOrders + [OrderRecord(stamp, Day(now), side, symbol, qty, action)];
      if |recentOrders| > RECENT_ORDERS_CAP {
        recentOrders := recentOrders[|recentOrders| - RECENT_ORDERS_CAP..];
      }
      if side == BuySide && action == OrderSubmitted {
        var entries := if symbol in buyEntriesToday then buyEntriesToday[symbol] else 0;
        buyEntriesToday := buyEntriesToday[symbol := entries + 1];
      }
    }

    method MarkBuyBlocked(symbol: Symbol)
      modifies this`buyBlockedToday, this`blockedBuyToday
      ensures View() == WithBuyBlocked(old(View()), symbol)
    {
      if symbol != NO_SYMBOL && symbol !in buyBlockedToday {
        buyBlockedToday := buyBlockedToday + [symbol];
      }
      if symbol != NO_SYMBOL && symbol !in blockedBuyToday {
        blockedBuyToday := blockedBuyToday + [symbol];
      }
    }

    method RecordBuyAttemptSignature(signature: Signature, attemptedAt: Stamp)
      modifies this`lastBuyAttempt
      ensures lastBuyAttempt == Attempt(signature, attemptedAt)
    {
      lastBuyAttempt := Attempt(signature, attemptedAt);
    }

    method MarkSoldSymbol(symbol: Symbol)
      modifies this`soldToday
      ensures soldToday == UniqueAppend(old(soldToday), symbol)
    {
      if symbol != NO_SYMBOL && symbol !in soldToday {
        soldToday := soldToday + [symbol];
      }
    }

    method MarkRebalanceSellSubmission()
      modifies this`rebalanceSellsToday
      ensures rebalanceSellsToday == old(rebalanceSellsToday) + 1
    {
      rebalanceSellsToday := rebalanceSellsToday + 1;
    }

    method MarkSellTrigger(symbol: Symbol, signature: Signature, attemptedAt: Stamp, recordSymbol: bool)
      modifies this`sellTriggeredToday, this`lastSellAttempt
      ensures sellTriggeredToday ==
        if recordSymbol then UniqueAppend(old(sellTriggeredToday), symbol) else old(sellTriggeredToday)
      ensures lastSellAttempt
        == if signature != NoSignature then Attempt(signature, attemptedAt) else old(lastSellAttempt)
    {
      if recordSymbol && symbol != NO_SYMBOL && symbol !in sellTriggeredToday {
        sellTriggeredToday := sellTriggeredToday + [symbol];
      }
      if signature != NoSignature {
        lastSellAttempt := Attempt(signature, attemptedAt);
      }
    }

    method MarkSellIntentSubmitted(symbol: Symbol, qty: int, submitted: Stamp, trigger: string)
      modifies this`pending
      ensures pending == WithSubmitted(old(pending), symbol, qty, submitted, trigger)
    {
      var normalizedQty := Max(0, qty);
      if symbol == NO_SYMBOL || normalizedQty <= 0 {
        return;
      }
      var existingQty := if symbol in pending then pending[symbol].amount else 0;
      var normalizedTrigger := trigger;
      if normalizedTrigger == "" && symbol in pending && pending[symbol].Intent? {
        normalizedTrigger := pending[symbol].trigger;
      }
      pending := pending[symbol := Intent(existingQty + normalizedQty, submitted, normalizedTrigger)];
    }

    method ResolveSellIntent(symbol: Symbol, qty: int, clear: bool, now: real)
      modifies this`pending
      ensures pending == WithResolved(old(pending), symbol, qty, clear, now)
    {
      if symbol == NO_SYMBOL || symbol !in pending {
        return;
      }
      if clear {
        pending := pending - {symbol};
        return;
      }
      var existing := pending[symbol];
      var remainingQty := Max(0, existing.amount - Max(0, qty));
      if remainingQty <= 0 {
        pending := pending - {symbol};
        return;
      }
      var submitted := if existing.Intent? && existing.submitted != Blank then existing.submitted else At(now);
      pending := pending[symbol := Intent(remainingQty, submitted, "")];
    }

    method LatestSellOrderAction(symbol: Symbol) returns (r: Option<Action>)
      ensures r == LatestSellAction(recentOrders, symbol)
    {
      r := None;
      var latestTime: Option<real> := None;
      for i := 0 to |recentOrders|
        invariant r == LatestSellAction(recentOrders[..i], symbol)
        invariant latestTime == match LatestSell(recentOrders[..i], symbol)
          case Some(o) => (if o.stamp.At? then Some(o.stamp.minute) else None)
          case None => None
        invariant LatestSell(recentOrders[..i], symbol).Some? ==> latestTime.Some?
      {
        assert recentOrders[..i + 1][..i] == recentOrders[..i];
        var order := recentOrders[i];
        if IsSellOutcome(order, symbol) {
          if latestTime.None? || order.stamp.minute >= latestTime.value {
            latestTime := Some(order.stamp.minute);
            r := Some(order.action);
          }
        }
      }
      assert recentOrders[..|recentOrders|] == recentOrders;
    }

    /** Lets go of reservations that outlived their time to live, in the order in which the symbols are stored. */
    method PruneStaleSellIntents(ttl: real, emergencyTtl: Option<real>, now: real)
      returns (released: seq<Release>)
      modifies this`pending
      ensures
        var emergency := MaxReal(0.0, if emergencyTtl.Some? then emergencyTtl.value else ttl);
        var run := PruneRun(recentOrders, ttl, emergency, now);
        && pending == Pruned(old(pending), run)
        && ReportsAll(released, old(pending), run)
    {
      released := [];
      var emergency := MaxReal(0.0, if emergencyTtl.Some? then emergencyTtl.value else ttl);
      ghost var before, run := pending, PruneRun(recentOrders, ttl, emergency, now);
      if ttl <= 0.0 {
        return;
      }
      var symbols := InSomeOrder(pending.Keys);
      for i := 0 to |symbols|
        invariant recentOrders == run.orders
        invariant pending == RevisedAlong(before, PruneEntry(run), symbols[..i])
        invariant released == Along(ReleaseEntry(before, run), symbols[..i])
      {
        NotYetRevised(before, PruneEntry(run), symbols, i);
        RevisedStep(before, PruneEntry(run), symbols, i);
        AlongStep(ReleaseEntry(before, run), symbols, i);
        var symbol := symbols[i];
        var entry := pending[symbol];
        var lastAction := LatestSellOrderAction(symbol);
        if Releasable(entry, lastAction, ttl, emergency, now) {
          var age := now - entry.submitted.minute;
          released := released
            + [Release(symbol, Max(0, entry.amount), age, ApplicableTtl(entry, ttl, emergency), lastAction)];
          pending := pending - {symbol};
        } else {
          pending := pending[symbol := Refreshed(entry, now)];
        }
      }
      assert symbols[..|symbols|] == symbols;
      PruneIsComplete(before, run, symbols);
    }

    /** The same with the default times to live, audited in the state itself. */
    method PruneStaleSellIntentsWithAudit(now: real) returns (released: seq<Release>)
      modifies this`pending, this`intentAdjustments
      ensures pending == Pruned(old(pending), DefaultRun(recentOrders, now))
      ensures ReportsAll(released, old(pending), DefaultRun(recentOrders, now))
      ensures intentAdjustments == if released == [] then old(intentAdjustments)
                                   else Last(old(intentAdjustments) + AuditsOf(released), INTENT_ADJUSTMENTS_CAP)
    {
      released := PruneStaleSellIntents(SELL_INTENT_TTL, Some(SELL_INTENT_EMERGENCY_TTL), now);
      if released != [] {
        intentAdjustments := Last(intentAdjustments + AuditsOf(released), INTENT_ADJUSTMENTS_CAP);
      }
    }
  }

  function WithBuyBlocked(v: StateView, symbol: Symbol): StateView {
    v.(buyBlockedToday := UniqueAppend(v.buyBlockedToday, symbol),
       blockedBuyToday := UniqueAppend(v.blockedBuyToday, symbol))
  }

  function WithRecorded(
    v: StateView, side: Side, symbol: Symbol, qty: int, action: Action, timestamp: Option<real>, now: real): StateView
  {
    var stamp := At(if timestamp.Some? then timestamp.value else now);
    var entries := if symbol in v.buyEntriesToday then v.buyEntriesToday[symbol] else 0;
    v.(recentOrders := Last(v.recentOrders + [OrderRecord(stamp, Day(now), side, symbol, qty, action)],
                            RECENT_ORDERS_CAP),
       buyEntriesToday := if side == BuySide && action == OrderSubmitted then v.buyEntriesToday[symbol := entries + 1]
                          else v.buyEntriesToday)
  }

  lemma PruneIsComplete(pending: map<Symbol, Reservation>, run: PruneRun, order: seq<Symbol>)
    requires Lists(order, pending.Keys) && run.ttl > 0.0
    ensures RevisedAlong(pending, PruneEntry(run), order) == Pruned(pending, run)
    ensures ReportsAll(Along(ReleaseEntry(pending, run), order), pending, run)
  {
    RevisedAll(pending, PruneEntry(run), order);
    forall s
      ensures Of(Along(ReleaseEntry(pending, run), order), ReleaseSymbol, s) == ReleasesOfOne(pending, run, s)
    {
      AlongOf(ReleaseEntry(pending, run), ReleaseSymbol, order, s);
    }
  }

  // ----- what holds of them -----

  /** `LatestSell` is the last among the latest readable outcomes of the symbol. */
  lemma {:induction false} LatestSellIsLatest(orders: seq<OrderRecord>, symbol: Symbol)
    ensures LatestSell(orders, symbol).None? <==> forall o :: o in orders ==> !IsSellOutcome(o, symbol)
    ensures LatestSell(orders, symbol).Some? ==>
      exists i :: 0 <= i < |orders| && IsSellOutcome(orders[i], symbol) && LatestSell(orders, symbol) == Some(orders[i])
        && forall j :: 0 <= j < |orders| && IsSellOutcome(orders[j], symbol) ==>
          && orders[j].stamp.minute <= orders[i].stamp.minute
          && (j > i ==> orders[j].stamp.minute < orders[i].stamp.minute)
  {
    if orders != [] {
      var n := |orders| - 1;
      LatestSellIsLatest(orders[..n], symbol);
      assert orders == orders[..n] + [orders[n]];
      var earlier := LatestSell(orders[..n], symbol);
      if earlier.Some? && LatestSell(orders, symbol) == earlier && !(IsSellOutcome(orders[n], symbol)
        && orders[n].stamp.minute >= earlier.value.stamp.minute) {
        var i :| 0 <= i < n && IsSellOutcome(orders[..n][i], symbol) && earlier == Some(orders[..n][i])
          && forall j :: 0 <= j < n && IsSellOutcome(orders[..n][j], symbol) ==>
            orders[..n][j].stamp.minute <= orders[..n][i].stamp.minute
            && (j > i ==> orders[..n][j].stamp.minute < orders[..n][i].stamp.minute);
        assert orders[i] == orders[..n][i];
        assert forall j :: 0 <= j < n ==> orders[j] == orders[..n][j];
      } else if LatestSell(orders, symbol).Some? {
        assert LatestSell(orders, symbol) == Some(orders[n]);
        assert forall j :: 0 <= j < n ==> orders[j] == orders[..n][j];
      }
    }
  }

  /** What a prune lets go of was old enough and had no outcome that speaks for a live order; the rest is kept whole. */
  lemma PruneAccounts(pending: map<Symbol, Reservation>, run: PruneRun, symbol: Symbol)
    ensures
      var (kept, released) := (Pruned(pending, run), ReleasesOfOne(pending, run, symbol));
      && (symbol in kept <==> symbol in pending && released == [])
      && (symbol in kept ==>
        kept[symbol] == if run.ttl > 0.0 then Refreshed(pending[symbol], run.now) else pending[symbol])
      && (released == [] ==> Reserved(kept, symbol) == Reserved(pending, symbol))
      && (released != [] ==>
        && |released| == 1
        && released[0].symbol == symbol && released[0].qty == Reserved(pending, symbol)
        && released[0].age >= released[0].ttl && !MayBeLive(LatestSellAction(run.orders, symbol))
        && released[0].ttl == ApplicableTtl(pending[symbol], run.ttl, run.emergencyTtl))
  {
  }

  predicate UnstampedEmergency(entry: Reservation) {
    entry.Intent? && !entry.submitted.At? && entry.trigger in SELL_EMERGENCY_TRIGGERS
  }

  /** No emergency reservation without a readable submit time could be released as soon as it is stamped. */
  ghost predicate NoneAgesAtOnce(pending: map<Symbol, Reservation>, orders: seq<OrderRecord>) {
    forall s :: s in pending && UnstampedEmergency(pending[s]) ==> MayBeLive(LatestSellAction(orders, s))
  }

  /**
   * A second prune at the same moment finds nothing to release or refresh, unless the emergency time to live is zero
   * and an emergency reservation had no readable submit time.
   */
  lemma PruneTwice(pending: map<Symbol, Reservation>, run: PruneRun)
    requires run.ttl > 0.0 && run.emergencyTtl >= 0.0
    ensures
      var once := Pruned(pending, run);
      Pruned(once, run) == once <==> run.emergencyTtl > 0.0 || NoneAgesAtOnce(pending, run.orders)
  {
    var once := Pruned(pending, run);
    var twice := Pruned(once, run);
    assert forall s :: s in once ==> Refreshed(once[s], run.now) == once[s];
    if twice == once && run.emergencyTtl == 0.0 {
      forall s | s in pending && UnstampedEmergency(pending[s])
        ensures MayBeLive(LatestSellAction(run.orders, s))
      {
        assert s in once && s in twice;
      }
    }
    if twice != once {
      assert twice.Keys != once.Keys;
      var s :| s in once && s !in twice;
      assert once[s].submitted == At(run.now);
    }
  }
}
