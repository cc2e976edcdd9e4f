/** The last decision before an order leaves: duplicate, cooldown, limit and trust guards. */
module OrderGuards {
  import opened Prelude
  import opened RuntimeStates

  datatype Verdict = Allowed | Blocked(code: Block, isCooldown: bool)

  datatype Block =
    | RuntimeStateUntrusted
    | BuyReentryState(state: string) | BuyReentryCooldown | BuySameSymbolDailyLimit | BuyCooldown | BuyDuplicate
    | SellFullyExited | SellNoSellableResidual | SellDuplicatePendingIntent | ResellSoldToday
    | SellCooldown | SellDuplicate
    | RebalanceSellLimit

  /** Which records of the day a rule looks at. */
  datatype Filter = Filter(day: Date, side: Side, symbol: Symbol, qty: Option<int>, actions: Option<set<Action>>)

  datatype ReentryDecision = ReentryDecision(allowed: bool, state: string)

  datatype BuyRules = BuyRules(
    rebuyCooldownMinutes: real,
    sameSymbolMaxBuysPerDay: int,
    orderCooldownMinutes: real,
    blockedCooldownMinutes: real)

  datatype SellRules = SellRules(
    blockResellSoldToday: bool,
    oneTriggerPerSymbolPerDay: bool,
    orderCooldownMinutes: real,
    blockedCooldownMinutes: real)

  const BUY_ENTRY_ACTIONS := {OrderSubmitted, OrderSucceeded}

  const COOLDOWN_REENTRY_STATES := {
    "blocked_same_day_stop_loss_reentry",
    "blocked_recent_stop_loss",
    "blocked_churn_risk",
    "blocked_daily_limit_fallback"
  }

  predicate Matches(o: OrderRecord, f: Filter) {
    && o.day == f.day && o.side == f.side && o.symbol == f.symbol
    && (f.qty.Some? ==> o.qty == f.qty.value)
    && (f.actions.Some? ==> o.action in f.actions.value)
  }

  /** The time of the last matching record whose time can be read. */
  function LastReadable(orders: seq<OrderRecord>, f: Filter): Option<real> {
    if orders == [] then None
    else
      var o := orders[|orders| - 1];
      if Matches(o, f) && o.stamp.At? then Some(o.stamp.minute) else LastReadable(orders[..|orders| - 1], f)
  }

  function CountMatching(orders: seq<OrderRecord>, f: Filter): nat {
    if orders == [] then 0
    else CountMatching(orders[..|orders| - 1], f) + (if Matches(orders[|orders| - 1], f) then 1 else 0)
  }

  predicate WithinMinutes(last: Option<real>, minutes: real, now: real) {
    minutes > 0.0 && last.Some? && now - last.value <= minutes
  }

  /** Scans back for the last readable match and measures its age. */
  method LastSymbolOrderWithinMinutes(orders: seq<OrderRecord>, f: Filter, minutes: real, now: real) returns (r: bool)
    ensures r <==> WithinMinutes(LastReadable(orders, f), minutes, now)
  {
    if minutes <= 0.0 {
      return false;
    }
    assert orders[..|orders|] == orders;
    for i := |orders| downto 0
      invariant LastReadable(orders[..i], f) == LastReadable(orders, f)
    {
      assert orders[..i + 1][..i] == orders[..i];
      var order := orders[i];
      if Matches(order, f) && order.stamp.At? {
        return now - order.stamp.minute <= minutes;
      }
    }
    return false;
  }

  method CountSymbolOrdersToday(orders: seq<OrderRecord>, f: Filter) returns (count: nat)
    ensures count == CountMatching(orders, f)
  {
    count := 0;
    assert orders[..|orders|] == orders;
    for i := |orders| downto 0
      invariant count + CountMatching(orders[..i], f) == CountMatching(orders, f)
    {
      assert orders[..i + 1][..i] == orders[..i];
      if Matches(orders[i], f) {
        count := count + 1;
      }
    }
  }

  predicate MatchesLastAttempt(last: Attempt, signature: Signature, minutes: real, now: real) {
    last.signature == signature && WithinMinutes(if last.at.At? then Some(last.at.minute) else None, minutes, now)
  }

  /** The same order, quantity included, was recorded within the last minutes of the day, whatever became of it. */
  predicate RepeatedLately(v: StateView, side: Side, symbol: Symbol, qty: int, minutes: real, now: real) {
    WithinMinutes(LastReadable(v.recentOrders, Filter(Day(now), side, symbol, Some(qty), None)), minutes, now)
  }

  function BuyEntries(symbol: Symbol, now: real): Filter {
    Filter(Day(now), BuySide, symbol, None, Some(BUY_ENTRY_ACTIONS))
  }

  function BuyGuard(
    v: StateView, symbol: Symbol, qty: int, rules: BuyRules, reentry: Option<ReentryDecision>, now: real): Verdict
  {
    if !IsTrusted(v.trust) then Blocked(RuntimeStateUntrusted, false)
    else if reentry.Some? && !reentry.value.allowed then
      Blocked(BuyReentryState(reentry.value.state), reentry.value.state in COOLDOWN_REENTRY_STATES)
    else if WithinMinutes(LastReadable(v.recentOrders, BuyEntries(symbol, now)), rules.rebuyCooldownMinutes, now) then
      Blocked(BuyReentryCooldown, true)
    else if rules.sameSymbolMaxBuysPerDay > 0
      && CountMatching(v.recentOrders, BuyEntries(symbol, now)) >= rules.sameSymbolMaxBuysPerDay then
      Blocked(BuySameSymbolDailyLimit, false)
    else if MatchesLastAttempt(v.lastBuyAttempt, BuySignature(symbol, qty), rules.blockedCooldownMinutes, now) then
      Blocked(BuyCooldown, true)
    else if RepeatedLately(v, BuySide, symbol, qty, rules.orderCooldownMinutes, now) then
      Blocked(BuyDuplicate, true)
    else Allowed
  }

  /** A BUY is admitted exactly when nothing at all speaks against it. */
  lemma BuyAdmitted(
    v: StateView, symbol: Symbol, qty: int, rules: BuyRules, reentry: Option<ReentryDecision>, now: real)
    ensures BuyGuard(v, symbol, qty, rules, reentry, now) == Allowed <==>
      var last := LastReadable(v.recentOrders, BuyEntries(symbol, now));
      && IsTrusted(v.trust) && (reentry.Some? ==> reentry.value.allowed)
      && (rules.rebuyCooldownMinutes > 0.0 && last.Some? ==> now - last.value > rules.rebuyCooldownMinutes)
      && (rules.sameSymbolMaxBuysPerDay > 0 ==>
        CountMatching(v.recentOrders, BuyEntries(symbol, now)) < rules.sameSymbolMaxBuysPerDay)
      && !MatchesLastAttempt(v.lastBuyAttempt, BuySignature(symbol, qty), rules.blockedCooldownMinutes, now)
      && !RepeatedLately(v, BuySide, symbol, qty, rules.orderCooldownMinutes, now)
  {
  }

  function SellKeyOf(symbol: Symbol, trigger: string): Signature {
    SellKey(symbol, if trigger == "" then "-" else trigger)
  }

  function SellGuard(
    v: StateView, symbol: Symbol, holdingQty: int, qty: int, rules: SellRules, trigger: string, now: real): Verdict
  {
    var emergency := trigger in SELL_EMERGENCY_TRIGGERS;
    var pendingQty := Reserved(v.pending, symbol);
    var residual := Max(0, holdingQty - pendingQty);
    if !IsTrusted(v.trust) then Blocked(RuntimeStateUntrusted, false)
    else if holdingQty <= 0 then Blocked(SellFullyExited, false)
    else if residual <= 0 then Blocked(SellNoSellableResidual, false)
    else if qty > residual then Blocked(SellDuplicatePendingIntent, false)
    else if rules.blockResellSoldToday && symbol in v.soldToday then Blocked(ResellSoldToday, false)
    else if rules.oneTriggerPerSymbolPerDay && symbol in v.sellTriggeredToday && pendingQty > 0 then
      Blocked(SellDuplicatePendingIntent, false)
    else if !emergency
      && MatchesLastAttempt(v.lastSellAttempt, SellKeyOf(symbol, trigger), rules.blockedCooldownMinutes, now) then
      Blocked(SellCooldown, true)
    else if !emergency && RepeatedLately(v, SellSide, symbol, qty, rules.orderCooldownMinutes, now) then
      Blocked(SellDuplicate, true)
    else Allowed
  }

  function RebalanceSellGuard(v: StateView, maxSubmissionsPerDay: int): Verdict {
    if !IsTrusted(v.trust) then Blocked(RuntimeStateUntrusted, false)
    else if maxSubmissionsPerDay >= 0 && v.rebalanceSellsToday >= maxSubmissionsPerDay then
      Blocked(RebalanceSellLimit, false)
    else Allowed
  }

  /** A SELL is admitted exactly when it fits into what is held and not reserved and nothing else speaks against it. */
  lemma SellAdmitted(
    v: StateView, symbol: Symbol, holdingQty: int, qty: int, rules: SellRules, trigger: string, now: real)
    ensures SellGuard(v, symbol, holdingQty, qty, rules, trigger, now) == Allowed <==>
      && IsTrusted(v.trust)
      && qty + Reserved(v.pending, symbol) <= holdingQty && Reserved(v.pending, symbol) < holdingQty
      && !(rules.blockResellSoldToday && symbol in v.soldToday)
      && !(rules.oneTriggerPerSymbolPerDay && symbol in v.sellTriggeredToday && Reserved(v.pending, symbol) > 0)
      && (trigger in SELL_EMERGENCY_TRIGGERS
          || (!MatchesLastAttempt(v.lastSellAttempt, SellKeyOf(symbol, trigger), rules.blockedCooldownMinutes, now)
              && !RepeatedLately(v, SellSide, symbol, qty, rules.orderCooldownMinutes, now)))
  {
  }

  /** Raising a cooldown, or lowering a positive daily limit, never admits a BUY that was refused. */
  lemma StricterRulesAdmitLess(
    v: StateView, symbol: Symbol, qty: int, loose: BuyRules, strict: BuyRules, reentry: Option<ReentryDecision>,
    now: real)
    requires strict.rebuyCooldownMinutes >= loose.rebuyCooldownMinutes
    requires strict.orderCooldownMinutes >= loose.orderCooldownMinutes
    requires strict.blockedCooldownMinutes >= loose.blockedCooldownMinutes
    requires 1 <= strict.sameSymbolMaxBuysPerDay
    requires loose.sameSymbolMaxBuysPerDay <= 0 || strict.sameSymbolMaxBuysPerDay <= loose.sameSymbolMaxBuysPerDay
    requires BuyGuard(v, symbol, qty, strict, reentry, now) == Allowed
    ensures BuyGuard(v, symbol, qty, loose, reentry, now) == Allowed
  {
  }

  /** An untrusted state stops orders of every kind, whatever the request. */
  lemma UntrustedStopsEverything(
    v: StateView, symbol: Symbol, holdingQty: int, qty: int, buy: BuyRules, sell: SellRules, max: int,
    reentry: Option<ReentryDecision>, trigger: string, now: real)
    requires !IsTrusted(v.trust)
    ensures BuyGuard(v, symbol, qty, buy, reentry, now) == Blocked(RuntimeStateUntrusted, false)
    ensures SellGuard(v, symbol, holdingQty, qty, sell, trigger, now) == Blocked(RuntimeStateUntrusted, false)
    ensures RebalanceSellGuard(v, max) == Blocked(RuntimeStateUntrusted, false)
  {
  }

  // ----- what the guards come down to, record by record -----

  /** The `k`-th is the last readable record of its kind. */
  ghost predicate IsLastOfKind(orders: seq<OrderRecord>, kind: OrderRecord -> bool, k: int) {
    && 0 <= k < |orders| && kind(orders[k]) && orders[k].stamp.At?
    && forall j :: k < j < |orders| && orders[j].stamp.At? ==> !kind(orders[j])
  }

  /** The last readable record of its kind is no older than that. */
  ghost predicate IsRecent(orders: seq<OrderRecord>, kind: OrderRecord -> bool, minutes: real, now: real) {
    minutes > 0.0 && exists k :: IsLastOfKind(orders, kind, k) && orders[k].stamp.minute >= now - minutes
  }

  function PlacesOfKind(orders: seq<OrderRecord>, kind: OrderRecord -> bool): set<int> {
    set i | 0 <= i < |orders| && kind(orders[i])
  }

  lemma {:induction false} LastReadableIs(orders: seq<OrderRecord>, f: Filter, kind: OrderRecord -> bool)
    requires forall o :: kind(o) <==> Matches(o, f)
    ensures LastReadable(orders, f).None? ==> forall i :: 0 <= i < |orders| && orders[i].stamp.At? ==> !kind(orders[i])
    ensures LastReadable(orders, f).Some? ==>
      exists k :: IsLastOfKind(orders, kind, k) && orders[k].stamp.minute == LastReadable(orders, f).value
  {
    if orders != [] {
      var n := |orders| - 1;
      var o := orders[n];
      if kind(o) && o.stamp.At? {
        assert IsLastOfKind(orders, kind, n);
      } else {
        LastReadableIs(orders[..n], f, kind);
        if LastReadable(orders, f).Some? {
          var k :| IsLastOfKind(orders[..n], kind, k)
            && orders[..n][k].stamp.minute == LastReadable(orders, f).value;
          assert forall j :: k < j < n ==> orders[..n][j] == orders[j];
          assert IsLastOfKind(orders, kind, k);
        } else {
          assert forall i :: 0 <= i < n ==> orders[..n][i] == orders[i];
        }
      }
    }
  }

  lemma RecentIs(orders: seq<OrderRecord>, f: Filter, kind: OrderRecord -> bool, minutes: real, now: real)
    requires forall o :: kind(o) <==> Matches(o, f)
    ensures WithinMinutes(LastReadable(orders, f), minutes, now) <==> IsRecent(orders, kind, minutes, now)
  {
    LastReadableIs(orders, f, kind);
    if LastReadable(orders, f).Some? {
      var k :| IsLastOfKind(orders, kind, k) && orders[k].stamp.minute == LastReadable(orders, f).value;
      forall j | IsLastOfKind(orders, kind, j)
        ensures j == k
      {
      }
    }
  }

  lemma {:induction false} CountIs(orders: seq<OrderRecord>, f: Filter, kind: OrderRecord -> bool)
    requires forall o :: kind(o) <==> Matches(o, f)
    ensures CountMatching(orders, f) == |PlacesOfKind(orders, kind)|
  {
    if orders != [] {
      var n := |orders| - 1;
      CountIs(orders[..n], f, kind);
      assert PlacesOfKind(orders, kind)
        == PlacesOfKind(orders[..n], kind) + if kind(orders[n]) then {n} else {};
    }
  }

  /** Nothing in the state says that it cannot be trusted. */
  predicate NothingMarked(t: Trust) {
    !(t.trustedFlag == Some(false) || t.safetyStatus == "blocked" || t.blockedFlag)
  }

  /** The last attempt was the same one, and no longer ago than that. */
  predicate Repeats(last: Attempt, signature: Signature, minutes: real, now: real) {
    minutes > 0.0 && last.signature == signature && last.at.At? && last.at.minute >= now - minutes
  }

  /** A BUY is blocked for the first of six reasons, each of which says what the state and its records hold. */
  lemma BuyVerdict(
    v: StateView, symbol: Symbol, qty: int, rules: BuyRules, reentry: Option<ReentryDecision>, now: real)
    ensures
      var bought := (o: OrderRecord) =>
        o.day == Day(now) && o.side == BuySide && o.symbol == symbol && o.action in {OrderSubmitted, OrderSucceeded};
      var same := (o: OrderRecord) =>
        o.day == Day(now) && o.side == BuySide && o.symbol == symbol && o.qty == qty;
      var entered := IsRecent(v.recentOrders, bought, rules.rebuyCooldownMinutes, now);
      var full := 0 < rules.sameSymbolMaxBuysPerDay <= |PlacesOfKind(v.recentOrders, bought)|;
      var repeated := Repeats(v.lastBuyAttempt, BuySignature(symbol, qty), rules.blockedCooldownMinutes, now);
      var again := IsRecent(v.recentOrders, same, rules.orderCooldownMinutes, now);
      var refused := reentry.Some? && !reentry.value.allowed;
      match BuyGuard(v, symbol, qty, rules, reentry, now)
      case Allowed => NothingMarked(v.trust) && !refused && !entered && !full && !repeated && !again
      case Blocked(RuntimeStateUntrusted, wait) => !NothingMarked(v.trust) && !wait
      case Blocked(BuyReentryState(state), wait) =>
        && NothingMarked(v.trust) && refused && state == reentry.value.state
        && (wait <==> state in {"blocked_same_day_stop_loss_reentry", "blocked_recent_stop_loss",
                                "blocked_churn_risk", "blocked_daily_limit_fallback"})
      case Blocked(BuyReentryCooldown, wait) => NothingMarked(v.trust) && !refused && entered && wait
      case Blocked(BuySameSymbolDailyLimit, wait) => NothingMarked(v.trust) && !refused && !entered && full && !wait
      case Blocked(BuyCooldown, wait) =>
        NothingMarked(v.trust) && !refused && !entered && !full && repeated && wait
      case Blocked(BuyDuplicate, wait) =>
        NothingMarked(v.trust) && !refused && !entered && !full && !repeated && again && wait
      case _ => false
  {
    var bought := (o: OrderRecord) =>
      o.day == Day(now) && o.side == BuySide && o.symbol == symbol && o.action in {OrderSubmitted, OrderSucceeded};
    var same := (o: OrderRecord) =>
      o.day == Day(now) && o.side == BuySide && o.symbol == symbol && o.qty == qty;
    RecentIs(v.recentOrders, BuyEntries(symbol, now), bought, rules.rebuyCooldownMinutes, now);
    CountIs(v.recentOrders, BuyEntries(symbol, now), bought);
    RecentIs(v.recentOrders, Filter(Day(now), BuySide, symbol, Some(qty), None), same, rules.orderCooldownMinutes, now);
  }

  /** A SELL is blocked for the first of eight reasons; an emergency is spared the last two. */
  lemma SellVerdict(
    v: StateView, symbol: Symbol, holdingQty: int, qty: int, rules: SellRules, trigger: string, now: real)
    ensures
      var same := (o: OrderRecord) =>
        o.day == Day(now) && o.side == SellSide && o.symbol == symbol && o.qty == qty;
      var reserved := if symbol in v.pending && v.pending[symbol].amount > 0 then v.pending[symbol].amount else 0;
      var resold := rules.blockResellSoldToday && symbol in v.soldToday;
      var triggered := rules.oneTriggerPerSymbolPerDay && symbol in v.sellTriggeredToday && reserved > 0;
      var key := SellKey(symbol, if trigger == "" then "-" else trigger);
      var repeated :=
        trigger != "stop_loss" && Repeats(v.lastSellAttempt, key, rules.blockedCooldownMinutes, now);
      var again := trigger != "stop_loss" && IsRecent(v.recentOrders, same, rules.orderCooldownMinutes, now);
      var fits := 0 < holdingQty && reserved < holdingQty && reserved + qty <= holdingQty;
      match SellGuard(v, symbol, holdingQty, qty, rules, trigger, now)
      case Allowed => NothingMarked(v.trust) && fits && !resold && !triggered && !repeated && !again
      case Blocked(RuntimeStateUntrusted, wait) => !NothingMarked(v.trust) && !wait
      case Blocked(SellFullyExited, wait) => NothingMarked(v.trust) && holdingQty <= 0 && !wait
      case Blocked(SellNoSellableResidual, wait) => NothingMarked(v.trust) && 0 < holdingQty <= reserved && !wait
      case Blocked(SellDuplicatePendingIntent, wait) =>
        && NothingMarked(v.trust) && reserved < holdingQty && holdingQty > 0 && !wait
        && (reserved + qty > holdingQty || (!resold && triggered))
      case Blocked(ResellSoldToday, wait) => NothingMarked(v.trust) && fits && resold && !wait
      case Blocked(SellCooldown, wait) => NothingMarked(v.trust) && fits && !resold && !triggered && repeated && wait
      case Blocked(SellDuplicate, wait) =>
        NothingMarked(v.trust) && fits && !resold && !triggered && !repeated && again && wait
      case _ => false
  {
    var same := (o: OrderRecord) =>
      o.day == Day(now) && o.side == SellSide && o.symbol == symbol && o.qty == qty;
    RecentIs(v.recentOrders, Filter(Day(now), SellSide, symbol, Some(qty), None), same, rules.orderCooldownMinutes,
             now);
  }

  /** A negative limit stops no rebalancing SELL, and any other one those beyond it. */
  lemma RebalanceVerdict(v: StateView, max: int)
    ensures RebalanceSellGuard(v, max)
      == if !NothingMarked(v.trust) then Blocked(RuntimeStateUntrusted, false)
         else if 0 <= max <= v.rebalanceSellsToday then Blocked(RebalanceSellLimit, false)
         else Allowed
  {
  }
}
