/** Bringing the trader's reservations and drift records in line with the broker's positions. */
module Reconciliations {
  import opened Prelude
  import opened RuntimeStates
  import opened Visits

  datatype DriftKind = NewPosition | MissingPosition | QuantityDifference | IntentExceedsActual

  datatype Suspicion = ManualBuy | ManualSell | ManualPartialSell | Unexplained

  datatype Event = Event(kind: DriftKind, symbol: Symbol, expected: int, actual: int)

  function Quantity(positions: map<Symbol, int>, symbol: Symbol): int {
    if symbol in positions then positions[symbol] else 0
  }

  // ----- drift events -----

  function Classify(e: Event): Suspicion {
    match e.kind
    case NewPosition => ManualBuy
    case MissingPosition => ManualSell
    case QuantityDifference => if e.actual < e.expected then ManualPartialSell else ManualBuy
    case IntentExceedsActual => Unexplained
  }

  /** The order left a local trace since the last sync. */
  predicate IsLocalActivity(o: OrderRecord, since: Stamp) {
    && !(since.At? && o.stamp.At? && o.stamp.minute <= since.minute)
    && (o.action.OrderSubmitted? || o.action.OrderFailed?
        || o.action.SellSubmitted? || o.action.SellFailed? || o.action.SellSucceeded?)
    && o.symbol != NO_SYMBOL
  }

  function LocalActivity(orders: seq<OrderRecord>, since: Stamp): set<Symbol> {
    set o | o in orders && IsLocalActivity(o, since) :: o.symbol
  }

  /** The drift of one symbol: a change of quantity that no local order explains. */
  function DriftOf(symbol: Symbol, expected: int, actual: int, locallyActive: bool): seq<Event> {
    if actual == expected || locallyActive then []
    else if expected <= 0 && 0 < actual then [Event(NewPosition, symbol, expected, actual)]
    else if expected > 0 && actual <= 0 then [Event(MissingPosition, symbol, expected, actual)]
    else [Event(QuantityDifference, symbol, expected, actual)]
  }

  function ExpectedDrift(v: StateView, actual: map<Symbol, int>, symbol: Symbol): seq<Event> {
    if v.lastSynced == map[] || (symbol !in v.lastSynced && symbol !in actual) then []
    else DriftOf(symbol, Quantity(v.lastSynced, symbol), Quantity(actual, symbol),
                 symbol in LocalActivity(v.recentOrders, v.lastSyncedAt))
  }

  function ExpectedExcess(v: StateView, actual: map<Symbol, int>, symbol: Symbol): seq<Event> {
    if symbol in v.pending && v.pending[symbol].amount > Quantity(actual, symbol)
    then [Event(IntentExceedsActual, symbol, v.pending[symbol].amount, Quantity(actual, symbol))]
    else []
  }

  function DriftEntry(v: StateView, actual: map<Symbol, int>): Symbol -> seq<Event> {
    symbol => ExpectedDrift(v, actual, symbol)
  }

  function ExcessEntry(v: StateView, actual: map<Symbol, int>): Symbol -> seq<Event> {
    symbol => ExpectedExcess(v, actual, symbol)
  }

  function EventSymbol(e: Event): Symbol { e.symbol }

  /** The report holds each symbol's drift and excess, and nothing else; the order of symbols is left open. */
  ghost predicate ReportsDrift(events: seq<Event>, v: StateView, actual: map<Symbol, int>) {
    forall s :: Of(events, EventSymbol, s) == ExpectedDrift(v, actual, s) + ExpectedExcess(v, actual, s)
  }

  method CollectLocalActivity(orders: seq<OrderRecord>, since: Stamp) returns (active: set<Symbol>)
    ensures active == LocalActivity(orders, since)
  {
    active := {};
    for i := 0 to |orders|
      invariant active == LocalActivity(orders[..i], since)
    {
      var order := orders[i];
      assert orders[..i + 1] == orders[..i] + [order];
      if IsLocalActivity(order, since) {
        active := active + {order.symbol};
      }
    }
    assert orders[..|orders|] == orders;
  }

  method BuildReconciliationReport(v: StateView, actual: map<Symbol, int>) returns (events: seq<Event>)
    ensures ReportsDrift(events, v, actual)
  {
    var active := CollectLocalActivity(v.recentOrders, v.lastSyncedAt);
    var symbols := InSomeOrder(v.lastSynced.Keys + actual.Keys);
    events := [];
    for i := 0 to |symbols|
      invariant events == Along(DriftEntry(v, actual), symbols[..i])
    {
      AlongStep(DriftEntry(v, actual), symbols, i);
      Listed(symbols, v.lastSynced.Keys + actual.Keys, i);
      var symbol := symbols[i];
      if v.lastSynced != map[] {
        events := events + DriftOf(symbol, Quantity(v.lastSynced, symbol), Quantity(actual, symbol), symbol in active);
      }
    }
    assert symbols[..|symbols|] == symbols;

    var reserved := InSomeOrder(v.pending.Keys);
    var excess: seq<Event> := [];
    for i := 0 to |reserved|
      invariant excess == Along(ExcessEntry(v, actual), reserved[..i])
    {
      AlongStep(ExcessEntry(v, actual), reserved, i);
      Listed(reserved, v.pending.Keys, i);
      var symbol := reserved[i];
      if v.pending[symbol].amount > Quantity(actual, symbol) {
        excess := excess + [Event(IntentExceedsActual, symbol, v.pending[symbol].amount, Quantity(actual, symbol))];
      }
    }
    assert reserved[..|reserved|] == reserved;
    ReportIsComplete(v, actual, symbols, reserved);
    events := events + excess;
  }

  /**
   * A report holds at most one event of a symbol that raises suspicion, and at most one that does not: the latter
   * exactly when more is reserved than is held.
   */
  lemma AtMostOneEach(v: StateView, actual: map<Symbol, int>, symbol: Symbol)
    ensures
      var (drift, excess) := (ExpectedDrift(v, actual, symbol), ExpectedExcess(v, actual, symbol));
      && |drift| <= 1 && (drift != [] ==> drift[0].symbol == symbol && Classify(drift[0]) != Unexplained)
      && |excess| <= 1 && (excess != [] ==> excess[0].symbol == symbol && Classify(excess[0]) == Unexplained)
      && (excess != [] <==> symbol in v.pending && v.pending[symbol].amount > Quantity(actual, symbol))
  {
  }

  /** No own order of the symbol has left a record since then; one whose time cannot be read may have. */
  ghost predicate NoOwnOrderSince(orders: seq<OrderRecord>, since: Stamp, symbol: Symbol) {
    forall o ::
      (o in orders && o.symbol == symbol
       && o.action in {OrderSubmitted, OrderFailed, SellSubmitted, SellFailed, SellSucceeded}) ==>
      since.At? && o.stamp.At? && since.minute >= o.stamp.minute
  }

  /**
   * A symbol drifts exactly when its quantity changed since the last sync without an own order, and the suspicion
   * points the way of the change: a manual buy iff there is more, a manual sell iff all of a position is gone.
   */
  lemma DriftPointsTheWay(v: StateView, actual: map<Symbol, int>, symbol: Symbol)
    requires symbol != NO_SYMBOL
    ensures
      var (before, now) := (Quantity(v.lastSynced, symbol), Quantity(actual, symbol));
      var drift := ExpectedDrift(v, actual, symbol);
      && (drift != [] <==>
        v.lastSynced != map[] && before != now && NoOwnOrderSince(v.recentOrders, v.lastSyncedAt, symbol))
      && (drift != [] ==>
        && drift[0].expected == before && drift[0].actual == now
        && (Classify(drift[0]) == ManualBuy <==> now > before)
        && (Classify(drift[0]) == ManualSell <==> before > 0 >= now)
        && (Classify(drift[0]) == ManualPartialSell <==> now < before && !(before > 0 >= now)))
  {
    ActiveIffOwnOrder(v.recentOrders, v.lastSyncedAt, symbol);
  }

  lemma ActiveIffOwnOrder(orders: seq<OrderRecord>, since: Stamp, symbol: Symbol)
    ensures symbol in LocalActivity(orders, since) <==> symbol != NO_SYMBOL && !NoOwnOrderSince(orders, since, symbol)
  {
    if symbol in LocalActivity(orders, since) {
      var o :| o in orders && IsLocalActivity(o, since) && o.symbol == symbol;
      assert !NoOwnOrderSince(orders, since, symbol);
    }
    forall o | o in orders && o.symbol == symbol && IsLocalActivity(o, since)
      ensures symbol in LocalActivity(orders, since)
    {
    }
  }

  lemma ReportIsComplete(v: StateView, actual: map<Symbol, int>, symbols: seq<Symbol>, reserved: seq<Symbol>)
    requires Lists(symbols, v.lastSynced.Keys + actual.Keys) && Lists(reserved, v.pending.Keys)
    ensures ReportsDrift(Along(DriftEntry(v, actual), symbols) + Along(ExcessEntry(v, actual), reserved), v, actual)
  {
    var f, g := DriftEntry(v, actual), ExcessEntry(v, actual);
    forall x, i | 0 <= i < |f(x)|
      ensures EventSymbol(f(x)[i]) == x
    {
      AtMostOneEach(v, actual, x);
    }
    forall x, i | 0 <= i < |g(x)|
      ensures EventSymbol(g(x)[i]) == x
    {
      AtMostOneEach(v, actual, x);
    }
    forall s
      ensures Of(Along(f, symbols) + Along(g, reserved), EventSymbol, s)
        == ExpectedDrift(v, actual, s) + ExpectedExcess(v, actual, s)
    {
      OfConcat(Along(f, symbols), Along(g, reserved), EventSymbol, s);
      AlongOf(f, EventSymbol, symbols, s);
      AlongOf(g, EventSymbol, reserved, s);
      assert s in symbols <==> s in v.lastSynced.Keys + actual.Keys;
      assert s in reserved <==> s in v.pending;
    }
  }

  // ----- the broker-truth pass over the reservations -----

  /** What is left of a reservation of `amount` when holdings went from `previous` to `current`. */
  function Reconciled(amount: int, previous: int, current: int): int {
    if current <= 0 then 0
    else Min(current, if previous > current then Max(0, amount - (previous - current)) else amount)
  }

  /** The audit of one reservation, step by step. */
  function PassTrail(symbol: Symbol, amount: int, previous: int, current: int): seq<Adjustment> {
    if current <= 0 then [Adjustment(symbol, amount, 0, PositionGone)]
    else
      var shrunk := if previous > current then Max(0, amount - (previous - current)) else amount;
      var clamped := Min(shrunk, current);
      (if previous > current then [Adjustment(symbol, amount, shrunk, PositionShrunk)] else [])
      + (if clamped != shrunk then [Adjustment(symbol, shrunk, clamped, ClampedToActual)] else [])
      + (if clamped <= 0 then [Adjustment(symbol, shrunk, 0, Drained)] else [])
  }

  /** The pass over one reservation, adjustment by adjustment. */
  method ReconcileOne(symbol: Symbol, amount: int, previousQty: int, currentQty: int)
    returns (left: int, trail: seq<Adjustment>)
    ensures left == Reconciled(amount, previousQty, currentQty)
    ensures trail == PassTrail(symbol, amount, previousQty, currentQty)
  {
    var pendingQty := amount;
    trail := [];
    if currentQty <= 0 {
      return 0, [Adjustment(symbol, pendingQty, 0, PositionGone)];
    }
    if previousQty > currentQty {
      pendingQty := Max(0, pendingQty - (previousQty - currentQty));
      trail := trail + [Adjustment(symbol, amount, pendingQty, PositionShrunk)];
    }
    var preClampQty := pendingQty;
    pendingQty := Min(pendingQty, currentQty);
    if pendingQty != preClampQty {
      trail := trail + [Adjustment(symbol, preClampQty, pendingQty, ClampedToActual)];
    }
    if pendingQty <= 0 {
      trail := trail + [Adjustment(symbol, preClampQty, 0, Drained)];
    }
    left := pendingQty;
  }

  /** Holdings at the last sync and now; a symbol not synced before counts as unchanged. */
  datatype Positions = Positions(previous: map<Symbol, int>, actual: map<Symbol, int>) {
    function Before(symbol: Symbol): int {
      if symbol in previous then previous[symbol] else Quantity(actual, symbol)
    }

    function Now(symbol: Symbol): int {
      Quantity(actual, symbol)
    }
  }

  function PassEntry(p: Positions): (Symbol, Reservation) -> Option<Reservation> {
    (symbol: Symbol, entry: Reservation) =>
      var left := Reconciled(entry.amount, p.Before(symbol), p.Now(symbol));
      if left <= 0 then None
      else if entry.Scalar? then Some(Intent(left, Blank, ""))
      else Some(entry.(amount := left))
  }

  function Passed(pending: map<Symbol, Reservation>, p: Positions): map<Symbol, Reservation> {
    Revised(pending, PassEntry(p))
  }

  function PassTrailOf(pending: map<Symbol, Reservation>, p: Positions, symbol: Symbol): seq<Adjustment> {
    if symbol in pending then PassTrail(symbol, pending[symbol].amount, p.Before(symbol), p.Now(symbol)) else []
  }

  function TrailEntry(pending: map<Symbol, Reservation>, p: Positions): Symbol -> seq<Adjustment> {
    symbol => PassTrailOf(pending, p, symbol)
  }

  function AdjustedSymbol(a: Adjustment): Symbol { a.symbol }

  /** The adjustments that concern one symbol, in order. */
  function Trail(adjustments: seq<Adjustment>, symbol: Symbol): seq<Adjustment> {
    Of(adjustments, AdjustedSymbol, symbol)
  }

  /** Each symbol has its own trail and no other; the order of symbols is left open. */
  ghost predicate TrailsAll(adjustments: seq<Adjustment>, pending: map<Symbol, Reservation>, p: Positions) {
    forall s :: Trail(adjustments, s) == PassTrailOf(pending, p, s)
  }

  lemma PassTrailNamesItsSymbol(pending: map<Symbol, Reservation>, p: Positions, symbol: Symbol)
    ensures
      var trail := PassTrailOf(pending, p, symbol);
      forall i :: 0 <= i < |trail| ==> trail[i].symbol == symbol
  {
  }

  lemma PassIsComplete(pending: map<Symbol, Reservation>, p: Positions, order: seq<Symbol>)
    requires Lists(order, pending.Keys)
    ensures RevisedAlong(pending, PassEntry(p), order) == Passed(pending, p)
    ensures TrailsAll(Along(TrailEntry(pending, p), order), pending, p)
  {
    RevisedAll(pending, PassEntry(p), order);
    var f := TrailEntry(pending, p);
    forall x, i | 0 <= i < |f(x)|
      ensures AdjustedSymbol(f(x)[i]) == x
    {
      PassTrailNamesItsSymbol(pending, p, x);
    }
    forall s
      ensures Trail(Along(f, order), s) == PassTrailOf(pending, p, s)
    {
      AlongOf(f, AdjustedSymbol, order, s);
      assert s in order <==> s in pending;
    }
  }

  method ReconcileEntry(state: RuntimeState, p: Positions, symbol: Symbol) returns (trail: seq<Adjustment>)
    requires symbol in state.pending
    modifies state`pending
    ensures state.pending == ReviseOne(old(state.pending), PassEntry(p), symbol)
    ensures trail == PassTrailOf(old(state.pending), p, symbol)
  {
    var entry := state.pending[symbol];
    var left;
    left, trail := ReconcileOne(symbol, entry.amount, p.Before(symbol), p.Now(symbol));
    if left <= 0 {
      state.pending := state.pending - {symbol};
    } else {
      state.pending := state.pending[symbol :=
        if entry.Scalar? then Intent(left, Blank, "") else Intent(left, entry.submitted, entry.trigger)];
    }
  }

  method PassReservations(state: RuntimeState, p: Positions) returns (adjustments: seq<Adjustment>)
    modifies state`pending
    ensures state.pending == Passed(old(state.pending), p)
    ensures TrailsAll(adjustments, old(state.pending), p)
  {
    adjustments := [];
    ghost var before := state.pending;
    var symbols := InSomeOrder(state.pending.Keys);
    for i := 0 to |symbols|
      invariant state.pending == RevisedAlong(before, PassEntry(p), symbols[..i])
      invariant adjustments == Along(TrailEntry(before, p), symbols[..i])
    {
      NotYetRevised(before, PassEntry(p), symbols, i);
      RevisedStep(before, PassEntry(p), symbols, i);
      AlongStep(TrailEntry(before, p), symbols, i);
      var trail := ReconcileEntry(state, p, symbols[i]);
      adjustments := adjustments + trail;
    }
    assert symbols[..|symbols|] == symbols;
    PassIsComplete(before, p, symbols);
  }

  // ----- the whole sync -----

  /** The reservations after a sync. */
  function SyncedPending(v: StateView, actual: map<Symbol, int>, now: real): map<Symbol, Reservation> {
    Pruned(Passed(v.pending, Positions(v.lastSynced, actual)), DefaultRun(v.recentOrders, now))
  }

  /** The trail of a symbol over a whole sync: the broker-truth pass, then possibly an expiry. */
  function SyncTrail(v: StateView, actual: map<Symbol, int>, now: real, symbol: Symbol): seq<Adjustment> {
    var p := Positions(v.lastSynced, actual);
    PassTrailOf(v.pending, p, symbol)
    + AuditsOf(ReleasesOfOne(Passed(v.pending, p), DefaultRun(v.recentOrders, now), symbol))
  }

  /** Every change of a reservation in a sync is audited under its symbol, in order. */
  ghost predicate AuditsSync(adjustments: seq<Adjustment>, v: StateView, actual: map<Symbol, int>, now: real) {
    forall s :: Trail(adjustments, s) == SyncTrail(v, actual, now, s)
  }

  method SyncReconciliationState(state: RuntimeState, actual: map<Symbol, int>, now: real)
    returns (events: seq<Event>, adjustments: seq<Adjustment>)
    modifies state`pending, state`intentAdjustments, state`lastSynced, state`lastSyncedAt
    ensures ReportsDrift(events, old(state.View()), actual)
    ensures AuditsSync(adjustments, old(state.View()), actual, now)
    ensures state.View() == old(state.View()).(
      pending := SyncedPending(old(state.View()), actual, now),
      intentAdjustments := if adjustments == [] then old(state.intentAdjustments)
                           else Last(old(state.intentAdjustments) + adjustments, INTENT_ADJUSTMENTS_CAP),
      lastSynced := actual,
      lastSyncedAt := At(now))
  {
    ghost var v := state.View();
    events := BuildReconciliationReport(state.View(), actual);
    var passAdjustments := PassReservations(state, Positions(state.lastSynced, actual));
    var released := state.PruneStaleSellIntents(SELL_INTENT_TTL, Some(SELL_INTENT_EMERGENCY_TTL), now);
    adjustments := passAdjustments + AuditsOf(released);
    JoinTrails(v, actual, now, passAdjustments, released);
    if adjustments != [] {
      state.intentAdjustments := Last(state.intentAdjustments + adjustments, INTENT_ADJUSTMENTS_CAP);
    }
    state.lastSynced := actual;
    state.lastSyncedAt := At(now);
  }

  lemma {:induction false} TrailOfAudits(released: seq<Release>, symbol: Symbol)
    ensures Trail(AuditsOf(released), symbol) == AuditsOf(Of(released, ReleaseSymbol, symbol))
  {
    if released != [] {
      var n := |released| - 1;
      TrailOfAudits(released[..n], symbol);
      var audits, rest := AuditsOf(released[..n]), Of(released[..n], ReleaseSymbol, symbol);
      assert (audits + [AuditOf(released[n])])[..|audits|] == audits;
      if released[n].symbol == symbol {
        assert (rest + [released[n]])[..|rest|] == rest;
      } else {
        assert rest + [] == rest;
      }
    }
  }

  lemma JoinTrails(
    v: StateView, actual: map<Symbol, int>, now: real, adjustments: seq<Adjustment>, released: seq<Release>)
    requires TrailsAll(adjustments, v.pending, Positions(v.lastSynced, actual))
    requires ReportsAll(released, Passed(v.pending, Positions(v.lastSynced, actual)), DefaultRun(v.recentOrders, now))
    ensures AuditsSync(adjustments + AuditsOf(released), v, actual, now)
  {
    forall s
      ensures Trail(adjustments + AuditsOf(released), s) == SyncTrail(v, actual, now, s)
    {
      OfConcat(adjustments, AuditsOf(released), AdjustedSymbol, s);
      TrailOfAudits(released, s);
    }
  }

  // ----- what a sync guarantees -----

  /**
   * After the broker-truth pass a reservation is zero when the position is gone, and otherwise shrinks by the drop in
   * holdings and never exceeds them; an entry stays exactly when something is left, with its submit time and trigger.
   */
  lemma PassArithmetic(pending: map<Symbol, Reservation>, p: Positions, s: Symbol)
    ensures
      var (held, drop) := (p.Now(s), Max(0, p.Before(s) - p.Now(s)));
      var passed := Passed(pending, p);
      && Reserved(passed, s) == (if held <= 0 then 0 else Min(held, Max(0, Reserved(pending, s) - drop)))
      && (s in passed <==> Reserved(passed, s) > 0)
      && (s in passed && pending[s].Intent? ==> passed[s] == pending[s].(amount := Reserved(passed, s)))
  {
  }

  /** The net change recorded by a run of adjustments. */
  function Loss(adjustments: seq<Adjustment>): int {
    if adjustments == [] then 0
    else
      var a := adjustments[|adjustments| - 1];
      Loss(adjustments[..|adjustments| - 1]) + a.before - a.after
  }

  /** Each adjustment starts where the one before it ended, and together they lead from `first` to `last`. */
  ghost predicate Telescopes(trail: seq<Adjustment>, first: int, last: int) {
    if trail == [] then first == last
    else trail[0].before == first && Telescopes(trail[1..], trail[0].after, last)
  }

  lemma {:induction false} LossOfConcat(a: seq<Adjustment>, b: seq<Adjustment>)
    ensures Loss(a + b) == Loss(a) + Loss(b)
  {
    if b == [] {
      assert a + b == a;
    } else {
      assert (a + b)[..|a + b| - 1] == a + b[..|b| - 1];
      LossOfConcat(a, b[..|b| - 1]);
    }
  }

  lemma {:induction false} TelescopesLoss(trail: seq<Adjustment>, first: int, last: int)
    requires Telescopes(trail, first, last)
    ensures Loss(trail) == first - last
  {
    if trail != [] {
      TelescopesLoss(trail[1..], trail[0].after, last);
      assert trail == [trail[0]] + trail[1..];
      LossOfConcat([trail[0]], trail[1..]);
    }
  }

  lemma {:induction false} TelescopesConcat(a: seq<Adjustment>, b: seq<Adjustment>, first: int, middle: int, last: int)
    requires Telescopes(a, first, middle) && Telescopes(b, middle, last)
    ensures Telescopes(a + b, first, last)
  {
    if a == [] {
      assert a + b == b;
    } else {
      TelescopesConcat(a[1..], b, a[0].after, middle, last);
      assert (a + b)[1..] == a[1..] + b;
    }
  }

  lemma PassTrailTelescopes(symbol: Symbol, amount: int, previous: int, current: int)
    ensures Telescopes(PassTrail(symbol, amount, previous, current), amount,
                       Max(0, Reconciled(amount, previous, current)))
  {
    if current > 0 {
      var shrunk := if previous > current then Max(0, amount - (previous - current)) else amount;
      var clamped := Min(shrunk, current);
      var a := if previous > current then [Adjustment(symbol, amount, shrunk, PositionShrunk)] else [];
      var b := if clamped != shrunk then [Adjustment(symbol, shrunk, clamped, ClampedToActual)] else [];
      var c := if clamped <= 0 then [Adjustment(symbol, shrunk, 0, Drained)] else [];
      assert Telescopes(a, amount, shrunk) && Telescopes(b, shrunk, clamped);
      TelescopesConcat(a, b, amount, shrunk, clamped);
      TelescopesConcat(a + b, c, amount, clamped, Max(0, clamped));
    }
  }

  lemma ExpiryTelescopes(pending: map<Symbol, Reservation>, run: PruneRun, s: Symbol)
    ensures Telescopes(AuditsOf(ReleasesOfOne(pending, run, s)), Reserved(pending, s),
                       Reserved(Pruned(pending, run), s))
  {
    PruneAccounts(pending, run, s);
    var released := ReleasesOfOne(pending, run, s);
    if released != [] {
      assert released[..0] == [];
      assert AuditsOf(released) == [AuditOf(released[0])];
    }
  }

  /** The audited steps of one symbol lead from its old reservation to its new one without a gap. */
  lemma {:induction false} SyncTrailTelescopes(v: StateView, actual: map<Symbol, int>, now: real, s: Symbol)
    ensures
      var after := Reserved(SyncedPending(v, actual, now), s);
      && Telescopes(SyncTrail(v, actual, now, s), Amount(v.pending, s), after)
      && Loss(SyncTrail(v, actual, now, s)) == Amount(v.pending, s) - after
  {
    var p, run := Positions(v.lastSynced, actual), DefaultRun(v.recentOrders, now);
    var passed := Passed(v.pending, p);
    var after := Reserved(SyncedPending(v, actual, now), s);
    if s in v.pending {
      PassTrailTelescopes(s, v.pending[s].amount, p.Before(s), p.Now(s));
    }
    ExpiryTelescopes(passed, run, s);
    TelescopesConcat(PassTrailOf(v.pending, p, s), AuditsOf(ReleasesOfOne(passed, run, s)),
                     Amount(v.pending, s), Reserved(passed, s), after);
    TelescopesLoss(SyncTrail(v, actual, now, s), Amount(v.pending, s), after);
  }

  /** The net change recorded for one symbol. */
  function LossOf(adjustments: seq<Adjustment>, symbol: Symbol): int {
    if adjustments == [] then 0
    else
      var a := adjustments[|adjustments| - 1];
      LossOf(adjustments[..|adjustments| - 1], symbol) + if a.symbol == symbol then a.before - a.after else 0
  }

  lemma {:induction false} LossOfIsTrailLoss(adjustments: seq<Adjustment>, symbol: Symbol)
    ensures LossOf(adjustments, symbol) == Loss(Trail(adjustments, symbol))
  {
    if adjustments != [] {
      var n := |adjustments| - 1;
      LossOfIsTrailLoss(adjustments[..n], symbol);
      LossOfConcat(Trail(adjustments[..n], symbol), if adjustments[n].symbol == symbol then [adjustments[n]] else []);
    }
  }

  /** The audited changes by symbol. */
  ghost function LossBySymbol(adjustments: seq<Adjustment>, symbols: set<Symbol>): map<Symbol, int> {
    map s | s in symbols :: LossOf(adjustments, s)
  }

  lemma {:induction false} LossAddsUp(adjustments: seq<Adjustment>, symbols: set<Symbol>)
    requires forall i :: 0 <= i < |adjustments| ==> adjustments[i].symbol in symbols
    ensures Total(LossBySymbol(adjustments, symbols)) == Loss(adjustments)
  {
    if adjustments == [] {
      TotalOfZeros(LossBySymbol(adjustments, symbols));
    } else {
      var n := |adjustments| - 1;
      var rest, a := adjustments[..n], adjustments[n];
      LossAddsUp(rest, symbols);
      var before := LossBySymbol(rest, symbols);
      var sum := before[a.symbol] + a.before - a.after;
      assert LossBySymbol(adjustments, symbols) == before[a.symbol := sum];
      TotalUpdate(before, a.symbol, sum);
    }
  }

  lemma {:induction false} TrailShowsMember(adjustments: seq<Adjustment>, i: nat)
    requires i < |adjustments|
    ensures Trail(adjustments, adjustments[i].symbol) != []
  {
    var n := |adjustments| - 1;
    if i < n {
      TrailShowsMember(adjustments[..n], i);
    }
  }

  /** Reserved shares of each of the given symbols. */
  ghost function Amounts(pending: map<Symbol, Reservation>, symbols: set<Symbol>): map<Symbol, int> {
    map s | s in symbols :: Amount(pending, s)
  }

  lemma SyncedIsPositive(v: StateView, actual: map<Symbol, int>, now: real, s: Symbol)
    ensures Amount(SyncedPending(v, actual, now), s) == Reserved(SyncedPending(v, actual, now), s)
  {
  }

  /** Over all symbols, the reservation lost in a sync is the sum of the audited differences, expiries included. */
  lemma {:induction false} SyncIsAudited(
    v: StateView, actual: map<Symbol, int>, now: real, adjustments: seq<Adjustment>)
    requires AuditsSync(adjustments, v, actual, now)
    ensures Loss(adjustments)
      == Total(Amounts(v.pending, v.pending.Keys)) - Total(Amounts(SyncedPending(v, actual, now), v.pending.Keys))
  {
    var symbols := v.pending.Keys;
    var synced := SyncedPending(v, actual, now);
    forall i | 0 <= i < |adjustments|
      ensures adjustments[i].symbol in symbols
    {
      TrailShowsMember(adjustments, i);
      assert SyncTrail(v, actual, now, adjustments[i].symbol) != [];
    }
    LossAddsUp(adjustments, symbols);
    forall s | s in symbols
      ensures LossOf(adjustments, s) == Amount(v.pending, s) - Amount(synced, s)
    {
      LossOfIsTrailLoss(adjustments, s);
      SyncTrailTelescopes(v, actual, now, s);
      SyncedIsPositive(v, actual, now, s);
    }
    TotalOfDifference(Amounts(v.pending, symbols), Amounts(synced, symbols), LossBySymbol(adjustments, symbols));
  }
}
