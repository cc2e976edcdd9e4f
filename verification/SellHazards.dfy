/**
 * How the position can be oversold after all, by runs that start on a fresh day: when the outcome of a live order has
 * left the history, when a rejected second sell hides a live first one, and when the reservation of a live order is
 * given back.
 */
module SellHazards {
  import opened Prelude
  import opened RuntimeStates
  import opened OrderGuards
  import opened OrderHistory
  import opened Reconciliations
  import opened SellProtocol
  import opened OneTriggerRule

  const RULE_ON := SellRules(false, true, 0.0, 0.0)
  const RULE_OFF := SellRules(false, false, 0.0, 0.0)

  // ----- an expired or given back reservation is an oversell -----

  /** The reservation of a busy symbol expires, and then all shares seen are offered again. */
  function ExpireAndResell(w: World, at: real, s: Symbol, rules: SellRules): seq<Step> {
    [Prune(at), Submit(s, Quantity(w.fetched, s), rules, "", at)]
  }

  /** Whenever a reservation with live shares behind it expires, the guard lets the trader oversell at once. */
  lemma ExpiryLetsOversell(w: World, at: real, s: Symbol, rules: SellRules)
    requires rules == RULE_ON || rules == RULE_OFF
    requires CoveredAt(w, s) && IsTrusted(w.state.trust) && at >= w.now
    requires Expires(w, Prune(at), s) && OnOffer(BookOf(w, s)) > 0 && Quantity(w.fetched, s) == BookOf(w, s).held
    ensures Run(w, ExpireAndResell(w, at, s, rules))
    ensures OnOffer(BookOf(After(w, ExpireAndResell(w, at, s, rules)), s)) == BookOf(w, s).held + OnOffer(BookOf(w, s))
    ensures !NoOversell(After(w, ExpireAndResell(w, at, s, rules)))
  {
    var steps := ExpireAndResell(w, at, s, rules);
    var middle := Apply(w, steps[0]);
    PruneMoves(w, steps[0], s);
    SellAdmitted(middle.state, s, Quantity(w.fetched, s), Quantity(w.fetched, s), rules, "", at);
    SubmitMoves(middle, steps[1], s);
    RunOfTwo(w, steps[0], steps[1]);
    assert BookOf(After(w, steps), s).held == BookOf(w, s).held;
  }

  /**
   * After shares were given back, the largest sell the guard can admit puts more on offer than is held exactly when
   * more is at work than is still reserved.
   */
  lemma GiveBackOversellsIff(w: World, s: Symbol, given: nat, rules: SellRules, trigger: string, at: real)
    requires IsTrusted(w.state.trust) && at >= w.now && s != NO_SYMBOL && Shaped(w.state.pending, s)
    requires !rules.blockResellSoldToday && rules.blockedCooldownMinutes == rules.orderCooldownMinutes == 0.0
    requires
      var left := Max(0, Reserved(w.state.pending, s) - given);
      && Quantity(w.fetched, s) == BookOf(w, s).held > left
      && (rules.oneTriggerPerSymbolPerDay && s in w.state.sellTriggeredToday ==> left == 0)
    ensures
      var left := Max(0, Reserved(w.state.pending, s) - given);
      var giveBack, step := Resolve(s, given, at), Submit(s, BookOf(w, s).held - left, rules, trigger, at);
      && Run(w, [giveBack, step])
      && (OnOffer(BookOf(After(w, [giveBack, step]), s)) > BookOf(After(w, [giveBack, step]), s).held
        <==> OnOffer(BookOf(w, s)) > left)
  {
    var left := Max(0, Reserved(w.state.pending, s) - given);
    var giveBack, step := Resolve(s, given, at), Submit(s, BookOf(w, s).held - left, rules, trigger, at);
    var misled := Apply(w, giveBack);
    ResolvedReserves(w.state.pending, s, given, at, s);
    SellAdmitted(misled.state, s, Quantity(w.fetched, s), step.qty, rules, trigger, at);
    SubmitMoves(misled, step, s);
    RunOfTwo(w, giveBack, step);
  }

  // ----- a fresh day up to one live order -----

  /** A fresh day with shares of `s` in a trusted trader's hands. */
  ghost predicate Opens(w: World, s: Symbol, held: nat) {
    FreshDay(w) && Timely(w) && IsTrusted(w.state.trust) && s != NO_SYMBOL && s in w.books && w.books[s].held == held
  }

  function Snapshot(w: World): map<Symbol, int> {
    map s | s in w.books :: w.books[s].held
  }

  /** What the hazards need to know of a symbol's standing. */
  ghost predicate Stands(w: World, s: Symbol, b: Book, pending: map<Symbol, Reservation>, now: real) {
    && BookOf(w, s) == b && w.state.pending == pending && Quantity(w.fetched, s) == b.held
    && Reloaded(w.saved.pending) == map[] && w.saved.lastSynced == map[]
    && w.state.lastSynced == map[] && IsTrusted(w.state.trust) && w.now == now && Timely(w)
  }

  lemma FetchStands(w: World, s: Symbol, held: nat)
    requires Opens(w, s, held)
    ensures
      var step := Fetch(Snapshot(w));
      Enabled(w, step) && Stands(Apply(w, step), s, Book(held, 0, 0, 0, 0, 0, 0, 0), map[], w.now)
  {
    assert Reloaded(w.saved.pending) == map[];
    assert w.books[s] == NO_BOOK.(held := held);
  }

  lemma SubmitStands(w: World, s: Symbol, b: Book, pending: map<Symbol, Reservation>, qty: nat, rules: SellRules)
    requires Stands(w, s, b, pending, w.now) && Shaped(pending, s) && s != NO_SYMBOL && qty > 0
    requires rules == RULE_OFF || (rules == RULE_ON && Reserved(pending, s) == 0)
    requires qty + Reserved(pending, s) <= b.held
    ensures
      var step := Submit(s, qty, rules, "", w.now);
      var after := WithSubmitted(pending, s, qty, At(w.now), "");
      && Enabled(w, step)
      && Stands(Apply(w, step), s, b.(awaiting := b.awaiting + qty, unsaved := b.unsaved + qty), after, w.now)
  {
    var step := Submit(s, qty, rules, "", w.now);
    SellAdmitted(w.state, s, Quantity(w.fetched, s), qty, rules, "", w.now);
    StepKeepsOrder(w, step);
  }

  lemma AcceptStands(w: World, s: Symbol, b: Book, pending: map<Symbol, Reservation>)
    requires Stands(w, s, b, pending, w.now)
    ensures
      && Enabled(w, BrokerAccepts(s))
      && Stands(Apply(w, BrokerAccepts(s)), s, b.(awaiting := 0, live := b.live + b.awaiting), pending, w.now)
  {
  }

  lemma SuccessStands(w: World, s: Symbol, b: Book, pending: map<Symbol, Reservation>, qty: int)
    requires Stands(w, s, b, pending, w.now) && b.awaiting == b.rejected == 0
    ensures
      var step := RecordSuccess(s, qty, w.now);
      Enabled(w, step) && Stands(Apply(w, step), s, b, pending, w.now)
  {
    StepKeepsOrder(w, RecordSuccess(s, qty, w.now));
  }

  lemma RejectStands(w: World, s: Symbol, b: Book, pending: map<Symbol, Reservation>)
    requires Stands(w, s, b, pending, w.now) && b.awaiting > 0
    ensures
      && Enabled(w, BrokerRejects(s))
      && Stands(Apply(w, BrokerRejects(s)), s, b.(awaiting := 0, rejected := b.rejected + b.awaiting), pending, w.now)
  {
  }

  lemma FailureStands(w: World, s: Symbol, b: Book, pending: map<Symbol, Reservation>, qty: int)
    requires Stands(w, s, b, pending, w.now)
    ensures
      var step := RecordFailure(s, qty, w.now);
      && Enabled(w, step) && Stands(Apply(w, step), s, b, pending, w.now)
      && LastOutcome(Apply(w, step).state, s) == Some(SellFailed)
  {
    StepKeepsOrder(w, RecordFailure(s, qty, w.now));
    StepHears(w, RecordFailure(s, qty, w.now), s);
  }

  lemma ResolveStands(w: World, s: Symbol, b: Book, pending: map<Symbol, Reservation>, qty: nat)
    requires Stands(w, s, b, pending, w.now) && qty <= b.rejected
    ensures
      var step := Resolve(s, qty, w.now);
      && Enabled(w, step)
      && Stands(Apply(w, step), s, b.(rejected := b.rejected - qty), WithResolved(pending, s, qty, false, w.now), w.now)
      && LastOutcome(Apply(w, step).state, s) == LastOutcome(w.state, s)
  {
  }

  /** Ten minutes on, a reservation without an outcome that speaks for it is gone, and everything is sold again. */
  function WaitAndResell(s: Symbol, held: nat, rules: SellRules, now: real): seq<Step> {
    [Prune(now + SELL_INTENT_TTL), Submit(s, held, rules, "", now + SELL_INTENT_TTL)]
  }

  lemma WaitingOversells(w: World, s: Symbol, b: Book, rules: SellRules)
    requires rules == RULE_ON || rules == RULE_OFF
    requires s != NO_SYMBOL && Stands(w, s, b, map[s := Intent(b.live, At(w.now), "")], w.now)
    requires b == Book(b.held, 0, b.live, 0, 0, 0, 0, b.unsaved) && 0 < b.live <= b.held && b.live <= b.unsaved
    requires !MayBeLive(LastOutcome(w.state, s))
    ensures Run(w, WaitAndResell(s, b.held, rules, w.now))
    ensures OnOffer(BookOf(After(w, WaitAndResell(s, b.held, rules, w.now)), s)) == b.held + b.live
    ensures !NoOversell(After(w, WaitAndResell(s, b.held, rules, w.now)))
  {
    var at := w.now + SELL_INTENT_TTL;
    assert CoveredAt(w, s);
    assert Expires(w, Prune(at), s);
    ExpiryLetsOversell(w, at, s, rules);
    assert ExpireAndResell(w, at, s, rules) == WaitAndResell(s, b.held, rules, w.now);
  }

  // ----- the outcome is forgotten -----

  /** Some record that is no outcome of `s`. */
  function Noise(now: real, other: Symbol): OrderRecord {
    OrderRecord(At(now), Day(now), BuySide, other, 1, OtherAction("blocked"))
  }

  function Noises(now: real, other: Symbol, n: nat): seq<Step> {
    if n == 0 then [] else Noises(now, other, n - 1) + [OtherRecord(Noise(now, other))]
  }

  lemma {:induction false} NoiseFloods(w: World, other: Symbol, n: nat)
    requires Timely(w)
    ensures Run(w, Noises(w.now, other, n))
    ensures
      After(w, Noises(w.now, other, n))
      == w.(state := w.state.(recentOrders := Flooded(w.state.recentOrders, Noise(w.now, other), n)))
  {
    if n > 0 {
      NoiseFloods(w, other, n - 1);
      RunGrows(w, Noises(w.now, other, n - 1), OtherRecord(Noise(w.now, other)));
    }
  }

  /** Some shares are sold, and the broker accepts the order. */
  function SellSome(w: World, s: Symbol, qty: nat, rules: SellRules): seq<Step> {
    [Fetch(Snapshot(w)), Submit(s, qty, rules, "", w.now), BrokerAccepts(s)]
  }

  lemma SellSomeStands(w: World, s: Symbol, held: nat, qty: nat, rules: SellRules)
    requires Opens(w, s, held) && 0 < qty <= held
    requires rules == RULE_ON || rules == RULE_OFF
    ensures Run(w, SellSome(w, s, qty, rules))
    ensures Stands(After(w, SellSome(w, s, qty, rules)), s, Book(held, 0, qty, 0, 0, 0, 0, qty),
                   map[s := Intent(qty, At(w.now), "")], w.now)
  {
    var fetch, submit, b := Fetch(Snapshot(w)), Submit(s, qty, rules, "", w.now), Book(held, 0, 0, 0, 0, 0, 0, 0);
    FetchStands(w, s, held);
    SubmitStands(Apply(w, fetch), s, b, map[], qty, rules);
    var pending := WithSubmitted(map[], s, qty, At(w.now), "");
    assert pending == map[s := Intent(qty, At(w.now), "")];
    AcceptStands(Apply(Apply(w, fetch), submit), s, b.(awaiting := qty, unsaved := qty), pending);
    RunOfThree(w, fetch, submit, BrokerAccepts(s));
  }

  /** Everything is sold with the rule on, the sell is recorded, and the day brings fifty other records. */
  function SellAllAndWait(w: World, s: Symbol, held: nat, other: Symbol): seq<Step> {
    SellSome(w, s, held, RULE_ON) + [RecordSuccess(s, held, w.now)] + Noises(w.now, other, RECENT_ORDERS_CAP)
  }

  lemma SellAllIsForgotten(w: World, s: Symbol, held: nat, other: Symbol)
    requires Opens(w, s, held) && held > 0
    ensures Run(w, SellAllAndWait(w, s, held, other))
    ensures Stands(After(w, SellAllAndWait(w, s, held, other)), s, Book(held, 0, held, 0, 0, 0, 0, held),
                   map[s := Intent(held, At(w.now), "")], w.now)
    ensures LastOutcome(After(w, SellAllAndWait(w, s, held, other)).state, s) == None
  {
    var start, done, noise := SellSome(w, s, held, RULE_ON), RecordSuccess(s, held, w.now),
      Noises(w.now, other, RECENT_ORDERS_CAP);
    SellSomeStands(w, s, held, held, RULE_ON);
    SuccessStands(After(w, start), s, Book(held, 0, held, 0, 0, 0, 0, held), map[s := Intent(held, At(w.now), "")],
                  held);
    RunGrows(w, start, done);
    var sold := After(w, start + [done]);
    NoiseStands(sold, s, Book(held, 0, held, 0, 0, 0, 0, held), map[s := Intent(held, At(w.now), "")], other);
    RunJoins(w, start + [done], noise);
  }

  lemma NoiseStands(w: World, s: Symbol, b: Book, pending: map<Symbol, Reservation>, other: Symbol)
    requires Stands(w, s, b, pending, w.now)
    ensures
      var noise := Noises(w.now, other, RECENT_ORDERS_CAP);
      && Run(w, noise) && Stands(After(w, noise), s, b, pending, w.now)
      && LastOutcome(After(w, noise).state, s) == None
  {
    NoiseFloods(w, other, RECENT_ORDERS_CAP);
    FloodHidesSells(w.state.recentOrders, Noise(w.now, other), RECENT_ORDERS_CAP, s);
    NoiseIsTimely(w.state.recentOrders, Noise(w.now, other), RECENT_ORDERS_CAP);
  }

  lemma NoiseIsTimely(orders: seq<OrderRecord>, o: OrderRecord, n: nat)
    requires n >= RECENT_ORDERS_CAP && o.stamp.At?
    ensures InOrder(Flooded(orders, o, n)) && UpTo(Flooded(orders, o, n), o.stamp.minute)
  {
    FloodFills(orders, o, n);
  }

  /** Ten minutes later the reservation is gone as well, and everything is sold again. */
  function ForgettingDay(w: World, s: Symbol, held: nat, other: Symbol): seq<Step> {
    SellAllAndWait(w, s, held, other) + WaitAndResell(s, held, RULE_ON, w.now)
  }

  /** The rule alone does not help: on every fresh day the run that forgets the outcome oversells. */
  lemma ForgettingOversells(w: World, s: Symbol, held: nat, other: Symbol)
    requires Opens(w, s, held) && held > 0
    ensures Run(w, ForgettingDay(w, s, held, other))
    ensures OnOffer(BookOf(After(w, ForgettingDay(w, s, held, other)), s)) == 2 * held
    ensures !NoOversell(After(w, ForgettingDay(w, s, held, other)))
  {
    SellAllIsForgotten(w, s, held, other);
    WaitingOversells(After(w, SellAllAndWait(w, s, held, other)), s, Book(held, 0, held, 0, 0, 0, 0, held), RULE_ON);
    RunJoins(w, SellAllAndWait(w, s, held, other), WaitAndResell(s, held, RULE_ON, w.now));
  }

  /** And that run obeys the rule throughout. */
  lemma ForgettingAbides(w: World, s: Symbol, held: nat, other: Symbol)
    ensures forall step :: step in ForgettingDay(w, s, held, other) ==> Abides(step)
  {
    NoisesAbide(w.now, other, RECENT_ORDERS_CAP);
    var noise := Noises(w.now, other, RECENT_ORDERS_CAP);
    forall step | step in ForgettingDay(w, s, held, other)
      ensures Abides(step)
    {
      if step in noise {
        var i :| 0 <= i < |noise| && noise[i] == step;
      }
    }
  }

  lemma {:induction false} NoisesAbide(now: real, other: Symbol, n: nat)
    ensures forall i :: 0 <= i < |Noises(now, other, n)| ==> Abides(Noises(now, other, n)[i])
  {
    if n > 0 {
      NoisesAbide(now, other, n - 1);
    }
  }

  // ----- a second trigger hides the first -----

  /** Another share is offered, and the broker rejects it. */
  function OfferInVain(s: Symbol, now: real): seq<Step> {
    [Submit(s, 1, RULE_OFF, "", now), BrokerRejects(s)] + [RecordFailure(s, 1, now), Resolve(s, 1, now)]
  }

  lemma RejectedStands(w: World, s: Symbol, b: Book, pending: map<Symbol, Reservation>)
    requires Stands(w, s, b, pending, w.now) && b.awaiting == 0 && b.rejected == 1
    ensures
      var steps := [RecordFailure(s, 1, w.now), Resolve(s, 1, w.now)];
      && Run(w, steps)
      && Stands(After(w, steps), s, b.(rejected := 0), WithResolved(pending, s, 1, false, w.now), w.now)
      && LastOutcome(After(w, steps).state, s) == Some(SellFailed)
  {
    FailureStands(w, s, b, pending, 1);
    ResolveStands(Apply(w, RecordFailure(s, 1, w.now)), s, b, pending, 1);
    RunOfTwo(w, RecordFailure(s, 1, w.now), Resolve(s, 1, w.now));
  }

  lemma OneMoreAndBack(pending: map<Symbol, Reservation>, s: Symbol, now: real)
    requires s != NO_SYMBOL && s in pending && pending[s] == Intent(1, At(now), "")
    ensures WithResolved(WithSubmitted(pending, s, 1, At(now), ""), s, 1, false, now) == pending
  {
  }

  lemma OfferInVainStands(w: World, s: Symbol, b: Book, pending: map<Symbol, Reservation>)
    requires Stands(w, s, b, pending, w.now) && s != NO_SYMBOL && b.awaiting == b.rejected == 0
    requires s in pending && pending[s] == Intent(1, At(w.now), "") && b.held >= 2
    ensures Run(w, OfferInVain(s, w.now))
    ensures Stands(After(w, OfferInVain(s, w.now)), s, b.(unsaved := b.unsaved + 1), pending, w.now)
    ensures LastOutcome(After(w, OfferInVain(s, w.now)).state, s) == Some(SellFailed)
  {
    var submit, reject := Submit(s, 1, RULE_OFF, "", w.now), BrokerRejects(s);
    var both := WithSubmitted(pending, s, 1, At(w.now), "");
    SubmitStands(w, s, b, pending, 1, RULE_OFF);
    RejectStands(Apply(w, submit), s, b.(awaiting := 1, unsaved := b.unsaved + 1), both);
    RunOfTwo(w, submit, reject);
    RejectedStands(After(w, [submit, reject]), s, b.(rejected := 1, unsaved := b.unsaved + 1), both);
    OneMoreAndBack(pending, s, w.now);
    RunJoins(w, [submit, reject], [RecordFailure(s, 1, w.now), Resolve(s, 1, w.now)]);
  }

  /** One share is sold, and then another one is offered in vain. */
  function SellTwice(w: World, s: Symbol): seq<Step> {
    SellSome(w, s, 1, RULE_OFF) + OfferInVain(s, w.now)
  }

  lemma SellTwiceStands(w: World, s: Symbol, held: nat)
    requires Opens(w, s, held) && held >= 2
    ensures Run(w, SellTwice(w, s))
    ensures Stands(After(w, SellTwice(w, s)), s, Book(held, 0, 1, 0, 0, 0, 0, 2), map[s := Intent(1, At(w.now), "")],
                   w.now)
    ensures LastOutcome(After(w, SellTwice(w, s)).state, s) == Some(SellFailed)
  {
    SellSomeStands(w, s, held, 1, RULE_OFF);
    var sold := After(w, SellSome(w, s, 1, RULE_OFF));
    OfferInVainStands(sold, s, Book(held, 0, 1, 0, 0, 0, 0, 1), map[s := Intent(1, At(w.now), "")]);
    RunJoins(w, SellSome(w, s, 1, RULE_OFF), OfferInVain(s, w.now));
  }

  /** Ten minutes later the reservation of the first sell is gone, and everything is sold again. */
  function SecondTriggerDay(w: World, s: Symbol, held: nat): seq<Step> {
    SellTwice(w, s) + WaitAndResell(s, held, RULE_OFF, w.now)
  }

  /** Without the rule the rejected second sell lets the reservation of the live first one expire. */
  lemma SecondTriggerOversells(w: World, s: Symbol, held: nat)
    requires Opens(w, s, held) && held >= 2
    ensures Run(w, SecondTriggerDay(w, s, held))
    ensures OnOffer(BookOf(After(w, SecondTriggerDay(w, s, held)), s)) == held + 1
    ensures !NoOversell(After(w, SecondTriggerDay(w, s, held)))
  {
    SellTwiceStands(w, s, held);
    WaitingOversells(After(w, SellTwice(w, s)), s, Book(held, 0, 1, 0, 0, 0, 0, 2), RULE_OFF);
    RunJoins(w, SellTwice(w, s), WaitAndResell(s, held, RULE_OFF, w.now));
  }
}
