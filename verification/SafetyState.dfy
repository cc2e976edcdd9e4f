/** Loading and saving the trader's state, failing closed when it cannot be trusted. */
module SafetyStates {
  import opened Prelude
  import opened RuntimeStates
  import opened OrderGuards

  /** The account in use and the current day. */
  datatype Scope = Scope(signature: string, legacySignature: string, today: Date)

  /** What is found on disk; a file in a place of an older layout may carry the older account signature. */
  datatype Stored =
    | Missing
    | Malformed
    | WrongShape
    | File(state: StateView, modifiedToday: bool, primary: bool)

  const TRUSTED := Trust(Some(true), "ok", false, "")

  const MALFORMED_REASON := "malformed_or_unreadable_runtime_state"
  const SHAPE_REASON := "unexpected_runtime_state_shape"
  const ACCOUNT_REASON := "account_signature_mismatch"
  const DATE_REASON := "trading_date_mismatch_modified_today"
  const UNTRUSTED_REASON := "runtime_state_marked_untrusted"

  function BlockedTrust(reason: string): Trust {
    Trust(Some(false), "blocked", true, reason)
  }

  function EmptyState(scope: Scope, trust: Trust): StateView {
    var none := Attempt(NoSignature, Blank);
    StateView(scope.signature, scope.today, trust, map[], [], map[], none, none,
              [], [], [], [], [], [], 0, map[], Blank, [])
  }

  // ----- what a load makes of a stored state -----

  predicate SignatureAllowed(v: StateView, scope: Scope, allowLegacy: bool) {
    v.accountSignature == "" || v.accountSignature == scope.signature
    || (allowLegacy && v.accountSignature == scope.legacySignature)
  }

  /** Why the state must not be used, if it must not. */
  function Distrust(v: StateView, scope: Scope, modifiedToday: bool, allowLegacy: bool): Option<string> {
    if !SignatureAllowed(v, scope, allowLegacy) then Some(ACCOUNT_REASON)
    else if v.tradingDay != scope.today then (if modifiedToday then Some(DATE_REASON) else None)
    else if !IsTrusted(v.trust) then Some(if v.trust.reason == "" then UNTRUSTED_REASON else v.trust.reason)
    else None
  }

  /** Sell blocks of an older layout, without any trace of a sell behind them, are dropped. */
  predicate GroundlessSellBlocks(v: StateView) {
    && v.lastSellAttempt.signature == NoSignature
    && v.soldToday == [] && v.sellTriggeredToday == []
  }

  function WithoutBlank(positions: map<Symbol, int>): map<Symbol, int> {
    positions - {NO_SYMBOL}
  }

  /** The lists of blocked symbols, taken over from their older names. */
  function WithSymbolLists(v: StateView): StateView {
    var sellBlocks := if v.blockedSellToday == [] then v.sellBlockedToday else v.blockedSellToday;
    var groundless := sellBlocks != [] && GroundlessSellBlocks(v);
    v.(blockedBuyToday := if v.blockedBuyToday == [] then v.buyBlockedToday else v.blockedBuyToday,
       blockedSellToday := if groundless then [] else sellBlocks,
       sellBlockedToday := if groundless then [] else v.sellBlockedToday)
  }

  /** A usable state of the day, brought into the current layout. */
  function Restored(v: StateView, scope: Scope): StateView {
    WithSymbolLists(v).(
       accountSignature := scope.signature,
       trust := TRUSTED,
       pending := Reloaded(v.pending),
       lastSynced := WithoutBlank(v.lastSynced))
  }

  function Normalized(v: StateView, scope: Scope, modifiedToday: bool, allowLegacy: bool): StateView {
    match Distrust(v, scope, modifiedToday, allowLegacy)
    case Some(reason) => EmptyState(scope, BlockedTrust(reason))
    case None => if v.tradingDay != scope.today then EmptyState(scope, TRUSTED) else Restored(v, scope)
  }

  method RestoreSymbolLists(v: StateView) returns (n: StateView)
    ensures n == WithSymbolLists(v)
  {
    n := v;
    if n.blockedBuyToday == [] && n.buyBlockedToday != [] {
      n := n.(blockedBuyToday := n.buyBlockedToday);
    }
    if n.blockedSellToday == [] && n.sellBlockedToday != [] {
      n := n.(blockedSellToday := n.sellBlockedToday);
    }
    if n.blockedSellToday != [] && n.lastSellAttempt.signature == NoSignature && n.soldToday == []
      && n.sellTriggeredToday == [] {
      n := n.(blockedSellToday := []);
      n := n.(sellBlockedToday := []);
    }
  }

  method NormalizeState(v: StateView, scope: Scope, modifiedToday: bool, allowLegacy: bool) returns (n: StateView)
    ensures n == Normalized(v, scope, modifiedToday, allowLegacy)
  {
    n := v;
    if !SignatureAllowed(n, scope, allowLegacy) {
      return EmptyState(scope, BlockedTrust(ACCOUNT_REASON));
    }
    n := n.(accountSignature := scope.signature);
    if n.tradingDay != scope.today {
      if modifiedToday {
        return EmptyState(scope, BlockedTrust(DATE_REASON));
      }
      return EmptyState(scope, TRUSTED);
    }
    if !IsTrusted(n.trust) {
      var reason := if n.trust.reason == "" then UNTRUSTED_REASON else n.trust.reason;
      return EmptyState(scope, BlockedTrust(reason));
    }
    n := RestoreSymbolLists(n);
    n := n.(trust := TRUSTED);
    n := n.(pending := Reloaded(n.pending));
    n := n.(lastSynced := WithoutBlank(n.lastSynced));
  }

  function Loaded(stored: Stored, scope: Scope): StateView {
    match stored
    case Missing => EmptyState(scope, TRUSTED)
    case Malformed => EmptyState(scope, BlockedTrust(MALFORMED_REASON))
    case WrongShape => EmptyState(scope, BlockedTrust(SHAPE_REASON))
    case File(state, modifiedToday, primary) => Normalized(state, scope, modifiedToday, !primary)
  }

  /** A save that fails may have left the file alone, or have cut it down before it could be written. */
  datatype SaveOutcome = Written | Untouched | Torn

  /** What is on disk after a save. */
  function Saved(stored: Stored, v: StateView, scope: Scope, outcome: SaveOutcome): Stored {
    match outcome
    case Written => File(v.(accountSignature := scope.signature), true, true)
    case Untouched => stored
    case Torn => Malformed
  }

  // ----- what holds of them -----

  lemma ListsTwice(v: StateView)
    ensures WithSymbolLists(WithSymbolLists(v)) == WithSymbolLists(v)
  {
  }

  /** Normalizing a normalized state changes nothing, trusted or not. */
  lemma NormalizeTwice(v: StateView, scope: Scope, modifiedToday: bool, allowLegacy: bool)
    ensures
      var once := Normalized(v, scope, modifiedToday, allowLegacy);
      Normalized(once, scope, modifiedToday, allowLegacy) == once
  {
    var once := Normalized(v, scope, modifiedToday, allowLegacy);
    if Distrust(v, scope, modifiedToday, allowLegacy) == None && v.tradingDay == scope.today {
      ListsTwice(v);
      assert Reloaded(once.pending) == once.pending;
      assert WithoutBlank(once.lastSynced) == once.lastSynced;
      assert WithSymbolLists(once) == once;
    } else {
      assert Reloaded(once.pending) == once.pending;
    }
  }

  /** One of the marks by which a state says that it is not to be trusted. */
  predicate IsMarked(t: Trust) {
    t.trustedFlag == Some(false) || t.safetyStatus == "blocked" || t.blockedFlag
  }

  /** A state of the day and the account with nothing in it. */
  predicate IsBlank(v: StateView, scope: Scope) {
    && v.accountSignature == scope.signature && v.tradingDay == scope.today
    && v.pending == map[] && v.recentOrders == [] && v.buyEntriesToday == map[] && v.rebalanceSellsToday == 0
    && v.lastBuyAttempt == v.lastSellAttempt == Attempt(NoSignature, Blank)
    && v.soldToday == v.sellTriggeredToday == v.blockedBuyToday == v.buyBlockedToday == []
    && v.blockedSellToday == v.sellBlockedToday == []
    && v.lastSynced == map[] && v.lastSyncedAt == Blank && v.intentAdjustments == []
  }

  /** What a reload leaves of the reservations and the last snapshot: real symbols, and positive reservations. */
  ghost predicate KeepsHoldings(v: StateView, loaded: StateView) {
    && (forall s :: s in loaded.pending <==> s in v.pending && s != NO_SYMBOL && v.pending[s].amount > 0)
    && (forall s :: s in loaded.pending ==>
      var submitted := if v.pending[s].Intent? then v.pending[s].submitted else Blank;
      loaded.pending[s] == Intent(v.pending[s].amount, submitted, ""))
    && (forall s :: s in loaded.lastSynced <==> s in v.lastSynced && s != NO_SYMBOL)
    && (forall s :: s in loaded.lastSynced ==> loaded.lastSynced[s] == v.lastSynced[s])
  }

  /** The lists of blocked symbols under their newer names; without any trace of a sell no sell stays blocked. */
  predicate KeepsBlocks(v: StateView, loaded: StateView) {
    var traceless := v.lastSellAttempt.signature == NoSignature && v.soldToday == v.sellTriggeredToday == [];
    && loaded.blockedBuyToday == (if v.blockedBuyToday != [] then v.blockedBuyToday else v.buyBlockedToday)
    && (traceless ==> loaded.blockedSellToday == loaded.sellBlockedToday == [])
    && (!traceless ==>
      && loaded.blockedSellToday == (if v.blockedSellToday != [] then v.blockedSellToday else v.sellBlockedToday)
      && loaded.sellBlockedToday == v.sellBlockedToday)
  }

  /** A file of the day that is trusted is restored, with its history and flags; anything else comes out blank. */
  lemma LoadedIsBlankOrRestored(stored: Stored, scope: Scope)
    ensures
      var loaded := Loaded(stored, scope);
      && (IsTrusted(loaded.trust) ==> loaded.trust == Trust(Some(true), "ok", false, ""))
      && (!IsTrusted(loaded.trust) ==>
        loaded.trust == Trust(Some(false), "blocked", true, loaded.trust.reason) && loaded.trust.reason != "")
      && if IsTrusted(loaded.trust) && stored.File? && stored.state.tradingDay == scope.today then
           var v := stored.state;
           && KeepsHoldings(v, loaded) && KeepsBlocks(v, loaded)
           && loaded == v.(
             accountSignature := scope.signature, trust := loaded.trust, pending := loaded.pending,
             lastSynced := loaded.lastSynced, blockedBuyToday := loaded.blockedBuyToday,
             blockedSellToday := loaded.blockedSellToday, sellBlockedToday := loaded.sellBlockedToday)
         else IsBlank(loaded, scope)
  {
    assert |MALFORMED_REASON| > 0 && |SHAPE_REASON| > 0 && |ACCOUNT_REASON| > 0;
    assert |DATE_REASON| > 0 && |UNTRUSTED_REASON| > 0;
  }

  /**
   * A file is trusted exactly when it is of no account in particular, of the current one, or, in a place of the older
   * layout, of the legacy one, and is either of today and not marked, or of another day and not modified today. What
   * speaks first against it is the reason.
   */
  lemma LoadFailsClosed(stored: Stored, scope: Scope)
    ensures stored.Missing? ==> IsTrusted(Loaded(stored, scope).trust)
    ensures stored.Malformed? ==> Loaded(stored, scope).trust == BlockedTrust("malformed_or_unreadable_runtime_state")
    ensures stored.WrongShape? ==> Loaded(stored, scope).trust == BlockedTrust("unexpected_runtime_state_shape")
    ensures stored.File? ==>
      var (v, trust, signature) := (stored.state, Loaded(stored, scope).trust, stored.state.accountSignature);
      var own := signature in {"", scope.signature} || (!stored.primary && signature == scope.legacySignature);
      && (IsTrusted(trust) <==>
        own && if v.tradingDay == scope.today then !IsMarked(v.trust) else !stored.modifiedToday)
      && (!own ==> trust == BlockedTrust("account_signature_mismatch"))
      && (own && v.tradingDay != scope.today && stored.modifiedToday ==>
        trust == BlockedTrust("trading_date_mismatch_modified_today"))
      && (own && v.tradingDay == scope.today && IsMarked(v.trust) ==>
        trust == BlockedTrust(if v.trust.reason == "" then "runtime_state_marked_untrusted" else v.trust.reason))
  {
  }

  /** A cycle of the day: it may do anything to the loaded state but vouch for it, and then tries to save it. */
  datatype Cycle = Cycle(end: StateView, save: SaveOutcome)

  predicate IsCycle(loaded: StateView, scope: Scope, cycle: Cycle) {
    cycle.end.trust == loaded.trust && cycle.end.tradingDay == scope.today
  }

  predicate CyclesRun(stored: Stored, scope: Scope, cycles: seq<Cycle>)
    decreases |cycles|
  {
    cycles == []
    || (IsCycle(Loaded(stored, scope), scope, cycles[0])
        && CyclesRun(Saved(stored, cycles[0].end, scope, cycles[0].save), scope, cycles[1..]))
  }

  function FileAfter(stored: Stored, scope: Scope, cycles: seq<Cycle>): Stored
    requires CyclesRun(stored, scope, cycles)
    decreases |cycles|
  {
    if cycles == [] then stored
    else FileAfter(Saved(stored, cycles[0].end, scope, cycles[0].save), scope, cycles[1..])
  }

  function TornSaves(cycles: seq<Cycle>): nat {
    if cycles == [] then 0 else (if cycles[0].save.Torn? then 1 else 0) + TornSaves(cycles[1..])
  }

  function UnreadableState(scope: Scope): StateView {
    EmptyState(scope, BlockedTrust(MALFORMED_REASON))
  }

  /**
   * A blocked state is loaded as blocked all day, whatever cycles do and however their saves end. The reason stays the
   * same exactly when no save tears the file, or it was unreadable to begin with.
   */
  lemma {:induction false} StaysBlocked(stored: Stored, scope: Scope, cycles: seq<Cycle>)
    requires !IsTrusted(Loaded(stored, scope).trust) && CyclesRun(stored, scope, cycles)
    ensures
      var (first, last) := (Loaded(stored, scope), Loaded(FileAfter(stored, scope, cycles), scope));
      && !IsTrusted(last.trust)
      && last == (if TornSaves(cycles) == 0 then first else UnreadableState(scope))
      && (last.trust.reason == first.trust.reason <==>
        TornSaves(cycles) == 0 || first.trust.reason == MALFORMED_REASON)
    decreases |cycles|
  {
    LoadedIsBlankOrRestored(stored, scope);
    if cycles != [] {
      var next := Saved(stored, cycles[0].end, scope, cycles[0].save);
      assert Loaded(next, scope) == if cycles[0].save.Torn? then UnreadableState(scope) else Loaded(stored, scope);
      StaysBlocked(next, scope, cycles[1..]);
    }
  }

  /** A torn save blocks the rest of the day, even if all was well before: the next load finds nothing to trust. */
  lemma TornSaveBlocks(stored: Stored, scope: Scope, cycle: Cycle, cycles: seq<Cycle>)
    requires cycle.save.Torn? && CyclesRun(stored, scope, [cycle] + cycles)
    ensures Loaded(FileAfter(stored, scope, [cycle] + cycles), scope) == UnreadableState(scope)
  {
    assert ([cycle] + cycles)[1..] == cycles;
    StaysBlocked(Malformed, scope, cycles);
  }

  /** So from the moment a state is found blocked no order of any kind passes a guard that day. */
  lemma BlockedRefusesAllDay(
    stored: Stored, scope: Scope, cycles: seq<Cycle>, symbol: Symbol, holdingQty: int, qty: int, buy: BuyRules,
    sell: SellRules, max: int, reentry: Option<ReentryDecision>, trigger: string, now: real)
    requires !IsTrusted(Loaded(stored, scope).trust) && CyclesRun(stored, scope, cycles)
    ensures
      var v := Loaded(FileAfter(stored, scope, cycles), scope);
      && BuyGuard(v, symbol, qty, buy, reentry, now) == Blocked(RuntimeStateUntrusted, false)
      && SellGuard(v, symbol, holdingQty, qty, sell, trigger, now) == Blocked(RuntimeStateUntrusted, false)
      && RebalanceSellGuard(v, max) == Blocked(RuntimeStateUntrusted, false)
  {
    StaysBlocked(stored, scope, cycles);
    UntrustedStopsEverything(Loaded(FileAfter(stored, scope, cycles), scope), symbol, holdingQty, qty, buy, sell, max,
                             reentry, trigger, now);
  }

  /** What a load takes over of the history and the counter of buys: those of the file, or nothing. */
  lemma LoadedHistory(stored: Stored, scope: Scope)
    ensures
      var loaded := Loaded(stored, scope);
      || (loaded.recentOrders == [] && loaded.buyEntriesToday == map[])
      || (stored.File? && loaded.recentOrders == stored.state.recentOrders
          && loaded.buyEntriesToday == stored.state.buyEntriesToday)
  {
  }

  /** What survives a save and a load on the same day: the history, and every reservation but for its trigger. */
  lemma SaveThenLoad(stored: Stored, v: StateView, scope: Scope)
    requires IsTrusted(v.trust) && v.tradingDay == scope.today
    ensures
      var again := Loaded(Saved(stored, v, scope, Written), scope);
      && again.trust == TRUSTED
      && again.recentOrders == v.recentOrders && again.buyEntriesToday == v.buyEntriesToday
      && again.sellTriggeredToday == v.sellTriggeredToday && again.soldToday == v.soldToday
      && again.pending == Reloaded(v.pending)
      && (NO_SYMBOL !in v.lastSynced ==> again.lastSynced == v.lastSynced)
      && forall s :: s != NO_SYMBOL && Reserved(v.pending, s) > 0 ==>
        && s in again.pending && again.pending[s].Intent? && again.pending[s].amount == v.pending[s].amount
        && (v.pending[s].Intent? ==> again.pending[s].submitted == v.pending[s].submitted)
  {
    if NO_SYMBOL !in v.lastSynced {
      assert WithoutBlank(v.lastSynced) == v.lastSynced;
    }
  }

  /** A reload takes an emergency reservation its short time to live: it then ages out like any other. */
  lemma ReloadForgetsEmergency(pending: map<Symbol, Reservation>, s: Symbol, run: PruneRun)
    requires s != NO_SYMBOL && s in pending && pending[s].Intent? && pending[s].amount > 0
    requires 0.0 < run.ttl
    ensures
      var again := Reloaded(pending);
      && s in again
      && (ReleasesOfOne(again, run, s) != [] <==>
        && pending[s].submitted.At? && run.now - pending[s].submitted.minute >= run.ttl
        && !MayBeLive(LatestSellAction(run.orders, s)))
  {
    assert "" !in SELL_EMERGENCY_TRIGGERS;
  }
}
