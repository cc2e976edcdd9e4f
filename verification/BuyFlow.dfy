/**
 * The execution path of one BUY: a row of gates, then one broker call inside a try block whose handlers record failures
 * and raise again. What the outside world answers, and whether a notification raises, is part of the scene.
 */
module BuyFlows {
  import opened Prelude
  import opened RuntimeStates
  import opened OrderGuards
  import opened ApiBudgets
  import opened PositionSizings
  import opened ReentryDecisions
  import Reentry = BuyReentry

  datatype Gate = Brake | Holding | Session | Size | Guard | Confirmation | SessionAgain | Risk | SessionRecheck

  /** What the flow leaves in the order log, and the broker call itself. */
  datatype Event =
    | Skipped(gate: Gate)
    | Submitted(qty: int)
    | Sent(qty: int)
    | Succeeded(qty: int)
    | Failed(qty: int)

  datatype Exit = Returned | Raised

  datatype Lookup = LookupRaises | LookupRefused | Orderable(limits: Limits)

  /** What happens to the sell that may make room for the BUY. */
  datatype Rebalance = NoRebalance | SellsInstead | RebalanceRaises

  datatype Answer = ApiError | OtherError | Rejected | Accepted

  datatype Trial = Trial(
    submittedAt: real,
    submitNoteRaises: bool,
    waitRaises: bool,
    requestAt: real,
    answer: Answer,
    outcomeNoteRaises: bool,
    failedAt: real)

  datatype Scene = Scene(
    symbol: Symbol,
    brakePaused: bool,
    holding: bool,
    marketOpen: bool,
    confirmed: bool,
    blockOnBlockedPreview: bool,
    previewLimits: Limits,
    lookupAt: real,
    lookup: Lookup,
    rebalance: Rebalance,
    rules: BuyRules,
    situation: Situation,
    guardAt: real,
    riskAllows: bool,
    sessionStillOpen: bool,
    skippedAt: real,
    trial: Trial)

  // ----- the order itself -----

  /** The trace of the try block and its handlers. */
  function TrialTrace(t: Trial, granted: bool, qty: int): seq<Event> {
    if t.submitNoteRaises || t.waitRaises || !granted then [Submitted(qty), Failed(qty)]
    else if t.answer != Accepted then [Submitted(qty), Sent(qty), Failed(qty)]
    else if t.outcomeNoteRaises then [Submitted(qty), Sent(qty), Succeeded(qty), Failed(qty)]
    else [Submitted(qty), Sent(qty), Succeeded(qty)]
  }

  function WithFailure(v: StateView, symbol: Symbol, qty: int, at: real): StateView {
    WithRecorded(v, BuySide, symbol, qty, OrderFailed, None, at)
  }

  /** The state after a trial; a success leaves no record of its own in the order history. */
  function StateAfterTrial(v: StateView, symbol: Symbol, qty: int, t: Trial, granted: bool): StateView {
    var submitted := Reentry.WithSubmission(v, symbol, qty, t.submittedAt);
    if Failed(qty) in TrialTrace(t, granted, qty) then WithFailure(submitted, symbol, qty, t.failedAt) else submitted
  }

  function StateAfterTry(v: StateView, symbol: Symbol, qty: int, t: Trial, failureLogged: bool): StateView {
    var submitted := Reentry.WithSubmission(v, symbol, qty, t.submittedAt);
    if failureLogged then WithFailure(submitted, symbol, qty, t.failedAt) else submitted
  }

  // ----- the gates -----

  /** The gates in front of the orderable lookup, in order, and whether each is open. */
  function EarlyGates(scene: Scene): seq<(Gate, bool)> {
    [(Brake, !scene.brakePaused), (Holding, !scene.holding), (Session, scene.marketOpen)]
  }

  /** The re-entry decision, taken before the first gate. */
  function DecisionOf(scene: Scene, v: StateView): ReentryDecision {
    Decide(v, scene.symbol, scene.rules, scene.situation)
  }

  /** The guard lets the order pass. */
  predicate GuardAllows(scene: Scene, v: StateView, qty: int) {
    BuyGuard(v, scene.symbol, qty, scene.rules, Some(DecisionOf(scene, v)), scene.guardAt) == Allowed
  }

  /** The gates behind the sizing; the market is asked for a second time although nothing can have changed it. */
  function LateGates(scene: Scene, v: StateView, qty: int): seq<(Gate, bool)> {
    [(Size, qty > 0),
     (Guard, GuardAllows(scene, v, qty)),
     (Confirmation, scene.confirmed), (SessionAgain, scene.marketOpen), (Risk, scene.riskAllows),
     (SessionRecheck, scene.sessionStillOpen)]
  }

  function FirstClosed(gates: seq<(Gate, bool)>): Option<Gate> {
    if gates == [] then None
    else if !gates[0].1 then Some(gates[0].0)
    else FirstClosed(gates[1..])
  }

  /** What it means to come first. */
  lemma {:induction false} FirstClosedIsFirst(gates: seq<(Gate, bool)>, i: nat)
    requires i < |gates| && !gates[i].1 && forall j :: 0 <= j < i ==> gates[j].1
    ensures FirstClosed(gates) == Some(gates[i].0)
  {
    if i > 0 {
      FirstClosedIsFirst(gates[1..], i - 1);
    }
  }

  lemma {:induction false} NoneClosed(gates: seq<(Gate, bool)>)
    ensures FirstClosed(gates) == None <==> forall i :: 0 <= i < |gates| ==> gates[i].1
  {
    if gates != [] {
      NoneClosed(gates[1..]);
      if FirstClosed(gates) == None {
        assert forall i :: 0 < i < |gates| ==> gates[i] == gates[1..][i - 1];
      } else if gates[0].1 {
        var i :| 0 <= i < |gates[1..]| && !gates[1..][i].1;
        assert gates[i + 1] == gates[1..][i];
      }
    }
  }

  /** The limits the sizing works with; none when the lookup fails, in which case the flow raises. */
  function LimitsFor(scene: Scene, lookupGranted: bool): Option<Limits> {
    if !scene.confirmed then Some(scene.previewLimits)
    else if lookupGranted && scene.lookup.Orderable? then Some(scene.lookup.limits)
    else None
  }

  /** The budget's window after the lookup. */
  function StampsAfterLookup(scene: Scene, stamps: seq<real>, lookupGranted: bool): seq<real> {
    if !scene.confirmed then stamps
    else Fresh(stamps, scene.lookupAt) + if lookupGranted then [scene.lookupAt] else []
  }

  /** And after the try block, which asks for two requests unless telling about the submission, or waiting, raises. */
  function StampsAfterTrial(t: Trial, stamps: seq<real>, granted: bool): seq<real> {
    if t.submitNoteRaises || t.waitRaises then stamps
    else Fresh(stamps, t.requestAt) + if granted then [t.requestAt, t.requestAt] else []
  }

  /** A sell that makes room comes up only when cash is what is missing, and then ends the flow. */
  predicate MakesRoom(scene: Scene, sizing: Sizing) {
    sizing.recommendedQty <= 0 && sizing.block == CashInsufficient && scene.rebalance != NoRebalance
  }

  /** Everything the flow leaves behind, given what the lookup and the sizing gave. */
  function FlowTrace(scene: Scene, v: StateView, sizing: Option<Sizing>, granted: bool): seq<Event> {
    match FirstClosed(EarlyGates(scene))
    case Some(gate) => [Skipped(gate)]
    case None =>
      if sizing.None? || MakesRoom(scene, sizing.value) then []
      else
        match FirstClosed(LateGates(scene, v, sizing.value.recommendedQty))
        case Some(gate) => [Skipped(gate)]
        case None => TrialTrace(scene.trial, granted, sizing.value.recommendedQty)
  }

  /** The budget's window after the flow, given what it was after the lookup. */
  function StampsAfterFlow(scene: Scene, v: StateView, stamps: seq<real>, sizing: Option<Sizing>, granted: bool)
    : seq<real>
  {
    if FirstClosed(EarlyGates(scene)) != None || sizing.None? || MakesRoom(scene, sizing.value)
       || FirstClosed(LateGates(scene, v, sizing.value.recommendedQty)) != None
    then stamps
    else StampsAfterTrial(scene.trial, stamps, granted)
  }

  predicate LeavesRecord(gate: Gate) {
    gate == Session || gate == Confirmation || gate == SessionAgain || gate == SessionRecheck
  }

  /** A skipped BUY blocks the symbol for the day; a blocked preview may leave a record as well. */
  function StateAfterSkip(v: StateView, scene: Scene, gate: Gate, qty: int): StateView {
    var recorded :=
      if scene.blockOnBlockedPreview && LeavesRecord(gate)
      then WithRecorded(v, BuySide, scene.symbol, qty, OtherAction("blocked"), None, scene.skippedAt)
      else v;
    WithBuyBlocked(recorded, scene.symbol)
  }

  /** Two requests are granted at the moment of submission. */
  predicate Granted(stamps: seq<real>, backoff: Option<real>, transient: Option<real>, softMax: int, t: Trial) {
    && !BackoffActive(backoff, t.requestAt) && !BackoffActive(transient, t.requestAt)
    && HasRoom(stamps, t.requestAt, 2, softMax)
  }

  function StateAfterFlow(v: StateView, scene: Scene, sizing: Option<Sizing>, granted: bool): StateView {
    match FirstClosed(EarlyGates(scene))
    case Some(gate) => StateAfterSkip(v, scene, gate, 0)
    case None =>
      if sizing.None? || MakesRoom(scene, sizing.value) then v
      else
        var qty := sizing.value.recommendedQty;
        match FirstClosed(LateGates(scene, v, qty))
        case Some(gate) => StateAfterSkip(v, scene, gate, qty)
        case None => StateAfterTrial(v, scene.symbol, qty, scene.trial, granted)
  }

  /** The flow raises when the lookup fails, when making room fails and when a failure is recorded. */
  predicate FlowRaises(scene: Scene, v: StateView, sizing: Option<Sizing>, granted: bool) {
    if FirstClosed(EarlyGates(scene)) != None then false
    else if sizing.None? then true
    else if MakesRoom(scene, sizing.value) then scene.rebalance == RebalanceRaises
    else Failed(sizing.value.recommendedQty) in FlowTrace(scene, v, sizing, granted)
  }

  class BuyFlow {
    const state: RuntimeState
    const budget: ApiBudget
    var log: seq<Event>

    constructor (state: RuntimeState, budget: ApiBudget)
      ensures this.state == state && this.budget == budget && log == []
    {
      this.state, this.budget, log := state, budget, [];
    }

    ghost predicate GrantedNow(t: Trial)
      reads this, budget
    {
      Granted(budget.recentRequests, budget.backoffUntil, budget.transientErrorUntil, budget.softMaxRequests, t)
    }

    method LogFailure(symbol: Symbol, qty: int, at: real)
      modifies this`log, state
      ensures log == old(log) + [Failed(qty)]
      ensures state.View() == WithFailure(old(state.View()), symbol, qty, at)
    {
      log := log + [Failed(qty)];
      state.AddRecentOrder(BuySide, symbol, qty, OrderFailed, None, at);
    }

    method LogSubmission(symbol: Symbol, qty: int, at: real)
      modifies this`log, state
      ensures log == old(log) + [Submitted(qty)]
      ensures state.View() == Reentry.WithSubmission(old(state.View()), symbol, qty, at)
    {
      log := log + [Submitted(qty)];
      state.RecordBuyAttemptSignature(BuySignature(symbol, qty), At(at));
      state.AddRecentOrder(BuySide, symbol, qty, OrderSubmitted, None, at);
    }

    /** Asks for two requests of the budget and takes them. */
    method TakeRequests(t: Trial) returns (granted: bool)
      modifies budget
      ensures granted <==> old(GrantedNow(t))
      ensures granted ==>
        budget.recentRequests == Fresh(old(budget.recentRequests), t.requestAt) + [t.requestAt, t.requestAt]
      ensures !granted ==> budget.recentRequests == Fresh(old(budget.recentRequests), t.requestAt)
      ensures budget.quotesUsedThisTick == old(budget.quotesUsedThisTick)
    {
      granted := budget.CanRequest(t.requestAt, 2, false);
      if granted {
        FreshIdempotent(old(budget.recentRequests), t.requestAt);
        budget.RegisterRequests(t.requestAt, 2, 0);
        FreshKeepsNew(old(budget.recentRequests), t.requestAt, 2);
      }
    }

    /** The try block: what it raised, if anything, and whether the failure is already logged. */
    method TryOrder(symbol: Symbol, qty: int, orderableQty: int, t: Trial)
      returns (raised: Option<Answer>, failureAlreadyLogged: bool)
      modifies this`log, state, budget
      ensures
        var all := TrialTrace(t, old(GrantedNow(t)), qty);
        var logged := if orderableQty < qty then []
                      else if Failed(qty) in all && !failureAlreadyLogged then all[..|all| - 1] else all;
        log == old(log) + logged
      ensures orderableQty < qty ==> state.View() == old(state.View()) && raised == Some(OtherError)
      ensures orderableQty >= qty ==> (raised.None? <==> Failed(qty) !in TrialTrace(t, old(GrantedNow(t)), qty))
      ensures orderableQty >= qty ==>
        state.View() == StateAfterTry(old(state.View()), symbol, qty, t, failureAlreadyLogged)
      ensures failureAlreadyLogged ==> raised == Some(OtherError) && orderableQty >= qty
      ensures orderableQty >= qty ==>
        budget.recentRequests == StampsAfterTrial(t, old(budget.recentRequests), old(GrantedNow(t)))
      ensures raised == None || raised == Some(ApiError) || raised == Some(OtherError)
    {
      failureAlreadyLogged := false;
      if orderableQty < qty {
        return Some(OtherError), failureAlreadyLogged;
      }
      LogSubmission(symbol, qty, t.submittedAt);
      if t.submitNoteRaises || t.waitRaises {
        return Some(OtherError), failureAlreadyLogged;
      }
      var granted := TakeRequests(t);
      if !granted {
        return Some(OtherError), failureAlreadyLogged;
      }
      log := log + [Sent(qty)];
      if t.answer == ApiError || t.answer == OtherError {
        return Some(t.answer), failureAlreadyLogged;
      }
      if t.answer == Rejected {
        LogFailure(symbol, qty, t.failedAt);
        failureAlreadyLogged := true;
        return Some(OtherError), failureAlreadyLogged;
      }
      log := log + [Succeeded(qty)];
      if t.outcomeNoteRaises {
        return Some(OtherError), failureAlreadyLogged;
      }
      return None, failureAlreadyLogged;
    }

    /** The try block with its handlers, which log the failure unless that was done, and raise again. */
    method SubmitOrder(symbol: Symbol, qty: int, orderableQty: int, t: Trial) returns (exit: Exit)
      modifies this`log, state, budget
      ensures log == old(log) + if orderableQty < qty then [Failed(qty)] else TrialTrace(t, old(GrantedNow(t)), qty)
      ensures exit == Raised <==> orderableQty < qty || Failed(qty) in TrialTrace(t, old(GrantedNow(t)), qty)
      ensures orderableQty >= qty ==>
        && state.View() == StateAfterTrial(old(state.View()), symbol, qty, t, old(GrantedNow(t)))
        && budget.recentRequests == StampsAfterTrial(t, old(budget.recentRequests), old(GrantedNow(t)))
    {
      var raised, failureAlreadyLogged := TryOrder(symbol, qty, orderableQty, t);
      match raised
      case None => exit := Returned;
      case Some(error) =>
        if error == ApiError || !failureAlreadyLogged {
          LogFailure(symbol, qty, t.failedAt);
        }
        exit := Raised;
    }

    method Skip(scene: Scene, gate: Gate, qty: int)
      modifies this`log, state
      ensures log == old(log) + [Skipped(gate)]
      ensures state.View() == StateAfterSkip(old(state.View()), scene, gate, qty)
    {
      log := log + [Skipped(gate)];
      if scene.blockOnBlockedPreview && LeavesRecord(gate) {
        state.AddRecentOrder(BuySide, scene.symbol, qty, OtherAction("blocked"), None, scene.skippedAt);
      }
      state.MarkBuyBlocked(scene.symbol);
    }

    /** Looks up what can be ordered; none means that it raised. */
    method LookUpOrderable(scene: Scene) returns (limits: Option<Limits>)
      modifies budget
      ensures limits == LimitsFor(scene, old(LookupGranted(scene)))
      ensures budget.recentRequests == StampsAfterLookup(scene, old(budget.recentRequests), old(LookupGranted(scene)))
      ensures budget.quotesUsedThisTick == old(budget.quotesUsedThisTick)
      ensures budget.backoffUntil == old(budget.backoffUntil)
      ensures budget.transientErrorUntil == old(budget.transientErrorUntil)
    {
      if !scene.confirmed {
        return Some(scene.previewLimits);
      }
      var granted := budget.CanRequest(scene.lookupAt, 1, false);
      if !granted {
        return None;
      }
      FreshIdempotent(old(budget.recentRequests), scene.lookupAt);
      budget.RegisterRequest(scene.lookupAt, 0);
      match scene.lookup
      case LookupRaises => return None;
      case LookupRefused => return None;
      case Orderable(found) => return Some(found);
    }

    ghost predicate LookupGranted(scene: Scene)
      reads this, budget
    {
      && !BackoffActive(budget.backoffUntil, scene.lookupAt)
      && !BackoffActive(budget.transientErrorUntil, scene.lookupAt)
      && HasRoom(budget.recentRequests, scene.lookupAt, 1, budget.softMaxRequests)
    }

    /** Tries the gates behind the sizing in their order. */
    method FirstLateGate(scene: Scene, decision: ReentryDecision, qty: int) returns (closed: Option<Gate>)
      requires decision == DecisionOf(scene, state.View())
      ensures closed == FirstClosed(LateGates(scene, state.View(), qty))
    {
      ghost var gates := LateGates(scene, state.View(), qty);
      if qty <= 0 {
        FirstClosedIsFirst(gates, 0);
        return Some(Size);
      }
      if BuyGuard(state.View(), scene.symbol, qty, scene.rules, Some(decision), scene.guardAt) != Allowed {
        FirstClosedIsFirst(gates, 1);
        return Some(Guard);
      }
      if !scene.confirmed {
        FirstClosedIsFirst(gates, 2);
        return Some(Confirmation);
      }
      if !scene.marketOpen {
        FirstClosedIsFirst(gates, 3);
        return Some(SessionAgain);
      }
      if !scene.riskAllows {
        FirstClosedIsFirst(gates, 4);
        return Some(Risk);
      }
      if !scene.sessionStillOpen {
        FirstClosedIsFirst(gates, 5);
        return Some(SessionRecheck);
      }
      NoneClosed(gates);
      return None;
    }

    /** The gates behind the sizing, then the order. */
    method PassLateGates(scene: Scene, decision: ReentryDecision, limits: Limits, qty: int) returns (exit: Exit)
      requires qty <= Max(0, limits.orderableQty) && decision == DecisionOf(scene, state.View())
      modifies this`log, state, budget
      ensures
        match FirstClosed(LateGates(scene, old(state.View()), qty))
        case Some(gate) =>
          && log == old(log) + [Skipped(gate)] && exit == Returned
          && state.View() == StateAfterSkip(old(state.View()), scene, gate, qty)
          && budget.recentRequests == old(budget.recentRequests)
        case None =>
          && log == old(log) + TrialTrace(scene.trial, old(GrantedNow(scene.trial)), qty)
          && (exit == Raised <==> Failed(qty) in TrialTrace(scene.trial, old(GrantedNow(scene.trial)), qty))
          && state.View()
            == StateAfterTrial(old(state.View()), scene.symbol, qty, scene.trial, old(GrantedNow(scene.trial)))
          && budget.recentRequests
            == StampsAfterTrial(scene.trial, old(budget.recentRequests), old(GrantedNow(scene.trial)))
    {
      var closed := FirstLateGate(scene, decision, qty);
      match closed
      case Some(gate) =>
        Skip(scene, gate, qty);
        exit := Returned;
      case None =>
        LateOpen(scene, state.View(), qty);
        exit := SubmitOrder(scene.symbol, qty, limits.orderableQty, scene.trial);
    }

    /** One BUY from the first gate to the last handler. */
    method RunBuyOrderFlow(scene: Scene) returns (exit: Exit, sizing: Option<Sizing>, ghost granted: bool)
      modifies this`log, state, budget
      ensures
        var limits := LimitsFor(scene, old(LookupGranted(scene)));
        && (sizing.Some? <==> FirstClosed(EarlyGates(scene)) == None && limits.Some?)
        && (sizing.Some? ==> SizedFor(limits.value, CostOf(limits.value), true, sizing.value))
      ensures sizing.Some? ==>
        var stamps := StampsAfterLookup(scene, old(budget.recentRequests), old(LookupGranted(scene)));
        granted == Granted(stamps, old(budget.backoffUntil), old(budget.transientErrorUntil), budget.softMaxRequests,
                           scene.trial)
      ensures log == old(log) + FlowTrace(scene, old(state.View()), sizing, granted)
      ensures state.View() == StateAfterFlow(old(state.View()), scene, sizing, granted)
      ensures exit == Raised <==> FlowRaises(scene, old(state.View()), sizing, granted)
      ensures
        var stamps := if FirstClosed(EarlyGates(scene)) != None then old(budget.recentRequests)
                      else StampsAfterLookup(scene, old(budget.recentRequests), old(LookupGranted(scene)));
        budget.recentRequests == StampsAfterFlow(scene, old(state.View()), stamps, sizing, granted)
    {
      sizing, granted := None, false;
      var decision := Decide(state.View(), scene.symbol, scene.rules, scene.situation);
      ghost var early := EarlyGates(scene);
      if scene.brakePaused {
        FirstClosedIsFirst(early, 0);
        Skip(scene, Brake, 0);
        return Returned, sizing, granted;
      }
      if scene.holding {
        FirstClosedIsFirst(early, 1);
        Skip(scene, Holding, 0);
        return Returned, sizing, granted;
      }
      if !scene.marketOpen {
        FirstClosedIsFirst(early, 2);
        Skip(scene, Session, 0);
        return Returned, sizing, granted;
      }
      NoneClosed(early);
      var limits := LookUpOrderable(scene);
      if limits.None? {
        return Raised, sizing, granted;
      }
      exit, sizing, granted := SizeAndOrder(scene, decision, limits.value);
    }

    method SizeAndOrder(scene: Scene, decision: ReentryDecision, limits: Limits)
      returns (exit: Exit, sizing: Option<Sizing>, ghost granted: bool)
      requires FirstClosed(EarlyGates(scene)) == None && decision == DecisionOf(scene, state.View())
      modifies this`log, state, budget
      ensures sizing.Some? && SizedFor(limits, CostOf(limits), true, sizing.value)
      ensures granted == old(GrantedNow(scene.trial))
      ensures log == old(log) + FlowTrace(scene, old(state.View()), sizing, granted)
      ensures state.View() == StateAfterFlow(old(state.View()), scene, sizing, granted)
      ensures exit == Raised <==> FlowRaises(scene, old(state.View()), sizing, granted)
      ensures budget.recentRequests
        == StampsAfterFlow(scene, old(state.View()), old(budget.recentRequests), sizing, granted)
    {
      granted := GrantedNow(scene.trial);
      var sized := CalculatePositionSizing(limits, true);
      sizing := Some(sized);
      if sized.recommendedQty <= 0 && sized.block == CashInsufficient && scene.rebalance != NoRebalance {
        return if scene.rebalance == RebalanceRaises then Raised else Returned, sizing, granted;
      }
      exit := PassLateGates(scene, decision, limits, sized.recommendedQty);
    }
  }

  // ----- what the flow guarantees -----

  /** Everything that has to be in order before the broker is called for `qty` shares. */
  predicate AllClear(scene: Scene, v: StateView, sizing: Option<Sizing>, granted: bool, qty: int) {
    && !scene.brakePaused && !scene.holding && scene.marketOpen
    && sizing.Some? && sizing.value.recommendedQty == qty && qty > 0
    && GuardAllows(scene, v, qty)
    && scene.confirmed && scene.riskAllows && scene.sessionStillOpen
    && !scene.trial.submitNoteRaises && !scene.trial.waitRaises && granted
  }

  lemma EarlyOpen(scene: Scene)
    ensures FirstClosed(EarlyGates(scene)) == None <==> !scene.brakePaused && !scene.holding && scene.marketOpen
  {
    var gates := EarlyGates(scene);
    NoneClosed(gates);
    assert gates[0].1 == !scene.brakePaused && gates[1].1 == !scene.holding && gates[2].1 == scene.marketOpen;
  }

  lemma LateOpen(scene: Scene, v: StateView, qty: int)
    ensures FirstClosed(LateGates(scene, v, qty)) == None <==>
      && qty > 0 && GuardAllows(scene, v, qty)
      && scene.confirmed && scene.marketOpen && scene.riskAllows && scene.sessionStillOpen
  {
    var gates := LateGates(scene, v, qty);
    NoneClosed(gates);
    assert gates[0].1 == (qty > 0) && gates[2].1 == scene.confirmed && gates[3].1 == scene.marketOpen;
    assert gates[4].1 == scene.riskAllows && gates[5].1 == scene.sessionStillOpen && gates[1].0 == Guard;
  }

  /** The broker is called exactly when every gate is open and the requests are granted. */
  lemma SentIffClear(scene: Scene, v: StateView, sizing: Option<Sizing>, granted: bool, qty: int)
    ensures Sent(qty) in FlowTrace(scene, v, sizing, granted) <==> AllClear(scene, v, sizing, granted, qty)
  {
    EarlyOpen(scene);
    if sizing.Some? {
      LateOpen(scene, v, sizing.value.recommendedQty);
    }
  }

  lemma {:induction false} ClosedIsClosed(gates: seq<(Gate, bool)>, i: nat)
    requires i < |gates| && gates[i].1
    requires forall j, k :: 0 <= j < |gates| && 0 <= k < |gates| && gates[j].0 == gates[k].0 ==> j == k
    ensures FirstClosed(gates) != Some(gates[i].0)
  {
    if gates[0].1 && i > 0 {
      ClosedIsClosed(gates[1..], i - 1);
    } else if gates[0].1 {
      NoLaterGate(gates[1..], gates[0].0);
    }
  }

  lemma {:induction false} NoLaterGate(gates: seq<(Gate, bool)>, gate: Gate)
    requires forall j :: 0 <= j < |gates| ==> gates[j].0 != gate
    ensures FirstClosed(gates) != Some(gate)
  {
    if gates != [] {
      NoLaterGate(gates[1..], gate);
    }
  }

  /** The second check for a closed market stops nothing, whatever the scene. */
  lemma SecondSessionCheckIsDead(scene: Scene, v: StateView, sizing: Option<Sizing>, granted: bool)
    ensures Skipped(SessionAgain) !in FlowTrace(scene, v, sizing, granted)
  {
    EarlyOpen(scene);
    NoLaterGate(EarlyGates(scene), SessionAgain);
    if scene.marketOpen && sizing.Some? {
      var gates := LateGates(scene, v, sizing.value.recommendedQty);
      assert gates[3] == (SessionAgain, true);
      ClosedIsClosed(gates, 3);
    }
  }

  /**
   * A skipped BUY marks its symbol, and nothing else, as blocked for the day; it leaves a record exactly when the
   * settings ask for one and it was skipped for a closed market or for want of a confirmation.
   */
  lemma SkipMarks(v: StateView, scene: Scene, gate: Gate, qty: int, s: Symbol)
    ensures
      var after := StateAfterSkip(v, scene, gate, qty);
      var record := OrderRecord(
        At(scene.skippedAt), Day(scene.skippedAt), BuySide, scene.symbol, qty, OtherAction("blocked"));
      && (s in after.buyBlockedToday <==> s in v.buyBlockedToday || s == scene.symbol != NO_SYMBOL)
      && (s in after.blockedBuyToday <==> s in v.blockedBuyToday || s == scene.symbol != NO_SYMBOL)
      && after == v.(recentOrders := after.recentOrders, buyBlockedToday := after.buyBlockedToday,
                     blockedBuyToday := after.blockedBuyToday)
      && if scene.blockOnBlockedPreview && gate in {Session, Confirmation, SessionAgain, SessionRecheck}
         then after.recentOrders == Last(v.recentOrders + [record], 50)
         else after.recentOrders == v.recentOrders
  {
  }

  predicate IsOutcome(e: Event) {
    e.Succeeded? || e.Failed?
  }

  ghost predicate SentAtMostOnce(trace: seq<Event>) {
    forall i, j :: 0 <= i < |trace| && 0 <= j < |trace| && trace[i].Sent? && trace[j].Sent? ==> i == j
  }

  ghost predicate HasOneOutcome(trace: seq<Event>) {
    exists i :: 0 <= i < |trace| && IsOutcome(trace[i]) && IsOnlyOutcome(trace, i)
  }

  predicate IsOnlyOutcome(trace: seq<Event>, i: nat) {
    forall j :: 0 <= j < |trace| && IsOutcome(trace[j]) ==> j == i
  }

  predicate ConcernsOrder(e: Event) {
    e.Submitted? || e.Sent? || IsOutcome(e)
  }

  /** A success that is followed by a failure record, because telling about it raised. */
  predicate ToldTwice(t: Trial, granted: bool) {
    !t.submitNoteRaises && !t.waitRaises && granted && t.answer == Accepted && t.outcomeNoteRaises
  }

  lemma TrialOutcome(t: Trial, granted: bool, qty: int)
    ensures
      var trace := TrialTrace(t, granted, qty);
      && trace[0] == Submitted(qty) && SentAtMostOnce(trace)
      && (HasOneOutcome(trace) <==> !ToldTwice(t, granted))
  {
    var trace := TrialTrace(t, granted, qty);
    if ToldTwice(t, granted) {
      assert IsOutcome(trace[2]) && IsOutcome(trace[3]);
    } else {
      assert IsOutcome(trace[|trace| - 1]) && IsOnlyOutcome(trace, |trace| - 1);
    }
  }

  /**
   * The broker is called at most once; nothing is sent, or recorded as failed or succeeded, without having been
   * recorded as submitted first; and a submission ends in exactly one outcome, unless telling about a success raises.
   */
  lemma OneOutcome(scene: Scene, v: StateView, sizing: Option<Sizing>, granted: bool)
    ensures
      var trace := FlowTrace(scene, v, sizing, granted);
      && SentAtMostOnce(trace)
      && ((exists e :: e in trace && ConcernsOrder(e)) ==>
        && trace[0].Submitted? && (HasOneOutcome(trace) <==> !ToldTwice(scene.trial, granted)))
  {
    var trace := FlowTrace(scene, v, sizing, granted);
    if exists e :: e in trace && ConcernsOrder(e) {
      TrialOutcome(scene.trial, granted, sizing.value.recommendedQty);
    }
  }

  /** The quantity sent is what the sizing recommends, so it can be ordered and is affordable. */
  lemma SentIsAffordable(scene: Scene, v: StateView, limits: Limits, sizing: Option<Sizing>, granted: bool, qty: int)
    requires sizing.Some? && SizedFor(limits, CostOf(limits), true, sizing.value)
    requires Sent(qty) in FlowTrace(scene, v, sizing, granted)
    ensures FitsApartFromBudget(limits, CostOf(limits), qty)
    ensures Fits(limits, CostOf(limits), qty) || qty == 1
  {
    SentIffClear(scene, v, sizing, granted, qty);
    if !sizing.value.rescued {
      assert Fits(limits, CostOf(limits), qty);
    }
  }

  /**
   * Every submission of the flow is a BUY that asks for its re-entry decision first, so all that holds of runs of such
   * BUYs holds of it.
   */
  lemma SubmissionObeysReentry(
    scene: Scene, d: Reentry.Session, sizing: Option<Sizing>, granted: bool, qty: int)
    requires Submitted(qty) in FlowTrace(scene, d.state, sizing, granted)
    requires scene.guardAt == scene.trial.submittedAt >= d.now
    ensures
      var step := Reentry.Submit(scene.symbol, qty, scene.rules, Some(scene.situation), scene.guardAt);
      && Reentry.Enabled(d, step) && Reentry.Asks(step)
      && Reentry.WithSubmission(d.state, scene.symbol, qty, scene.trial.submittedAt) == Reentry.Apply(d, step).state
  {
    LateOpen(scene, d.state, sizing.value.recommendedQty);
  }
}
