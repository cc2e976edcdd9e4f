/** Whether a symbol may be bought again today, after whatever it was last sold for. */
module ReentryDecisions {
  import opened Prelude
  import opened RuntimeStates
  import opened OrderGuards

  /** What the last exit was for, as read from its text. */
  datatype ExitReason =
    | StopLoss | TakeProfit | TrailingStop | RebalanceSell | DailyPnlBrake | ManualOrReconciled | UnknownReason

  datatype Exit = Exit(reason: ExitReason, at: Stamp)

  /** What else the decision looks at: the position, the last exit, the market and the clock. */
  datatype Situation = Situation(
    residualQty: int,
    exit: Option<Exit>,
    freshSetup: bool,
    riskOff: bool,
    buyPaused: bool,
    stopLossFloor: real,
    now: real)

  const RESIDUAL := "blocked_residual_position"
  const DAILY_LIMIT := "blocked_daily_limit_fallback"
  const SAME_DAY_STOP := "blocked_same_day_stop_loss_reentry"
  const RECENT_STOP := "blocked_recent_stop_loss"
  const HARD_GUARD := "blocked_hard_guard"
  const CHURN := "blocked_churn_risk"
  const NO_EXIT := "allowed_no_recent_exit"
  const FRESH_AFTER_STOP := "allowed_fresh_setup_after_stop"
  const AFTER_PROFIT := "allowed_after_profit_exit"
  const TIME_DECAY := "allowed_after_time_decay"

  /** How often the symbol was bought today, by the counter that is never cut. */
  function Entries(v: StateView, symbol: Symbol): int {
    if symbol in v.buyEntriesToday then v.buyEntriesToday[symbol] else 0
  }

  predicate AtDailyLimit(entries: int, rules: BuyRules) {
    rules.sameSymbolMaxBuysPerDay > 0 && entries >= rules.sameSymbolMaxBuysPerDay
  }

  function Elapsed(at: Stamp, now: real): Option<real> {
    if at.At? then Some(MaxReal(0.0, now - at.minute)) else None
  }

  predicate LongEnough(elapsed: Option<real>, minutes: real) {
    elapsed.Some? && elapsed.value >= minutes
  }

  /** Half of a cooldown in whole minutes. */
  function HalfOf(minutes: real): real {
    (minutes / 2.0).Floor as real
  }

  function Allow(state: string): ReentryDecision {
    ReentryDecision(true, state)
  }

  function Refuse(state: string): ReentryDecision {
    ReentryDecision(false, state)
  }

  predicate OnSameDay(at: Stamp, now: real) {
    at.At? && Day(at.minute) == Day(now)
  }

  function AfterStopLoss(cooldown: real, s: Situation, at: Stamp): ReentryDecision {
    var elapsed := Elapsed(at, s.now);
    if OnSameDay(at, s.now) && !LongEnough(elapsed, MaxReal(s.stopLossFloor, 0.0)) then Refuse(SAME_DAY_STOP)
    else if s.riskOff then Refuse(HARD_GUARD)
    else if elapsed.None? || (!LongEnough(elapsed, MaxReal(cooldown * 2.0, 30.0)) && !s.freshSetup) then
      Refuse(RECENT_STOP)
    else if s.freshSetup && LongEnough(elapsed, MaxReal(HalfOf(cooldown), 10.0)) then Allow(FRESH_AFTER_STOP)
    else Allow(TIME_DECAY)
  }

  function AfterProfit(cooldown: real, s: Situation, at: Stamp): ReentryDecision {
    var elapsed, wait := Elapsed(at, s.now), MaxReal(HalfOf(cooldown), 5.0);
    if s.freshSetup && (elapsed.None? || LongEnough(elapsed, wait)) then Allow(AFTER_PROFIT)
    else if LongEnough(elapsed, MaxReal(cooldown, wait)) then Allow(TIME_DECAY)
    else Refuse(CHURN)
  }

  function AfterRebalance(cooldown: real, s: Situation, at: Stamp): ReentryDecision {
    var elapsed := Elapsed(at, s.now);
    if s.freshSetup && LongEnough(elapsed, MaxReal(HalfOf(cooldown), 10.0)) then Allow(TIME_DECAY)
    else if LongEnough(elapsed, MaxReal(cooldown, 15.0)) then Allow(TIME_DECAY)
    else Refuse(CHURN)
  }

  function AfterBrake(cooldown: real, s: Situation, at: Stamp): ReentryDecision {
    if s.buyPaused || s.riskOff then Refuse(HARD_GUARD)
    else if !LongEnough(Elapsed(at, s.now), MaxReal(cooldown * 2.0, 30.0)) || !s.freshSetup then Refuse(HARD_GUARD)
    else Allow(TIME_DECAY)
  }

  function AfterOther(cooldown: real, s: Situation, at: Stamp): ReentryDecision {
    if !LongEnough(Elapsed(at, s.now), cooldown) then Refuse(CHURN) else Allow(TIME_DECAY)
  }

  function AfterExit(cooldown: real, s: Situation, exit: Exit): ReentryDecision {
    match exit.reason
    case StopLoss => AfterStopLoss(cooldown, s, exit.at)
    case TakeProfit => AfterProfit(cooldown, s, exit.at)
    case TrailingStop => AfterProfit(cooldown, s, exit.at)
    case RebalanceSell => AfterRebalance(cooldown, s, exit.at)
    case DailyPnlBrake => AfterBrake(cooldown, s, exit.at)
    case ManualOrReconciled => AfterOther(cooldown, s, exit.at)
    case UnknownReason => AfterOther(cooldown, s, exit.at)
  }

  function Evaluate(entries: int, rules: BuyRules, s: Situation): ReentryDecision {
    if s.residualQty > 0 then Refuse(RESIDUAL)
    else
      match s.exit
      case None => if AtDailyLimit(entries, rules) then Refuse(DAILY_LIMIT) else Allow(NO_EXIT)
      case Some(exit) =>
        var decision := AfterExit(MaxReal(rules.rebuyCooldownMinutes, 0.0), s, exit);
        if decision.allowed && AtDailyLimit(entries, rules) then Refuse(DAILY_LIMIT) else decision
  }

  /** The decision the BUY flow puts to the guard. */
  function Decide(v: StateView, symbol: Symbol, rules: BuyRules, s: Situation): ReentryDecision {
    Evaluate(Entries(v, symbol), rules, s)
  }

  // ----- what the decision guarantees -----

  /** Whatever else speaks for it, a symbol at its daily limit is not bought again. */
  lemma AllowedIsBelowLimit(entries: int, rules: BuyRules, s: Situation)
    requires Evaluate(entries, rules, s).allowed
    ensures !AtDailyLimit(entries, rules) && s.residualQty <= 0
  {
  }

  lemma {:induction false} DayHasSign(x: real)
    ensures x < 0.0 ==> Day(x) <= 0.0
    ensures x >= 0.0 ==> Day(x) >= 0.0
    decreases if x < 0.0 then 1 + (-x).Floor else if x < MINUTES_PER_DAY then 0 else x.Floor
  {
    if x < 0.0 {
      if x + MINUTES_PER_DAY < 0.0 {
        DayHasSign(x + MINUTES_PER_DAY);
      }
    } else if x >= MINUTES_PER_DAY {
      DayHasSign(x - MINUTES_PER_DAY);
    }
  }

  lemma {:induction false} DayIsMonotone(x: real, y: real)
    requires x <= y
    ensures Day(x) <= Day(y)
    decreases if x < 0.0 then 1 + (-x).Floor else if x < MINUTES_PER_DAY then 0 else x.Floor
  {
    DayHasSign(x);
    DayHasSign(y);
    if x < 0.0 && y < 0.0 {
      DayIsMonotone(x + MINUTES_PER_DAY, y + MINUTES_PER_DAY);
    } else if x >= MINUTES_PER_DAY {
      DayIsMonotone(x - MINUTES_PER_DAY, y - MINUTES_PER_DAY);
    }
  }

  /** Waiting never turns a yes into a no: what is allowed now is allowed later, all else being equal. */
  lemma WaitingNeverHurts(entries: int, rules: BuyRules, s: Situation, later: real)
    requires s.now <= later && (s.exit.Some? && s.exit.value.at.At? ==> s.exit.value.at.minute <= s.now)
    requires Evaluate(entries, rules, s).allowed
    ensures Evaluate(entries, rules, s.(now := later)).allowed
  {
    if s.exit.Some? && s.exit.value.at.At? {
      DayIsMonotone(s.exit.value.at.minute, s.now);
      DayIsMonotone(s.now, later);
    }
  }

  predicate StricterThan(strict: BuyRules, loose: BuyRules) {
    && loose.rebuyCooldownMinutes <= strict.rebuyCooldownMinutes
    && (loose.sameSymbolMaxBuysPerDay > 0 ==> 0 < strict.sameSymbolMaxBuysPerDay <= loose.sameSymbolMaxBuysPerDay)
  }

  lemma FloorsInOrder(x: real, y: real)
    requires x <= y
    ensures x.Floor <= y.Floor
  {
    assert x.Floor as real <= x && y < (y.Floor + 1) as real;
  }

  lemma HalvesInOrder(x: real, y: real)
    requires x <= y
    ensures HalfOf(x) <= HalfOf(y)
  {
    FloorsInOrder(x / 2.0, y / 2.0);
    var i, j := (x / 2.0).Floor, (y / 2.0).Floor;
    assert i <= j ==> i as real <= j as real;
  }

  /** A longer cooldown and a smaller positive limit never allow what was refused. */
  lemma StricterAllowsLess(entries: int, loose: BuyRules, strict: BuyRules, s: Situation)
    requires StricterThan(strict, loose) && Evaluate(entries, strict, s).allowed
    ensures Evaluate(entries, loose, s).allowed
  {
    HalvesInOrder(MaxReal(loose.rebuyCooldownMinutes, 0.0), MaxReal(strict.rebuyCooldownMinutes, 0.0));
  }

  /**
   * After a stop loss a fresh setup needs no waiting time beyond the floor of its day; what it has not waited for is
   * reported as allowed by the time that has passed.
   */
  lemma FreshSetupNeedsNoWait(entries: int, rules: BuyRules, s: Situation, at: real)
    requires s.residualQty <= 0 && s.freshSetup && s.exit == Some(Exit(StopLoss, At(at))) && at <= s.now
    ensures
      var (decision, half) := (Evaluate(entries, rules, s), HalfOf(MaxReal(rules.rebuyCooldownMinutes, 0.0)));
      var pastFloor := Day(at) == Day(s.now) ==> s.now - at >= s.stopLossFloor;
      && (decision.allowed <==> !s.riskOff && !AtDailyLimit(entries, rules) && pastFloor)
      && (decision == Allow(TIME_DECAY) <==> decision.allowed && s.now - at < MaxReal(half, 10.0))
  {
  }

  // ----- the decision, exit by exit -----

  /** So many minutes have passed since then, which a time that cannot be read leaves open. */
  predicate HasWaited(at: Stamp, now: real, minutes: real) {
    at.At? && (minutes <= 0.0 || now - at.minute >= minutes)
  }

  /** On the day of a stop loss the symbol rests for a while. */
  predicate RestsToday(s: Situation, at: Stamp) {
    at.At? && Day(at.minute) == Day(s.now) && !HasWaited(at, s.now, s.stopLossFloor)
  }

  /** After a profit a fresh setup waits half as long, and not at all if nobody knows since when. */
  predicate ProfitPermits(cooldown: real, s: Situation, at: Stamp) {
    s.freshSetup
    && (!at.At? || (HasWaited(at, s.now, 5.0) && HasWaited(at, s.now, (cooldown / 2.0).Floor as real)))
  }

  /** What each kind of exit asks for, with `cooldown` minutes to wait in general. */
  predicate ExitPermits(cooldown: real, s: Situation, exit: Exit) {
    var at := exit.at;
    var wholly, twice := HasWaited(at, s.now, cooldown), HasWaited(at, s.now, cooldown + cooldown);
    var half := HasWaited(at, s.now, (cooldown / 2.0).Floor as real);
    match exit.reason
    case StopLoss =>
      at.At? && !RestsToday(s, at) && !s.riskOff && (s.freshSetup || (twice && HasWaited(at, s.now, 30.0)))
    case TakeProfit => ProfitPermits(cooldown, s, at) || (wholly && HasWaited(at, s.now, 5.0))
    case TrailingStop => ProfitPermits(cooldown, s, at) || (wholly && HasWaited(at, s.now, 5.0))
    case RebalanceSell =>
      (s.freshSetup && half && HasWaited(at, s.now, 10.0)) || (wholly && HasWaited(at, s.now, 15.0))
    case DailyPnlBrake => !s.buyPaused && !s.riskOff && s.freshSetup && twice && HasWaited(at, s.now, 30.0)
    case ManualOrReconciled => wholly
    case UnknownReason => wholly
  }

  /** Why an exit does not permit another BUY. */
  function RefusedState(s: Situation, exit: Exit): string {
    if exit.reason.DailyPnlBrake? then "blocked_hard_guard"
    else if !exit.reason.StopLoss? then "blocked_churn_risk"
    else if RestsToday(s, exit.at) then "blocked_same_day_stop_loss_reentry"
    else if s.riskOff then "blocked_hard_guard"
    else "blocked_recent_stop_loss"
  }

  /** By what right a symbol is bought again: a fresh setup that has waited long enough, or the time that has passed. */
  function PermittedState(cooldown: real, s: Situation, exit: Exit): string {
    var half := HasWaited(exit.at, s.now, (cooldown / 2.0).Floor as real);
    match exit.reason
    case StopLoss =>
      if s.freshSetup && half && HasWaited(exit.at, s.now, 10.0)
      then "allowed_fresh_setup_after_stop" else "allowed_after_time_decay"
    case TakeProfit =>
      if ProfitPermits(cooldown, s, exit.at) then "allowed_after_profit_exit" else "allowed_after_time_decay"
    case TrailingStop =>
      if ProfitPermits(cooldown, s, exit.at) then "allowed_after_profit_exit" else "allowed_after_time_decay"
    case _ => "allowed_after_time_decay"
  }

  lemma HalfIsLess(cooldown: real)
    requires cooldown >= 0.0
    ensures 0.0 <= HalfOf(cooldown) <= cooldown
  {
    FloorsInOrder(0.0, cooldown / 2.0);
  }

  lemma ExitDecides(cooldown: real, s: Situation, exit: Exit)
    requires cooldown >= 0.0
    ensures AfterExit(cooldown, s, exit)
      == if ExitPermits(cooldown, s, exit) then ReentryDecision(true, PermittedState(cooldown, s, exit))
         else ReentryDecision(false, RefusedState(s, exit))
  {
    HalfIsLess(cooldown);
    match exit.reason
    case StopLoss =>
    case TakeProfit =>
    case TrailingStop =>
    case RebalanceSell =>
    case _ =>
  }

  /** A symbol may be bought again iff nothing of it is left, its limit is not reached and its last exit permits it. */
  lemma AllowedIff(entries: int, rules: BuyRules, s: Situation)
    ensures
      var cooldown := if rules.rebuyCooldownMinutes > 0.0 then rules.rebuyCooldownMinutes else 0.0;
      Evaluate(entries, rules, s).allowed <==>
        && s.residualQty <= 0 && (rules.sameSymbolMaxBuysPerDay <= 0 || entries < rules.sameSymbolMaxBuysPerDay)
        && (s.exit.Some? ==> ExitPermits(cooldown, s, s.exit.value))
  {
    if s.exit.Some? {
      ExitDecides(MaxReal(rules.rebuyCooldownMinutes, 0.0), s, s.exit.value);
    }
  }

  /** The state that is reported names what speaks against the symbol, or why it may be bought. */
  lemma StateMeans(entries: int, rules: BuyRules, s: Situation)
    ensures
      var cooldown := if rules.rebuyCooldownMinutes > 0.0 then rules.rebuyCooldownMinutes else 0.0;
      var (allowed, state) := (Evaluate(entries, rules, s).allowed, Evaluate(entries, rules, s).state);
      if s.residualQty > 0 then state == "blocked_residual_position"
      else if s.exit.None? then state == if allowed then "allowed_no_recent_exit" else "blocked_daily_limit_fallback"
      else if !ExitPermits(cooldown, s, s.exit.value) then state == RefusedState(s, s.exit.value)
      else state == if allowed then PermittedState(cooldown, s, s.exit.value) else "blocked_daily_limit_fallback"
  {
    if s.exit.Some? {
      ExitDecides(MaxReal(rules.rebuyCooldownMinutes, 0.0), s, s.exit.value);
    }
  }
}
