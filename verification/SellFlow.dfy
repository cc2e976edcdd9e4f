/**
 * The order part of a SELL: a try block around one broker call, whose handlers give the reservation back whatever was
 * raised. What the outside world answers, and what raises, is part of the trial.
 */
module SellFlows {
  import opened Prelude
  import opened RuntimeStates
  import opened OrderGuards
  import opened SellProtocol
  import opened OneTriggerRule

  datatype Event = Submitted | Sent | Succeeded | Failed | GivenBack

  /** The broker's answer; a call that fails may have reached the broker all the same. */
  datatype Answer = ApiError(reached: bool) | OtherError(reached: bool) | Rejected | Accepted

  datatype Order = Order(symbol: Symbol, qty: int, trigger: string, fullClose: bool, isRebalance: bool)

  datatype Trial = Trial(
    logRaises: bool,         // writing the submission to the log, before anything is reserved
    submittedAt: real,
    noteRaises: bool,        // telling others about the submission
    granted: bool,           // two requests of the budget
    answer: Answer,
    answerLogRaises: bool,   // writing the answer to the log, before it is recorded
    answeredAt: real,
    outcomeNoteRaises: bool, // telling others about the outcome
    handlerLogRaises: bool,  // writing the failure to the log in a handler, before it is recorded
    failedAt: real)

  /** What the try block raised: an error of the broker's interface or any other one. */
  datatype Raised = Nothing | Interface | Other

  predicate IsSent(t: Trial) {
    !t.logRaises && !t.noteRaises && t.granted
  }

  /** The broker works on the order. */
  predicate AtBroker(t: Trial) {
    IsSent(t) && match t.answer
      case ApiError(reached) => reached
      case OtherError(reached) => reached
      case Rejected => false
      case Accepted => true
  }

  /** The broker's answer has come and is recorded in the try block. */
  predicate AnswerRecorded(t: Trial) {
    IsSent(t) && (t.answer.Rejected? || t.answer.Accepted?) && !t.answerLogRaises
  }

  predicate FailureRecordedInTry(t: Trial) {
    AnswerRecorded(t) && t.answer.Rejected?
  }

  predicate Raises(t: Trial) {
    !IsSent(t) || t.answer != Accepted || t.answerLogRaises || t.outcomeNoteRaises
  }

  /** A handler records the failure, unless that was done or its own log raises. */
  predicate HandlerRecords(t: Trial) {
    Raises(t) && !FailureRecordedInTry(t) && !t.handlerLogRaises
  }

  /** The trace when the try block is left. */
  function TriedTrace(t: Trial): seq<Event> {
    if t.logRaises then []
    else if !IsSent(t) then [Submitted]
    else if !AnswerRecorded(t) then [Submitted, Sent]
    else if t.answer.Rejected? then [Submitted, Sent, Failed]
    else [Submitted, Sent, Succeeded]
  }

  function TrialTrace(t: Trial): seq<Event> {
    TriedTrace(t) + (if Raises(t) then [GivenBack] else []) + (if HandlerRecords(t) then [Failed] else [])
  }

  // ----- the state -----

  function WithReservationBack(v: StateView, o: Order, at: real): StateView {
    v.(pending := WithResolved(v.pending, o.symbol, o.qty, false, at))
  }

  function WithFailure(v: StateView, o: Order, at: real): StateView {
    Recorded(v, o.symbol, o.qty, SellFailed, at)
  }

  function WithSuccess(v: StateView, o: Order, at: real): StateView {
    Recorded(v, o.symbol, o.qty, SellSucceeded, at).(
      soldToday := if o.fullClose then UniqueAppend(v.soldToday, o.symbol) else v.soldToday,
      rebalanceSellsToday := v.rebalanceSellsToday + if o.isRebalance then 1 else 0)
  }

  /** The state once the submission is noted down, if it is. */
  function Noted(v: StateView, o: Order, t: Trial): StateView {
    if t.logRaises then v else WithSellSubmitted(v, o.symbol, o.qty, o.trigger, t.submittedAt)
  }

  /** The state once the answer is recorded, if it is. */
  function Answered(v: StateView, o: Order, t: Trial): StateView {
    if !AnswerRecorded(t) then v
    else if t.answer.Rejected? then WithFailure(v, o, t.answeredAt)
    else WithSuccess(v, o, t.answeredAt)
  }

  /** The state once the handlers are through, if they were called. */
  function Handled(v: StateView, o: Order, t: Trial): StateView {
    if !Raises(t) then v
    else
      var back := WithReservationBack(v, o, t.failedAt);
      if HandlerRecords(t) then WithFailure(back, o, t.failedAt) else back
  }

  /** The state when the try block is left. */
  function StateAfterTry(v: StateView, o: Order, t: Trial): StateView {
    Answered(Noted(v, o, t), o, t)
  }

  function StateAfterTrial(v: StateView, o: Order, t: Trial): StateView {
    Handled(StateAfterTry(v, o, t), o, t)
  }

  class SellFlow {
    const state: RuntimeState
    var log: seq<Event>

    constructor (state: RuntimeState)
      ensures this.state == state && log == []
    {
      this.state, log := state, [];
    }

    method LogFailure(o: Order, at: real)
      modifies this`log, state
      ensures log == old(log) + [Failed] && state.View() == WithFailure(old(state.View()), o, at)
    {
      log := log + [Failed];
      state.AddRecentOrder(SellSide, o.symbol, o.qty, SellFailed, None, at);
    }

    method LogSuccess(o: Order, at: real)
      modifies this`log, state
      ensures log == old(log) + [Succeeded] && state.View() == WithSuccess(old(state.View()), o, at)
    {
      log := log + [Succeeded];
      state.AddRecentOrder(SellSide, o.symbol, o.qty, SellSucceeded, None, at);
      if o.fullClose {
        state.MarkSoldSymbol(o.symbol);
      }
      if o.isRebalance {
        state.MarkRebalanceSellSubmission();
      }
    }

    method GiveBack(o: Order, at: real)
      modifies this`log, state
      ensures log == old(log) + [GivenBack] && state.View() == WithReservationBack(old(state.View()), o, at)
    {
      log := log + [GivenBack];
      state.ResolveSellIntent(o.symbol, o.qty, false, at);
    }

    /** The try block: what it raised, and whether the failure is already logged. */
    method TryOrder(o: Order, t: Trial) returns (raised: Raised, failureAlreadyLogged: bool)
      modifies this`log, state
      ensures raised == Nothing <==> !Raises(t)
      ensures failureAlreadyLogged == FailureRecordedInTry(t)
      ensures raised == Interface ==> !failureAlreadyLogged
      ensures log == old(log) + TriedTrace(t)
      ensures state.View() == StateAfterTry(old(state.View()), o, t)
    {
      failureAlreadyLogged := false;
      if t.logRaises {
        return Other, false;
      }
      log := log + [Submitted];
      NoteSellSubmission(state, o.symbol, o.qty, o.trigger, t.submittedAt);
      if t.noteRaises || !t.granted {
        return Other, false;
      }
      log := log + [Sent];
      match t.answer
      case ApiError(_) => return Interface, false;
      case OtherError(_) => return Other, false;
      case Rejected =>
        if t.answerLogRaises {
          return Other, false;
        }
        LogFailure(o, t.answeredAt);
        return Other, true;
      case Accepted =>
        if t.answerLogRaises {
          return Other, false;
        }
        LogSuccess(o, t.answeredAt);
        return if t.outcomeNoteRaises then Other else Nothing, false;
    }

    /** The try block with its handlers. */
    method SubmitOrder(o: Order, t: Trial) returns (raised: bool)
      modifies this`log, state
      ensures raised <==> Raises(t)
      ensures log == old(log) + TrialTrace(t)
      ensures state.View() == StateAfterTrial(old(state.View()), o, t)
    {
      var error, failureAlreadyLogged := TryOrder(o, t);
      raised := error != Nothing;
      if raised {
        GiveBack(o, t.failedAt);
        if (error == Interface || !failureAlreadyLogged) && !t.handlerLogRaises {
          LogFailure(o, t.failedAt);
        }
      }
    }
  }

  // ----- what becomes of the day's marks -----

  /**
   * An accepted and recorded full close marks the symbol as sold, a rebalance uses up one of the day; nothing else
   * does.
   */
  lemma SuccessMarks(v: StateView, o: Order, t: Trial, s: Symbol)
    ensures
      var (after, success) := (StateAfterTrial(v, o, t), AnswerRecorded(t) && t.answer.Accepted?);
      && (s in after.soldToday <==>
        s in v.soldToday || (success && o.fullClose && s == o.symbol && s != NO_SYMBOL))
      && after.rebalanceSellsToday == v.rebalanceSellsToday + if success && o.isRebalance then 1 else 0
  {
  }

  // ----- what becomes of the reservation -----

  /** After the flow the order is reserved, the reservation is as before, or an older one has shrunk. */
  lemma ReservationAfterTrial(v: StateView, o: Order, t: Trial)
    requires Shaped(v.pending, o.symbol) && o.symbol != NO_SYMBOL && o.qty > 0
    ensures
      var (before, after) := (Reserved(v.pending, o.symbol), Reserved(StateAfterTrial(v, o, t).pending, o.symbol));
      after == if !Raises(t) then before + o.qty else if t.logRaises then Max(0, before - o.qty) else before
  {
    SubmittedReserves(v.pending, o.symbol, o.qty, At(t.submittedAt), o.trigger, o.symbol);
    var tried := StateAfterTry(v, o, t);
    assert tried.pending
      == if t.logRaises then v.pending else WithSubmitted(v.pending, o.symbol, o.qty, At(t.submittedAt), o.trigger);
    ResolvedReserves(tried.pending, o.symbol, o.qty, t.failedAt, o.symbol);
  }

  /**
   * The reservation covers what it covered before and the new order, if the broker works on it, exactly when nothing
   * was raised after the order had reached the broker, nor before it was reserved beside an older reservation.
   */
  lemma CoversIff(v: StateView, o: Order, t: Trial)
    requires Shaped(v.pending, o.symbol) && o.symbol != NO_SYMBOL && o.qty > 0
    ensures
      var (before, after) := (Reserved(v.pending, o.symbol), Reserved(StateAfterTrial(v, o, t).pending, o.symbol));
      after >= before + (if AtBroker(t) then o.qty else 0)
      <==> !(AtBroker(t) && Raises(t)) && !(t.logRaises && before > 0)
  {
    ReservationAfterTrial(v, o, t);
  }

  predicate IsOutcome(e: Event) {
    e == Succeeded || e == Failed
  }

  function Outcomes(trace: seq<Event>): nat {
    if trace == [] then 0 else (if IsOutcome(trace[0]) then 1 else 0) + Outcomes(trace[1..])
  }

  lemma {:induction false} OutcomesAdd(a: seq<Event>, b: seq<Event>)
    ensures Outcomes(a + b) == Outcomes(a) + Outcomes(b)
  {
    if a == [] {
      assert a + b == b;
    } else {
      assert (a + b)[1..] == a[1..] + b;
      OutcomesAdd(a[1..], b);
    }
  }

  lemma OutcomesOfOne(e: Event)
    ensures Outcomes([e]) == if IsOutcome(e) then 1 else 0
  {
    assert [e][1..] == [];
    assert Outcomes([]) == 0;
  }

  lemma OutcomesTried(t: Trial)
    ensures Outcomes(TriedTrace(t)) == if AnswerRecorded(t) then 1 else 0
  {
    OutcomesOfOne(Submitted);
    OutcomesOfOne(Sent);
    OutcomesAdd([Submitted], [Sent]);
    if AnswerRecorded(t) {
      var answer := if t.answer.Rejected? then Failed else Succeeded;
      OutcomesOfOne(answer);
      OutcomesAdd([Submitted] + [Sent], [answer]);
      assert TriedTrace(t) == [Submitted] + [Sent] + [answer];
    }
  }

  /**
   * The reservation is given back exactly when the flow raises, also after a recorded success. A SELL has at most two
   * recorded outcomes: none exactly when no answer is recorded and the handler's log raises, and two exactly when
   * telling about a recorded success raises and the handler's log does not.
   */
  lemma OutcomesOfTrial(t: Trial)
    ensures
      var trace := TrialTrace(t);
      && (GivenBack in trace <==> Raises(t)) && (Sent in trace <==> IsSent(t))
      && Outcomes(trace) <= 2
      && (Outcomes(trace) == 0 <==> !AnswerRecorded(t) && t.handlerLogRaises)
      && (Outcomes(trace) == 2 <==>
        AnswerRecorded(t) && t.answer.Accepted? && t.outcomeNoteRaises && !t.handlerLogRaises)
  {
    var back := if Raises(t) then [GivenBack] else [];
    var recorded := if HandlerRecords(t) then [Failed] else [];
    OutcomesTried(t);
    OutcomesAdd(TriedTrace(t), back);
    OutcomesAdd(TriedTrace(t) + back, recorded);
    OutcomesOfOne(GivenBack);
    OutcomesOfOne(Failed);
    assert Outcomes(back) == 0 && Outcomes(recorded) == |recorded|;
  }

  // ----- the flow as steps of the protocol -----

  /** What the broker makes of the submission; one that never reaches it is as good as rejected. */
  function BrokerStep(o: Order, t: Trial): Step {
    if AtBroker(t) then BrokerAccepts(o.symbol) else BrokerRejects(o.symbol)
  }

  function FirstSteps(o: Order, rules: SellRules, t: Trial): seq<Step> {
    if t.logRaises then [] else [Submit(o.symbol, o.qty, rules, o.trigger, t.submittedAt), BrokerStep(o, t)]
  }

  function AnswerSteps(o: Order, t: Trial): seq<Step> {
    if !AnswerRecorded(t) then []
    else if t.answer.Rejected? then [RecordFailure(o.symbol, o.qty, t.answeredAt)]
    else [RecordSuccess(o.symbol, o.qty, t.answeredAt)]
  }

  function HandlerSteps(o: Order, t: Trial): seq<Step>
    requires o.qty >= 0
  {
    (if Raises(t) then [Resolve(o.symbol, o.qty, t.failedAt)] else [])
    + (if HandlerRecords(t) then [RecordFailure(o.symbol, o.qty, t.failedAt)] else [])
  }

  /** The protocol's account of a trial. */
  function StepsOf(o: Order, rules: SellRules, t: Trial): seq<Step>
    requires o.qty >= 0
  {
    FirstSteps(o, rules, t) + (AnswerSteps(o, t) + HandlerSteps(o, t))
  }

  predicate InTime(w: World, t: Trial) {
    w.now <= t.submittedAt <= t.answeredAt <= t.failedAt
  }

  /** The sell is admitted, unless it comes to nothing before it is submitted, and nothing else of it is under way. */
  ghost predicate Starts(w: World, o: Order, rules: SellRules, t: Trial) {
    && (!t.logRaises ==> Enabled(w, Submit(o.symbol, o.qty, rules, o.trigger, t.submittedAt)))
    && BookOf(w, o.symbol).awaiting == BookOf(w, o.symbol).rejected == 0
  }

  /** What was rejected once the broker has the order or not. */
  function RejectedOf(o: Order, t: Trial): int {
    if t.logRaises || AtBroker(t) then 0 else o.qty
  }

  function AfterSubmit(b: Book, o: Order): Book
    requires o.qty >= 0
  {
    b.(awaiting := b.awaiting + o.qty, unsaved := b.unsaved + o.qty)
  }

  function AfterAnswer(b: Book, t: Trial): Book {
    if AtBroker(t) then b.(awaiting := 0, live := b.live + b.awaiting)
    else b.(awaiting := 0, rejected := b.rejected + b.awaiting)
  }

  /** Nothing is at work unless the broker took the order. */
  predicate IdleUnlessTaken(b: Book, t: Trial) {
    !AtBroker(t) ==> !Busy(b)
  }

  predicate ClearedIfAccepted(b: Book, t: Trial) {
    AnswerRecorded(t) && t.answer.Accepted? ==> b.awaiting == b.rejected == 0
  }

  lemma AnsweredIsCleared(b: Book, o: Order, t: Trial)
    requires b.awaiting == b.rejected == 0 && o.qty > 0 && !t.logRaises
    ensures AfterAnswer(AfterSubmit(b, o), t).rejected == RejectedOf(o, t)
    ensures ClearedIfAccepted(AfterAnswer(AfterSubmit(b, o), t), t)
    ensures !Busy(b) ==> IdleUnlessTaken(AfterAnswer(AfterSubmit(b, o), t), t)
  {
  }

  lemma SubmitRuns(w: World, o: Order, rules: SellRules, t: Trial)
    requires o.qty > 0 && !t.logRaises && Enabled(w, Submit(o.symbol, o.qty, rules, o.trigger, t.submittedAt))
    ensures
      var mid := Apply(w, Submit(o.symbol, o.qty, rules, o.trigger, t.submittedAt));
      && mid.state == Noted(w.state, o, t) && mid.now == t.submittedAt && mid.saved == w.saved
      && BookOf(mid, o.symbol) == AfterSubmit(BookOf(w, o.symbol), o)
  {
  }

  lemma BrokerRuns(mid: World, o: Order, t: Trial)
    requires BookOf(mid, o.symbol).awaiting > 0 && !t.logRaises
    ensures Enabled(mid, BrokerStep(o, t))
    ensures
      var end := Apply(mid, BrokerStep(o, t));
      && end.state == mid.state && end.saved == mid.saved && end.now == mid.now
      && BookOf(end, o.symbol) == AfterAnswer(BookOf(mid, o.symbol), t)
  {
  }

  lemma SubmissionRuns(w: World, o: Order, rules: SellRules, t: Trial)
    requires o.qty > 0 && !t.logRaises && BookOf(w, o.symbol).awaiting == BookOf(w, o.symbol).rejected == 0
    requires Enabled(w, Submit(o.symbol, o.qty, rules, o.trigger, t.submittedAt))
    ensures
      var steps := FirstSteps(o, rules, t);
      && Run(w, steps) && After(w, steps).state == Noted(w.state, o, t) && After(w, steps).now == t.submittedAt
      && ClearedIfAccepted(BookOf(After(w, steps), o.symbol), t)
      && BookOf(After(w, steps), o.symbol).rejected == RejectedOf(o, t)
      && (!Busy(BookOf(w, o.symbol)) ==> IdleUnlessTaken(BookOf(After(w, steps), o.symbol), t))
  {
    var submit, broker := Submit(o.symbol, o.qty, rules, o.trigger, t.submittedAt), BrokerStep(o, t);
    SubmitRuns(w, o, rules, t);
    BrokerRuns(Apply(w, submit), o, t);
    AnsweredIsCleared(BookOf(w, o.symbol), o, t);
    RunOfTwo(w, submit, broker);
  }

  lemma SuccessRuns(v: World, o: Order, at: real)
    requires v.now <= at && BookOf(v, o.symbol).awaiting == BookOf(v, o.symbol).rejected == 0
    ensures
      var step := RecordSuccess(o.symbol, o.qty, at);
      && Enabled(v, step) && AgreeForSells(Apply(v, step).state, WithSuccess(v.state, o, at))
      && Apply(v, step).now == at
  {
  }

  lemma FailureRuns(v: World, o: Order, at: real)
    requires v.now <= at
    ensures
      var step := RecordFailure(o.symbol, o.qty, at);
      && Enabled(v, step) && Apply(v, step).state == WithFailure(v.state, o, at) && Apply(v, step).now == at
  {
  }

  lemma AnswerRuns(v: World, o: Order, t: Trial)
    requires v.now <= t.answeredAt && t.answeredAt <= t.failedAt && ClearedIfAccepted(BookOf(v, o.symbol), t)
    ensures Run(v, AnswerSteps(o, t))
    ensures After(v, AnswerSteps(o, t)).now <= t.failedAt
    ensures AgreeForSells(After(v, AnswerSteps(o, t)).state, Answered(v.state, o, t))
    ensures BookOf(After(v, AnswerSteps(o, t)), o.symbol) == BookOf(v, o.symbol)
  {
    if FailureRecordedInTry(t) {
      FailureRuns(v, o, t.answeredAt);
      RunOfOne(v, RecordFailure(o.symbol, o.qty, t.answeredAt));
    } else if AnswerRecorded(t) {
      SuccessRuns(v, o, t.answeredAt);
      RunOfOne(v, RecordSuccess(o.symbol, o.qty, t.answeredAt));
    }
  }

  lemma SameBack(a: StateView, b: StateView, o: Order, at: real)
    requires AgreeForSells(a, b)
    ensures AgreeForSells(WithReservationBack(a, o, at), WithReservationBack(b, o, at))
    ensures AgreeForSells(WithFailure(a, o, at), WithFailure(b, o, at))
  {
  }

  lemma HandlerRuns(v: World, tried: StateView, o: Order, t: Trial)
    requires o.qty >= 0 && v.now <= t.failedAt && AgreeForSells(v.state, tried)
    ensures Run(v, HandlerSteps(o, t)) && AgreeForSells(After(v, HandlerSteps(o, t)).state, Handled(tried, o, t))
  {
    var steps := HandlerSteps(o, t);
    if Raises(t) {
      var resolved := Apply(v, Resolve(o.symbol, o.qty, t.failedAt));
      SameBack(v.state, tried, o, t.failedAt);
      SameBack(resolved.state, WithReservationBack(tried, o, t.failedAt), o, t.failedAt);
      if HandlerRecords(t) {
        RunOfTwo(v, Resolve(o.symbol, o.qty, t.failedAt), RecordFailure(o.symbol, o.qty, t.failedAt));
        assert steps == [Resolve(o.symbol, o.qty, t.failedAt), RecordFailure(o.symbol, o.qty, t.failedAt)];
      } else {
        RunOfOne(v, Resolve(o.symbol, o.qty, t.failedAt));
        assert steps == [Resolve(o.symbol, o.qty, t.failedAt)];
      }
    } else {
      assert steps == [];
    }
  }

  lemma FirstStepsRun(w: World, o: Order, rules: SellRules, t: Trial)
    requires o.qty > 0 && InTime(w, t) && Starts(w, o, rules, t)
    ensures
      var steps := FirstSteps(o, rules, t);
      && Run(w, steps) && After(w, steps).state == Noted(w.state, o, t) && After(w, steps).now <= t.answeredAt
      && ClearedIfAccepted(BookOf(After(w, steps), o.symbol), t)
      && BookOf(After(w, steps), o.symbol).rejected == RejectedOf(o, t)
      && (!Busy(BookOf(w, o.symbol)) ==> IdleUnlessTaken(BookOf(After(w, steps), o.symbol), t))
  {
    if !t.logRaises {
      SubmissionRuns(w, o, rules, t);
    }
  }

  lemma PartsJoin(w: World, a: seq<Step>, b: seq<Step>, c: seq<Step>)
    requires Run(w, a) && Run(After(w, a), b) && Run(After(After(w, a), b), c)
    ensures Run(w, a + (b + c)) && After(w, a + (b + c)) == After(After(After(w, a), b), c)
  {
    RunJoins(After(w, a), b, c);
    RunJoins(w, a, b + c);
  }

  lemma QuietParts(o: Order, rules: SellRules, t: Trial)
    ensures forall i :: 0 <= i < |FirstSteps(o, rules, t)| ==> IsQuiet(FirstSteps(o, rules, t)[i])
    ensures forall i :: 0 <= i < |AnswerSteps(o, t)| ==> IsQuiet(AnswerSteps(o, t)[i])
  {
  }

  lemma PartsKeep(w: World, a: seq<Step>, b: seq<Step>, c: seq<Step>)
    requires Run(w, a) && Run(After(w, a), b) && Run(After(After(w, a), b), c)
    requires (forall i :: 0 <= i < |a| ==> IsQuiet(a[i])) && forall i :: 0 <= i < |b| ==> IsQuiet(b[i])
    ensures Run(w, a + (b + c))
    ensures KeepsReservations(w, a + (b + c)) <==> KeepsReservations(After(After(w, a), b), c)
  {
    PartsJoin(w, a, b, c);
    RunJoins(After(w, a), b, c);
    QuietKeeps(w, a);
    QuietKeeps(After(w, a), b);
    KeepsJoins(After(w, a), b, c);
    KeepsJoins(w, a, b + c);
  }

  /** The protocol's world when the try block is left. */
  lemma TriedRuns(w: World, o: Order, rules: SellRules, t: Trial) returns (tried: World)
    requires o.qty > 0 && InTime(w, t) && Starts(w, o, rules, t)
    ensures Run(w, FirstSteps(o, rules, t)) && Run(After(w, FirstSteps(o, rules, t)), AnswerSteps(o, t))
    ensures tried == After(After(w, FirstSteps(o, rules, t)), AnswerSteps(o, t))
    ensures tried.now <= t.failedAt && AgreeForSells(tried.state, StateAfterTry(w.state, o, t))
    ensures BookOf(tried, o.symbol) == BookOf(After(w, FirstSteps(o, rules, t)), o.symbol)
    ensures BookOf(tried, o.symbol).rejected == RejectedOf(o, t)
    ensures !Busy(BookOf(w, o.symbol)) ==> IdleUnlessTaken(BookOf(tried, o.symbol), t)
    ensures IsTrusted(tried.state.trust) == IsTrusted(w.state.trust)
  {
    FirstStepsRun(w, o, rules, t);
    var v := After(w, FirstSteps(o, rules, t));
    AnswerRuns(v, o, t);
    tried := After(v, AnswerSteps(o, t));
  }

  /** Every trial is a run of the protocol, whatever raises, so what is proved of its runs holds of the flow. */
  lemma TrialIsProtocol(w: World, o: Order, rules: SellRules, t: Trial)
    requires o.qty > 0 && InTime(w, t) && Starts(w, o, rules, t)
    ensures Run(w, StepsOf(o, rules, t))
    ensures AgreeForSells(After(w, StepsOf(o, rules, t)).state, StateAfterTrial(w.state, o, t))
  {
    var tried := TriedRuns(w, o, rules, t);
    HandlerRuns(tried, StateAfterTry(w.state, o, t), o, t);
    PartsJoin(w, FirstSteps(o, rules, t), AnswerSteps(o, t), HandlerSteps(o, t));
  }

  lemma ResolveKeepsIff(v: World, o: Order, t: Trial)
    requires o.qty > 0 && v.now <= t.failedAt && IsTrusted(v.state.trust) && Run(v, HandlerSteps(o, t))
    ensures KeepsReservations(v, HandlerSteps(o, t)) <==> (Raises(t) ==> o.qty <= BookOf(v, o.symbol).rejected)
  {
    var steps := HandlerSteps(o, t);
    if Raises(t) {
      assert steps[0] == Resolve(o.symbol, o.qty, t.failedAt);
      assert forall i :: 0 <= i < |steps[1..]| ==> IsQuiet(steps[1..][i]);
      QuietKeeps(Apply(v, steps[0]), steps[1..]);
    }
  }

  lemma GivesBackRejectedIff(o: Order, t: Trial)
    requires o.qty > 0
    ensures (Raises(t) ==> o.qty <= RejectedOf(o, t)) <==> !t.logRaises && !(AtBroker(t) && Raises(t))
  {
  }

  /**
   * The flow keeps to what the protocol asks of it, and so never oversells by itself, exactly when nothing is raised
   * before the order is reserved, nor once the broker works on it.
   */
  lemma KeepsReservationsIff(w: World, o: Order, rules: SellRules, t: Trial)
    requires o.qty > 0 && InTime(w, t) && Starts(w, o, rules, t) && IsTrusted(w.state.trust)
    ensures Run(w, StepsOf(o, rules, t))
    ensures KeepsReservations(w, StepsOf(o, rules, t)) <==> !t.logRaises && !(AtBroker(t) && Raises(t))
  {
    var tried := TriedRuns(w, o, rules, t);
    HandlerRuns(tried, StateAfterTry(w.state, o, t), o, t);
    QuietParts(o, rules, t);
    PartsKeep(w, FirstSteps(o, rules, t), AnswerSteps(o, t), HandlerSteps(o, t));
    ResolveKeepsIff(tried, o, t);
    GivesBackRejectedIff(o, t);
  }

  // ----- the flow under the one-trigger rule -----

  /** Under the rule nothing is at work for a symbol that admits a sell. */
  lemma AdmittedIsIdle(w: World, step: Step)
    requires step.Submit? && Abides(step) && Enabled(w, step)
    requires CoveredAt(w, step.symbol) && SteadyAt(w, step.symbol)
    ensures !Busy(BookOf(w, step.symbol)) && Reserved(w.state.pending, step.symbol) == 0
  {
    EnabledAdmits(w, step);
  }

  lemma {:induction false} ErrsJoin(w: World, a: seq<Step>, b: seq<Step>)
    requires Run(w, a) && Run(After(w, a), b) && NeverErrs(w, a) && NeverErrs(After(w, a), b)
    ensures Run(w, a + b) && NeverErrs(w, a + b)
    decreases |a|
  {
    RunJoins(w, a, b);
    if a == [] {
      assert a + b == b;
    } else {
      var joined, next := a + b, Apply(w, a[0]);
      assert joined[0] == a[0] && joined[1..] == a[1..] + b;
      ErrsJoin(next, a[1..], b);
    }
  }

  lemma FirstStepsAreTrue(w: World, o: Order, rules: SellRules, t: Trial)
    requires Run(w, FirstSteps(o, rules, t))
    ensures NeverErrs(w, FirstSteps(o, rules, t))
  {
    var steps := FirstSteps(o, rules, t);
    if steps != [] {
      var next := Apply(w, steps[0]);
      assert steps[1..] == [steps[1]] && [steps[1]][1..] == [];
      assert NeverErrs(Apply(next, steps[1]), []);
      assert NeverErrs(next, [steps[1]]);
    }
  }

  lemma OneIsTrue(v: World, step: Step)
    requires Enabled(v, step) && GivesBackRejected(v, step) && FailsTruly(v, step)
    ensures Run(v, [step]) && NeverErrs(v, [step])
  {
    RunOfOne(v, step);
    assert [step][1..] == [];
    assert NeverErrs(Apply(v, step), []);
  }

  lemma AnswerIsTrue(v: World, o: Order, t: Trial)
    requires o.qty > 0 && Run(v, AnswerSteps(o, t)) && BookOf(v, o.symbol).rejected == RejectedOf(o, t)
    ensures NeverErrs(v, AnswerSteps(o, t))
  {
    if AnswerRecorded(t) {
      OneIsTrue(v, AnswerSteps(o, t)[0]);
    }
  }

  lemma HandlersAreTrue(v: World, o: Order, t: Trial)
    requires o.qty > 0 && v.now <= t.failedAt && Raises(t) && !t.logRaises && !AtBroker(t)
    requires BookOf(v, o.symbol).rejected == o.qty && !Busy(BookOf(v, o.symbol))
    ensures Run(v, HandlerSteps(o, t)) && NeverErrs(v, HandlerSteps(o, t))
  {
    var resolve, record := Resolve(o.symbol, o.qty, t.failedAt), RecordFailure(o.symbol, o.qty, t.failedAt);
    OneIsTrue(v, resolve);
    if HandlerRecords(t) {
      OneIsTrue(Apply(v, resolve), record);
      ErrsJoin(v, [resolve], [record]);
      assert HandlerSteps(o, t) == [resolve] + [record];
    } else {
      assert HandlerSteps(o, t) == [resolve];
    }
  }

  lemma PartsAreTrue(w: World, a: seq<Step>, b: seq<Step>, c: seq<Step>)
    requires Run(w, a) && Run(After(w, a), b) && Run(After(After(w, a), b), c)
    requires NeverErrs(w, a) && NeverErrs(After(w, a), b) && NeverErrs(After(After(w, a), b), c)
    ensures Run(w, a + (b + c)) && NeverErrs(w, a + (b + c))
  {
    ErrsJoin(After(w, a), b, c);
    RunJoins(After(w, a), b, c);
    ErrsJoin(w, a, b + c);
  }

  lemma HandlersAreTrueIfCalled(v: World, o: Order, t: Trial)
    requires o.qty > 0 && v.now <= t.failedAt && !t.logRaises && !(AtBroker(t) && Raises(t))
    requires BookOf(v, o.symbol).rejected == RejectedOf(o, t) && IdleUnlessTaken(BookOf(v, o.symbol), t)
    ensures Run(v, HandlerSteps(o, t)) && NeverErrs(v, HandlerSteps(o, t))
  {
    if Raises(t) {
      HandlersAreTrue(v, o, t);
    }
  }

  lemma IdleFlowNeverErrs(w: World, o: Order, rules: SellRules, t: Trial)
    requires o.qty > 0 && InTime(w, t) && Starts(w, o, rules, t)
    requires !t.logRaises && !(AtBroker(t) && Raises(t)) && !Busy(BookOf(w, o.symbol))
    ensures Run(w, StepsOf(o, rules, t)) && NeverErrs(w, StepsOf(o, rules, t))
  {
    var tried := TriedRuns(w, o, rules, t);
    FirstStepsAreTrue(w, o, rules, t);
    AnswerIsTrue(After(w, FirstSteps(o, rules, t)), o, t);
    HandlersAreTrueIfCalled(tried, o, t);
    PartsAreTrue(w, FirstSteps(o, rules, t), AnswerSteps(o, t), HandlerSteps(o, t));
  }

  /**
   * Under the one-trigger rule, a flow that raises neither too early nor too late gives nothing back and calls nothing
   * a failure that the broker still works on: it asks for nothing the rule's guarantee does not allow.
   */
  lemma OrderlyFlowNeverErrs(w: World, o: Order, rules: SellRules, t: Trial)
    requires o.qty > 0 && InTime(w, t) && Starts(w, o, rules, t)
    requires !t.logRaises && !(AtBroker(t) && Raises(t)) && rules.oneTriggerPerSymbolPerDay
    requires CoveredAt(w, o.symbol) && SteadyAt(w, o.symbol)
    ensures Run(w, StepsOf(o, rules, t)) && NeverErrs(w, StepsOf(o, rules, t))
  {
    AdmittedIsIdle(w, Submit(o.symbol, o.qty, rules, o.trigger, t.submittedAt));
    IdleFlowNeverErrs(w, o, rules, t);
  }
}
