/** The limits on buying the same symbol again, over whole runs of a trading day with its saves and reloads. */
module BuyReentry {
  import opened Prelude
  import opened RuntimeStates
  import opened OrderGuards
  import opened OrderHistory
  import opened ReentryDecisions
  import opened Runs
  import opened SafetyStates

  datatype Session = Session(state: StateView, disk: Stored, scope: Scope, now: real)

  /** A BUY asks for a re-entry decision beforehand, or puts the guard alone to the question. */
  datatype Step =
    | Submit(symbol: Symbol, qty: int, rules: BuyRules, situation: Option<Situation>, at: real)
    | OtherRecord(record: OrderRecord)
    | Save(outcome: SaveOutcome)
    | Reload
    | StartOver(today: Date)

  /** What all rules of a run keep to; they may change with the market and be tuned in between. */
  datatype Bounds = Bounds(maxBuys: int, minutes: real)

  predicate KeepsTo(rules: BuyRules, b: Bounds) {
    && (b.maxBuys > 0 ==> 0 < rules.sameSymbolMaxBuysPerDay <= b.maxBuys)
    && (b.minutes > 0.0 ==> b.minutes <= rules.rebuyCooldownMinutes)
  }

  predicate Obeys(step: Step, b: Bounds) {
    step.Submit? ==> KeepsTo(step.rules, b)
  }

  /** A BUY submission of a symbol on a day, as the order history shows it. */
  function Submissions(day: Date, symbol: Symbol): Filter {
    Filter(day, BuySide, symbol, None, Some({OrderSubmitted}))
  }

  predicate IsBuySubmission(o: OrderRecord) {
    o.side == BuySide && o.action == OrderSubmitted
  }

  function WithSubmission(v: StateView, symbol: Symbol, qty: int, at: real): StateView {
    WithRecorded(v.(lastBuyAttempt := Attempt(BuySignature(symbol, qty), At(at))), BuySide, symbol, qty, OrderSubmitted,
                 None, at)
  }

  function DecisionFor(v: StateView, symbol: Symbol, rules: BuyRules, situation: Option<Situation>)
    : Option<ReentryDecision>
  {
    match situation
    case None => None
    case Some(s) => Some(Decide(v, symbol, rules, s))
  }

  /** A BUY is submitted only when the guard lets it pass at the same moment. */
  predicate Enabled(d: Session, step: Step) {
    match step
    case Submit(symbol, qty, rules, situation, at) =>
      && at >= d.now
      && BuyGuard(d.state, symbol, qty, rules, DecisionFor(d.state, symbol, rules, situation), at) == Allowed
    case OtherRecord(r) => r.stamp.At? && r.stamp.minute >= d.now && !IsBuySubmission(r)
    case Save(_) => true
    case Reload => true
    case StartOver(today) => today != d.scope.today && (d.disk.File? ==> d.disk.state.tradingDay != today)
  }

  /** The file as the next day finds it. */
  function LeftOver(stored: Stored): Stored {
    if stored.File? then stored.(modifiedToday := false) else stored
  }

  function Apply(d: Session, step: Step): Session
    requires Enabled(d, step)
  {
    match step
    case Submit(symbol, qty, _, _, at) => d.(state := WithSubmission(d.state, symbol, qty, at), now := at)
    case OtherRecord(r) =>
      d.(state := d.state.(recentOrders := Appended(d.state.recentOrders, r)), now := r.stamp.minute)
    case Save(outcome) => d.(disk := Saved(d.disk, d.state, d.scope, outcome))
    case Reload => d.(state := Loaded(d.disk, d.scope))
    case StartOver(today) =>
      var scope, disk := d.scope.(today := today), LeftOver(d.disk);
      Session(Loaded(disk, scope), disk, scope, d.now)
  }

  // ----- what is kept -----

  predicate FewAt(v: StateView, b: Bounds, day: Date, symbol: Symbol) {
    b.maxBuys > 0 ==> CountMatching(v.recentOrders, Submissions(day, symbol)) <= b.maxBuys
  }

  predicate CountedAt(v: StateView, day: Date, symbol: Symbol) {
    CountMatching(v.recentOrders, Submissions(day, symbol)) <= Entries(v, symbol)
  }

  predicate SameBuy(a: OrderRecord, b: OrderRecord) {
    IsBuySubmission(a) && IsBuySubmission(b) && a.day == b.day && a.symbol == b.symbol
  }

  predicate Apart(a: OrderRecord, b: OrderRecord, minutes: real) {
    SameBuy(a, b) && a.stamp.At? && b.stamp.At? ==> b.stamp.minute - a.stamp.minute > minutes
  }

  ghost predicate SpacedOut(orders: seq<OrderRecord>, minutes: real) {
    minutes > 0.0 ==> forall i, j :: 0 <= i < j < |orders| ==> Apart(orders[i], orders[j], minutes)
  }

  /** The limits hold in the whole history, and the daily counter never falls behind it. */
  ghost predicate Within(v: StateView, now: real, b: Bounds) {
    && InOrder(v.recentOrders) && UpTo(v.recentOrders, now)
    && SpacedOut(v.recentOrders, b.minutes)
    && (forall day, s :: FewAt(v, b, day, s))
    && (forall day, s :: CountedAt(v, day, s))
  }

  /** So it is in memory, and so it would be after a reload. */
  ghost predicate AllWithin(d: Session, b: Bounds) {
    Within(d.state, d.now, b) && Within(Loaded(d.disk, d.scope), d.now, b)
  }

  // ----- counting and looking back -----

  lemma CountOfAppended(orders: seq<OrderRecord>, o: OrderRecord, f: Filter)
    ensures CountMatching(orders + [o], f) == CountMatching(orders, f) + if Matches(o, f) then 1 else 0
  {
    assert (orders + [o])[..|orders|] == orders;
  }

  lemma {:induction false} CountOfDropped(orders: seq<OrderRecord>, k: nat, f: Filter)
    requires k <= |orders|
    ensures CountMatching(orders[k..], f) <= CountMatching(orders, f)
  {
    if k < |orders| {
      var n := |orders| - 1;
      CountOfDropped(orders[..n], k, f);
      assert orders[k..][..n - k] == orders[..n][k..];
    }
  }

  lemma CountOfKept(orders: seq<OrderRecord>, o: OrderRecord, f: Filter)
    ensures CountMatching(Appended(orders, o), f) <= CountMatching(orders, f) + if Matches(o, f) then 1 else 0
  {
    CountOfAppended(orders, o, f);
    if |orders + [o]| > RECENT_ORDERS_CAP {
      CountOfDropped(orders + [o], |orders + [o]| - RECENT_ORDERS_CAP, f);
    }
  }

  lemma {:induction false} EntriesIncludeSubmissions(orders: seq<OrderRecord>, symbol: Symbol, now: real)
    ensures CountMatching(orders, Submissions(Day(now), symbol))
      <= CountMatching(orders, BuyEntries(symbol, now))
  {
    if orders != [] {
      EntriesIncludeSubmissions(orders[..|orders| - 1], symbol, now);
    }
  }

  /** In a history in the order of time, the last readable match is the latest one. */
  lemma {:induction false} LastReadableIsLatest(orders: seq<OrderRecord>, f: Filter, i: nat)
    requires InOrder(orders) && i < |orders| && Matches(orders[i], f)
    ensures LastReadable(orders, f).Some? && orders[i].stamp.minute <= LastReadable(orders, f).value
  {
    var n := |orders| - 1;
    if i < n && !Matches(orders[n], f) {
      LastReadableIsLatest(orders[..n], f, i);
    }
  }

  // ----- every step keeps the limits -----

  lemma KeptSpacedOut(orders: seq<OrderRecord>, o: OrderRecord, minutes: real)
    requires SpacedOut(orders, minutes)
    requires minutes > 0.0 ==> forall i :: 0 <= i < |orders| ==> Apart(orders[i], o, minutes)
    ensures SpacedOut(Appended(orders, o), minutes)
  {
    var all := orders + [o];
    assert SpacedOut(all, minutes);
    if |all| > RECENT_ORDERS_CAP {
      var k := |all| - RECENT_ORDERS_CAP;
      assert forall i :: 0 <= i < |all[k..]| ==> all[k..][i] == all[k + i];
    }
  }

  function Submission(symbol: Symbol, qty: int, at: real): OrderRecord {
    OrderRecord(At(at), Day(at), BuySide, symbol, qty, OrderSubmitted)
  }

  /** A BUY past the cooldown of the last entry comes more than the cooldown after every earlier one of the day. */
  lemma SubmissionIsApart(orders: seq<OrderRecord>, symbol: Symbol, qty: int, at: real, minutes: real, i: nat)
    requires InOrder(orders) && i < |orders|
    requires
      var last := LastReadable(orders, BuyEntries(symbol, at));
      last.Some? ==> at - last.value > minutes
    ensures Apart(orders[i], Submission(symbol, qty, at), minutes)
  {
    if SameBuy(orders[i], Submission(symbol, qty, at)) {
      LastReadableIsLatest(orders, BuyEntries(symbol, at), i);
    }
  }

  lemma SubmissionKeepsFew(
    orders: seq<OrderRecord>, symbol: Symbol, qty: int, at: real, max: int, day: Date, s: Symbol)
    requires CountMatching(orders, Submissions(day, s)) <= max && CountMatching(orders, BuyEntries(symbol, at)) < max
    ensures CountMatching(Appended(orders, Submission(symbol, qty, at)), Submissions(day, s)) <= max
  {
    var o := Submission(symbol, qty, at);
    CountOfKept(orders, o, Submissions(day, s));
    if Matches(o, Submissions(day, s)) {
      EntriesIncludeSubmissions(orders, symbol, at);
    }
  }

  lemma RecordedIs(v: StateView, symbol: Symbol, qty: int, at: real)
    ensures
      var next := WithSubmission(v, symbol, qty, at);
      && next.recentOrders == Appended(v.recentOrders, Submission(symbol, qty, at))
      && next.buyEntriesToday == v.buyEntriesToday[symbol := Entries(v, symbol) + 1]
      && next.trust == v.trust && next.tradingDay == v.tradingDay
  {
  }

  lemma SubmissionCounts(orders: seq<OrderRecord>, symbol: Symbol, qty: int, at: real, day: Date, s: Symbol)
    ensures CountMatching(Appended(orders, Submission(symbol, qty, at)), Submissions(day, s))
      <= CountMatching(orders, Submissions(day, s)) + if s == symbol then 1 else 0
  {
    CountOfKept(orders, Submission(symbol, qty, at), Submissions(day, s));
  }

  lemma SubmissionKeepsCounted(v: StateView, next: StateView, symbol: Symbol, qty: int, at: real, day: Date, s: Symbol)
    requires CountedAt(v, day, s)
    requires next.recentOrders == Appended(v.recentOrders, Submission(symbol, qty, at))
    requires next.buyEntriesToday == v.buyEntriesToday[symbol := Entries(v, symbol) + 1]
    ensures CountedAt(next, day, s)
  {
    SubmissionCounts(v.recentOrders, symbol, qty, at, day, s);
  }

  lemma SubmitKeepsWithin(d: Session, step: Step, b: Bounds)
    requires step.Submit? && Within(d.state, d.now, b) && Enabled(d, step) && Obeys(step, b)
    ensures Within(Apply(d, step).state, step.at, b)
  {
    var orders, next, minutes := d.state.recentOrders, Apply(d, step), b.minutes;
    var o := Submission(step.symbol, step.qty, step.at);
    RecordedIs(d.state, step.symbol, step.qty, step.at);
    BuyAdmitted(d.state, step.symbol, step.qty, step.rules,
                DecisionFor(d.state, step.symbol, step.rules, step.situation), step.at);
    KeptInOrder(orders, o);
    if minutes > 0.0 {
      forall i | 0 <= i < |orders|
        ensures Apart(orders[i], o, minutes)
      {
        SubmissionIsApart(orders, step.symbol, step.qty, step.at, minutes, i);
      }
    }
    KeptSpacedOut(orders, o, minutes);
    forall day, s
      ensures FewAt(next.state, b, day, s) && CountedAt(next.state, day, s)
    {
      assert FewAt(d.state, b, day, s) && CountedAt(d.state, day, s);
      SubmissionKeepsCounted(d.state, next.state, step.symbol, step.qty, step.at, day, s);
      if b.maxBuys > 0 {
        SubmissionKeepsFew(orders, step.symbol, step.qty, step.at, b.maxBuys, day, s);
      }
    }
  }

  lemma OtherKeepsWithin(d: Session, step: Step, b: Bounds)
    requires step.OtherRecord? && Within(d.state, d.now, b) && Enabled(d, step)
    ensures Within(Apply(d, step).state, step.record.stamp.minute, b)
  {
    var next, orders := Apply(d, step), d.state.recentOrders;
    KeptInOrder(orders, step.record);
    KeptSpacedOut(orders, step.record, b.minutes);
    forall day, s
      ensures FewAt(next.state, b, day, s) && CountedAt(next.state, day, s)
    {
      assert FewAt(d.state, b, day, s) && CountedAt(d.state, day, s);
      CountOfKept(orders, step.record, Submissions(day, s));
    }
  }

  /** Without a history everything is within its limits. */
  lemma NothingIsWithin(v: StateView, now: real, b: Bounds)
    requires v.recentOrders == [] && v.buyEntriesToday == map[]
    ensures Within(v, now, b)
  {
    assert forall day, s :: FewAt(v, b, day, s);
    assert forall day, s :: CountedAt(v, day, s);
  }

  /** History and counter alone decide. */
  lemma SameHistoryIsWithin(v: StateView, w: StateView, now: real, later: real, b: Bounds)
    requires Within(v, now, b) && now <= later
    requires w.recentOrders == v.recentOrders && w.buyEntriesToday == v.buyEntriesToday
    ensures Within(w, later, b)
  {
    forall day, s
      ensures FewAt(w, b, day, s) && CountedAt(w, day, s)
    {
      assert FewAt(v, b, day, s) && CountedAt(v, day, s);
    }
  }

  lemma SaveKeepsWithin(d: Session, step: Step, b: Bounds)
    requires step.Save? && AllWithin(d, b)
    ensures AllWithin(Apply(d, step), b)
  {
    var next := Apply(d, step);
    var loaded := Loaded(next.disk, next.scope);
    LoadedHistory(next.disk, next.scope);
    if step.outcome.Written? {
      if loaded.recentOrders == [] && loaded.buyEntriesToday == map[] {
        NothingIsWithin(loaded, d.now, b);
      } else {
        SameHistoryIsWithin(d.state, loaded, d.now, d.now, b);
      }
    } else if step.outcome.Torn? {
      NothingIsWithin(loaded, d.now, b);
    }
  }

  /** A new day starts with nothing, whatever went before. */
  lemma NewDayIsEmpty(d: Session, step: Step)
    requires step.StartOver? && Enabled(d, step)
    ensures
      var next := Apply(d, step);
      && next.state == Loaded(next.disk, next.scope)
      && next.state.recentOrders == [] && next.state.buyEntriesToday == map[]
  {
  }

  /** A day starts over with nothing and full trust, unless the file is unreadable or of another account. */
  lemma NewDayIsTrusted(d: Session, today: Date)
    requires d.scope.today != today && (d.disk.File? ==> d.disk.state.tradingDay != today)
    requires d.disk.Missing? || (d.disk.File? && d.disk.state.accountSignature in {"", d.scope.signature})
    ensures Enabled(d, StartOver(today))
    ensures
      var next := Apply(d, StartOver(today));
      next.scope == d.scope.(today := today) && IsTrusted(next.state.trust) && IsBlank(next.state, next.scope)
  {
  }

  lemma StepKeepsWithin(d: Session, step: Step, b: Bounds)
    requires AllWithin(d, b) && Enabled(d, step) && Obeys(step, b)
    ensures AllWithin(Apply(d, step), b)
  {
    var next, loaded := Apply(d, step), Loaded(d.disk, d.scope);
    match step
    case Submit(_, _, _, _, _) =>
      SubmitKeepsWithin(d, step, b);
      SameHistoryIsWithin(loaded, loaded, d.now, next.now, b);
    case OtherRecord(_) =>
      OtherKeepsWithin(d, step, b);
      SameHistoryIsWithin(loaded, loaded, d.now, next.now, b);
    case Save(_) => SaveKeepsWithin(d, step, b);
    case Reload =>
    case StartOver(_) =>
      NewDayIsEmpty(d, step);
      NothingIsWithin(next.state, next.now, b);
  }

  predicate Run(d: Session, steps: seq<Step>)
    decreases |steps|
  {
    steps == [] || (Enabled(d, steps[0]) && Run(Apply(d, steps[0]), steps[1..]))
  }

  function After(d: Session, steps: seq<Step>): Session
    requires Run(d, steps)
    decreases |steps|
  {
    if steps == [] then d else After(Apply(d, steps[0]), steps[1..])
  }

  /** However buys, other records, saves and reloads interleave, the history never shows a limit broken. */
  lemma {:induction false} RunStaysWithin(d: Session, steps: seq<Step>, b: Bounds)
    requires AllWithin(d, b) && Run(d, steps) && forall i :: 0 <= i < |steps| ==> Obeys(steps[i], b)
    ensures AllWithin(After(d, steps), b)
    decreases |steps|
  {
    if steps != [] {
      StepKeepsWithin(d, steps[0], b);
      RunStaysWithin(Apply(d, steps[0]), steps[1..], b);
    }
  }

  // ----- the daily limit -----

  /** The BUY flow asks for a re-entry decision before every order. */
  predicate Asks(step: Step) {
    step.Submit? ==> step.situation.Some?
  }

  predicate AsksWithin(step: Step, max: int) {
    Asks(step) && Obeys(step, Bounds(max, 0.0))
  }

  predicate CounterWithin(d: Session, s: Symbol, max: int) {
    Entries(d.state, s) <= max && Entries(Loaded(d.disk, d.scope), s) <= max
  }

  lemma AskedIsBelowLimit(d: Session, step: Step, max: int)
    requires step.Submit? && max > 0 && Enabled(d, step) && AsksWithin(step, max)
    ensures IsTrusted(d.state.trust) && Entries(d.state, step.symbol) < max
  {
    var decision := DecisionFor(d.state, step.symbol, step.rules, step.situation);
    BuyAdmitted(d.state, step.symbol, step.qty, step.rules, decision, step.at);
    AllowedIsBelowLimit(Entries(d.state, step.symbol), step.rules, step.situation.value);
  }

  lemma StepKeepsCounter(d: Session, step: Step, s: Symbol, max: int)
    requires max > 0 && CounterWithin(d, s, max) && Enabled(d, step) && AsksWithin(step, max)
    ensures CounterWithin(Apply(d, step), s, max)
  {
    var next := Apply(d, step);
    match step
    case Submit(symbol, qty, _, _, at) =>
      RecordedIs(d.state, symbol, qty, at);
      AskedIsBelowLimit(d, step, max);
    case Save(_) => LoadedHistory(next.disk, next.scope);
    case StartOver(_) => NewDayIsEmpty(d, step);
    case _ =>
  }

  /** As long as every BUY asks first, no run takes the daily counter past the limit, whatever leaves the history. */
  lemma {:induction false} CounterStaysWithin(d: Session, steps: seq<Step>, s: Symbol, max: int)
    requires max > 0 && CounterWithin(d, s, max)
    requires Run(d, steps) && forall i :: 0 <= i < |steps| ==> AsksWithin(steps[i], max)
    ensures CounterWithin(After(d, steps), s, max)
    decreases |steps|
  {
    if steps != [] {
      StepKeepsCounter(d, steps[0], s, max);
      CounterStaysWithin(Apply(d, steps[0]), steps[1..], s, max);
    }
  }

  /** How often a symbol has been bought since the day started over, `n` times before this run. */
  function Bought(n: nat, steps: seq<Step>, s: Symbol): nat
    decreases |steps|
  {
    if steps == [] then n else Bought(BoughtNext(n, steps[0], s), steps[1..], s)
  }

  function BoughtNext(n: nat, step: Step, s: Symbol): nat {
    if step.StartOver? then 0 else if step.Submit? && step.symbol == s then n + 1 else n
  }

  /** Between a BUY and the next reload the state is saved, or the file torn; `dirty` says that neither has happened. */
  predicate SavesInTime(steps: seq<Step>, dirty: bool) {
    steps == [] || ((steps[0].Reload? ==> !dirty) && SavesInTime(steps[1..], DirtyNext(steps[0], dirty)))
  }

  predicate DirtyNext(step: Step, dirty: bool) {
    match step
    case Submit(_, _, _, _, _) => true
    case OtherRecord(_) => dirty
    case Save(outcome) => dirty && outcome.Untouched?
    case Reload => dirty
    case StartOver(_) => false
  }

  /** Saving in time: a new day, or a save that changes the file, comes between each BUY and a later reload. */
  lemma {:induction false} SavesInTimeIff(steps: seq<Step>, dirty: bool)
    ensures
      var reloads := (step: Step) => step.Reload?;
      var settles := (step: Step) => step.StartOver? || (step.Save? && !step.outcome.Untouched?);
      SavesInTime(steps, dirty) <==>
        && (dirty ==> IsSettled(steps, reloads, settles, -1))
        && forall i :: 0 <= i < |steps| && steps[i].Submit? ==> IsSettled(steps, reloads, settles, i)
    decreases |steps|
  {
    if steps != [] {
      var reloads := (step: Step) => step.Reload?;
      var settles := (step: Step) => step.StartOver? || (step.Save? && !step.outcome.Untouched?);
      var rest := steps[1..];
      SavesInTimeIff(rest, DirtyNext(steps[0], dirty));
      SettledFirst(steps, reloads, settles);
      forall i: nat
        ensures IsSettled(steps, reloads, settles, i) <==> IsSettled(rest, reloads, settles, i - 1)
      {
        SettledLater(steps, reloads, settles, i);
      }
      assert forall i :: 0 <= i < |rest| ==> rest[i] == steps[i + 1];
      assert forall i :: 0 < i < |steps| ==> steps[i] == rest[i - 1];
    }
  }

  predicate KnowsAll(v: StateView, s: Symbol, n: nat) {
    IsTrusted(v.trust) ==> n <= Entries(v, s)
  }

  /** The counter knows of all buys, and so does the file unless there is something to save. */
  predicate Knows(d: Session, s: Symbol, n: nat, dirty: bool) {
    KnowsAll(d.state, s, n) && (!dirty ==> KnowsAll(Loaded(d.disk, d.scope), s, n))
  }

  lemma StepKnows(d: Session, step: Step, s: Symbol, n: nat, dirty: bool)
    requires Knows(d, s, n, dirty) && Enabled(d, step) && (step.Reload? ==> !dirty)
    ensures Knows(Apply(d, step), s, BoughtNext(n, step, s), DirtyNext(step, dirty))
  {
    match step
    case Submit(symbol, qty, _, _, at) => RecordedIs(d.state, symbol, qty, at);
    case StartOver(_) => NewDayIsEmpty(d, step);
    case _ =>
  }

  /**
   * Nor does the day ever see more buys of a symbol than the limit, as long as every BUY asks first and the state is
   * saved, or the file left unreadable, between a BUY and the next reload.
   */
  lemma {:induction false} BuysStayWithin(d: Session, steps: seq<Step>, s: Symbol, n: nat, dirty: bool, max: int)
    requires max > 0 && n <= max && Knows(d, s, n, dirty) && SavesInTime(steps, dirty)
    requires Run(d, steps) && forall i :: 0 <= i < |steps| ==> AsksWithin(steps[i], max)
    ensures Bought(n, steps, s) <= max
    decreases |steps|
  {
    if steps != [] {
      var step := steps[0];
      if step.Submit? {
        AskedIsBelowLimit(d, step, max);
      }
      StepKnows(d, step, s, n, dirty);
      BuysStayWithin(Apply(d, step), steps[1..], s, BoughtNext(n, step, s), DirtyNext(step, dirty), max);
    }
  }

  // ----- what a lost save costs -----

  /** Nothing but the daily limit speaks against buying, as often as one likes. */
  predicate NoCooldowns(rules: BuyRules) {
    rules.rebuyCooldownMinutes == rules.orderCooldownMinutes == rules.blockedCooldownMinutes == 0.0
  }

  /** The decision asked for, if any, looks at nothing but the daily limit. */
  predicate NothingElse(situation: Option<Situation>) {
    situation.Some? ==> situation.value.residualQty <= 0 && situation.value.exit == None
  }

  function Buys(s: Symbol, rules: BuyRules, situation: Option<Situation>, at: real, n: nat): seq<Step> {
    if n == 0 then [] else Buys(s, rules, situation, at, n - 1) + [Submit(s, 1, rules, situation, at)]
  }

  lemma {:induction false} RunJoins(d: Session, a: seq<Step>, b: seq<Step>)
    requires Run(d, a) && Run(After(d, a), b)
    ensures Run(d, a + b) && After(d, a + b) == After(After(d, a), b)
    decreases |a|
  {
    if a == [] {
      assert a + b == b;
    } else {
      var joined, next := a + b, Apply(d, a[0]);
      assert joined[0] == a[0] && joined[1..] == a[1..] + b;
      RunJoins(next, a[1..], b);
      assert Run(next, joined[1..]) && After(next, joined[1..]) == After(After(d, a), b);
    }
  }

  lemma RunOfOne(d: Session, step: Step)
    requires Enabled(d, step)
    ensures Run(d, [step]) && After(d, [step]) == Apply(d, step)
  {
    assert [step][1..] == [];
    assert Run(Apply(d, step), []);
  }

  lemma RunGrows(d: Session, a: seq<Step>, step: Step)
    requires Run(d, a) && Enabled(After(d, a), step)
    ensures Run(d, a + [step]) && After(d, a + [step]) == Apply(After(d, a), step)
  {
    RunOfOne(After(d, a), step);
    RunJoins(d, a, [step]);
  }

  /** What a series of buys leaves behind. */
  predicate HasBought(d: Session, end: Session, s: Symbol, n: nat) {
    && end.now == d.now && end.state.trust == d.state.trust && end.disk == d.disk && end.scope == d.scope
    && Entries(end.state, s) == Entries(d.state, s) + n
    && CountMatching(end.state.recentOrders, BuyEntries(s, d.now))
      <= CountMatching(d.state.recentOrders, BuyEntries(s, d.now)) + n
  }

  lemma OneMoreBuy(d: Session, s: Symbol, rules: BuyRules, situation: Option<Situation>)
    requires IsTrusted(d.state.trust) && NoCooldowns(rules) && NothingElse(situation)
    requires CountMatching(d.state.recentOrders, BuyEntries(s, d.now)) < rules.sameSymbolMaxBuysPerDay
    requires situation.Some? ==> Entries(d.state, s) < rules.sameSymbolMaxBuysPerDay
    ensures
      var step := Submit(s, 1, rules, situation, d.now);
      Enabled(d, step) && HasBought(d, Apply(d, step), s, 1)
  {
    BuyAdmitted(d.state, s, 1, rules, DecisionFor(d.state, s, rules, situation), d.now);
    RecordedIs(d.state, s, 1, d.now);
    CountOfKept(d.state.recentOrders, Submission(s, 1, d.now), BuyEntries(s, d.now));
  }

  lemma {:induction false} BuysRun(d: Session, s: Symbol, rules: BuyRules, situation: Option<Situation>, n: nat)
    requires IsTrusted(d.state.trust) && NoCooldowns(rules) && NothingElse(situation)
    requires CountMatching(d.state.recentOrders, BuyEntries(s, d.now)) + n <= rules.sameSymbolMaxBuysPerDay
    requires situation.Some? ==> Entries(d.state, s) + n <= rules.sameSymbolMaxBuysPerDay
    ensures Run(d, Buys(s, rules, situation, d.now, n))
    ensures HasBought(d, After(d, Buys(s, rules, situation, d.now, n)), s, n)
  {
    if n > 0 {
      BuysRun(d, s, rules, situation, n - 1);
      var before := After(d, Buys(s, rules, situation, d.now, n - 1));
      OneMoreBuy(before, s, rules, situation);
      RunGrows(d, Buys(s, rules, situation, d.now, n - 1), Submit(s, 1, rules, situation, d.now));
    }
  }

  lemma {:induction false} BoughtGrows(n: nat, steps: seq<Step>, step: Step, s: Symbol)
    ensures Bought(n, steps + [step], s) == BoughtNext(Bought(n, steps, s), step, s)
    decreases |steps|
  {
    if steps == [] {
      assert [step][1..] == [];
    } else {
      assert (steps + [step])[1..] == steps[1..] + [step];
      BoughtGrows(BoughtNext(n, steps[0], s), steps[1..], step, s);
    }
  }

  lemma {:induction false} BuysAreBought(
    n: nat, first: Step, s: Symbol, rules: BuyRules, situation: Option<Situation>, at: real, k: nat)
    requires first.Reload?
    ensures Bought(n, [first] + Buys(s, rules, situation, at, k), s) == n + k
  {
    if k == 0 {
      assert [first] + Buys(s, rules, situation, at, k) == [first];
      assert Bought(n, [first][1..], s) == n;
    } else {
      var before, step := [first] + Buys(s, rules, situation, at, k - 1), Submit(s, 1, rules, situation, at);
      BuysAreBought(n, first, s, rules, situation, at, k - 1);
      BoughtGrows(n, before, step, s);
      assert before + [step] == [first] + Buys(s, rules, situation, at, k);
    }
  }

  /**
   * After a reload the symbol can be bought as often as the file's counter is short of the limit, which takes the day
   * past the limit exactly when the file does not know of all the `n` buys there were.
   */
  lemma LostSaveExceedsIff(
    d: Session, s: Symbol, rules: BuyRules, situation: Option<Situation>, n: nat)
    requires NoCooldowns(rules) && NothingElse(situation) && situation.Some?
    requires
      var loaded := Loaded(d.disk, d.scope);
      && IsTrusted(loaded.trust)
      && CountMatching(loaded.recentOrders, BuyEntries(s, d.now)) <= Entries(loaded, s) <= rules.sameSymbolMaxBuysPerDay
    ensures
      var known := Entries(Loaded(d.disk, d.scope), s);
      var steps := [Reload] + Buys(s, rules, situation, d.now, rules.sameSymbolMaxBuysPerDay - known);
      && Run(d, steps) && Entries(After(d, steps).state, s) == rules.sameSymbolMaxBuysPerDay
      && (Bought(n, steps, s) > rules.sameSymbolMaxBuysPerDay <==> n > known)
  {
    var more := rules.sameSymbolMaxBuysPerDay - Entries(Loaded(d.disk, d.scope), s);
    RunOfOne(d, Reload);
    BuysRun(Apply(d, Reload), s, rules, situation, more);
    RunJoins(d, [Reload], Buys(s, rules, situation, d.now, more));
    BuysAreBought(n, Reload, s, rules, situation, d.now, more);
  }

  // ----- the guard alone -----

  /** The record a step writes. */
  function RecordOf(step: Step): Option<OrderRecord> {
    match step
    case Submit(symbol, qty, _, _, at) => Some(Submission(symbol, qty, at))
    case OtherRecord(r) => Some(r)
    case _ => None
  }

  function LogNext(log: seq<OrderRecord>, step: Step): seq<OrderRecord> {
    match RecordOf(step)
    case Some(o) => log + [o]
    case None => if step.StartOver? then [] else log
  }

  /** All records since the day started over, also those that have left the history. */
  function LogAfter(log: seq<OrderRecord>, steps: seq<Step>): seq<OrderRecord>
    decreases |steps|
  {
    if steps == [] then log else LogAfter(LogNext(log, steps[0]), steps[1..])
  }

  /** A step of a single day that reloads nothing. */
  predicate OnDay(step: Step, day: Date) {
    !step.Reload? && (step.Submit? ==> Day(step.at) == day)
  }

  /** The history is the end of the day's log, and the daily counter counts all of the log. */
  ghost predicate Logged(d: Session, log: seq<OrderRecord>, day: Date) {
    && d.state.recentOrders == Last(log, RECENT_ORDERS_CAP)
    && forall s :: CountsAll(d.state, log, day, s)
  }

  predicate CountsAll(v: StateView, log: seq<OrderRecord>, day: Date, s: Symbol) {
    Entries(v, s) == CountMatching(log, Submissions(day, s))
  }

  lemma LastOfAppended(log: seq<OrderRecord>, o: OrderRecord)
    ensures Appended(Last(log, RECENT_ORDERS_CAP), o) == Last(log + [o], RECENT_ORDERS_CAP)
  {
  }

  lemma RecordLogs(d: Session, step: Step, log: seq<OrderRecord>, day: Date)
    requires Logged(d, log, day) && Enabled(d, step) && OnDay(step, day) && RecordOf(step).Some?
    ensures Logged(Apply(d, step), LogNext(log, step), day)
  {
    var next, o := Apply(d, step), RecordOf(step).value;
    LastOfAppended(log, o);
    if step.Submit? {
      RecordedIs(d.state, step.symbol, step.qty, step.at);
    }
    forall s
      ensures CountsAll(next.state, log + [o], day, s)
    {
      assert CountsAll(d.state, log, day, s);
      CountOfAppended(log, o, Submissions(day, s));
    }
  }

  lemma StepLogs(d: Session, step: Step, log: seq<OrderRecord>, day: Date)
    requires Logged(d, log, day) && Enabled(d, step) && OnDay(step, day)
    ensures Logged(Apply(d, step), LogNext(log, step), day)
  {
    match step
    case Submit(_, _, _, _, _) => RecordLogs(d, step, log, day);
    case OtherRecord(_) => RecordLogs(d, step, log, day);
    case Save(_) =>
    case StartOver(_) =>
      NewDayIsEmpty(d, step);
      assert forall s :: CountsAll(Apply(d, step).state, [], day, s);
    case Reload => assert false;
  }

  lemma {:induction false} RunLogs(d: Session, steps: seq<Step>, log: seq<OrderRecord>, day: Date)
    requires Logged(d, log, day) && Run(d, steps) && forall i :: 0 <= i < |steps| ==> OnDay(steps[i], day)
    ensures Logged(After(d, steps), LogAfter(log, steps), day)
    decreases |steps|
  {
    if steps != [] {
      StepLogs(d, steps[0], log, day);
      RunLogs(Apply(d, steps[0]), steps[1..], LogNext(log, steps[0]), day);
    }
  }

  /** The submissions of a symbol that have left the history. */
  function Forgotten(log: seq<OrderRecord>, day: Date, s: Symbol): nat {
    CountMatching(log[..|log| - |Last(log, RECENT_ORDERS_CAP)|], Submissions(day, s))
  }

  lemma {:induction false} CountOfJoined(a: seq<OrderRecord>, b: seq<OrderRecord>, f: Filter)
    ensures CountMatching(a + b, f) == CountMatching(a, f) + CountMatching(b, f)
  {
    if b == [] {
      assert a + b == a;
    } else {
      CountOfJoined(a, b[..|b| - 1], f);
      assert (a + b)[..|a + b| - 1] == a + b[..|b| - 1];
    }
  }

  /** The daily counter is what the history shows plus what it has forgotten. */
  lemma CounterSplits(d: Session, log: seq<OrderRecord>, day: Date, s: Symbol)
    requires Logged(d, log, day)
    ensures Entries(d.state, s)
      == CountMatching(d.state.recentOrders, Submissions(day, s)) + Forgotten(log, day, s)
  {
    var kept := Last(log, RECENT_ORDERS_CAP);
    assert CountsAll(d.state, log, day, s);
    assert log == log[..|log| - |kept|] + kept;
    CountOfJoined(log[..|log| - |kept|], kept, Submissions(day, s));
  }

  /**
   * A BUY that the guard alone admits takes the day's submissions of its symbol past the limit exactly when as many of
   * them have left the history as the history is short of the limit; one that asks first never does.
   */
  lemma PastLimitIff(d: Session, step: Step, log: seq<OrderRecord>, day: Date)
    requires Logged(d, log, day) && step.Submit? && Enabled(d, step) && OnDay(step, day)
    requires step.rules.sameSymbolMaxBuysPerDay > 0
    ensures
      var (limit, shown) := (step.rules.sameSymbolMaxBuysPerDay,
                             CountMatching(d.state.recentOrders, Submissions(day, step.symbol)));
      && shown < limit
      && (Entries(Apply(d, step).state, step.symbol) > limit <==> Forgotten(log, day, step.symbol) >= limit - shown)
      && (Asks(step) ==> Forgotten(log, day, step.symbol) < limit - shown)
  {
    CounterSplits(d, log, day, step.symbol);
    BuyAdmitted(d.state, step.symbol, step.qty, step.rules,
                DecisionFor(d.state, step.symbol, step.rules, step.situation), step.at);
    EntriesIncludeSubmissions(d.state.recentOrders, step.symbol, step.at);
    RecordedIs(d.state, step.symbol, step.qty, step.at);
    if Asks(step) {
      AskedIsBelowLimit(d, step, step.rules.sameSymbolMaxBuysPerDay);
    }
  }

  /** A day whose records all fit into the history keeps to the limit by the guard alone. */
  lemma FewRecordsKeepTheLimit(d: Session, today: Date, steps: seq<Step>, day: Date, s: Symbol, max: int)
    requires Run(d, [StartOver(today)] + steps) && forall i :: 0 <= i < |steps| ==> OnDay(steps[i], day)
    requires max > 0 && forall i :: 0 <= i < |steps| ==> Obeys(steps[i], Bounds(max, 0.0))
    requires |LogAfter([], steps)| <= RECENT_ORDERS_CAP
    ensures Entries(After(d, [StartOver(today)] + steps).state, s) <= max
  {
    var b, start := Bounds(max, 0.0), Apply(d, StartOver(today));
    assert ([StartOver(today)] + steps)[1..] == steps;
    NewDayIsEmpty(d, StartOver(today));
    NothingIsWithin(start.state, start.now, b);
    RunStaysWithin(start, steps, b);
    assert forall x :: CountsAll(start.state, [], day, x);
    RunLogs(start, steps, [], day);
    var end := After(start, steps);
    assert FewAt(end.state, b, day, s) && CountsAll(end.state, LogAfter([], steps), day, s);
  }

  lemma {:induction false} NothingToFind(orders: seq<OrderRecord>, f: Filter)
    requires forall i :: 0 <= i < |orders| ==> orders[i].symbol != f.symbol
    ensures CountMatching(orders, f) == 0 && LastReadable(orders, f) == None
  {
    if orders != [] {
      NothingToFind(orders[..|orders| - 1], f);
    }
  }

  function Others(r: OrderRecord, n: nat): seq<Step> {
    if n == 0 then [] else Others(r, n - 1) + [OtherRecord(r)]
  }

  lemma {:induction false} OthersRun(d: Session, r: OrderRecord, n: nat)
    requires r.stamp == At(d.now) && !IsBuySubmission(r)
    ensures Run(d, Others(r, n))
    ensures After(d, Others(r, n)) == d.(state := d.state.(recentOrders := Flooded(d.state.recentOrders, r, n)))
  {
    if n > 0 {
      OthersRun(d, r, n - 1);
      RunGrows(d, Others(r, n - 1), OtherRecord(r));
    }
  }

  /** Some record of another symbol. */
  function Noise(now: real, other: Symbol): OrderRecord {
    OrderRecord(At(now), Day(now), SellSide, other, 1, OtherAction("blocked"))
  }

  /** A new day with as many buys as the limit allows and fifty other records. */
  function FullDay(now: real, today: Date, rules: BuyRules, s: Symbol, other: Symbol): seq<Step>
    requires rules.sameSymbolMaxBuysPerDay > 0
  {
    [StartOver(today)] + Buys(s, rules, None, now, rules.sameSymbolMaxBuysPerDay)
    + Others(Noise(now, other), RECENT_ORDERS_CAP)
  }

  /**
   * The guard alone would not bound a day's buys: for every positive limit there is such a day after which it admits
   * one more. Whatever re-entry decision is asked for refuses that one.
   */
  lemma GuardAloneExceeds(d: Session, today: Date, rules: BuyRules, s: Symbol, other: Symbol)
    requires Enabled(d, StartOver(today)) && IsTrusted(Apply(d, StartOver(today)).state.trust)
    requires NoCooldowns(rules) && rules.sameSymbolMaxBuysPerDay > 0 && s != other
    ensures
      var steps := FullDay(d.now, today, rules, s, other);
      && Run(d, steps) && Entries(After(d, steps).state, s) == rules.sameSymbolMaxBuysPerDay
      && Enabled(After(d, steps), Submit(s, 1, rules, None, d.now))
      && forall situation: Situation :: !Enabled(After(d, steps), Submit(s, 1, rules, Some(situation), d.now))
  {
    var limit, r := rules.sameSymbolMaxBuysPerDay, Noise(d.now, other);
    var start, buys := Apply(d, StartOver(today)), Buys(s, rules, None, d.now, limit);
    NewDayIsEmpty(d, StartOver(today));
    RunOfOne(d, StartOver(today));
    BuysRun(start, s, rules, None, limit);
    var bought := After(start, buys);
    RunJoins(d, [StartOver(today)], buys);
    OthersRun(bought, r, RECENT_ORDERS_CAP);
    RunJoins(d, [StartOver(today)] + buys, Others(r, RECENT_ORDERS_CAP));
    var full := After(bought, Others(r, RECENT_ORDERS_CAP));
    FloodFills(bought.state.recentOrders, r, RECENT_ORDERS_CAP);
    NothingToFind(full.state.recentOrders, BuyEntries(s, d.now));
    OneMoreBuy(full, s, rules, None);
    forall situation: Situation
      ensures !Enabled(full, Submit(s, 1, rules, Some(situation), d.now))
    {
      if Enabled(full, Submit(s, 1, rules, Some(situation), d.now)) {
        AskedIsBelowLimit(full, Submit(s, 1, rules, Some(situation), d.now), limit);
      }
    }
  }
}
