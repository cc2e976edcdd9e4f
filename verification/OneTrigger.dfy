/**
 * Why letting stale reservations go is safe under the rule "one sell trigger per symbol and day": a symbol whose
 * reservation is alive admits no second sell, so its latest recorded outcome speaks for the one order at work. Without
 * the rule, or once that outcome has left the bounded order history, it is not.
 */
module OneTriggerRule {
  import opened Prelude
  import opened RuntimeStates
  import opened OrderGuards
  import opened OrderHistory
  import opened Reconciliations
  import opened Runs
  import opened SafetyStates
  import opened SellProtocol

  // ----- what the rule keeps -----

  /**
   * To a trusted trader a reserved symbol counts as triggered, and the one order of a busy symbol is the last it heard
   * of.
   */
  predicate OneAtWork(b: Book, r: Record, last: Option<Action>) {
    r.trusted ==>
      && (b.awaiting > 0 ==> b.live == 0 && b.sinceSync == 0)
      && (Busy(b) ==> b.rejected == 0 && (last.None? || MayBeLive(last)))
      && (r.reserved > 0 ==> r.triggered)
  }

  function LastOutcome(v: StateView, s: Symbol): Option<Action> {
    LatestSellAction(v.recentOrders, s)
  }

  /** So it is in memory, and so it would be after a reload that loses no submission. */
  predicate AtWork(l: Local, last: Option<Action>, savedLast: Option<Action>) {
    && OneAtWork(l.book, l.mind, last)
    && (l.book.unsaved == 0 ==> OneAtWork(Restarted(l.book), l.disk, savedLast))
  }

  predicate SteadyAt(w: World, s: Symbol) {
    AtWork(LocalOf(w, s), LastOutcome(w.state, s), LastOutcome(w.saved, s))
  }

  ghost predicate Timely(w: World) {
    && InOrder(w.state.recentOrders) && UpTo(w.state.recentOrders, w.now)
    && InOrder(w.saved.recentOrders) && UpTo(w.saved.recentOrders, w.now)
  }

  ghost predicate Steady(w: World) {
    Timely(w) && forall s :: SteadyAt(w, s)
  }

  /** Every sell is put to the guard with the rule switched on. */
  predicate Abides(step: Step) {
    step.Submit? ==> step.rules.oneTriggerPerSymbolPerDay
  }

  /** A symbol with anything reserved admits no further sell. */
  lemma ReservedAdmitsNone(w: World, step: Step)
    requires step.Submit? && Abides(step) && SteadyAt(w, step.symbol) && CoveredAt(w, step.symbol)
    requires Reserved(w.state.pending, step.symbol) > 0
    ensures !Enabled(w, step)
  {
    if Enabled(w, step) {
      EnabledAdmits(w, step);
    }
  }

  /** The reservation is stamped and has outlived its time to live. */
  predicate OldEnough(entry: Reservation, at: real) {
    && entry.Intent? && entry.submitted.At?
    && at - entry.submitted.minute >= ApplicableTtl(entry, SELL_INTENT_TTL, SELL_INTENT_EMERGENCY_TTL)
  }

  /**
   * What expires of a busy symbol, alone or within a sync: exactly the reservation that is old enough and whose outcome
   * has been forgotten, provided that the sync's own arithmetic has left any of it.
   */
  lemma BusyExpiresIffForgotten(w: World, step: Step, s: Symbol)
    requires SteadyAt(w, s) && CoveredAt(w, s) && Busy(BookOf(w, s)) && (step.Sync? || step.Prune?)
    requires IsTrusted(w.state.trust)
    ensures s in w.state.pending
    ensures Expires(w, step, s) <==>
      && OldEnough(w.state.pending[s], step.at) && LastOutcome(w.state, s) == None
      && (step.Sync? ==> PassedShares(LocalOf(w, s)) > 0)
  {
    if step.Sync? {
      PassArithmetic(w.state.pending, Positions(w.state.lastSynced, w.fetched), s);
    }
  }

  predicate KnownAt(w: World, s: Symbol) {
    IsTrusted(w.state.trust) && Busy(BookOf(w, s)) ==> LastOutcome(w.state, s) != None
  }

  /** The order history holds an outcome of every busy symbol. */
  ghost predicate KnowsBusy(w: World) {
    forall s :: KnownAt(w, s)
  }

  /** When reservations are put to the prune, the history still holds an outcome of every busy symbol. */
  ghost predicate Remembers(w: World, step: Step) {
    step.Sync? || step.Prune? ==> KnowsBusy(w)
  }

  /** A failure is recorded only when something was rejected, or nothing is at work. */
  predicate FailsTruly(w: World, step: Step) {
    step.RecordFailure? ==> BookOf(w, step.symbol).rejected > 0 || !Busy(BookOf(w, step.symbol))
  }

  /** Nothing is forgotten, lost, given back or called a failure that the broker still works on. */
  ghost predicate KeepsFaith(w: World, step: Step) {
    Remembers(w, step) && LosesNothing(w, step) && GivesBackRejected(w, step) && FailsTruly(w, step)
  }

  lemma RememberedNeverExpires(w: World, step: Step)
    requires Steady(w) && Remembers(w, step)
    ensures ExpiresNothingBusy(w, step)
  {
    forall s | IsTrusted(w.state.trust) && Expires(w, step, s)
      ensures !Busy(BookOf(w, s))
    {
      assert SteadyAt(w, s) && KnownAt(w, s);
      PruneAccounts(Expiring(w, step), DefaultRun(w.state.recentOrders, step.at), s);
    }
  }

  // ----- every step keeps the rule's world -----

  /** What a step adds to the order history. */
  function RecordOf(step: Step): Option<OrderRecord> {
    match step
    case Submit(symbol, qty, _, _, at) => Some(OrderRecord(At(at), Day(at), SellSide, symbol, qty, SellSubmitted))
    case RecordFailure(symbol, qty, at) => Some(OrderRecord(At(at), Day(at), SellSide, symbol, qty, SellFailed))
    case RecordSuccess(symbol, qty, at) => Some(OrderRecord(At(at), Day(at), SellSide, symbol, qty, SellSucceeded))
    case OtherRecord(r) => Some(r)
    case _ => None
  }

  function SavedAfter(w: World, step: Step): StateView {
    if step == Save(Written) then w.state else if step == Save(Torn) then TornState(w.state) else w.saved
  }

  lemma StepRecords(w: World, step: Step)
    requires Possible(w, step)
    ensures
      var (before, after) := (w.state.recentOrders, Apply(w, step));
      match RecordOf(step)
      case Some(o) =>
        o.stamp.At? && o.stamp.minute == after.now >= w.now && after.state.recentOrders == Appended(before, o)
      case None =>
        after.now >= w.now && after.state.recentOrders == if step.Reload? then w.saved.recentOrders else before
    ensures Apply(w, step).saved == SavedAfter(w, step)
  {
  }

  lemma StepKeepsOrder(w: World, step: Step)
    requires Timely(w) && Possible(w, step)
    ensures Timely(Apply(w, step))
  {
    StepRecords(w, step);
    if RecordOf(step).Some? {
      KeptInOrder(w.state.recentOrders, RecordOf(step).value);
    }
  }

  /** How a step moves the latest outcome of a symbol, in memory and on disk. */
  predicate Hears(
    last: Option<Action>, savedLast: Option<Action>, next: Option<Action>, savedNext: Option<Action>, step: Step,
    mine: bool)
  {
    && savedNext == (if step == Save(Written) then last else if step == Save(Torn) then None else savedLast)
    && if step.Reload? then next == savedLast
       else if mine && step.Submit? then next == Some(SellSubmitted)
       else if mine && step.RecordFailure? then next == Some(SellFailed)
       else if mine && step.RecordSuccess? then next == Some(SellSucceeded)
       else next == last || next == None
  }

  lemma StepHears(w: World, step: Step, s: Symbol)
    requires Timely(w) && Possible(w, step)
    ensures Hears(LastOutcome(w.state, s), LastOutcome(w.saved, s), LastOutcome(Apply(w, step).state, s),
                  LastOutcome(Apply(w, step).saved, s), step, Mine(step, s))
  {
    StepRecords(w, step);
    if RecordOf(step).Some? {
      KeptLatest(w.state.recentOrders, RecordOf(step).value, s);
    }
  }

  /** What keeping faith means for one symbol, apart from remembering it. */
  predicate Honours(l: Local, step: Step, mine: bool) {
    && (step.Reload? && l.disk.trusted ==> l.book.unsaved == 0)
    && (mine && step.Resolve? && l.mind.trusted ==> step.shares <= l.book.rejected)
    && (mine && step.RecordFailure? ==> l.book.rejected > 0 || !Busy(l.book))
  }

  lemma FollowsInMind(
    l: Local, n: Local, last: Option<Action>, savedLast: Option<Action>, next: Option<Action>,
    savedNext: Option<Action>, step: Step, mine: bool, expired: bool)
    requires Adds(l) && Follows(l, n, step, mine, expired) && Hears(last, savedLast, next, savedNext, step, mine)
    requires (mine ==> Admits(l, step) && Abides(step)) && Honours(l, step, mine)
    requires AtWork(l, last, savedLast)
    ensures OneAtWork(n.book, n.mind, next)
  {
  }

  lemma FollowsOnDisk(
    l: Local, n: Local, last: Option<Action>, savedLast: Option<Action>, next: Option<Action>,
    savedNext: Option<Action>, step: Step, mine: bool, expired: bool)
    requires Adds(l) && Follows(l, n, step, mine, expired) && Hears(last, savedLast, next, savedNext, step, mine)
    requires AtWork(l, last, savedLast)
    ensures n.book.unsaved == 0 ==> OneAtWork(Restarted(n.book), n.disk, savedNext)
  {
  }

  lemma FollowsAtWork(
    l: Local, n: Local, last: Option<Action>, savedLast: Option<Action>, next: Option<Action>,
    savedNext: Option<Action>, step: Step, mine: bool, expired: bool)
    requires Adds(l) && Follows(l, n, step, mine, expired) && Hears(last, savedLast, next, savedNext, step, mine)
    requires (mine ==> Admits(l, step) && Abides(step)) && Honours(l, step, mine)
    requires AtWork(l, last, savedLast)
    ensures AtWork(n, next, savedNext)
  {
    FollowsInMind(l, n, last, savedLast, next, savedNext, step, mine, expired);
    FollowsOnDisk(l, n, last, savedLast, next, savedNext, step, mine, expired);
  }

  lemma StepKeepsSteadyAt(w: World, step: Step, s: Symbol)
    requires Timely(w) && SteadyAt(w, s) && CoveredAt(w, s) && Enabled(w, step) && Abides(step)
    requires Honours(LocalOf(w, s), step, Mine(step, s))
    ensures SteadyAt(Apply(w, step), s)
  {
    EnabledAdmits(w, step);
    StepMoves(w, step, s);
    StepHears(w, step, s);
    FollowsAtWork(LocalOf(w, s), LocalOf(Apply(w, step), s), LastOutcome(w.state, s), LastOutcome(w.saved, s),
                  LastOutcome(Apply(w, step).state, s), LastOutcome(Apply(w, step).saved, s), step, Mine(step, s),
                  Expires(w, step, s));
  }

  lemma StepKeepsSteady(w: World, step: Step)
    requires Steady(w) && Covered(w) && Enabled(w, step) && Abides(step) && KeepsFaith(w, step)
    ensures Steady(Apply(w, step))
  {
    StepKeepsOrder(w, step);
    forall s
      ensures SteadyAt(Apply(w, step), s)
    {
      assert SteadyAt(w, s) && CoveredAt(w, s);
      StepKeepsSteadyAt(w, step, s);
    }
  }

  ghost predicate AlwaysKeepsFaith(w: World, steps: seq<Step>)
    requires Run(w, steps)
    decreases |steps|
  {
    steps == [] || (KeepsFaith(w, steps[0]) && AlwaysKeepsFaith(Apply(w, steps[0]), steps[1..]))
  }

  /**
   * With the rule on, as long as the history remembers an outcome of every busy symbol, reloads lose no submission, and
   * nothing at work is given back or called a failure, no run ever offers more shares than are held, however everything
   * else interleaves.
   */
  lemma {:induction false} RuleNeverOversells(w: World, steps: seq<Step>)
    requires Covered(w) && Steady(w) && Run(w, steps) && AlwaysKeepsFaith(w, steps)
    requires forall i :: 0 <= i < |steps| ==> Abides(steps[i])
    ensures KeepsReservations(w, steps) && NoOversell(After(w, steps))
    decreases |steps|
  {
    if steps == [] {
      CoveredNeverOversells(w);
    } else {
      RememberedNeverExpires(w, steps[0]);
      StepKeepsCovered(w, steps[0]);
      StepKeepsSteady(w, steps[0]);
      RuleNeverOversells(Apply(w, steps[0]), steps[1..]);
    }
  }

  // ----- how long the history remembers -----

  predicate Writes(step: Step) {
    step.Submit? || step.RecordSuccess? || step.RecordFailure? || step.OtherRecord?
  }

  function Writings(steps: seq<Step>): nat {
    if steps == [] then 0 else (if Writes(steps[0]) then 1 else 0) + Writings(steps[1..])
  }

  /** Where in a run something is submitted, or an outcome or anything else recorded. */
  function WritingPlaces(steps: seq<Step>): set<int> {
    set i | 0 <= i < |steps|
      && (steps[i].Submit? || steps[i].RecordSuccess? || steps[i].RecordFailure? || steps[i].OtherRecord?)
  }

  lemma {:induction false} WritingsAreSteps(steps: seq<Step>)
    ensures Writings(steps) == |WritingPlaces(steps)|
  {
    if steps != [] {
      var rest := steps[1..];
      WritingsAreSteps(rest);
      var later := WritingPlaces(rest);
      var shifted := set i | i in later :: i + 1;
      ShiftedSize(later);
      assert forall i :: 0 < i && i in WritingPlaces(steps) ==> i - 1 in later;
      assert WritingPlaces(steps) == shifted + if Writes(steps[0]) then {0} else {};
    }
  }

  lemma {:induction false} ShiftedSize(places: set<int>)
    ensures |set i | i in places :: i + 1| == |places|
  {
    if places != {} {
      var k := Pick(places);
      ShiftedSize(places - {k});
      var all, fewer := set i | i in places :: i + 1, set i | i in places - {k} :: i + 1;
      forall j | j in all
        ensures j in fewer + {k + 1}
      {
        var i :| i in places && i + 1 == j;
        assert i == k || i in places - {k};
      }
      assert k + 1 in all && all == fewer + {k + 1};
    }
  }

  /** The number of records in memory or on disk, whichever has more. */
  function HistorySize(w: World): nat {
    Max(|w.state.recentOrders|, |w.saved.recentOrders|)
  }

  /** Nothing busy is unknown in memory, nor would it be after a reload that loses no submission. */
  predicate Knows(l: Local, last: Option<Action>, savedLast: Option<Action>) {
    && (l.mind.trusted && Busy(l.book) ==> last != None)
    && (l.disk.trusted && l.book.unsaved == 0 && Busy(Restarted(l.book)) ==> savedLast != None)
  }

  ghost predicate KnowsAll(w: World) {
    forall s :: Knows(LocalOf(w, s), LastOutcome(w.state, s), LastOutcome(w.saved, s))
  }

  /** While the history has room, an outcome once heard stays heard. */
  predicate Retains(last: Option<Action>, next: Option<Action>, step: Step) {
    !step.Reload? && last != None ==> next != None
  }

  lemma StepRetains(w: World, step: Step, s: Symbol)
    requires Timely(w) && Possible(w, step)
    requires Writes(step) ==> |w.state.recentOrders| < RECENT_ORDERS_CAP
    ensures Retains(LastOutcome(w.state, s), LastOutcome(Apply(w, step).state, s), step)
  {
    StepRecords(w, step);
    if RecordOf(step).Some? {
      LatestOfAppended(w.state.recentOrders, RecordOf(step).value, s);
    }
  }

  lemma StepGrowsHistory(w: World, step: Step)
    requires Possible(w, step)
    ensures HistorySize(Apply(w, step)) <= HistorySize(w) + if Writes(step) then 1 else 0
  {
    StepRecords(w, step);
  }

  lemma FollowsKnows(
    l: Local, n: Local, last: Option<Action>, savedLast: Option<Action>, next: Option<Action>,
    savedNext: Option<Action>, step: Step, mine: bool, expired: bool)
    requires Adds(l) && Follows(l, n, step, mine, expired) && Hears(last, savedLast, next, savedNext, step, mine)
    requires Retains(last, next, step) && Knows(l, last, savedLast)
    requires step.Reload? && l.disk.trusted ==> l.book.unsaved == 0
    ensures Knows(n, next, savedNext)
  {
  }

  lemma StepKnowsAt(w: World, step: Step, s: Symbol)
    requires Timely(w) && CoveredAt(w, s) && Enabled(w, step)
    requires step.Reload? && IsTrusted(w.saved.trust) ==> BookOf(w, s).unsaved == 0
    requires Knows(LocalOf(w, s), LastOutcome(w.state, s), LastOutcome(w.saved, s))
    requires Writes(step) ==> |w.state.recentOrders| < RECENT_ORDERS_CAP
    ensures
      var next := Apply(w, step);
      Knows(LocalOf(next, s), LastOutcome(next.state, s), LastOutcome(next.saved, s))
  {
    StepMoves(w, step, s);
    StepHears(w, step, s);
    StepRetains(w, step, s);
    FollowsKnows(LocalOf(w, s), LocalOf(Apply(w, step), s), LastOutcome(w.state, s), LastOutcome(w.saved, s),
                 LastOutcome(Apply(w, step).state, s), LastOutcome(Apply(w, step).saved, s), step, Mine(step, s),
                 Expires(w, step, s));
  }

  lemma StepKnowsAll(w: World, step: Step)
    requires Covered(w) && Timely(w) && Enabled(w, step) && KnowsAll(w) && LosesNothing(w, step)
    requires Writes(step) ==> |w.state.recentOrders| < RECENT_ORDERS_CAP
    ensures KnowsAll(Apply(w, step))
  {
    forall s
      ensures
        var next := Apply(w, step);
        Knows(LocalOf(next, s), LastOutcome(next.state, s), LastOutcome(next.saved, s))
    {
      assert CoveredAt(w, s) && Knows(LocalOf(w, s), LastOutcome(w.state, s), LastOutcome(w.saved, s));
      StepKnowsAt(w, step, s);
    }
  }

  lemma KnowsAllKnowsBusy(w: World)
    requires KnowsAll(w)
    ensures KnowsBusy(w)
  {
    forall s
      ensures KnownAt(w, s)
    {
      assert Knows(LocalOf(w, s), LastOutcome(w.state, s), LastOutcome(w.saved, s));
    }
  }

  ghost predicate NeverLoses(w: World, steps: seq<Step>)
    requires Run(w, steps)
    decreases |steps|
  {
    steps == [] || (LosesNothing(w, steps[0]) && NeverLoses(Apply(w, steps[0]), steps[1..]))
  }

  /** Nothing at work is given back or called a failure. */
  ghost predicate NeverErrs(w: World, steps: seq<Step>)
    requires Run(w, steps)
    decreases |steps|
  {
    steps == []
    || (GivesBackRejected(w, steps[0]) && FailsTruly(w, steps[0]) && NeverErrs(Apply(w, steps[0]), steps[1..]))
  }

  /** Between a submission and the next reload the state is saved, or the file torn; `dirty` says that neither was. */
  predicate SavesInTime(steps: seq<Step>, dirty: bool) {
    steps == [] || ((steps[0].Reload? ==> !dirty) && SavesInTime(steps[1..], DirtyNext(steps[0], dirty)))
  }

  predicate DirtyNext(step: Step, dirty: bool) {
    step.Submit? || (dirty && step != Save(Written) && step != Save(Torn))
  }

  /** Saving in time means that a save that changes the file comes between each submission and every reload after it. */
  lemma {:induction false} SavesInTimeIff(steps: seq<Step>, dirty: bool)
    ensures
      var reloads := (step: Step) => step.Reload?;
      var settles := (step: Step) => step.Save? && !step.outcome.Untouched?;
      SavesInTime(steps, dirty) <==>
        && (dirty ==> IsSettled(steps, reloads, settles, -1))
        && forall i :: 0 <= i < |steps| && steps[i].Submit? ==> IsSettled(steps, reloads, settles, i)
    decreases |steps|
  {
    if steps != [] {
      var reloads := (step: Step) => step.Reload?;
      var settles := (step: Step) => step.Save? && !step.outcome.Untouched?;
      var rest := steps[1..];
      SavesInTimeIff(rest, DirtyNext(steps[0], dirty));
      SettledFirst(steps, reloads, settles);
      forall i: nat
        ensures IsSettled(steps, reloads, settles, i) <==> IsSettled(rest, reloads, settles, i - 1)
      {
        SettledLater(steps, reloads, settles, i);
      }
      assert forall i :: 0 <= i < |rest| ==> rest[i] == steps[i + 1];
      assert forall i :: 0 < i < |steps| ==> steps[i] == rest[i - 1];
    }
  }

  /** There is nothing a reload could lose. */
  ghost predicate IsSaved(w: World) {
    IsTrusted(w.saved.trust) ==> forall s :: BookOf(w, s).unsaved == 0
  }

  lemma StepKeepsSaved(w: World, step: Step, s: Symbol)
    requires Possible(w, step) && !step.Submit? && (BookOf(w, s).unsaved == 0 || step == Save(Written))
    ensures BookOf(Apply(w, step), s).unsaved == 0
  {
    match step
    case Save(_) =>
    case Sync(_) =>
    case Prune(_) =>
    case Fetch(_) =>
    case _ =>
  }

  /** Then no reload ever loses a submission. */
  lemma {:induction false} SavedInTimeNeverLoses(w: World, steps: seq<Step>, dirty: bool)
    requires Run(w, steps) && SavesInTime(steps, dirty) && (!dirty ==> IsSaved(w))
    ensures NeverLoses(w, steps)
    decreases |steps|
  {
    if steps != [] {
      var step, next := steps[0], DirtyNext(steps[0], dirty);
      StepRecords(w, step);
      forall s | !next && IsTrusted(Apply(w, step).saved.trust)
        ensures BookOf(Apply(w, step), s).unsaved == 0
      {
        StepKeepsSaved(w, step, s);
      }
      SavedInTimeNeverLoses(Apply(w, step), steps[1..], next);
    }
  }

  /**
   * Nothing is forgotten as long as all records fit into the history, so such a run needs no condition on what the
   * history remembers.
   */
  lemma {:induction false} FewRecordsAreSafe(w: World, steps: seq<Step>)
    requires Covered(w) && Steady(w) && KnowsAll(w) && Run(w, steps)
    requires NeverLoses(w, steps) && NeverErrs(w, steps)
    requires forall i :: 0 <= i < |steps| ==> Abides(steps[i])
    requires HistorySize(w) + Writings(steps) <= RECENT_ORDERS_CAP
    ensures AlwaysKeepsFaith(w, steps) && NoOversell(After(w, steps))
    decreases |steps|
  {
    if steps == [] {
      CoveredNeverOversells(w);
    } else {
      KnowsAllKnowsBusy(w);
      StepKnowsAll(w, steps[0]);
      StepGrowsHistory(w, steps[0]);
      RememberedNeverExpires(w, steps[0]);
      StepKeepsCovered(w, steps[0]);
      StepKeepsSteady(w, steps[0]);
      FewRecordsAreSafe(Apply(w, steps[0]), steps[1..]);
    }
  }

  /** Nothing is reserved or synced, in memory or on disk, and nothing is on offer. */
  ghost predicate FreshDay(w: World) {
    && w.state.pending == w.saved.pending == map[]
    && w.state.lastSynced == w.saved.lastSynced == w.fetched == map[]
    && forall s :: s in w.books ==> w.books[s] == NO_BOOK.(held := w.books[s].held)
  }

  lemma FreshLocal(w: World, s: Symbol)
    requires FreshDay(w)
    ensures
      var l := LocalOf(w, s);
      && l.book == NO_BOOK.(held := l.book.held) && l.seen == 0
      && l.mind.reserved == l.disk.reserved == 0 && l.mind.synced == l.disk.synced == None
    ensures Shaped(w.state.pending, s)
  {
    assert Reloaded(w.saved.pending) == map[];
  }

  lemma IdleIsFine(l: Local, last: Option<Action>, savedLast: Option<Action>)
    requires l.book == NO_BOOK.(held := l.book.held) && l.seen == 0
    requires l.mind.reserved == l.disk.reserved == 0 && l.mind.synced == l.disk.synced == None
    ensures Adds(l) && AtWork(l, last, savedLast) && Knows(l, last, savedLast)
  {
  }

  /** A fresh day satisfies all of it. */
  lemma DayStarts(w: World)
    requires FreshDay(w) && Timely(w)
    ensures Covered(w) && Steady(w) && KnowsAll(w)
  {
    forall s
      ensures CoveredAt(w, s) && SteadyAt(w, s)
      ensures Knows(LocalOf(w, s), LastOutcome(w.state, s), LastOutcome(w.saved, s))
    {
      FreshLocal(w, s);
      IdleIsFine(LocalOf(w, s), LastOutcome(w.state, s), LastOutcome(w.saved, s));
    }
  }
}
