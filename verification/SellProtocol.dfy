/**
 * Two parties sell from one position: the trader, which only sees snapshots and its own records, and the broker, which
 * accepts, rejects and fills orders when it likes. Over every interleaving the trader must not have more shares on
 * offer than it holds.
 */
module SellProtocol {
  import opened Prelude
  import opened RuntimeStates
  import opened OrderGuards
  import opened Reconciliations
  import opened SafetyStates
  import opened Visits

  /** The truth about one symbol, which the trader cannot see all of. */
  datatype Book = Book(
    held: nat,          // shares at the broker
    awaiting: nat,      // submitted, the broker has not answered yet
    live: nat,          // accepted and not filled
    rejected: nat,      // rejected, the reservation not given back yet
    sinceSync: nat,     // filled since the snapshot of the last sync was taken
    sinceFetch: nat,    // filled since the last snapshot was taken
    sinceSaved: nat,    // filled since the snapshot of the last sync that the saved state knows of
    unsaved: nat)       // submitted since the state was last saved

  /** The state in memory, the state on disk, the last snapshot of the broker's positions, and the truth. */
  datatype World = World(
    state: StateView, saved: StateView, fetched: map<Symbol, int>, books: map<Symbol, Book>, now: real)

  datatype Step =
    | Fetch(positions: map<Symbol, int>)
    | Sync(at: real)
    | Prune(at: real)
    | Submit(symbol: Symbol, qty: int, rules: SellRules, trigger: string, at: real)
    | BrokerAccepts(symbol: Symbol)
    | BrokerRejects(symbol: Symbol)
    | RecordSuccess(symbol: Symbol, qty: int, at: real)
    | RecordFailure(symbol: Symbol, qty: int, at: real)
    | Resolve(symbol: Symbol, shares: nat, at: real)
    | BrokerFills(symbol: Symbol, shares: nat)
    | BrokerLapses(symbol: Symbol, shares: nat)
    | HoldingsGrow(symbol: Symbol, shares: nat)
    | OtherRecord(record: OrderRecord)
    | Save(outcome: SaveOutcome)
    | Reload

  const NO_BOOK := Book(0, 0, 0, 0, 0, 0, 0, 0)

  function BookOf(w: World, s: Symbol): Book {
    if s in w.books then w.books[s] else NO_BOOK
  }

  /** Shares that are, or may turn out to be, on offer. */
  function OnOffer(b: Book): nat {
    b.awaiting + b.live
  }

  /** The broker still works on the symbol, or has filled something the trader has not synced. */
  predicate Busy(b: Book) {
    b.awaiting + b.live + b.sinceSync > 0
  }

  function Recorded(v: StateView, symbol: Symbol, qty: int, action: Action, at: real): StateView {
    WithRecorded(v, SellSide, symbol, qty, action, None, at)
  }

  /** What the trader notes down right before it sends a sell to the broker. */
  function WithSellSubmitted(v: StateView, symbol: Symbol, qty: int, trigger: string, at: real): StateView {
    var marked := v.(
      pending := WithSubmitted(v.pending, symbol, qty, At(at), trigger),
      sellTriggeredToday := UniqueAppend(v.sellTriggeredToday, symbol),
      lastSellAttempt := Attempt(SellKeyOf(symbol, trigger), At(at)));
    Recorded(marked, symbol, qty, SellSubmitted, at)
  }

  method NoteSellSubmission(state: RuntimeState, symbol: Symbol, qty: int, trigger: string, at: real)
    modifies state
    ensures state.View() == WithSellSubmitted(old(state.View()), symbol, qty, trigger, at)
  {
    state.MarkSellTrigger(symbol, SellKeyOf(symbol, trigger), At(at), true);
    state.MarkSellIntentSubmitted(symbol, qty, At(at), trigger);
    state.AddRecentOrder(SellSide, symbol, qty, SellSubmitted, None, at);
  }

  /** What a load makes of a torn file. */
  function TornState(v: StateView): StateView {
    UnreadableState(Scope(v.accountSignature, "", v.tradingDay))
  }

  /** A rejected quantity whose reservation is gone needs no giving back. */
  function Forgotten(books: map<Symbol, Book>, pending: map<Symbol, Reservation>): map<Symbol, Book> {
    map s | s in books :: if Reserved(pending, s) == 0 then books[s].(rejected := 0) else books[s]
  }

  function Synced(w: World, at: real): StateView {
    w.state.(pending := SyncedPending(w.state, w.fetched, at), lastSynced := w.fetched, lastSyncedAt := At(at))
  }

  /** The snapshot shows what the broker holds. */
  ghost predicate Truthful(positions: map<Symbol, int>, books: map<Symbol, Book>) {
    && (forall s :: s in positions && s !in books ==> positions[s] == 0)
    && (forall s :: s in books ==> Quantity(positions, s) == books[s].held)
  }

  /** What the broker's book and the clock let happen. */
  predicate Possible(w: World, step: Step) {
    match step
    case Fetch(_) => true
    case Sync(at) => at >= w.now
    case Prune(at) => at >= w.now
    case Submit(s, qty, _, _, at) => at >= w.now && s != NO_SYMBOL && qty > 0
    case BrokerAccepts(_) => true
    case BrokerRejects(s) => BookOf(w, s).awaiting > 0
    case RecordSuccess(s, _, at) => at >= w.now && BookOf(w, s).awaiting == BookOf(w, s).rejected == 0
    case RecordFailure(_, _, at) => at >= w.now
    case Resolve(_, _, at) => at >= w.now
    case BrokerFills(s, qty) => qty <= BookOf(w, s).live && qty <= BookOf(w, s).held
    case BrokerLapses(s, qty) => qty <= BookOf(w, s).live
    case HoldingsGrow(_, _) => true
    case OtherRecord(r) =>
      r.stamp.At? && r.stamp.minute >= w.now
      && !r.action.SellSubmitted? && !r.action.SellFailed? && !r.action.SellSucceeded?
    case Save(_) => true
    case Reload => true
  }

  /** What can happen next: snapshots tell the truth and every sell has passed the guard. */
  ghost predicate Enabled(w: World, step: Step) {
    && Possible(w, step)
    && (step.Fetch? ==> Truthful(step.positions, w.books))
    && (step.Submit? ==>
      SellGuard(w.state, step.symbol, Quantity(w.fetched, step.symbol), step.qty, step.rules, step.trigger, step.at)
        == Allowed)
  }

  function Apply(w: World, step: Step): World
    requires Possible(w, step)
  {
    match step
    case Fetch(positions) =>
      w.(fetched := positions, books := map s | s in w.books :: w.books[s].(sinceFetch := 0))
    case Sync(at) =>
      var next := Synced(w, at);
      w.(state := next, now := at,
         books := Forgotten(map s | s in w.books :: w.books[s].(sinceSync := w.books[s].sinceFetch), next.pending))
    case Prune(at) =>
      var pending := Pruned(w.state.pending, DefaultRun(w.state.recentOrders, at));
      w.(state := w.state.(pending := pending), now := at, books := Forgotten(w.books, pending))
    case Submit(s, qty, rules, trigger, at) =>
      var b := BookOf(w, s);
      w.(state := WithSellSubmitted(w.state, s, qty, trigger, at), now := at,
         books := w.books[s := b.(awaiting := b.awaiting + qty, unsaved := b.unsaved + qty)])
    case BrokerAccepts(s) =>
      var b := BookOf(w, s);
      w.(books := w.books[s := b.(awaiting := 0, live := b.live + b.awaiting)])
    case BrokerRejects(s) =>
      var b := BookOf(w, s);
      w.(books := w.books[s := b.(awaiting := 0, rejected := b.rejected + b.awaiting)])
    case RecordSuccess(s, qty, at) =>
      w.(state := Recorded(w.state, s, qty, SellSucceeded, at), now := at)
    case RecordFailure(s, qty, at) =>
      w.(state := Recorded(w.state, s, qty, SellFailed, at), now := at)
    case Resolve(s, qty, at) =>
      var b := BookOf(w, s);
      w.(state := w.state.(pending := WithResolved(w.state.pending, s, qty, false, at)), now := at,
         books := w.books[s := b.(rejected := Max(0, b.rejected - qty))])
    case BrokerFills(s, qty) =>
      var b := BookOf(w, s);
      w.(books := w.books[s := b.(held := b.held - qty, live := b.live - qty, sinceSync := b.sinceSync + qty,
                                  sinceFetch := b.sinceFetch + qty, sinceSaved := b.sinceSaved + qty)])
    case BrokerLapses(s, qty) =>
      var b := BookOf(w, s);
      w.(books := w.books[s := b.(live := b.live - qty)])
    case HoldingsGrow(s, qty) =>
      var b := BookOf(w, s);
      w.(books := w.books[s := b.(held := b.held + qty)])
    case OtherRecord(r) =>
      w.(state := w.state.(recentOrders := Last(w.state.recentOrders + [r], RECENT_ORDERS_CAP)), now := r.stamp.minute)
    case Save(outcome) =>
      if outcome.Written?
      then w.(saved := w.state,
              books := map s | s in w.books :: w.books[s].(sinceSaved := w.books[s].sinceSync, unsaved := 0))
      else if outcome.Torn? then w.(saved := TornState(w.state))
      else w
    case Reload =>
      w.(state := w.saved.(pending := Reloaded(w.saved.pending)),
         books := map s | s in w.books :: w.books[s].(sinceSync := w.books[s].sinceSaved, rejected := 0))
  }

  // ----- one symbol at a time -----

  /** What a state says about one symbol. */
  datatype Record = Record(reserved: nat, synced: Option<int>, triggered: bool, trusted: bool)

  const NO_RECORD := Record(0, None, false, false)

  /** Everything the argument needs to know about one symbol. */
  datatype Local = Local(book: Book, seen: int, mind: Record, disk: Record)

  function RecordIn(v: StateView, s: Symbol): Record {
    Record(Reserved(v.pending, s), if s in v.lastSynced then Some(v.lastSynced[s]) else None,
           s in v.sellTriggeredToday, IsTrusted(v.trust))
  }

  function LocalOf(w: World, s: Symbol): Local {
    Local(BookOf(w, s), Quantity(w.fetched, s), RecordIn(w.state, s),
          RecordIn(w.saved.(pending := Reloaded(w.saved.pending)), s))
  }

  /**
   * What was seen covers everything outstanding, and so does the reservation of a trusted state, together with what was
   * filled but not yet synced.
   */
  predicate AddsUp(b: Book, seen: int, r: Record) {
    && b.sinceFetch <= b.sinceSync
    && OnOffer(b) + b.rejected + b.sinceFetch <= seen <= b.held + b.sinceFetch
    && (r.trusted ==>
      && OnOffer(b) + b.rejected + b.sinceSync <= r.reserved
      && (r.synced.Some? ==> r.synced.value - seen <= b.sinceSync - b.sinceFetch))
  }

  /** The book as a reload leaves it. */
  function Restarted(b: Book): Book {
    b.(sinceSync := b.sinceSaved, rejected := 0)
  }

  /** The state in memory adds up, and the state on disk would, had it what was submitted since. */
  predicate Adds(l: Local) {
    && AddsUp(l.book, l.seen, l.mind)
    && AddsUp(Restarted(l.book), l.seen, l.disk.(reserved := l.disk.reserved + l.book.unsaved))
  }

  predicate Shaped(pending: map<Symbol, Reservation>, s: Symbol) {
    s in pending ==> s != NO_SYMBOL && pending[s].Intent? && pending[s].amount > 0
  }

  predicate CoveredAt(w: World, s: Symbol) {
    Adds(LocalOf(w, s)) && Shaped(w.state.pending, s)
  }

  ghost predicate Covered(w: World) {
    forall s :: CoveredAt(w, s)
  }

  ghost predicate NoOversell(w: World) {
    forall s :: OnOffer(BookOf(w, s)) <= BookOf(w, s).held
  }

  lemma CoveredNeverOversells(w: World)
    requires Covered(w)
    ensures NoOversell(w)
  {
    forall s
      ensures OnOffer(BookOf(w, s)) <= BookOf(w, s).held
    {
      assert CoveredAt(w, s);
    }
  }

  /** The reservations a step puts to the prune, if it runs one. */
  function Expiring(w: World, step: Step): map<Symbol, Reservation> {
    match step
    case Sync(_) => Passed(w.state.pending, Positions(w.state.lastSynced, w.fetched))
    case Prune(_) => w.state.pending
    case _ => map[]
  }

  predicate Expires(w: World, step: Step, s: Symbol) {
    (step.Sync? || step.Prune?)
    && ReleasesOfOne(Expiring(w, step), DefaultRun(w.state.recentOrders, step.at), s) != []
  }

  /** No reservation of a trusted state with anything still at work behind it expires in this step. */
  ghost predicate ExpiresNothingBusy(w: World, step: Step) {
    IsTrusted(w.state.trust) ==> forall s :: Expires(w, step, s) ==> !Busy(BookOf(w, s))
  }

  /** A reload finds every submission saved, or nothing to trust. */
  ghost predicate LosesNothing(w: World, step: Step) {
    step.Reload? && IsTrusted(w.saved.trust) ==> forall s :: BookOf(w, s).unsaved == 0
  }

  /** A trusted trader gives back no more than was rejected. */
  predicate GivesBackRejected(w: World, step: Step) {
    step.Resolve? && IsTrusted(w.state.trust) ==> step.shares <= BookOf(w, step.symbol).rejected
  }

  ghost predicate KeepsReserved(w: World, step: Step) {
    ExpiresNothingBusy(w, step) && LosesNothing(w, step) && GivesBackRejected(w, step)
  }

  /** What the broker-truth pass leaves of a reservation. */
  function PassedShares(l: Local): nat {
    var drop := Max(0, (if l.mind.synced.Some? then l.mind.synced.value else l.seen) - l.seen);
    if l.seen <= 0 then 0 else Min(l.seen, Max(0, l.mind.reserved - drop))
  }

  /** A rejected quantity is forgotten with its reservation. */
  function Settled(b: Book, reserved: nat): Book {
    b.(rejected := if reserved == 0 then 0 else b.rejected)
  }

  /** How a step moves a symbol, its own (`mine`) or another, whose reservation may have expired in it. */
  predicate Follows(l: Local, n: Local, step: Step, mine: bool, expired: bool) {
    var b := l.book;
    match step
    case Fetch(_) => n == l.(book := b.(sinceFetch := 0), seen := b.held)
    case Sync(_) =>
      var left := if expired then 0 else PassedShares(l);
      (n.mind.synced == None || n.mind.synced == Some(l.seen))
      && n == l.(book := Settled(b.(sinceSync := b.sinceFetch), left),
                 mind := l.mind.(reserved := left, synced := n.mind.synced))
    case Prune(_) =>
      var left := if expired then 0 else l.mind.reserved;
      n == l.(book := Settled(b, left), mind := l.mind.(reserved := left))
    case Submit(_, qty, _, _, _) =>
      qty > 0 &&
      n == if mine then l.(book := b.(awaiting := b.awaiting + qty, unsaved := b.unsaved + qty),
                           mind := l.mind.(reserved := l.mind.reserved + qty, triggered := true))
           else l
    case BrokerAccepts(_) => n == if mine then l.(book := b.(awaiting := 0, live := b.live + b.awaiting)) else l
    case BrokerRejects(_) =>
      (mine ==> b.awaiting > 0) &&
      n == if mine then l.(book := b.(awaiting := 0, rejected := b.rejected + b.awaiting)) else l
    case Resolve(_, qty, _) =>
      n == if mine then l.(book := b.(rejected := Max(0, b.rejected - qty)),
                           mind := l.mind.(reserved := Max(0, l.mind.reserved - qty)))
           else l
    case BrokerFills(_, qty) =>
      (mine ==> qty <= b.live && qty <= b.held) &&
      n == if mine then l.(book := b.(held := b.held - qty, live := b.live - qty, sinceSync := b.sinceSync + qty,
                                      sinceFetch := b.sinceFetch + qty, sinceSaved := b.sinceSaved + qty))
           else l
    case BrokerLapses(_, qty) =>
      (mine ==> qty <= b.live) && n == if mine then l.(book := b.(live := b.live - qty)) else l
    case HoldingsGrow(_, qty) => n == if mine then l.(book := b.(held := b.held + qty)) else l
    case RecordSuccess(_, _, _) => n == l
    case RecordFailure(_, _, _) => n == l
    case OtherRecord(_) => n == l
    case Save(outcome) =>
      n == if outcome.Written? then l.(book := b.(sinceSaved := b.sinceSync, unsaved := 0), disk := l.mind)
           else if outcome.Torn? then l.(disk := NO_RECORD)
           else l
    case Reload => n == l.(book := Restarted(b), mind := l.disk)
  }

  /** What the guard guarantees about the symbol of an admitted sell. */
  predicate Admits(l: Local, step: Step) {
    step.Submit? ==>
      && l.mind.trusted && step.qty + l.mind.reserved <= l.seen
      && (step.rules.oneTriggerPerSymbolPerDay && l.mind.triggered ==> l.mind.reserved == 0)
  }

  lemma EnabledAdmits(w: World, step: Step)
    requires Enabled(w, step)
    ensures step.Submit? ==> Admits(LocalOf(w, step.symbol), step)
  {
    if step.Submit? {
      SellAdmitted(w.state, step.symbol, Quantity(w.fetched, step.symbol), step.qty, step.rules, step.trigger, step.at);
    }
  }

  predicate Mine(step: Step, s: Symbol) {
    match step
    case Submit(symbol, _, _, _, _) => s == symbol
    case BrokerAccepts(symbol) => s == symbol
    case BrokerRejects(symbol) => s == symbol
    case RecordSuccess(symbol, _, _) => s == symbol
    case RecordFailure(symbol, _, _) => s == symbol
    case Resolve(symbol, _, _) => s == symbol
    case BrokerFills(symbol, _) => s == symbol
    case BrokerLapses(symbol, _) => s == symbol
    case HoldingsGrow(symbol, _) => s == symbol
    case _ => false
  }

  /** The step moves the symbol as the local picture says, and keeps its entry well-formed. */
  predicate Moves(w: World, step: Step, s: Symbol)
    requires Possible(w, step)
  {
    && Follows(LocalOf(w, s), LocalOf(Apply(w, step), s), step, Mine(step, s), Expires(w, step, s))
    && Shaped(Apply(w, step).state.pending, s)
  }

  lemma FetchMoves(w: World, step: Step, s: Symbol)
    requires step.Fetch? && Possible(w, step) && Truthful(step.positions, w.books) && Shaped(w.state.pending, s)
    ensures Moves(w, step, s)
  {
    assert Quantity(step.positions, s) == BookOf(w, s).held;
  }

  lemma PassedIsShaped(pending: map<Symbol, Reservation>, p: Positions, s: Symbol)
    requires Shaped(pending, s)
    ensures Shaped(Passed(pending, p), s)
  {
  }

  lemma PrunedIsShaped(pending: map<Symbol, Reservation>, run: PruneRun, s: Symbol)
    requires Shaped(pending, s)
    ensures Shaped(Pruned(pending, run), s)
  {
  }

  lemma SyncMoves(w: World, step: Step, s: Symbol)
    requires step.Sync? && Possible(w, step) && Shaped(w.state.pending, s)
    ensures Moves(w, step, s)
  {
    var p, run := Positions(w.state.lastSynced, w.fetched), DefaultRun(w.state.recentOrders, step.at);
    PassArithmetic(w.state.pending, p, s);
    PassedIsShaped(w.state.pending, p, s);
    PruneAccounts(Passed(w.state.pending, p), run, s);
    PrunedIsShaped(Passed(w.state.pending, p), run, s);
  }

  lemma PruneMoves(w: World, step: Step, s: Symbol)
    requires step.Prune? && Possible(w, step) && Shaped(w.state.pending, s)
    ensures Moves(w, step, s)
  {
    var run := DefaultRun(w.state.recentOrders, step.at);
    PruneAccounts(w.state.pending, run, s);
    PrunedIsShaped(w.state.pending, run, s);
  }

  lemma SubmittedReserves(
    pending: map<Symbol, Reservation>, symbol: Symbol, qty: int, submitted: Stamp, trigger: string, s: Symbol)
    requires Shaped(pending, s) && symbol != NO_SYMBOL && qty > 0
    ensures
      var after := WithSubmitted(pending, symbol, qty, submitted, trigger);
      Shaped(after, s) && Reserved(after, s) == Reserved(pending, s) + if s == symbol then qty else 0
  {
  }

  lemma SubmitMoves(w: World, step: Step, s: Symbol)
    requires step.Submit? && Possible(w, step) && Shaped(w.state.pending, s)
    ensures Moves(w, step, s)
  {
    SubmittedReserves(w.state.pending, step.symbol, step.qty, At(step.at), step.trigger, s);
  }

  lemma ResolvedReserves(pending: map<Symbol, Reservation>, symbol: Symbol, qty: nat, now: real, s: Symbol)
    requires Shaped(pending, s)
    ensures
      var after := WithResolved(pending, symbol, qty, false, now);
      Shaped(after, s) && Reserved(after, s) == Max(0, Reserved(pending, s) - if s == symbol then qty else 0)
  {
  }

  lemma ResolveMoves(w: World, step: Step, s: Symbol)
    requires step.Resolve? && Possible(w, step) && Shaped(w.state.pending, s)
    ensures Moves(w, step, s)
  {
    ResolvedReserves(w.state.pending, step.symbol, step.shares, step.at, s);
  }

  lemma AnswerMoves(w: World, step: Step, s: Symbol)
    requires step.BrokerAccepts? || step.BrokerRejects?
    requires Possible(w, step) && Shaped(w.state.pending, s)
    ensures Moves(w, step, s)
  {
  }

  lemma FillMoves(w: World, step: Step, s: Symbol)
    requires step.BrokerFills? && Possible(w, step) && Shaped(w.state.pending, s)
    ensures Moves(w, step, s)
  {
  }

  lemma TradeMoves(w: World, step: Step, s: Symbol)
    requires step.BrokerLapses? || step.HoldingsGrow?
    requires Possible(w, step) && Shaped(w.state.pending, s)
    ensures Moves(w, step, s)
  {
  }

  lemma RecordMoves(w: World, step: Step, s: Symbol)
    requires step.RecordSuccess? || step.RecordFailure? || step.OtherRecord?
    requires Possible(w, step) && Shaped(w.state.pending, s)
    ensures Moves(w, step, s)
  {
  }

  lemma ReloadedReserves(pending: map<Symbol, Reservation>, s: Symbol)
    ensures Shaped(Reloaded(pending), s) && Reserved(Reloaded(Reloaded(pending)), s) == Reserved(Reloaded(pending), s)
    ensures Shaped(pending, s) ==> Reserved(Reloaded(pending), s) == Reserved(pending, s)
  {
  }

  lemma SaveMoves(w: World, step: Step, s: Symbol)
    requires step.Save? && Possible(w, step) && Shaped(w.state.pending, s)
    ensures Moves(w, step, s)
  {
    match step.outcome
    case Written => ReloadedReserves(w.state.pending, s);
    case Untouched =>
    case Torn => TornRecord(w.state, s);
  }

  lemma TornRecord(v: StateView, s: Symbol)
    ensures RecordIn(TornState(v).(pending := Reloaded(TornState(v).pending)), s) == NO_RECORD
  {
    assert Reloaded(TornState(v).pending) == map[];
  }

  lemma ReloadMoves(w: World, step: Step, s: Symbol)
    requires step.Reload? && Possible(w, step)
    ensures Moves(w, step, s)
  {
    ReloadedReserves(w.saved.pending, s);
  }

  lemma StepMoves(w: World, step: Step, s: Symbol)
    requires Enabled(w, step) && Shaped(w.state.pending, s)
    ensures Moves(w, step, s)
  {
    match step
    case Fetch(_) => FetchMoves(w, step, s);
    case Sync(_) => SyncMoves(w, step, s);
    case Prune(_) => PruneMoves(w, step, s);
    case Submit(_, _, _, _, _) => SubmitMoves(w, step, s);
    case Resolve(_, _, _) => ResolveMoves(w, step, s);
    case RecordSuccess(_, _, _) | RecordFailure(_, _, _) | OtherRecord(_) => RecordMoves(w, step, s);
    case Save(_) => SaveMoves(w, step, s);
    case Reload => ReloadMoves(w, step, s);
    case BrokerAccepts(_) | BrokerRejects(_) => AnswerMoves(w, step, s);
    case BrokerFills(_, _) => FillMoves(w, step, s);
    case _ => TradeMoves(w, step, s);
  }

  /** What keeping the reservations means for one symbol. */
  predicate Keeps(l: Local, step: Step, mine: bool, expired: bool) {
    && (l.mind.trusted && expired ==> !Busy(l.book))
    && (step.Reload? && l.disk.trusted ==> l.book.unsaved == 0)
    && (mine && step.Resolve? && l.mind.trusted ==> step.shares <= l.book.rejected)
  }

  lemma FollowsMind(l: Local, n: Local, step: Step, mine: bool, expired: bool)
    requires Adds(l) && Follows(l, n, step, mine, expired)
    requires (mine ==> Admits(l, step)) && Keeps(l, step, mine, expired)
    ensures AddsUp(n.book, n.seen, n.mind)
  {
  }

  lemma FollowsDisk(l: Local, n: Local, step: Step, mine: bool, expired: bool)
    requires Adds(l) && Follows(l, n, step, mine, expired)
    requires mine ==> Admits(l, step)
    ensures AddsUp(Restarted(n.book), n.seen, n.disk.(reserved := n.disk.reserved + n.book.unsaved))
  {
  }

  /** The numbers stay in balance, as long as the reservations are kept. */
  lemma FollowsAdds(l: Local, n: Local, step: Step, mine: bool, expired: bool)
    requires Adds(l) && Follows(l, n, step, mine, expired)
    requires (mine ==> Admits(l, step)) && Keeps(l, step, mine, expired)
    ensures Adds(n)
  {
    FollowsMind(l, n, step, mine, expired);
    FollowsDisk(l, n, step, mine, expired);
  }

  lemma KeptReservedKeeps(w: World, step: Step, s: Symbol)
    requires KeepsReserved(w, step)
    ensures Keeps(LocalOf(w, s), step, Mine(step, s), Expires(w, step, s))
  {
  }

  lemma StepKeepsCoveredAt(w: World, step: Step, s: Symbol)
    requires CoveredAt(w, s) && Enabled(w, step)
    requires Keeps(LocalOf(w, s), step, Mine(step, s), Expires(w, step, s))
    ensures CoveredAt(Apply(w, step), s)
  {
    EnabledAdmits(w, step);
    StepMoves(w, step, s);
    FollowsAdds(LocalOf(w, s), LocalOf(Apply(w, step), s), step, Mine(step, s), Expires(w, step, s));
  }

  lemma StepKeepsCovered(w: World, step: Step)
    requires Covered(w) && Enabled(w, step) && KeepsReserved(w, step)
    ensures Covered(Apply(w, step))
  {
    forall s
      ensures CoveredAt(Apply(w, step), s)
    {
      KeptReservedKeeps(w, step, s);
      StepKeepsCoveredAt(w, step, s);
    }
  }

  // ----- whole runs -----

  ghost predicate Run(w: World, steps: seq<Step>)
    decreases |steps|
  {
    steps == [] || (Enabled(w, steps[0]) && Run(Apply(w, steps[0]), steps[1..]))
  }

  ghost function After(w: World, steps: seq<Step>): World
    requires Run(w, steps)
    decreases |steps|
  {
    if steps == [] then w else After(Apply(w, steps[0]), steps[1..])
  }

  /** No busy reservation expires, no reload loses a submission, and nothing is given back but what was rejected. */
  ghost predicate KeepsReservations(w: World, steps: seq<Step>)
    requires Run(w, steps)
    decreases |steps|
  {
    steps == [] || (KeepsReserved(w, steps[0]) && KeepsReservations(Apply(w, steps[0]), steps[1..]))
  }

  /** As long as no busy reservation expires, is lost or is given back, no run ever offers more shares than are held. */
  lemma {:induction false} RunNeverOversells(w: World, steps: seq<Step>)
    requires Covered(w) && Run(w, steps) && KeepsReservations(w, steps)
    ensures Covered(After(w, steps)) && NoOversell(After(w, steps))
    decreases |steps|
  {
    if steps == [] {
      CoveredNeverOversells(w);
    } else {
      StepKeepsCovered(w, steps[0]);
      RunNeverOversells(Apply(w, steps[0]), steps[1..]);
    }
  }

  lemma {:induction false} RunJoins(w: World, a: seq<Step>, b: seq<Step>)
    requires Run(w, a) && Run(After(w, a), b)
    ensures Run(w, a + b) && After(w, a + b) == After(After(w, a), b)
    decreases |a|
  {
    if a == [] {
      assert a + b == b;
    } else {
      RunJoins(Apply(w, a[0]), a[1..], b);
      assert (a + b)[1..] == a[1..] + b;
    }
  }

  /** Reservations are kept by a run when they are kept by its parts. */
  lemma {:induction false} KeepsJoins(w: World, a: seq<Step>, b: seq<Step>)
    requires Run(w, a) && Run(After(w, a), b) && Run(w, a + b)
    ensures KeepsReservations(w, a + b) <==> KeepsReservations(w, a) && KeepsReservations(After(w, a), b)
    decreases |a|
  {
    if a == [] {
      assert a + b == b;
    } else {
      var joined, next := a + b, Apply(w, a[0]);
      assert joined[0] == a[0] && joined[1..] == a[1..] + b;
      KeepsJoins(next, a[1..], b);
    }
  }

  /** A step that neither lets reservations go nor reloads them. */
  predicate IsQuiet(step: Step) {
    !step.Sync? && !step.Prune? && !step.Reload? && !step.Resolve?
  }

  lemma {:induction false} QuietKeeps(w: World, steps: seq<Step>)
    requires Run(w, steps) && forall i :: 0 <= i < |steps| ==> IsQuiet(steps[i])
    ensures KeepsReservations(w, steps)
    decreases |steps|
  {
    if steps != [] {
      assert IsQuiet(steps[0]) && KeepsReserved(w, steps[0]);
      QuietKeeps(Apply(w, steps[0]), steps[1..]);
    }
  }

  lemma RunOfOne(w: World, a: Step)
    requires Enabled(w, a)
    ensures Run(w, [a]) && After(w, [a]) == Apply(w, a)
  {
    var rest := [a][1..];
    assert rest == [];
    assert Run(Apply(w, a), rest) && After(Apply(w, a), rest) == Apply(w, a);
  }

  lemma RunGrows(w: World, steps: seq<Step>, a: Step)
    requires Run(w, steps) && Enabled(After(w, steps), a)
    ensures Run(w, steps + [a]) && After(w, steps + [a]) == Apply(After(w, steps), a)
  {
    RunOfOne(After(w, steps), a);
    RunJoins(w, steps, [a]);
  }

  lemma RunOfTwo(w: World, a: Step, b: Step)
    requires Enabled(w, a) && Enabled(Apply(w, a), b)
    ensures Run(w, [a, b]) && After(w, [a, b]) == Apply(Apply(w, a), b)
  {
    RunOfOne(w, a);
    RunGrows(w, [a], b);
    assert [a] + [b] == [a, b];
  }

  lemma RunOfThree(w: World, a: Step, b: Step, c: Step)
    requires Enabled(w, a) && Enabled(Apply(w, a), b) && Enabled(Apply(Apply(w, a), b), c)
    ensures Run(w, [a, b, c]) && After(w, [a, b, c]) == Apply(Apply(Apply(w, a), b), c)
  {
    RunOfTwo(w, a, b);
    RunGrows(w, [a, b], c);
    assert [a, b] + [c] == [a, b, c];
  }

  // ----- what a lost save costs -----

  /**
   * After a reload the largest sell the guard can admit puts more on offer than is held exactly when more is at work
   * than the saved state reserves.
   */
  lemma ReloadOversellsIff(w: World, s: Symbol, rules: SellRules, trigger: string, at: real)
    requires IsTrusted(w.saved.trust) && at >= w.now && s != NO_SYMBOL
    requires Quantity(w.fetched, s) == BookOf(w, s).held > LocalOf(w, s).disk.reserved
    requires !rules.blockResellSoldToday && rules.blockedCooldownMinutes == rules.orderCooldownMinutes == 0.0
    requires rules.oneTriggerPerSymbolPerDay && LocalOf(w, s).disk.triggered ==> LocalOf(w, s).disk.reserved == 0
    ensures
      var reloaded := Apply(w, Reload);
      var step := Submit(s, BookOf(w, s).held - LocalOf(w, s).disk.reserved, rules, trigger, at);
      && Enabled(reloaded, step)
      && (OnOffer(BookOf(Apply(reloaded, step), s)) > BookOf(Apply(reloaded, step), s).held
        <==> OnOffer(BookOf(w, s)) > LocalOf(w, s).disk.reserved)
  {
    var reloaded := Apply(w, Reload);
    var step := Submit(s, BookOf(w, s).held - LocalOf(w, s).disk.reserved, rules, trigger, at);
    ReloadMoves(w, Reload, s);
    SellAdmitted(reloaded.state, s, Quantity(w.fetched, s), step.qty, rules, trigger, at);
    SubmitMoves(reloaded, step, s);
  }

  // ----- what a torn save costs -----

  /** Neither the state in memory nor the one on disk can be trusted. */
  predicate IsBlocked(w: World) {
    !IsTrusted(w.state.trust) && !IsTrusted(w.saved.trust)
  }

  lemma BlockedStaysBlocked(w: World, step: Step)
    requires IsBlocked(w) && Enabled(w, step)
    ensures !step.Submit? && IsBlocked(Apply(w, step)) && KeepsReserved(w, step)
  {
  }

  lemma {:induction false} BlockedRunsSellNothing(w: World, steps: seq<Step>)
    requires IsBlocked(w) && Run(w, steps)
    ensures KeepsReservations(w, steps) && forall i :: 0 <= i < |steps| ==> !steps[i].Submit?
    decreases |steps|
  {
    if steps != [] {
      BlockedStaysBlocked(w, steps[0]);
      BlockedRunsSellNothing(Apply(w, steps[0]), steps[1..]);
    }
  }

  /** After a torn save and a reload no sell passes the guard any more, and nothing is oversold, whatever happens. */
  lemma TornSaveStopsSells(w: World, steps: seq<Step>)
    requires Covered(w) && Run(w, [Save(Torn), Reload] + steps)
    ensures NoOversell(After(w, [Save(Torn), Reload] + steps)) && forall i :: 0 <= i < |steps| ==> !steps[i].Submit?
  {
    var torn := Apply(w, Save(Torn));
    var all, reloaded := [Save(Torn), Reload] + steps, Apply(torn, Reload);
    assert all[1..][1..] == steps;
    BlockedRunsSellNothing(reloaded, steps);
    StepKeepsCovered(w, Save(Torn));
    StepKeepsCovered(torn, Reload);
    RunNeverOversells(reloaded, steps);
  }

  /** The two states agree in all that the sell protocol looks at. */
  predicate AgreeForSells(a: StateView, b: StateView) {
    && IsTrusted(a.trust) == IsTrusted(b.trust)
    && (IsTrusted(a.trust) ==>
      && a.pending == b.pending && a.recentOrders == b.recentOrders && a.lastSynced == b.lastSynced
      && a.sellTriggeredToday == b.sellTriggeredToday)
  }

  lemma WrittenIsLoaded(v: StateView, stored: Stored, scope: Scope)
    requires v.tradingDay == scope.today && NO_SYMBOL !in v.lastSynced
    ensures AgreeForSells(v.(pending := Reloaded(v.pending)), Loaded(Saved(stored, v, scope, Written), scope))
  {
    assert WithoutBlank(v.lastSynced) == v.lastSynced;
  }

  /** Saving and reloading in the protocol is saving to the file and loading it again on the same day. */
  lemma ReloadIsLoad(w: World, stored: Stored, scope: Scope, outcome: SaveOutcome)
    requires w.state.tradingDay == scope.today && NO_SYMBOL !in w.state.lastSynced
    requires AgreeForSells(Apply(w, Reload).state, Loaded(stored, scope))
    ensures AgreeForSells(Apply(Apply(w, Save(outcome)), Reload).state,
                          Loaded(Saved(stored, w.state, scope, outcome), scope))
  {
    match outcome
    case Written => WrittenIsLoaded(w.state, stored, scope);
    case Untouched =>
    case Torn =>
  }
}
