/** How many holdings a tick may look at, in which order, and where the next tick goes on. */
module SellWatch {
  import opened Prelude
  import opened RuntimeStates

  // ----- how many -----

  datatype Demand = Demand(
    holdings: int, remainingRequests: int, remainingQuotes: int, requestWindowSize: int, softRequestLimit: int,
    buyScanDue: bool, buyRequestReserve: int, buyQuoteReserve: int, executionReserve: int,
    recentPartial: bool, sellWatchRateLimited: bool, rateLimitHits: int, partialStreak: int)

  datatype Pressure =
    | Empty | Relaxed | ExecutionReserveExhausted | BuyScanReserveExhausted
    | RateLimitRecent | PartialRecent | RequestWindowHot | BuyScanReserve | Normal

  datatype BudgetPlan = BudgetPlan(maxEvaluations: int, pressure: Pressure)

  function CeilingOf(n: int, parts: int): int
    requires parts > 0
  {
    (n + parts - 1) / parts
  }

  function RequestHeadroom(d: Demand): nat {
    Max(0, Max(0, d.remainingRequests) - Max(0, d.buyRequestReserve) - Max(0, d.executionReserve))
  }

  function QuoteHeadroom(d: Demand): nat {
    Max(0, Max(0, d.remainingQuotes) - Max(0, d.buyQuoteReserve))
  }

  /** The cap a pressure puts on top of the headroom. */
  function SoftCap(d: Demand): (plan: BudgetPlan)
    requires d.holdings > 0
    ensures plan.maxEvaluations >= 1
  {
    if d.sellWatchRateLimited then BudgetPlan(1, RateLimitRecent)
    else if d.rateLimitHits > 0 then BudgetPlan(if d.holdings <= 3 then 1 else 2, RateLimitRecent)
    else if d.recentPartial then
      BudgetPlan(Max(1, if d.partialStreak >= 2 && d.holdings >= 4 then CeilingOf(d.holdings, 3)
                        else CeilingOf(d.holdings, 2)), PartialRecent)
    else if d.requestWindowSize >= Max(1, (if d.softRequestLimit == 0 then 1 else d.softRequestLimit) - 1) then
      BudgetPlan(if d.holdings <= 3 then 1 else 2, RequestWindowHot)
    else if d.buyScanDue && (d.buyRequestReserve > 0 || d.buyQuoteReserve > 0) then
      BudgetPlan(Max(1, if d.holdings >= 8 then CeilingOf(d.holdings, 3) else CeilingOf(d.holdings, 2)), BuyScanReserve)
    else BudgetPlan(d.holdings, Normal)
  }

  /** One holding is looked at although the execution reserve is short, if nothing is kept for the BUY scan. */
  predicate IsRelaxed(d: Demand) {
    && d.executionReserve > 0 && d.buyRequestReserve <= 0 && d.buyQuoteReserve <= 0
    && d.remainingRequests > 0 && QuoteHeadroom(d) > 0
  }

  function BuildBudgetPlan(d: Demand): BudgetPlan {
    if d.holdings <= 0 then BudgetPlan(0, Empty)
    else
      var budgetCap := Min(d.holdings, Min(RequestHeadroom(d), QuoteHeadroom(d)));
      if budgetCap <= 0 then
        if IsRelaxed(d) then BudgetPlan(1, Relaxed)
        else if d.executionReserve > 0
          && Max(0, d.remainingRequests) - Max(0, d.buyRequestReserve) <= d.executionReserve
        then BudgetPlan(0, ExecutionReserveExhausted)
        else BudgetPlan(0, BuyScanReserveExhausted)
      else
        var soft := SoftCap(d);
        BudgetPlan(Max(0, Min(budgetCap, soft.maxEvaluations)), soft.pressure)
  }

  /**
   * A plan never takes what is kept for the BUY scan, and takes what is kept for the execution only for the single
   * relaxed evaluation; it looks at something as soon as both headrooms are positive.
   */
  lemma BudgetKeepsReserves(d: Demand)
    ensures
      var n := BuildBudgetPlan(d).maxEvaluations;
      && 0 <= n <= Max(0, d.holdings)
      && (n > 0 ==> n + Max(0, d.buyQuoteReserve) <= d.remainingQuotes)
      && (n > 0 ==> n + Max(0, d.buyRequestReserve) <= d.remainingRequests)
      && (n > 0 && BuildBudgetPlan(d).pressure != Relaxed ==>
        n + Max(0, d.buyRequestReserve) + Max(0, d.executionReserve) <= d.remainingRequests)
      && (BuildBudgetPlan(d).pressure == Relaxed ==> n == 1)
      && (d.holdings > 0 && RequestHeadroom(d) > 0 && QuoteHeadroom(d) > 0 ==> n >= 1)
  {
  }

  /** So many looks leave the reserves of the BUY scan and of the execution alone. */
  predicate IsAffordable(d: Demand, k: int) {
    && k <= d.holdings
    && k + Max(0, d.buyRequestReserve) + Max(0, d.executionReserve) <= d.remainingRequests
    && k + Max(0, d.buyQuoteReserve) <= d.remainingQuotes
  }

  /** The strongest pressure that applies; a soft limit of zero counts as one. */
  predicate Presses(d: Demand, pressure: Pressure) {
    var limited := d.sellWatchRateLimited || d.rateLimitHits > 0;
    var hot := d.requestWindowSize >= 1 && (d.softRequestLimit == 0 || d.requestWindowSize + 1 >= d.softRequestLimit);
    var due := d.buyScanDue && (d.buyRequestReserve > 0 || d.buyQuoteReserve > 0);
    match pressure
    case RateLimitRecent => limited
    case PartialRecent => !limited && d.recentPartial
    case RequestWindowHot => !limited && !d.recentPartial && hot
    case BuyScanReserve => !limited && !d.recentPartial && !hot && due
    case Normal => !limited && !d.recentPartial && !hot && !due
    case _ => false
  }

  /** What a pressure leaves: one look or two, the half or the third of the holdings, rounded up, or all of them. */
  predicate IsEased(d: Demand, pressure: Pressure, k: int) {
    match pressure
    case RateLimitRecent => k <= 1 || (!d.sellWatchRateLimited && d.holdings > 3 && k <= 2)
    case PartialRecent => (if d.partialStreak >= 2 && d.holdings >= 4 then 3 else 2) * (k - 1) < d.holdings
    case RequestWindowHot => k <= 1 || (d.holdings > 3 && k <= 2)
    case BuyScanReserve => (if d.holdings >= 8 then 3 else 2) * (k - 1) < d.holdings
    case _ => true
  }

  /** As soon as one look is affordable, the plan is the largest number that is, and that the pressure leaves. */
  lemma BudgetIsLargest(d: Demand, k: int)
    requires d.holdings > 0 && IsAffordable(d, 1) && k >= 1
    ensures
      var plan := BuildBudgetPlan(d);
      && plan.maxEvaluations >= 1 && Presses(d, plan.pressure)
      && (k <= plan.maxEvaluations <==> IsAffordable(d, k) && IsEased(d, plan.pressure, k))
  {
    var h := d.holdings;
    assert k <= CeilingOf(h, 3) <==> 3 * (k - 1) < h;
    assert k <= CeilingOf(h, 2) <==> 2 * (k - 1) < h;
    assert Min(h, Min(RequestHeadroom(d), QuoteHeadroom(d))) >= k <==> IsAffordable(d, k);
  }

  /** Otherwise it is nothing, or one look at the cost of the execution alone, and says whose reserve was in the way. */
  lemma BudgetIsExhausted(d: Demand)
    requires d.holdings <= 0 || !IsAffordable(d, 1)
    ensures
      var (plan, kept) := (BuildBudgetPlan(d), Max(0, d.buyRequestReserve));
      var spares := kept == 0 && d.buyQuoteReserve <= 0 && d.remainingRequests >= 1 && d.remainingQuotes >= 1;
      match plan.pressure
      case Empty => d.holdings <= 0 && plan.maxEvaluations == 0
      case Relaxed => d.holdings > 0 && plan.maxEvaluations == 1 && d.executionReserve > 0 && spares
      case ExecutionReserveExhausted =>
        && d.holdings > 0 && plan.maxEvaluations == 0 && d.executionReserve > 0 && !spares
        && d.remainingRequests <= kept + d.executionReserve
      case BuyScanReserveExhausted =>
        && d.holdings > 0 && plan.maxEvaluations == 0 && (d.executionReserve > 0 ==> !spares)
        && (d.executionReserve <= 0 || d.remainingRequests > kept + d.executionReserve)
      case _ => false
  {
  }

  /** More remaining requests or quotes never mean fewer evaluations. */
  lemma BudgetIsMonotone(d: Demand, requests: int, quotes: int)
    requires d.remainingRequests <= requests && d.remainingQuotes <= quotes
    ensures BuildBudgetPlan(d).maxEvaluations
      <= BuildBudgetPlan(d.(remainingRequests := requests, remainingQuotes := quotes)).maxEvaluations
  {
    var more := d.(remainingRequests := requests, remainingQuotes := quotes);
    assert RequestHeadroom(d) <= RequestHeadroom(more) && QuoteHeadroom(d) <= QuoteHeadroom(more);
    if d.holdings > 0 {
      assert SoftCap(d) == SoftCap(more);
    }
  }

  // ----- in which order -----

  datatype CursorPlan = CursorPlan(start: nat, ordered: seq<nat>, usedRetry: bool, clearRetry: bool)

  /** Whole numbers from `a` up to but not including `b`. */
  function Range(a: nat, b: nat): (r: seq<nat>)
    requires a <= b
    ensures |r| == b - a && forall i :: 0 <= i < |r| ==> r[i] == a + i
  {
    seq(b - a, i requires i >= 0 => a + i)
  }

  function Rotation(total: nat, start: nat): seq<nat>
    requires start <= total
  {
    Range(start, total) + Range(0, start)
  }

  function FirstIndex(symbols: seq<Symbol>, symbol: Symbol): Option<nat> {
    if symbols == [] then None
    else
      match FirstIndex(symbols[..|symbols| - 1], symbol)
      case Some(i) => Some(i)
      case None => if symbols[|symbols| - 1] == symbol then Some(|symbols| - 1) else None
  }

  function BuildCursorPlan(symbols: seq<Symbol>, nextStart: int, retry: Symbol, riskFirst: bool): CursorPlan {
    var total, clear := |symbols|, retry != NO_SYMBOL;
    if total == 0 then CursorPlan(0, [], false, clear)
    else
      match FirstIndex(symbols, retry)
      case Some(i) => FirstIndexIsFirst(symbols, retry); CursorPlan(i, Rotation(total, i), true, true)
      case None =>
        var start := if riskFirst then 0 else nextStart % total;
        CursorPlan(start, Rotation(total, start), false, clear)
  }

  lemma {:induction false} FirstIndexIsFirst(symbols: seq<Symbol>, symbol: Symbol)
    ensures FirstIndex(symbols, symbol) == None <==> symbol !in symbols
    ensures
      var found := FirstIndex(symbols, symbol);
      found.Some? ==> found.value < |symbols| && symbols[found.value] == symbol && symbol !in symbols[..found.value]
  {
    if symbols != [] {
      var n := |symbols| - 1;
      FirstIndexIsFirst(symbols[..n], symbol);
      assert symbols == symbols[..n] + [symbols[n]];
      var found := FirstIndex(symbols, symbol);
      if found.Some? {
        assert symbols[..n][..found.value] == symbols[..found.value];
      }
    }
  }

  /** How far an index lies ahead of the start, going round. */
  function Ahead(total: nat, start: nat, i: nat): int
    requires start < total && i < total
  {
    if i >= start then i - start else i + total - start
  }

  /** The order visits every holding exactly once, going round from its start. */
  lemma RotationVisitsAll(total: nat, start: nat, i: nat)
    requires start < total && i < total
    ensures |Rotation(total, start)| == total
    ensures 0 <= Ahead(total, start, i) < total && Rotation(total, start)[Ahead(total, start, i)] == i
    ensures forall k :: 0 <= k < total && Rotation(total, start)[k] == i ==> k == Ahead(total, start, i)
  {
  }

  /** A plan is a rotation of all holdings; it starts at the retry symbol whenever that is held. */
  lemma PlanIsRotation(symbols: seq<Symbol>, nextStart: int, retry: Symbol, riskFirst: bool)
    requires symbols != []
    ensures
      var plan := BuildCursorPlan(symbols, nextStart, retry, riskFirst);
      && plan.start < |symbols| && plan.ordered == Rotation(|symbols|, plan.start)
      && (plan.usedRetry <==> retry in symbols)
      && (retry in symbols ==> symbols[plan.ordered[0]] == retry)
      && (retry !in symbols ==> plan.start == if riskFirst then 0 else nextStart % |symbols|)
  {
    FirstIndexIsFirst(symbols, retry);
  }

  // ----- tick by tick -----

  datatype Watch = Watch(cursor: nat, retry: Symbol)

  /** A rate limit at the last holding looked at; a sell that was found before it and is deferred takes precedence. */
  datatype Limit = NoLimit | AtLast | Deferred(place: nat)

  /**
   * One tick: whether the market was open, its cap, how many holdings it looked at, and the rate limit that ended it,
   * if one did.
   */
  datatype Tick = Tick(open: bool, riskFirst: bool, cap: int, visited: nat, limit: Limit)

  predicate IsTick(symbols: seq<Symbol>, t: Tick) {
    && t.visited <= |symbols| && (t.visited > 0 ==> t.open && t.visited <= t.cap)
    && match t.limit
       case NoLimit => true
       case AtLast => t.visited > 0
       case Deferred(place) => place < t.visited
  }

  /** Where in the order of its tick a rate limit sends the next tick back to. */
  function BackTo(t: Tick): nat
    requires !t.limit.NoLimit? && (t.limit.AtLast? ==> t.visited > 0)
  {
    if t.limit.Deferred? then t.limit.place else t.visited - 1
  }

  function After(symbols: seq<Symbol>, w: Watch, t: Tick): Watch
    requires symbols != [] && IsTick(symbols, t)
  {
    PlanIsRotation(symbols, w.cursor, w.retry, t.riskFirst);
    var plan := BuildCursorPlan(symbols, w.cursor, w.retry, t.riskFirst);
    var cleared := if plan.clearRetry then NO_SYMBOL else w.retry;
    var restored := if t.open && plan.usedRetry && t.cap <= 0 && w.retry != NO_SYMBOL then w.retry else cleared;
    var cursor := if t.visited > 0 then (plan.start + t.visited) % |symbols| else plan.start;
    match t.limit
    case NoLimit => Watch(cursor, restored)
    case AtLast => Watch(cursor, symbols[plan.ordered[t.visited - 1]])
    case Deferred(place) => Watch(plan.ordered[place], symbols[plan.ordered[place]])
  }

  // ----- whole runs of ticks -----

  /** Each holding has a code of its own. */
  ghost predicate Holdings(symbols: seq<Symbol>) {
    symbols != [] && NO_SYMBOL !in symbols
    && forall i, j :: 0 <= i < j < |symbols| ==> symbols[i] != symbols[j]
  }

  predicate AreTicks(symbols: seq<Symbol>, ticks: seq<Tick>) {
    forall k :: 0 <= k < |ticks| ==> IsTick(symbols, ticks[k])
  }

  function PlanOf(symbols: seq<Symbol>, w: Watch, t: Tick): CursorPlan {
    BuildCursorPlan(symbols, w.cursor, w.retry, t.riskFirst)
  }

  /** The holding at `i` is looked at in one of the ticks. */
  ghost predicate Reached(symbols: seq<Symbol>, w: Watch, ticks: seq<Tick>, i: nat)
    requires symbols != [] && AreTicks(symbols, ticks)
    decreases |ticks|
  {
    ticks != [] &&
    (Sees(symbols, w, ticks[0], i) || Reached(symbols, After(symbols, w, ticks[0]), ticks[1..], i))
  }

  ghost predicate Sees(symbols: seq<Symbol>, w: Watch, t: Tick, i: nat)
    requires symbols != [] && IsTick(symbols, t)
  {
    PlanIsRotation(symbols, w.cursor, w.retry, t.riskFirst);
    i in PlanOf(symbols, w, t).ordered[..t.visited]
  }

  /** How far a tick moves the start of the next one: a rate limit brings a holding already looked at to the front. */
  function Advance(t: Tick): int {
    match t.limit
    case NoLimit => t.visited
    case AtLast => t.visited - 1
    case Deferred(place) => place
  }

  /** How far round a run of ticks looks, counted from its first start. */
  function Reach(ticks: seq<Tick>): int {
    if ticks == [] then 0 else Max(ticks[0].visited, Advance(ticks[0]) + Reach(ticks[1..]))
  }

  lemma WrapAround(x: nat, total: nat)
    requires 0 < total && x < 2 * total
    ensures x % total == if x < total then x else x - total
  {
    if x >= total {
      assert x == 1 * total + (x - total);
    }
  }

  lemma GoRound(total: nat, start: nat, v: nat, i: nat)
    requires start < total && i < total && v <= total
    ensures 0 <= (start + v) % total < total
    ensures Ahead(total, start, i) >= v ==> Ahead(total, (start + v) % total, i) == Ahead(total, start, i) - v
  {
    WrapAround(start + v, total);
  }

  lemma SeesIff(symbols: seq<Symbol>, w: Watch, t: Tick, i: nat)
    requires symbols != [] && IsTick(symbols, t) && i < |symbols|
    ensures
      var start := PlanOf(symbols, w, t).start;
      start < |symbols| && (Sees(symbols, w, t, i) <==> Ahead(|symbols|, start, i) < t.visited)
  {
    PlanIsRotation(symbols, w.cursor, w.retry, t.riskFirst);
    var start := PlanOf(symbols, w, t).start;
    RotationVisitsAll(|symbols|, start, i);
    var r := Rotation(|symbols|, start);
    if Ahead(|symbols|, start, i) < t.visited {
      assert r[..t.visited][Ahead(|symbols|, start, i)] == i;
    }
    if i in r[..t.visited] {
      var k :| 0 <= k < t.visited && r[..t.visited][k] == i;
      assert r[k] == i;
    }
  }

  lemma RotationAt(total: nat, start: nat, k: nat)
    requires start < total && k < total
    ensures Rotation(total, start)[k] == (start + k) % total
  {
    WrapAround(start + k, total);
  }

  lemma FirstIndexOfHolding(symbols: seq<Symbol>, k: nat)
    requires Holdings(symbols) && k < |symbols|
    ensures FirstIndex(symbols, symbols[k]) == Some(k)
  {
    FirstIndexIsFirst(symbols, symbols[k]);
    var found := FirstIndex(symbols, symbols[k]);
    assert symbols[k] in symbols;
    assert found.value <= k ==> symbols[found.value] == symbols[k];
    assert forall j :: 0 <= j < found.value ==> symbols[j] in symbols[..found.value];
  }

  /** The tick looks first at the retry symbol, if that is held. */
  lemma RetryComesFirst(symbols: seq<Symbol>, w: Watch, t: Tick)
    requires w.retry in symbols
    ensures symbols[PlanOf(symbols, w, t).ordered[0]] == w.retry
  {
    PlanIsRotation(symbols, w.cursor, w.retry, t.riskFirst);
  }

  /**
   * A held retry symbol outlives a tick exactly when the market is open and there is no budget, or a rate limit sends
   * the next tick back to it. A tick with a budget that ends before its first look loses it, and so does a closed
   * market; the cursor then still points at its place.
   */
  lemma RetrySurvivesIff(symbols: seq<Symbol>, w: Watch, t: Tick)
    requires Holdings(symbols) && w.retry in symbols && IsTick(symbols, t)
    ensures After(symbols, w, t).retry == w.retry <==>
      if t.limit.NoLimit? then t.open && t.cap <= 0 else BackTo(t) == 0
    ensures t.visited == 0 ==>
      After(symbols, w, t).cursor < |symbols| && symbols[After(symbols, w, t).cursor] == w.retry
  {
    var plan := PlanOf(symbols, w, t);
    PlanIsRotation(symbols, w.cursor, w.retry, t.riskFirst);
    if !t.limit.NoLimit? {
      RotationAt(|symbols|, plan.start, BackTo(t));
      RotationAt(|symbols|, plan.start, 0);
      FirstIndexOfHolding(symbols, plan.ordered[BackTo(t)]);
      FirstIndexOfHolding(symbols, plan.ordered[0]);
      RotationVisitsAll(|symbols|, plan.start, plan.ordered[BackTo(t)]);
    }
  }

  /** After a tick the retry symbol, if there is one, is held; one that is no longer held is forgotten. */
  lemma RetryIsHeld(symbols: seq<Symbol>, w: Watch, t: Tick)
    requires Holdings(symbols) && IsTick(symbols, t)
    ensures After(symbols, w, t).retry == NO_SYMBOL || After(symbols, w, t).retry in symbols
    ensures w.retry !in symbols && t.limit.NoLimit? ==> After(symbols, w, t).retry == NO_SYMBOL
  {
    PlanIsRotation(symbols, w.cursor, w.retry, t.riskFirst);
  }

  /** Unless risk comes first, a tick starts where the last one stopped, or at the holding that met a rate limit. */
  lemma NextStart(symbols: seq<Symbol>, w: Watch, t: Tick, next: Tick)
    requires Holdings(symbols) && IsTick(symbols, t) && !next.riskFirst
    ensures
      var (start, total) := (PlanOf(symbols, w, t).start, |symbols|);
      start + Advance(t) >= 0 && PlanOf(symbols, After(symbols, w, t), next).start == (start + Advance(t)) % total
  {
    var plan, total := PlanOf(symbols, w, t), |symbols|;
    PlanIsRotation(symbols, w.cursor, w.retry, t.riskFirst);
    FirstIndexIsFirst(symbols, NO_SYMBOL);
    if !t.limit.NoLimit? {
      RotationAt(total, plan.start, BackTo(t));
      FirstIndexOfHolding(symbols, plan.ordered[BackTo(t)]);
    } else {
      FirstIndexIsFirst(symbols, w.retry);
      WrapAround(plan.start, total);
      WrapAround((plan.start + t.visited) % total, total);
    }
  }

  lemma AdvanceIsBounded(symbols: seq<Symbol>, t: Tick)
    requires IsTick(symbols, t)
    ensures 0 <= Advance(t) <= t.visited <= |symbols|
  {
  }

  lemma ReachedSplits(symbols: seq<Symbol>, w: Watch, ticks: seq<Tick>, i: nat)
    requires symbols != [] && AreTicks(symbols, ticks) && i < |symbols| && ticks != []
    ensures
      var start := PlanOf(symbols, w, ticks[0]).start;
      && start < |symbols|
      && (Reached(symbols, w, ticks, i) <==>
        || Ahead(|symbols|, start, i) < ticks[0].visited
        || Reached(symbols, After(symbols, w, ticks[0]), ticks[1..], i))
  {
    SeesIff(symbols, w, ticks[0], i);
  }

  /** What a tick sees, and what the later ones reach from where it sends them. */
  lemma ReachesFurther(total: nat, start: nat, t: Tick, next: nat, reach: nat, i: nat)
    requires start < total && i < total && t.visited <= total && next < total && 0 <= Advance(t) <= t.visited
    requires next == (start + Advance(t)) % total
    ensures Ahead(total, start, i) < t.visited || Ahead(total, next, i) < reach
      <==> Ahead(total, start, i) < Max(t.visited, Advance(t) + reach)
  {
    var advance := Advance(t);
    GoRound(total, start, advance, i);
  }

  /** One tick in front of others that reach `reach` from where they start. */
  lemma OneTickFurther(symbols: seq<Symbol>, w: Watch, t: Tick, next: Tick, i: nat, reach: nat)
    requires Holdings(symbols) && IsTick(symbols, t) && i < |symbols| && !next.riskFirst
    ensures
      var (total, start, place) := (|symbols|, PlanOf(symbols, w, t).start,
                                    PlanOf(symbols, After(symbols, w, t), next).start);
      && start < total && place < total
      && (Ahead(total, start, i) < t.visited || Ahead(total, place, i) < reach
        <==> Ahead(total, start, i) < Max(t.visited, Advance(t) + reach))
  {
    var total, start := |symbols|, PlanOf(symbols, w, t).start;
    var place := PlanOf(symbols, After(symbols, w, t), next).start;
    PlanIsRotation(symbols, w.cursor, w.retry, t.riskFirst);
    NextStart(symbols, w, t, next);
    AdvanceIsBounded(symbols, t);
    ReachesFurther(total, start, t, place, reach, i);
  }

  /**
   * While the holdings keep their order and risk does not come first, a run of ticks looks at a holding exactly when it
   * lies less far ahead of the first start than the ticks reach.
   */
  lemma {:induction false} ReachedIff(symbols: seq<Symbol>, w: Watch, ticks: seq<Tick>, i: nat)
    requires Holdings(symbols) && AreTicks(symbols, ticks) && i < |symbols| && ticks != []
    requires forall k :: 0 < k < |ticks| ==> !ticks[k].riskFirst
    ensures
      var start := PlanOf(symbols, w, ticks[0]).start;
      start < |symbols| && (Reached(symbols, w, ticks, i) <==> Ahead(|symbols|, start, i) < Reach(ticks))
    decreases |ticks|
  {
    var t, rest, next := ticks[0], ticks[1..], After(symbols, w, ticks[0]);
    ReachedSplits(symbols, w, ticks, i);
    if rest != [] {
      ReachedIff(symbols, next, rest, i);
      ReachIsPositive(rest);
      OneTickFurther(symbols, w, t, rest[0], i, Reach(rest));
    }
  }

  lemma {:induction false} ReachIsPositive(ticks: seq<Tick>)
    ensures Reach(ticks) >= 0
  {
    if ticks != [] {
      ReachIsPositive(ticks[1..]);
    }
  }

  /** Everybody is reached exactly when the ticks reach all the way round. */
  lemma EverybodyIsReachedIff(symbols: seq<Symbol>, w: Watch, ticks: seq<Tick>)
    requires Holdings(symbols) && AreTicks(symbols, ticks) && ticks != []
    requires forall k :: 0 < k < |ticks| ==> !ticks[k].riskFirst
    ensures (forall i :: 0 <= i < |symbols| ==> Reached(symbols, w, ticks, i)) <==> Reach(ticks) >= |symbols|
  {
    var total := |symbols|;
    PlanIsRotation(symbols, w.cursor, w.retry, ticks[0].riskFirst);
    var start := PlanOf(symbols, w, ticks[0]).start;
    var last := if start == 0 then total - 1 else start - 1;
    assert Ahead(total, start, last) == total - 1;
    ReachedIff(symbols, w, ticks, last);
    if Reach(ticks) >= total {
      forall i | 0 <= i < total
        ensures Reached(symbols, w, ticks, i)
      {
        ReachedIff(symbols, w, ticks, i);
        RotationVisitsAll(total, start, i);
      }
    }
  }

  function AfterAll(symbols: seq<Symbol>, w: Watch, ticks: seq<Tick>): Watch
    requires symbols != [] && AreTicks(symbols, ticks)
    decreases |ticks|
  {
    if ticks == [] then w else AfterAll(symbols, After(symbols, w, ticks[0]), ticks[1..])
  }

  /** A run in which risk comes first now and then falls into parts of that kind, and reaches what one of them does. */
  lemma {:induction false} ReachedJoins(symbols: seq<Symbol>, w: Watch, a: seq<Tick>, b: seq<Tick>, i: nat)
    requires symbols != [] && AreTicks(symbols, a) && AreTicks(symbols, b)
    ensures AreTicks(symbols, a + b)
    ensures Reached(symbols, w, a + b, i)
      <==> Reached(symbols, w, a, i) || Reached(symbols, AfterAll(symbols, w, a), b, i)
    decreases |a|
  {
    if a == [] {
      assert a + b == b;
    } else {
      assert (a + b)[1..] == a[1..] + b;
      ReachedJoins(symbols, After(symbols, w, a[0]), a[1..], b, i);
    }
  }

  // ----- who starves -----

  /** The number of looks in a run of ticks. */
  function Looks(ticks: seq<Tick>): nat {
    if ticks == [] then 0 else ticks[0].visited + Looks(ticks[1..])
  }

  function Advances(ticks: seq<Tick>): int {
    if ticks == [] then 0 else Advance(ticks[0]) + Advances(ticks[1..])
  }

  /** Without rate limits every look counts; in any case what each tick advances does. */
  lemma {:induction false} ReachByLooks(symbols: seq<Symbol>, ticks: seq<Tick>)
    requires AreTicks(symbols, ticks)
    ensures Advances(ticks) <= Reach(ticks) <= Looks(ticks)
    ensures (forall k :: 0 <= k < |ticks| ==> ticks[k].limit.NoLimit?) ==>
      Advances(ticks) == Reach(ticks) == Looks(ticks)
  {
    if ticks != [] {
      assert IsTick(symbols, ticks[0]);
      assert forall k :: 0 <= k < |ticks| - 1 ==> ticks[1..][k] == ticks[k + 1];
      ReachByLooks(symbols, ticks[1..]);
      ReachIsPositive(ticks[1..]);
    }
  }

  /** Without rate limits and risk-first ticks nobody starves: as many looks as there are holdings reach them all. */
  lemma NobodyStarves(symbols: seq<Symbol>, w: Watch, ticks: seq<Tick>, i: nat)
    requires Holdings(symbols) && AreTicks(symbols, ticks) && i < |symbols|
    requires forall k :: 0 <= k < |ticks| ==> !ticks[k].riskFirst && ticks[k].limit.NoLimit?
    requires Looks(ticks) >= |symbols|
    ensures Reached(symbols, w, ticks, i)
  {
    ReachByLooks(symbols, ticks);
    ReachedIff(symbols, w, ticks, i);
    RotationVisitsAll(|symbols|, PlanOf(symbols, w, ticks[0]).start, i);
  }

  /** A tick that looks at as many holdings as its plan says and meets no rate limit. */
  function TickOf(d: Demand): Tick {
    var n := BuildBudgetPlan(d).maxEvaluations;
    Tick(true, false, n, Max(0, n), NoLimit)
  }

  lemma {:induction false} EachTickLooks(ticks: seq<Tick>)
    requires forall k :: 0 <= k < |ticks| ==> ticks[k].visited >= 1
    ensures Looks(ticks) >= |ticks|
  {
    if ticks != [] {
      assert forall k :: 0 <= k < |ticks| - 1 ==> ticks[1..][k] == ticks[k + 1];
      EachTickLooks(ticks[1..]);
    }
  }

  /** As many ticks as there are holdings look at them all, if each of them can afford a single look. */
  lemma AffordableTicksReachAll(symbols: seq<Symbol>, w: Watch, demands: seq<Demand>, i: nat)
    requires Holdings(symbols) && i < |symbols| <= |demands|
    requires forall k :: 0 <= k < |demands| ==> demands[k].holdings == |symbols| && IsAffordable(demands[k], 1)
    ensures Reached(symbols, w, seq(|demands|, k requires 0 <= k < |demands| => TickOf(demands[k])), i)
  {
    var ticks := seq(|demands|, k requires 0 <= k < |demands| => TickOf(demands[k]));
    forall k | 0 <= k < |ticks|
      ensures IsTick(symbols, ticks[k]) && ticks[k].visited >= 1
    {
      BudgetKeepsReserves(demands[k]);
      BudgetIsLargest(demands[k], 1);
    }
    EachTickLooks(ticks);
    NobodyStarves(symbols, w, ticks, i);
  }

  /** One look per tick, and each meets a rate limit. */
  function RateLimited(n: nat): seq<Tick> {
    if n == 0 then [] else [Tick(true, false, 1, 1, AtLast)] + RateLimited(n - 1)
  }

  lemma {:induction false} RateLimitedReach(symbols: seq<Symbol>, n: nat)
    requires symbols != []
    ensures AreTicks(symbols, RateLimited(n)) && |RateLimited(n)| == Looks(RateLimited(n)) == n
    ensures Reach(RateLimited(n)) == if n == 0 then 0 else 1
    ensures forall k :: 0 <= k < n ==> !RateLimited(n)[k].riskFirst
  {
    if n > 0 {
      RateLimitedReach(symbols, n - 1);
      assert RateLimited(n)[1..] == RateLimited(n - 1);
    }
  }

  /** With them everybody but one starves: the run looks any number of times, always at the holding it started at. */
  lemma RateLimitsStarve(symbols: seq<Symbol>, w: Watch, n: nat, i: nat)
    requires Holdings(symbols) && i < |symbols| && i != PlanOf(symbols, w, Tick(true, false, 1, 1, AtLast)).start
    ensures AreTicks(symbols, RateLimited(n)) && Looks(RateLimited(n)) == n
    ensures !Reached(symbols, w, RateLimited(n), i)
  {
    RateLimitedReach(symbols, n);
    if n > 0 {
      ReachedIff(symbols, w, RateLimited(n), i);
    }
  }

  /** The most holdings any of the ticks looks at. */
  function MostVisited(ticks: seq<Tick>): nat {
    if ticks == [] then 0 else Max(ticks[0].visited, MostVisited(ticks[1..]))
  }

  /** While risk comes first and no rate limit intervenes, exactly the front holdings are looked at, tick after tick. */
  lemma {:induction false} RiskFirstReaches(symbols: seq<Symbol>, w: Watch, ticks: seq<Tick>, i: nat)
    requires Holdings(symbols) && AreTicks(symbols, ticks) && i < |symbols| && w.retry !in symbols
    requires forall k :: 0 <= k < |ticks| ==> ticks[k].riskFirst && ticks[k].limit.NoLimit?
    ensures Reached(symbols, w, ticks, i) <==> i < MostVisited(ticks)
    decreases |ticks|
  {
    if ticks != [] {
      PlanIsRotation(symbols, w.cursor, w.retry, true);
      SeesIff(symbols, w, ticks[0], i);
      RiskFirstReaches(symbols, After(symbols, w, ticks[0]), ticks[1..], i);
    }
  }
}
