/** The client-side gateway clamp: operator settings never widen the broker's own limits. */
module RateLimits {
  import opened Prelude

  const MOCK_MAX_PER_SECOND := 1
  const LIVE_MAX_PER_SECOND := 18
  const MOCK_MIN_SPACING := 1.05
  const LIVE_MIN_SPACING := 0.1

  datatype Environment = Mock | Live | Unrecognized

  datatype Settings = Settings(
    environment: Environment,
    maxRequestsPerSecond: int,
    minSpacing: real,
    maxQuotesPerTick: int)

  datatype RateLimit = RateLimit(perSecond: nat, spacing: real)

  /** So many requests per second are no more than configured, nor than the environment takes; one always is. */
  predicate IsAllowed(s: Settings, n: int) {
    && 1 <= n && (n == 1 || n <= s.maxRequestsPerSecond)
    && (s.environment.Mock? ==> n <= MOCK_MAX_PER_SECOND) && (s.environment.Live? ==> n <= LIVE_MAX_PER_SECOND)
  }

  /** Calls so far apart keep the configured spacing and that of the environment. */
  predicate IsSpacing(s: Settings, gap: real) {
    && gap >= 0.0 && gap >= s.minSpacing
    && (s.environment.Mock? ==> gap >= MOCK_MIN_SPACING) && (s.environment.Live? ==> gap >= LIVE_MIN_SPACING)
  }

  function Resolve(s: Settings): (r: RateLimit)
    ensures r.perSecond >= 1 && r.spacing >= 0.0
    ensures s.environment.Mock? ==> r.perSecond <= MOCK_MAX_PER_SECOND && r.spacing >= MOCK_MIN_SPACING
    ensures s.environment.Live? ==> r.perSecond <= LIVE_MAX_PER_SECOND && r.spacing >= LIVE_MIN_SPACING
    ensures r.spacing >= s.minSpacing
    ensures s.maxRequestsPerSecond >= 1 ==> r.perSecond <= s.maxRequestsPerSecond
  {
    var configuredMax := Max(1, s.maxRequestsPerSecond);
    var configuredFloor := MaxReal(0.0, s.minSpacing);
    match s.environment
    case Mock => RateLimit(Min(configuredMax, MOCK_MAX_PER_SECOND), MaxReal(configuredFloor, MOCK_MIN_SPACING))
    case Live => RateLimit(Min(configuredMax, LIVE_MAX_PER_SECOND), MaxReal(configuredFloor, LIVE_MIN_SPACING))
    case Unrecognized => RateLimit(configuredMax, configuredFloor)
  }

  /** The clamp takes as many requests as are allowed, and keeps them no farther apart than they have to be. */
  lemma ResolveIsExact(s: Settings, n: int, gap: real)
    ensures IsAllowed(s, Resolve(s).perSecond) && (IsAllowed(s, n) ==> n <= Resolve(s).perSecond)
    ensures IsSpacing(s, gap) <==> gap >= Resolve(s).spacing
  {
  }

  /** Spacing enforced on callers that name no interval of their own. */
  function DefaultInterval(s: Settings): (r: real) {
    var limit := Resolve(s);
    MaxReal(1.0 / limit.perSecond as real, limit.spacing)
  }

  /** The spacing a call is held to: its own, or the default one. */
  function EffectiveInterval(s: Settings, asked: Option<real>): real {
    match asked
    case Some(interval) => interval
    case None => DefaultInterval(s)
  }

  /**
   * A call is far enough from another one: by the interval it asks for, and otherwise by an even share of the second
   * and the spacing that is configured and that the environment demands.
   */
  predicate IsApart(s: Settings, asked: Option<real>, gap: real) {
    match asked
    case Some(interval) => interval > 0.0 ==> gap >= interval
    case None =>
      && gap >= 1.0 / Resolve(s).perSecond as real && gap >= s.minSpacing
      && (s.environment.Mock? ==> gap >= 1.05) && (s.environment.Live? ==> gap >= 0.1)
  }

  /** The interval a call is held to is the least that is far enough. */
  lemma ApartIff(s: Settings, asked: Option<real>, gap: real)
    ensures IsApart(s, asked, gap) <==> (EffectiveInterval(s, asked) > 0.0 ==> gap >= EffectiveInterval(s, asked))
  {
    assert 1.0 / Resolve(s).perSecond as real > 0.0;
    ResolveIsExact(s, 1, gap);
  }
}

/** The rolling request ledger every broker call passes through. */
module Throttling {
  import opened Prelude
  import opened SlidingWindow
  import opened RateLimits

  const SAFETY_BUFFER := 0.05
  const PENALTY_TTL := 120.0
  const PENALTY_EXTRA_DELAY := 0.3
  const ORDER_REQUEST_SLOTS := 2

  /** What one call sees after old entries are dropped. */
  datatype Moment = Moment(
    requests: seq<real>,
    quotes: seq<real>,
    lastSameCategory: real,
    lastGlobal: real,
    isQuote: bool,
    interval: real)

  /** A request may leave at time `at` without breaking any spacing or window rule. */
  predicate MayLeave(m: Moment, limit: nat, quoteLimit: nat, at: real)
    requires limit >= 1 && quoteLimit >= 1
  {
    && (m.interval > 0.0 ==> at - m.lastSameCategory >= m.interval && at - m.lastGlobal >= m.interval)
    && (|m.requests| >= limit ==> at >= m.requests[0] + WINDOW_SECONDS + SAFETY_BUFFER)
    && (m.isQuote && |m.quotes| >= quoteLimit ==> at >= m.quotes[0] + WINDOW_SECONDS + SAFETY_BUFFER)
  }

  /** `wait` is the shortest time after `now` at which the request may leave. */
  ghost predicate ShortestWait(m: Moment, limit: nat, quoteLimit: nat, now: real, wait: real)
    requires limit >= 1 && quoteLimit >= 1
  {
    && wait >= 0.0 && MayLeave(m, limit, quoteLimit, now + wait)
    && forall at :: now <= at < now + wait ==> !MayLeave(m, limit, quoteLimit, at)
  }

  /** The extra delay still owed after a rate-limit reply, rounded to a tenth of a millisecond. */
  function AdaptiveDelay(until: real, extra: real, now: real): (r: real) {
    if until - now > 0.0 && extra > 0.0
    then RoundHalfEven(extra * 1000.0 * 10.0) as real / 10.0 / 1000.0
    else 0.0
  }

  /** The extra delay is what was asked for to a twentieth of a millisecond, while the penalty lasts, and else none. */
  lemma AdaptiveDelayMeans(until: real, extra: real, now: real)
    ensures until > now && extra > 0.0 ==> -0.00005 <= AdaptiveDelay(until, extra, now) - extra <= 0.00005
    ensures until <= now || extra <= 0.0 ==> AdaptiveDelay(until, extra, now) == 0.0
  {
    var x := extra * 10000.0;
    assert x == extra * 1000.0 * 10.0;
    assert x.Floor as real <= x < x.Floor as real + 1.0 && (x.Floor + 1) as real == x.Floor as real + 1.0;
    assert RoundHalfEven(x) == x.Floor || RoundHalfEven(x) == x.Floor + 1;
  }

  /** The request ledger after one more call that arrives at `arrival.0` and is stamped at `arrival.1`. */
  function AfterCall(requests: seq<real>, arrival: (real, real)): seq<real> {
    Pruned(Pruned(requests, arrival.0), arrival.1) + [arrival.1]
  }

  function AfterCalls(requests: seq<real>, arrivals: seq<(real, real)>): seq<real> {
    if arrivals == [] then requests
    else AfterCall(AfterCalls(requests, arrivals[..|arrivals| - 1]), arrivals[|arrivals| - 1])
  }

  /** The request window holds back a call arriving at `now`. */
  predicate WindowHoldsBack(requests: seq<real>, now: real, limit: nat) {
    |Pruned(requests, now)| >= limit
  }

  /** A request stamped at the moment the window rule allows leaves room in the ledger. */
  lemma LeavingMakesRoom(requests: seq<real>, limit: nat, at: real)
    requires limit >= 1 && |requests| <= limit
    requires |requests| >= limit ==> at >= requests[0] + WINDOW_SECONDS
    ensures |Pruned(requests, at)| < limit
  {
    PrunedIsSuffix(requests, at);
  }

  /** The sleep, before any adaptive delay, of a call that arrives at `now`. */
  method ShortestSleep(m: Moment, limit: nat, quoteLimit: nat, now: real) returns (sleep: real)
    requires limit >= 1 && quoteLimit >= 1
    ensures ShortestWait(m, limit, quoteLimit, now, sleep)
  {
    sleep := 0.0;
    if m.interval > 0.0 {
      var categoryElapsed := now - m.lastSameCategory;
      var globalElapsed := now - m.lastGlobal;
      if categoryElapsed < m.interval {
        sleep := MaxReal(sleep, m.interval - categoryElapsed);
      }
      if globalElapsed < m.interval {
        sleep := MaxReal(sleep, m.interval - globalElapsed);
      }
    }
    if |m.requests| >= limit {
      sleep := MaxReal(sleep, m.requests[0] + WINDOW_SECONDS - now + SAFETY_BUFFER);
    }
    if m.isQuote && |m.quotes| >= quoteLimit {
      sleep := MaxReal(sleep, m.quotes[0] + WINDOW_SECONDS - now + SAFETY_BUFFER);
    }
  }

  /** At that time the window would still hold too much, or the last call would still be too close. */
  predicate TooEarly(ledger: seq<real>, room: int, lastGlobal: real, interval: real, at: real) {
    |Pruned(ledger, at)| > room || (lastGlobal != 0.0 && at - lastGlobal < interval)
  }

  /** No sleep that is shorter by more than the safety margin would do. */
  ghost predicate IsTight(ledger: seq<real>, room: int, lastGlobal: real, interval: real, now: real, sleep: real) {
    forall at :: now <= at < now + sleep - SAFETY_BUFFER ==> TooEarly(ledger, room, lastGlobal, interval, at)
  }

  /** The sleep that makes room for `count` more requests in a window of `limit`. */
  method ReservationSleep(ledger: seq<real>, limit: nat, count: int, lastGlobal: real, interval: real, now: real)
    returns (sleep: real)
    requires limit >= 1 && |ledger| <= limit && Sorted(ledger)
    ensures sleep >= 0.0
    ensures forall at :: at >= now + sleep ==> |Pruned(ledger, at)| <= limit - Min(Max(1, count), limit)
    ensures lastGlobal != 0.0 ==> now + sleep - lastGlobal >= interval
    ensures IsTight(ledger, limit - Min(Max(1, count), limit), lastGlobal, interval, now, sleep)
  {
    var reserve := Min(Max(1, count), limit);
    sleep := 0.0;
    var globalElapsed := now - lastGlobal;
    if lastGlobal != 0.0 && globalElapsed < interval {
      sleep := interval - globalElapsed;
    }
    var overflow := |ledger| - (limit - reserve);
    if overflow > 0 {
      var expiry := ledger[overflow - 1] + WINDOW_SECONDS;
      forall at | now <= at < expiry
        ensures |Pruned(ledger, at)| > limit - reserve
      {
        PrunedIsSuffix(ledger, at);
      }
      sleep := MaxReal(sleep, expiry - now + SAFETY_BUFFER);
      forall at | at >= now + sleep
        ensures |Pruned(ledger, at)| <= limit - reserve
      {
        OldestExpire(ledger, overflow, at);
      }
    }
  }

  /** The ledgers are what is left of all stamps, limits and spacing were kept, and no stamp is later than the last. */
  ghost predicate Sound(
    limit: nat, quoteLimit: nat, requests: Trace, quotes: Trace, requestStamps: seq<real>, quoteStamps: seq<real>,
    lastGlobalAt: real, intervals: seq<real>)
  {
    && Tracks(requests, limit) && requests.ledger == requestStamps
    && Tracks(quotes, quoteLimit) && quotes.ledger == quoteStamps
    && requests.clock == quotes.clock
    && (forall i :: 0 <= i < |requests.log| ==> requests.log[i] <= lastGlobalAt)
    && Spaced(requests.log, intervals)
  }

  lemma InitiallySound(now: real, limit: nat, quoteLimit: nat)
    ensures Sound(limit, quoteLimit, Trace([], [], now), Trace([], [], now), [], [], 0.0, [])
  {
  }

  class Throttle {
    const settings: Settings
    var requestStamps: seq<real>
    var quoteStamps: seq<real>
    var lastRequestAt: real
    var lastQuoteAt: real
    var lastGlobalAt: real
    var penaltyUntil: real
    var penaltyExtra: real
    // Everything ever stamped, the interval each call was held to, and the one it asked for, if it did.
    ghost var requests: Trace
    ghost var quotes: Trace
    ghost var intervals: seq<real>
    ghost var asked: seq<Option<real>>

    function Limit(): (r: nat)
      ensures r >= 1
    {
      Resolve(settings).perSecond
    }

    function QuoteLimit(): (r: nat)
      ensures r >= 1
    {
      Max(1, settings.maxQuotesPerTick)
    }

    ghost predicate Valid()
      reads this
    {
      && Sound(Limit(), QuoteLimit(), requests, quotes, requestStamps, quoteStamps, lastGlobalAt, intervals)
      && intervals == HeldTo(settings, asked)
    }

    /** The latest clock reading. */
    ghost function Clock(): real
      reads this
    {
      requests.clock
    }

    constructor (settings: Settings, now: real)
      ensures Valid() && this.settings == settings && Clock() == now
      ensures requests.log == quotes.log == [] && requestStamps == quoteStamps == []
      ensures lastRequestAt == lastQuoteAt == lastGlobalAt == 0.0 && penaltyUntil == penaltyExtra == 0.0
    {
      this.settings := settings;
      requestStamps, quoteStamps := [], [];
      lastRequestAt, lastQuoteAt, lastGlobalAt := 0.0, 0.0, 0.0;
      penaltyUntil, penaltyExtra := 0.0, 0.0;
      requests, quotes, intervals, asked := Trace([], [], now), Trace([], [], now), [], [];
      InitiallySound(now, Resolve(settings).perSecond, Max(1, settings.maxQuotesPerTick));
    }

    method NoteRateLimit(extraDelayMs: Option<real>, ttlSeconds: Option<real>, now: real)
      requires Valid()
      modifies this`penaltyUntil, this`penaltyExtra
      ensures Valid()
      ensures penaltyExtra >= 0.0 && penaltyUntil >= now
      ensures extraDelayMs.Some? && extraDelayMs.value >= 0.0 ==> penaltyExtra * 1000.0 == extraDelayMs.value
      ensures extraDelayMs.None? ==> penaltyExtra == PENALTY_EXTRA_DELAY
      ensures ttlSeconds.None? ==> penaltyUntil - now == PENALTY_TTL
      ensures ttlSeconds.Some? && ttlSeconds.value >= 0.0 ==> penaltyUntil - now == ttlSeconds.value
    {
      penaltyExtra := MaxReal(0.0, if extraDelayMs.Some? then extraDelayMs.value / 1000.0 else PENALTY_EXTRA_DELAY);
      penaltyUntil := now + MaxReal(0.0, if ttlSeconds.Some? then ttlSeconds.value else PENALTY_TTL);
    }

    /** Drops the entries that have left the window; the clock reading is `now`. */
    method PruneOldTimestamps(now: real)
      requires Valid() && Clock() <= now
      modifies this`requestStamps, this`quoteStamps, this`requests, this`quotes
      ensures Valid()
      ensures requests == Forget(old(requests), now) && quotes == Forget(old(quotes), now)
    {
      ForgetTracks(requests, now, Limit());
      ForgetTracks(quotes, now, QuoteLimit());
      requestStamps := PopOld(requestStamps, now);
      quoteStamps := PopOld(quoteStamps, now);
      requests, quotes := Forget(requests, now), Forget(quotes, now);
    }

    /** Sleeps if there is anything to sleep for, then prunes again at the time of waking. */
    method Sleep(now: real, seconds: real, late: real) returns (woken: real)
      requires Valid() && Clock() == now && late >= 0.0
      requires Pruned(requestStamps, now) == requestStamps && Pruned(quoteStamps, now) == quoteStamps
      modifies this`requestStamps, this`quoteStamps, this`requests, this`quotes
      ensures Valid()
      ensures woken == if seconds > 0.0 then now + seconds + late else now
      ensures requests == Forget(old(requests), woken) && quotes == Forget(old(quotes), woken)
    {
      woken := now;
      if seconds > 0.0 {
        woken := now + seconds + late;
        PruneOldTimestamps(woken);
      }
    }

    ghost function MomentAt(now: real, isQuote: bool, interval: real): Moment
      reads this
    {
      Moment(Pruned(requestStamps, now), Pruned(quoteStamps, now),
             if isQuote then lastQuoteAt else lastRequestAt, lastGlobalAt, isQuote, interval)
    }

    /** Sleeps until a call held to `interval` may leave, plus any adaptive delay. */
    method Wait(interval: real, isQuote: bool, now: real, late: real) returns (slept: real, woken: real)
      requires Valid() && Clock() <= now && late >= 0.0
      modifies this`requestStamps, this`quoteStamps, this`requests, this`quotes
      ensures Valid()
      ensures slept >= 0.0 && woken == (if slept > 0.0 then now + slept + late else now)
      ensures
        var moment := old(MomentAt(now, isQuote, interval));
        var extra := MaxReal(0.0, AdaptiveDelay(penaltyUntil, penaltyExtra, now));
        && ShortestWait(moment, Limit(), QuoteLimit(), now, slept - extra)
        && |moment.requests| <= Limit() && |moment.quotes| <= QuoteLimit()
      ensures requests == Forget(Forget(old(requests), now), woken)
      ensures quotes == Forget(Forget(old(quotes), now), woken)
    {
      PruneOldTimestamps(now);
      var extra := AdaptiveDelay(penaltyUntil, penaltyExtra, now);
      var moment := Moment(requestStamps, quoteStamps, if isQuote then lastQuoteAt else lastRequestAt, lastGlobalAt,
                           isQuote, interval);
      slept := ShortestSleep(moment, Limit(), QuoteLimit(), now);
      if extra > 0.0 {
        slept := slept + extra;
      }
      PruneTwice(old(requestStamps), now);
      PruneTwice(old(quoteStamps), now);
      woken := Sleep(now, slept, late);
    }

    /**
     * One throttled call arriving at `now`. Sleeping wakes `late` seconds after the asked-for moment, never before.
     * The sleep, less the adaptive delay, is the shortest one after which the call may leave.
     */
    method Acquire(minimumInterval: Option<real>, isQuote: bool, now: real, late: real)
      returns (slept: real, stamp: real)
      requires Valid() && Clock() <= now && late >= 0.0
      modifies this
      ensures Valid() && Clock() == stamp
      ensures slept >= 0.0 && stamp == (if slept > 0.0 then now + slept + late else now)
      ensures
        var interval := EffectiveInterval(settings, minimumInterval);
        var extra := MaxReal(0.0, old(AdaptiveDelay(penaltyUntil, penaltyExtra, now)));
        && ShortestWait(old(MomentAt(now, isQuote, interval)), Limit(), QuoteLimit(), now, slept - extra)
        && intervals == old(intervals) + [interval] && asked == old(asked) + [minimumInterval]
      ensures requests == Record(Forget(Forget(old(requests), now), stamp))
      ensures quotes == var q := Forget(Forget(old(quotes), now), stamp); if isQuote then Record(q) else q
      ensures IsApart(settings, minimumInterval, stamp - old(lastGlobalAt))
      ensures requestStamps == AfterCall(old(requestStamps), (now, stamp))
      ensures lastGlobalAt == stamp
      ensures lastQuoteAt == (if isQuote then stamp else old(lastQuoteAt))
      ensures lastRequestAt == (if isQuote then old(lastRequestAt) else stamp)
      ensures penaltyUntil == old(penaltyUntil) && penaltyExtra == old(penaltyExtra)
    {
      var interval := EffectiveInterval(settings, minimumInterval);
      ghost var moment := MomentAt(now, isQuote, interval);
      slept, stamp := Wait(interval, isQuote, now, late);
      Stamp(isQuote, stamp, interval, moment, minimumInterval);
      ApartIff(settings, minimumInterval, stamp - old(lastGlobalAt));
    }

    /** Appends the stamp of a call that the rules allow to leave. */
    method Stamp(
      isQuote: bool, stamp: real, interval: real, ghost moment: Moment, ghost minimumInterval: Option<real>)
      requires Valid() && Clock() == stamp && interval == EffectiveInterval(settings, minimumInterval)
      requires moment.interval == interval && moment.isQuote == isQuote && moment.lastGlobal == lastGlobalAt
      requires MayLeave(moment, Limit(), QuoteLimit(), stamp)
      requires requestStamps == Pruned(moment.requests, stamp) && |moment.requests| <= Limit()
      requires quoteStamps == Pruned(moment.quotes, stamp) && |moment.quotes| <= QuoteLimit()
      modifies this`requestStamps, this`quoteStamps, this`requests, this`quotes, this`intervals, this`asked
      modifies this`lastRequestAt, this`lastQuoteAt, this`lastGlobalAt
      ensures Valid()
      ensures requests == Record(old(requests))
      ensures intervals == old(intervals) + [interval] && asked == old(asked) + [minimumInterval]
      ensures quotes == if isQuote then Record(old(quotes)) else old(quotes)
      ensures lastGlobalAt == stamp
      ensures lastQuoteAt == (if isQuote then stamp else old(lastQuoteAt))
      ensures lastRequestAt == (if isQuote then old(lastRequestAt) else stamp)
    {
      LeavingMakesRoom(moment.requests, Limit(), stamp);
      StampRequest(stamp, interval, minimumInterval);
      if isQuote {
        LeavingMakesRoom(moment.quotes, QuoteLimit(), stamp);
        StampQuote(stamp);
      } else {
        lastRequestAt := stamp;
      }
    }

    /** The request ledger and the moment of the last call of any category. */
    method StampRequest(stamp: real, interval: real, ghost minimumInterval: Option<real>)
      requires Valid() && Clock() == stamp && |requestStamps| < Limit()
      requires interval == EffectiveInterval(settings, minimumInterval)
      requires interval > 0.0 ==> stamp - lastGlobalAt >= interval
      modifies this`requestStamps, this`requests, this`intervals, this`asked, this`lastGlobalAt
      ensures Valid()
      ensures requests == Record(old(requests)) && lastGlobalAt == stamp
      ensures intervals == old(intervals) + [interval] && asked == old(asked) + [minimumInterval]
    {
      RecordTracks(requests, Limit());
      SpacedGrows(requests.log, intervals, stamp, interval);
      requestStamps := requestStamps + [stamp];
      HeldToGrows(settings, asked, minimumInterval);
      requests, intervals, asked := Record(requests), intervals + [interval], asked + [minimumInterval];
      lastGlobalAt := stamp;
    }

    method StampQuote(stamp: real)
      requires Valid() && Clock() == stamp && |quoteStamps| < QuoteLimit()
      modifies this`quoteStamps, this`quotes, this`lastQuoteAt
      ensures Valid()
      ensures quotes == Record(old(quotes)) && lastQuoteAt == stamp
    {
      RecordTracks(quotes, QuoteLimit());
      quoteStamps := quoteStamps + [stamp];
      quotes := Record(quotes);
      lastQuoteAt := stamp;
    }

    /**
     * Blocks until the window can absorb `count` more requests (or a whole window's worth, when `count` is larger),
     * recording nothing.
     */
    method WaitForRequestSlots(count: int, now: real, late: real) returns (slept: real)
      requires Valid() && Clock() <= now && late >= 0.0
      modifies this`requestStamps, this`quoteStamps, this`requests, this`quotes
      ensures Valid() && slept >= 0.0
      ensures Clock() == (if slept > 0.0 then now + slept + late else now)
      ensures requests == Forget(Forget(old(requests), now), Clock())
      ensures quotes == Forget(Forget(old(quotes), now), Clock())
      ensures |requestStamps| <= Limit() - Min(Max(1, count), Limit())
      ensures lastGlobalAt != 0.0 ==> Clock() - lastGlobalAt >= DefaultInterval(settings)
      ensures IsTight(Pruned(old(requestStamps), now), Limit() - Min(Max(1, count), Limit()), lastGlobalAt,
                      DefaultInterval(settings), now, slept)
    {
      PruneOldTimestamps(now);
      var ledger := requestStamps;
      LedgerSorted(requests, Limit());
      slept := ReservationSleep(ledger, Limit(), count, lastGlobalAt, DefaultInterval(settings), now);
      PruneTwice(old(requestStamps), now);
      PruneTwice(old(quoteStamps), now);
      var _ := Sleep(now, slept, late);
      assert requestStamps == Pruned(ledger, Clock());
    }
  }

  /** The intervals that calls are held to. */
  function HeldTo(settings: Settings, asked: seq<Option<real>>): seq<real> {
    if asked == [] then []
    else HeldTo(settings, asked[..|asked| - 1]) + [EffectiveInterval(settings, asked[|asked| - 1])]
  }

  lemma HeldToGrows(settings: Settings, asked: seq<Option<real>>, minimumInterval: Option<real>)
    ensures HeldTo(settings, asked + [minimumInterval])
      == HeldTo(settings, asked) + [EffectiveInterval(settings, minimumInterval)]
  {
    assert (asked + [minimumInterval])[..|asked|] == asked;
  }

  lemma {:induction false} HeldToAt(settings: Settings, asked: seq<Option<real>>, i: nat)
    requires i < |asked|
    ensures |HeldTo(settings, asked)| == |asked| && HeldTo(settings, asked)[i] == EffectiveInterval(settings, asked[i])
  {
    if i < |asked| - 1 {
      HeldToAt(settings, asked[..|asked| - 1], i);
    } else if |asked| > 1 {
      HeldToAt(settings, asked[..|asked| - 1], 0);
    }
  }

  /** Each logged entry keeps its call's interval from the one before it. */
  ghost predicate Spaced(log: seq<real>, intervals: seq<real>) {
    && |log| == |intervals|
    && (log == [] || forall i {:trigger intervals[i]} :: 0 < i < |log| ==> log[i] - log[i - 1] >= intervals[i])
  }

  lemma SpacedGrows(log: seq<real>, intervals: seq<real>, stamp: real, interval: real)
    requires Spaced(log, intervals)
    requires forall i :: 0 <= i < |log| ==> stamp - log[i] >= interval
    ensures Spaced(log + [stamp], intervals + [interval])
  {
  }

  /** Once the entry at place `k - 1` has left the window, so have all `k` oldest. */
  lemma OldestExpire(ledger: seq<real>, k: nat, at: real)
    requires 1 <= k <= |ledger| && Sorted(ledger) && at >= ledger[k - 1] + WINDOW_SECONDS
    ensures |Pruned(ledger, at)| <= |ledger| - k
  {
    PrunedIsSuffix(ledger, at);
  }

  lemma LedgerSorted(t: Trace, limit: nat)
    requires Tracks(t, limit)
    ensures Sorted(t.ledger) && |t.ledger| <= limit
  {
  }

  /** In every reachable state no one-second window holds more calls, or quotes, than its limit. */
  lemma NoWindowIsCrowded(t: Throttle, at: real)
    requires t.Valid()
    ensures CountWithin(t.requests.log, at) <= t.Limit() && CountWithin(t.quotes.log, at) <= t.QuoteLimit()
  {
    PacedWindowsAreSmall(t.requests.log, t.Limit(), at);
    PacedWindowsAreSmall(t.quotes.log, t.QuoteLimit(), at);
  }

  /** What that means for the two environments, whatever the operator configured. */
  lemma {:induction false} NoCrowdedWindow(settings: Settings, log: seq<real>, t: real)
    requires Sorted(log) && Paced(log, Resolve(settings).perSecond)
    ensures CountWithin(log, t) <= Resolve(settings).perSecond
    ensures settings.environment.Mock? ==> CountWithin(log, t) <= 1
    ensures settings.environment.Live? ==> CountWithin(log, t) <= 18
  {
    PacedWindowsAreSmall(log, Resolve(settings).perSecond, t);
  }

  lemma {:induction false} SpacingAddsUp(log: seq<real>, d: real, i: nat, j: nat)
    requires i < j < |log| && forall k :: i < k <= j ==> log[k] - log[k - 1] >= d
    ensures log[j] - log[i] >= (j - i) as real * d
    decreases j - i
  {
    var before := (j - 1 - i) as real;
    assert (j - i) as real == before + 1.0;
    assert (before + 1.0) * d == before * d + d;
    assert log[j] - log[j - 1] >= d;
    if i + 1 < j {
      SpacingAddsUp(log, d, i, j - 1);
    }
  }

  /**
   * Every two consecutive calls of a throttle, whatever else it was asked in between, are as far apart as the later one
   * asked for, and otherwise as the settings and the environment demand.
   */
  lemma CallsAreApart(t: Throttle, i: nat)
    requires t.Valid() && 0 < i < |t.requests.log|
    ensures |t.asked| == |t.requests.log|
    ensures IsApart(t.settings, t.asked[i], t.requests.log[i] - t.requests.log[i - 1])
    ensures t.asked[i].Some? ==> t.requests.log[i] - t.requests.log[i - 1] >= t.asked[i].value
  {
    if t.asked != [] {
      HeldToAt(t.settings, t.asked, 0);
    }
    HeldToAt(t.settings, t.asked, i);
    assert t.requests.log[i] - t.requests.log[i - 1] >= t.intervals[i];
    ApartIff(t.settings, t.asked[i], t.requests.log[i] - t.requests.log[i - 1]);
  }

  /** What it takes to be apart, one demand at a time. */
  lemma DefaultDemands(settings: Settings, gap: real, d: real)
    requires IsApart(settings, None, gap)
    requires d == settings.minSpacing || d == 1.0 / Resolve(settings).perSecond as real
      || (settings.environment.Mock? && d == 1.05) || (settings.environment.Live? && d == 0.1)
    ensures gap >= d
  {
  }

  /**
   * The stretch between two calls when no later one of them names an interval: each call adds the configured spacing,
   * its share of the second, and the 1.05 s of mock or the 0.1 s of live trading.
   */
  lemma DefaultSpacing(t: Throttle, i: nat, j: nat, d: real)
    requires t.Valid() && i < j < |t.requests.log|
    requires forall k :: i < k <= j && k < |t.asked| ==> t.asked[k] == None
    requires d == t.settings.minSpacing || d == 1.0 / Resolve(t.settings).perSecond as real
      || (t.settings.environment.Mock? && d == 1.05) || (t.settings.environment.Live? && d == 0.1)
    ensures t.requests.log[j] - t.requests.log[i] >= (j - i) as real * d
  {
    var log := t.requests.log;
    forall k | i < k <= j
      ensures log[k] - log[k - 1] >= d
    {
      CallsAreApart(t, k);
      DefaultDemands(t.settings, log[k] - log[k - 1], d);
    }
    SpacingAddsUp(log, d, i, j);
  }

  /**
   * Slot reservation: when the ledger has room for `reserve` more requests, none of the next `reserve` calls is held
   * back by the window, whenever they arrive and however long spacing delays them.
   */
  lemma {:induction false} ReservedCallsPassTheWindow(
    requests: seq<real>, limit: nat, reserve: nat, arrivals: seq<(real, real)>, now: real)
    requires 1 <= reserve <= limit && |requests| <= limit - reserve
    requires |arrivals| < reserve
    ensures !WindowHoldsBack(AfterCalls(requests, arrivals), now, limit)
  {
    LedgerGrowsByCalls(requests, arrivals);
    PrunedIsSuffix(AfterCalls(requests, arrivals), now);
  }

  lemma {:induction false} LedgerGrowsByCalls(requests: seq<real>, arrivals: seq<(real, real)>)
    ensures |AfterCalls(requests, arrivals)| <= |requests| + |arrivals|
  {
    if arrivals != [] {
      var before := arrivals[..|arrivals| - 1];
      LedgerGrowsByCalls(requests, before);
      PrunedIsSuffix(AfterCalls(requests, before), arrivals[|arrivals| - 1].0);
      PrunedIsSuffix(Pruned(AfterCalls(requests, before), arrivals[|arrivals| - 1].0), arrivals[|arrivals| - 1].1);
    }
  }

  /** A request that arrives `gap` after the one before it has left, and whose sleep ends `late`. */
  datatype Call = Call(gap: real, late: real, interval: Option<real>)

  /** When a call arrived, how long it slept and when it left. */
  datatype Departure = Departure(arrival: real, slept: real, stamp: real)

  /** Apart from any adaptive delay a call left as soon as the spacing let it, whatever the window held. */
  ghost predicate HeldBySpacingOnly(
    d: Departure, interval: real, lastSame: real, lastGlobal: real, extra: real, limit: nat, quoteLimit: nat)
    requires limit >= 1 && quoteLimit >= 1
  {
    ShortestWait(Moment([], [], lastSame, lastGlobal, false, interval), limit, quoteLimit, d.arrival, d.slept - extra)
  }

  lemma RoomMeansSpacingOnly(m: Moment, limit: nat, quoteLimit: nat, d: Departure, extra: real)
    requires limit >= 1 && quoteLimit >= 1 && !m.isQuote && |m.requests| < limit
    requires ShortestWait(m, limit, quoteLimit, d.arrival, d.slept - extra)
    ensures HeldBySpacingOnly(d, m.interval, m.lastSameCategory, m.lastGlobal, extra, limit, quoteLimit)
  {
    var free := Moment([], [], m.lastSameCategory, m.lastGlobal, false, m.interval);
    assert forall at :: MayLeave(m, limit, quoteLimit, at) <==> MayLeave(free, limit, quoteLimit, at);
  }

  /** What that means for a call of its own interval under the penalty in force. */
  ghost predicate LeavesFreely(
    settings: Settings, call: Call, d: Departure, lastSame: real, lastGlobal: real, until: real, extra: real)
  {
    HeldBySpacingOnly(d, EffectiveInterval(settings, call.interval), lastSame, lastGlobal,
                      MaxReal(0.0, AdaptiveDelay(until, extra, d.arrival)), Resolve(settings).perSecond,
                      Max(1, settings.maxQuotesPerTick))
  }

  /** One call of the kind that is no quote. */
  method CallOnce(t: Throttle, call: Call, clock: real) returns (d: Departure)
    requires t.Valid() && t.Clock() == clock && call.gap >= 0.0 && call.late >= 0.0
    modifies t
    ensures t.Valid() && t.Clock() == d.stamp && d.arrival == clock + call.gap
    ensures t.requests.log == old(t.requests.log) + [d.stamp] && |t.requestStamps| <= |old(t.requestStamps)| + 1
    ensures t.lastGlobalAt == t.lastRequestAt == d.stamp
    ensures t.penaltyUntil == old(t.penaltyUntil) && t.penaltyExtra == old(t.penaltyExtra)
    ensures |old(t.requestStamps)| < t.Limit() ==>
      LeavesFreely(t.settings, call, d, old(t.lastRequestAt), old(t.lastGlobalAt), t.penaltyUntil, t.penaltyExtra)
  {
    var arrival := clock + call.gap;
    ghost var interval := EffectiveInterval(t.settings, call.interval);
    ghost var moment := t.MomentAt(arrival, false, interval);
    var slept, stamp := t.Acquire(call.interval, false, arrival, call.late);
    d := Departure(arrival, slept, stamp);
    PrunedIsSuffix(old(t.requestStamps), arrival);
    PrunedIsSuffix(Pruned(old(t.requestStamps), arrival), stamp);
    if |old(t.requestStamps)| < t.Limit() {
      RoomMeansSpacingOnly(moment, t.Limit(), t.QuoteLimit(), d,
                           MaxReal(0.0, AdaptiveDelay(t.penaltyUntil, t.penaltyExtra, arrival)));
    }
  }

  /**
   * The two requests of an order, after waiting for their slots: the first is held by spacing alone, and so is the
   * second unless the window takes one request only.
   */
  method PlaceOrder(t: Throttle, now: real, late: real, hashkey: Call, order: Call)
    returns (ready: real, first: Departure, second: Departure)
    requires t.Valid() && t.Clock() <= now && late >= 0.0
    requires hashkey.gap >= 0.0 && hashkey.late >= 0.0 && order.gap >= 0.0 && order.late >= 0.0
    modifies t
    ensures t.Valid() && ready >= now && first.arrival == ready + hashkey.gap
    ensures second.arrival == first.stamp + order.gap
    ensures t.requests.log == old(t.requests.log) + [first.stamp] + [second.stamp]
    ensures LeavesFreely(t.settings, hashkey, first, old(t.lastRequestAt), old(t.lastGlobalAt), t.penaltyUntil,
                         t.penaltyExtra)
    ensures t.Limit() >= ORDER_REQUEST_SLOTS ==>
      LeavesFreely(t.settings, order, second, first.stamp, first.stamp, t.penaltyUntil, t.penaltyExtra)
  {
    var slept := t.WaitForRequestSlots(ORDER_REQUEST_SLOTS, now, late);
    ready := if slept > 0.0 then now + slept + late else now;
    first := CallOnce(t, hashkey, ready);
    second := CallOnce(t, order, first.stamp);
  }

  /** The reservation is exact: one more call beyond it can be held back. */
  lemma OneCallTooMany(limit: nat, reserve: nat) returns (requests: seq<real>, arrivals: seq<(real, real)>, now: real)
    requires 1 <= reserve <= limit
    ensures |requests| <= limit - reserve && |arrivals| == reserve
    ensures WindowHoldsBack(AfterCalls(requests, arrivals), now, limit)
  {
    requests, now := seq(limit - reserve, _ => 10.0), 10.0;
    arrivals := seq(reserve, _ => (10.0, 10.0));
    SameInstantCalls(requests, arrivals, 10.0);
  }

  lemma {:induction false} SameInstantCalls(requests: seq<real>, arrivals: seq<(real, real)>, at: real)
    requires forall i :: 0 <= i < |requests| ==> requests[i] == at
    requires forall i :: 0 <= i < |arrivals| ==> arrivals[i] == (at, at)
    ensures |AfterCalls(requests, arrivals)| == |requests| + |arrivals|
    ensures forall i :: 0 <= i < |AfterCalls(requests, arrivals)| ==> AfterCalls(requests, arrivals)[i] == at
  {
    if arrivals != [] {
      SameInstantCalls(requests, arrivals[..|arrivals| - 1], at);
    }
  }
}
