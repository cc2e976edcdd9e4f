/** The soft request budget of one trading session: a one-second window plus back-off after broker errors. */
module ApiBudgets {
  import opened Prelude
  import opened SlidingWindow

  const WAIT_MARGIN := 0.05

  /** The requests less than a second old, in their original order. */
  function Fresh(stamps: seq<real>, now: real): seq<real> {
    if |stamps| == 0 then []
    else
      var rest := Fresh(stamps[..|stamps| - 1], now);
      var x := stamps[|stamps| - 1];
      if now - x < WINDOW_SECONDS then rest + [x] else rest
  }

  /** The window has room for `cost` more requests. */
  predicate HasRoom(stamps: seq<real>, now: real, cost: int, softMax: int) {
    |Fresh(stamps, now)| + cost <= softMax
  }

  predicate BackoffActive(until: Option<real>, now: real) {
    until.Some? && until.value > now
  }

  /** How long to wait, counted from `now`, given the requests still in the window. */
  function MinWait(recents: seq<real>, now: real, cost: int, reserve: int, softMax: int): (wait: real) {
    var overflow := |recents| + Max(0, cost) + Max(0, reserve) - Max(1, softMax);
    if overflow <= 0 || recents == [] then 0.0
    else
      var pivot := recents[Min(|recents| - 1, overflow - 1)];
      MaxReal(0.0, WINDOW_SECONDS - (now - pivot)) + WAIT_MARGIN
  }

  class ApiBudget {
    var recentRequests: seq<real>
    var quotesUsedThisTick: int
    var backoffUntil: Option<real>
    var transientErrorUntil: Option<real>
    const softMaxRequests: int
    const softMaxQuotes: int

    constructor (softMaxRequests: int, softMaxQuotes: int)
      ensures this.softMaxRequests == softMaxRequests && this.softMaxQuotes == softMaxQuotes
      ensures recentRequests == [] && quotesUsedThisTick == 0 && backoffUntil.None? && transientErrorUntil.None?
    {
      this.softMaxRequests, this.softMaxQuotes := softMaxRequests, softMaxQuotes;
      recentRequests, quotesUsedThisTick, backoffUntil, transientErrorUntil := [], 0, None, None;
    }

    method Prune(now: real)
      modifies this`recentRequests
      ensures recentRequests == Fresh(old(recentRequests), now)
    {
      var kept: seq<real> := [];
      for i := 0 to |recentRequests|
        invariant recentRequests == old(recentRequests)
        invariant kept == Fresh(recentRequests[..i], now)
      {
        assert recentRequests[..i + 1][..i] == recentRequests[..i];
        if now - recentRequests[i] < WINDOW_SECONDS {
          kept := kept + [recentRequests[i]];
        }
      }
      assert recentRequests[..|recentRequests|] == recentRequests;
      recentRequests := kept;
    }

    method CanRequest(now: real, cost: int, allowDuringBackoff: bool) returns (r: bool)
      modifies this`recentRequests
      ensures recentRequests == Fresh(old(recentRequests), now)
      ensures r <==>
        && (allowDuringBackoff
            || ((backoffUntil.Some? ==> backoffUntil.value <= now)
                && (transientErrorUntil.Some? ==> transientErrorUntil.value <= now)))
        && HasRoom(old(recentRequests), now, cost, softMaxRequests)
    {
      Prune(now);
      if BackoffActive(backoffUntil, now) && !allowDuringBackoff {
        return false;
      }
      if BackoffActive(transientErrorUntil, now) && !allowDuringBackoff {
        return false;
      }
      return |recentRequests| + cost <= softMaxRequests;
    }

    method RemainingRequests(now: real, allowDuringBackoff: bool) returns (n: nat)
      modifies this`recentRequests
      ensures recentRequests == Fresh(old(recentRequests), now)
      ensures n > 0 ==> HasRoom(old(recentRequests), now, n, softMaxRequests)
      ensures n == 0 || !HasRoom(old(recentRequests), now, n + 1, softMaxRequests)
      ensures !allowDuringBackoff && (BackoffActive(backoffUntil, now) || BackoffActive(transientErrorUntil, now)) ==>
        n == 0
      ensures allowDuringBackoff && n == 0 ==> !HasRoom(old(recentRequests), now, 1, softMaxRequests)
    {
      Prune(now);
      if (BackoffActive(backoffUntil, now) || BackoffActive(transientErrorUntil, now)) && !allowDuringBackoff {
        return 0;
      }
      return Max(0, softMaxRequests - |recentRequests|);
    }

    method RegisterRequest(now: real, quoteCost: int)
      modifies this`recentRequests, this`quotesUsedThisTick
      ensures recentRequests == Fresh(old(recentRequests), now) + [now]
      ensures quotesUsedThisTick == old(quotesUsedThisTick) + Max(0, quoteCost)
    {
      Prune(now);
      recentRequests := recentRequests + [now];
      quotesUsedThisTick := quotesUsedThisTick + Max(0, quoteCost);
    }

    method RegisterRequests(now: real, count: int, quoteCost: int)
      modifies this`recentRequests, this`quotesUsedThisTick
      ensures count <= 0 ==> recentRequests == old(recentRequests) && quotesUsedThisTick == old(quotesUsedThisTick)
      ensures count > 0 ==> recentRequests == Fresh(old(recentRequests), now) + seq(count, _ => now)
      ensures count > 0 ==> quotesUsedThisTick == old(quotesUsedThisTick) + Max(0, quoteCost)
    {
      var n := Max(0, count);
      for i := 0 to n
        invariant i == 0 ==> recentRequests == old(recentRequests) && quotesUsedThisTick == old(quotesUsedThisTick)
        invariant i > 0 ==> recentRequests == Fresh(old(recentRequests), now) + seq(i, _ => now)
        invariant i > 0 ==> quotesUsedThisTick == old(quotesUsedThisTick) + Max(0, quoteCost)
      {
        ghost var before := recentRequests;
        RegisterRequest(now, if i == 0 then quoteCost else 0);
        if i > 0 {
          FreshKeepsNew(old(recentRequests), now, i);
        }
        assert seq(i, _ => now) + [now] == seq(i + 1, _ => now);
      }
    }

    method MinWaitForRequestSlot(now: real, cost: int, reserve: int) returns (wait: real)
      modifies this`recentRequests
      ensures recentRequests == Fresh(old(recentRequests), now)
      ensures wait == MinWait(recentRequests, now, cost, reserve, softMaxRequests)
    {
      Prune(now);
      var limit := Max(1, softMaxRequests);
      var neededTotal := |recentRequests| + Max(0, cost) + Max(0, reserve);
      var overflow := neededTotal - limit;
      if overflow <= 0 || recentRequests == [] {
        return 0.0;
      }
      var pivotTime := recentRequests[Min(|recentRequests| - 1, overflow - 1)];
      return MaxReal(0.0, WINDOW_SECONDS - (now - pivotTime)) + WAIT_MARGIN;
    }
  }

  lemma {:induction false} FreshIdempotent(stamps: seq<real>, now: real)
    ensures Fresh(Fresh(stamps, now), now) == Fresh(stamps, now)
    ensures forall i :: 0 <= i < |Fresh(stamps, now)| ==> now - Fresh(stamps, now)[i] < WINDOW_SECONDS
  {
    if |stamps| > 0 {
      var n := |stamps| - 1;
      FreshIdempotent(stamps[..n], now);
      var rest := Fresh(stamps[..n], now);
      assert (rest + [stamps[n]])[..|rest|] == rest;
    }
  }

  lemma {:induction false} FreshKeepsNew(stamps: seq<real>, now: real, k: nat)
    ensures Fresh(Fresh(stamps, now) + seq(k, _ => now), now) == Fresh(stamps, now) + seq(k, _ => now)
  {
    var base := Fresh(stamps, now);
    if k == 0 {
      FreshIdempotent(stamps, now);
      assert base + seq(0, _ => now) == base;
    } else {
      FreshKeepsNew(stamps, now, k - 1);
      var all := base + seq(k, _ => now);
      assert all[..|all| - 1] == base + seq(k - 1, _ => now);
      assert all == base + seq(k - 1, _ => now) + [now];
    }
  }

  /** On requests recorded in time order the window is what follows the last old request. */
  lemma {:induction false} FreshOfSorted(stamps: seq<real>, now: real, gone: nat)
    requires gone <= |stamps|
    requires forall i :: 0 <= i < gone ==> now - stamps[i] >= WINDOW_SECONDS
    requires forall i :: gone <= i < |stamps| ==> now - stamps[i] < WINDOW_SECONDS
    ensures Fresh(stamps, now) == stamps[gone..]
  {
    if |stamps| > 0 {
      var n := |stamps| - 1;
      if gone == |stamps| {
        FreshOfSorted(stamps[..n], now, n);
      } else {
        FreshOfSorted(stamps[..n], now, gone);
        assert stamps[gone..] == stamps[..n][gone..] + [stamps[n]];
      }
    }
  }

  lemma {:induction false} FreshIsPruned(stamps: seq<real>, now: real)
    requires Sorted(stamps)
    ensures Fresh(stamps, now) == Pruned(stamps, now)
  {
    PrunedIsSuffix(stamps, now);
    var gone := |stamps| - |Pruned(stamps, now)|;
    forall i | gone <= i < |stamps|
      ensures now - stamps[i] < WINDOW_SECONDS
    {
      assert stamps[gone] <= stamps[i];
    }
    FreshOfSorted(stamps, now, gone);
  }

  /** One request leaving or staying decides how many are left. */
  lemma {:induction false} FreshCount(stamps: seq<real>, at: real, k: nat)
    requires Sorted(stamps) && k < |stamps|
    ensures at - stamps[k] >= WINDOW_SECONDS ==> |Fresh(stamps, at)| <= |stamps| - k - 1
    ensures at - stamps[k] < WINDOW_SECONDS ==> |Fresh(stamps, at)| >= |stamps| - k
  {
    FreshIsPruned(stamps, at);
    PrunedIsSuffix(stamps, at);
  }

  /**
   * For a request with its reserve (at least one in all), waiting the computed time or any longer makes room when
   * they fit the limit at all; when they do not, no wait ever helps.
   */
  lemma {:induction false} WaitSuffices(recents: seq<real>, now: real, cost: int, reserve: int, softMax: int)
    requires Sorted(recents)
    requires Max(0, cost) + Max(0, reserve) >= 1
    ensures
      var needed := Max(0, cost) + Max(0, reserve);
      var wait := MinWait(recents, now, cost, reserve, softMax);
      if needed <= softMax
      then forall at :: at >= now + wait ==> HasRoom(recents, at, needed, softMax)
      else forall at :: !HasRoom(recents, at, needed, softMax)
  {
    var needed := Max(0, cost) + Max(0, reserve);
    var wait := MinWait(recents, now, cost, reserve, softMax);
    var overflow := |recents| + needed - softMax;
    if needed <= softMax {
      forall at | at >= now + wait
        ensures HasRoom(recents, at, needed, softMax)
      {
        if overflow > 0 {
          FreshCount(recents, at, overflow - 1);
        } else {
          FreshIsPruned(recents, at);
        }
      }
    }
  }

  /** A wait shorter by more than the safety margin leaves no room. */
  lemma {:induction false} WaitIsTight(recents: seq<real>, now: real, cost: int, reserve: int, softMax: int, at: real)
    requires Sorted(recents) && Fresh(recents, now) == recents
    requires !HasRoom(recents, now, Max(0, cost) + Max(0, reserve), softMax)
    requires now <= at < now + MinWait(recents, now, cost, reserve, softMax) - WAIT_MARGIN
    ensures !HasRoom(recents, at, Max(0, cost) + Max(0, reserve), softMax)
  {
    var needed := Max(0, cost) + Max(0, reserve);
    var overflow := |recents| + needed - Max(1, softMax);
    if needed <= softMax && 0 < overflow <= |recents| {
      FreshCount(recents, at, overflow - 1);
    }
  }

  /** Requests that were admitted together at one moment. */
  datatype Admission = Admission(at: real, count: nat)

  function Registered(t: Trace, a: Admission): Trace {
    Trace(t.log + seq(a.count, _ => a.at), Fresh(t.ledger, a.at) + seq(a.count, _ => a.at), a.at)
  }

  function RegisteredAll(t: Trace, run: seq<Admission>): Trace {
    if run == [] then t else Registered(RegisteredAll(t, run[..|run| - 1]), run[|run| - 1])
  }

  /** Every admission was checked against the window just before it was registered, on a clock that never runs back. */
  ghost predicate Checked(t: Trace, run: seq<Admission>, limit: nat) {
    run == [] || (
      var before := RegisteredAll(t, run[..|run| - 1]);
      var last := run[|run| - 1];
      && Checked(t, run[..|run| - 1], limit)
      && before.clock <= last.at
      && HasRoom(before.ledger, last.at, last.count, limit)
    )
  }

  lemma {:induction false} RecordMany(t: Trace, k: nat, limit: nat)
    requires limit >= 1 && Tracks(t, limit) && |t.ledger| + k <= limit
    ensures Tracks(t.(log := t.log + seq(k, _ => t.clock), ledger := t.ledger + seq(k, _ => t.clock)), limit)
  {
    var stamps := seq(k, _ => t.clock);
    if k == 0 {
      assert t.log + stamps == t.log && t.ledger + stamps == t.ledger;
    } else {
      RecordMany(t, k - 1, limit);
      var fewer := seq(k - 1, _ => t.clock);
      assert stamps == fewer + [t.clock];
      RecordTracks(t.(log := t.log + fewer, ledger := t.ledger + fewer), limit);
      assert t.log + fewer + [t.clock] == t.log + stamps;
      assert t.ledger + fewer + [t.clock] == t.ledger + stamps;
    }
  }

  /** The requests of a run, each at the moment at which it was admitted. */
  function StampsOf(run: seq<Admission>): seq<real> {
    if run == [] then []
    else
      var last := run[|run| - 1];
      StampsOf(run[..|run| - 1]) + seq(last.count, _ => last.at)
  }

  lemma {:induction false} LogHasStamps(t: Trace, run: seq<Admission>)
    ensures RegisteredAll(t, run).log == t.log + StampsOf(run)
  {
    if run != [] {
      LogHasStamps(t, run[..|run| - 1]);
      var last := run[|run| - 1];
      var (earlier, stamps) := (StampsOf(run[..|run| - 1]), seq(last.count, _ => last.at));
      assert t.log + earlier + stamps == t.log + (earlier + stamps);
    }
  }

  /** Check-then-register: of the requests of a run no one-second window ever holds more than the limit. */
  lemma {:induction false} CheckedRunStaysWithinLimit(run: seq<Admission>, start: real, limit: nat, t: real)
    requires limit >= 1 && Checked(Trace([], [], start), run, limit)
    ensures CountWithin(StampsOf(run), t) <= limit
  {
    LogHasStamps(Trace([], [], start), run);
    assert [] + StampsOf(run) == StampsOf(run);
    CheckedRunTracks(Trace([], [], start), run, limit);
    PacedWindowsAreSmall(RegisteredAll(Trace([], [], start), run).log, limit, t);
  }

  lemma {:induction false} CheckedRunTracks(t: Trace, run: seq<Admission>, limit: nat)
    requires limit >= 1 && Tracks(t, limit) && Checked(t, run, limit)
    ensures Tracks(RegisteredAll(t, run), limit)
  {
    if run != [] {
      var before := RegisteredAll(t, run[..|run| - 1]);
      var last := run[|run| - 1];
      CheckedRunTracks(t, run[..|run| - 1], limit);
      TraceLedgerSorted(before, limit);
      FreshIsPruned(before.ledger, last.at);
      ForgetTracks(before, last.at, limit);
      RecordMany(Forget(before, last.at), last.count, limit);
    }
  }

  lemma TraceLedgerSorted(t: Trace, limit: nat)
    requires Tracks(t, limit)
    ensures Sorted(t.ledger)
  {
  }
}
