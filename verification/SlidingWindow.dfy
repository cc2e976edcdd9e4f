/** Logs of timestamps in which no one-second window is crowded. */
module SlidingWindow {

  const WINDOW_SECONDS := 1.0

  ghost predicate Sorted(log: seq<real>) {
    forall i, j :: 0 <= i <= j < |log| ==> log[i] <= log[j]
  }

  /** Entries that are `limit` places apart are at least one window apart. */
  ghost predicate Paced(log: seq<real>, limit: nat) {
    forall i, j :: 0 <= i && i + limit <= j < |log| ==> log[j] - log[i] >= WINDOW_SECONDS
  }

  /** How many entries fall in the half-open window (t - 1, t]. */
  function CountWithin(log: seq<real>, t: real): nat {
    if |log| == 0 then 0
    else
      var rest := CountWithin(log[..|log| - 1], t);
      var x := log[|log| - 1];
      if t - WINDOW_SECONDS < x <= t then rest + 1 else rest
  }

  /** It is the number of places in the log whose entry lies in the window. */
  lemma {:induction false} CountIsSize(log: seq<real>, t: real)
    ensures CountWithin(log, t) == |set i | 0 <= i < |log| && t - 1.0 < log[i] <= t|
  {
    if log != [] {
      var n := |log| - 1;
      CountIsSize(log[..n], t);
      var earlier := set i | 0 <= i < n && t - 1.0 < log[..n][i] <= t;
      assert (set i | 0 <= i < |log| && t - 1.0 < log[i] <= t)
        == earlier + if t - 1.0 < log[n] <= t then {n} else {};
    }
  }

  lemma {:induction false} CountSkipsOld(log: seq<real>, t: real, k: nat)
    requires k <= |log|
    requires forall i :: 0 <= i < k ==> log[i] <= t - WINDOW_SECONDS
    ensures CountWithin(log, t) <= |log| - k
  {
    if |log| == k {
      if k > 0 {
        CountSkipsOld(log[..k - 1], t, k - 1);
      }
    } else {
      CountSkipsOld(log[..|log| - 1], t, k);
    }
  }

  /** Every window of a paced log, wherever it is placed, holds at most `limit` entries. */
  lemma {:induction false} PacedWindowsAreSmall(log: seq<real>, limit: nat, t: real)
    requires limit >= 1 && Sorted(log) && Paced(log, limit)
    ensures CountWithin(log, t) <= limit
  {
    if |log| > 0 {
      var n := |log| - 1;
      if log[n] > t {
        PacedWindowsAreSmall(log[..n], limit, t);
      } else if n >= limit {
        CountSkipsOld(log, t, n + 1 - limit);
      } else {
        CountSkipsOld(log, t, 0);
      }
    }
  }

  /** Conversely, a log whose every window is small is paced, so the two notions agree. */
  lemma {:induction false} SmallWindowsArePaced(log: seq<real>, limit: nat, i: nat, j: nat)
    requires limit >= 1 && Sorted(log)
    requires forall t :: CountWithin(log, t) <= limit
    requires i + limit <= j < |log|
    ensures log[j] - log[i] >= WINDOW_SECONDS
  {
    if log[j] - log[i] < WINDOW_SECONDS {
      CountCoversRange(log, log[j], i, j + 1);
    }
  }

  lemma {:induction false} CountCoversRange(log: seq<real>, t: real, lo: nat, hi: nat)
    requires lo <= hi <= |log|
    requires forall k :: lo <= k < hi ==> t - WINDOW_SECONDS < log[k] <= t
    ensures CountWithin(log, t) >= hi - lo
  {
    if |log| > 0 && hi > lo {
      if hi == |log| {
        CountCoversRange(log[..hi - 1], t, lo, hi - 1);
      } else {
        CountCoversRange(log[..|log| - 1], t, lo, hi);
      }
    }
  }

  /** The timestamps still inside the window that ends at `now`, oldest entries dropped first. */
  function Pruned(stamps: seq<real>, now: real): (kept: seq<real>)
    ensures |kept| <= |stamps|
  {
    if |stamps| > 0 && stamps[0] <= now - WINDOW_SECONDS then Pruned(stamps[1..], now) else stamps
  }

  /** Pruning removes an old prefix and nothing else. */
  lemma {:induction false} PrunedIsSuffix(stamps: seq<real>, now: real)
    ensures var kept := Pruned(stamps, now);
      && |kept| <= |stamps| && kept == stamps[|stamps| - |kept|..]
      && (forall i :: 0 <= i < |stamps| - |kept| ==> stamps[i] <= now - WINDOW_SECONDS)
      && (kept != [] ==> kept[0] > now - WINDOW_SECONDS)
  {
    if |stamps| > 0 && stamps[0] <= now - WINDOW_SECONDS {
      PrunedIsSuffix(stamps[1..], now);
      assert forall i :: 1 <= i < |stamps| ==> stamps[i] == stamps[1..][i - 1];
    }
  }

  /** Everything a limiter has stamped, what it still remembers of it, and its latest clock reading. */
  datatype Trace = Trace(log: seq<real>, ledger: seq<real>, clock: real)

  /** The ledger holds the newest stamps; everything older has left the window, and the limit was kept throughout. */
  ghost predicate Tracks(t: Trace, limit: nat) {
    var forgotten := |t.log| - |t.ledger|;
    && Sorted(t.log) && Paced(t.log, limit)
    && 0 <= forgotten && |t.ledger| <= limit
    && (t.ledger == [] || forall i :: 0 <= i < |t.ledger| ==> t.ledger[i] == t.log[forgotten + i])
    && (forall i :: 0 <= i < forgotten ==> t.log[i] <= t.clock - WINDOW_SECONDS)
    && (forall i :: 0 <= i < |t.log| ==> t.log[i] <= t.clock)
  }

  /** Pruning at `now`. */
  function Forget(t: Trace, now: real): Trace {
    t.(ledger := Pruned(t.ledger, now), clock := now)
  }

  /** Stamping a call at the current clock reading. */
  function Record(t: Trace): Trace {
    t.(log := t.log + [t.clock], ledger := t.ledger + [t.clock])
  }

  lemma ForgetTracks(t: Trace, now: real, limit: nat)
    requires Tracks(t, limit) && t.clock <= now
    ensures Tracks(Forget(t, now), limit)
  {
    PrunedIsSuffix(t.ledger, now);
    var kept := Pruned(t.ledger, now);
    var forgotten := |t.log| - |t.ledger|;
    forall i | 0 <= i < |t.log| - |kept|
      ensures t.log[i] <= now - WINDOW_SECONDS
    {
      if i >= forgotten {
        assert t.log[i] == t.ledger[i - forgotten];
      }
    }
    forall i | 0 <= i < |kept|
      ensures kept[i] == t.log[|t.log| - |kept| + i]
    {
      assert kept[i] == t.ledger[|t.ledger| - |kept| + i];
    }
  }

  lemma RecordTracks(t: Trace, limit: nat)
    requires limit >= 1 && Tracks(t, limit) && |t.ledger| < limit
    ensures Tracks(Record(t), limit)
  {
    var next := Record(t).log;
    forall i, j | 0 <= i && i + limit <= j < |next|
      ensures next[j] - next[i] >= WINDOW_SECONDS
    {
      if j == |t.log| {
        assert i < |t.log| - |t.ledger|;
      }
    }
  }

  /** Pops entries off the old end while they lie outside the window. */
  method PopOld(stamps: seq<real>, now: real) returns (kept: seq<real>)
    ensures kept == Pruned(stamps, now)
  {
    kept := stamps;
    while |kept| > 0 && kept[0] <= now - WINDOW_SECONDS
      invariant Pruned(kept, now) == Pruned(stamps, now)
      decreases |kept|
    {
      kept := kept[1..];
    }
  }

  lemma PruneTwice(stamps: seq<real>, now: real)
    ensures Pruned(Pruned(stamps, now), now) == Pruned(stamps, now)
  {
    PrunedIsSuffix(stamps, now);
  }
}
