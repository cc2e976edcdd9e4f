/** The bounded ledger of trades that someone may have made by hand, behind the trader's back. */
module Suspects {
  import opened Prelude
  import opened RuntimeStates
  import opened Reconciliations
  import opened Visits

  const SUSPECTS_CAP := 30

  datatype Suspect = Suspect(
    firstDetected: real, lastDetected: real, kind: DriftKind, suspicion: Suspicion, expected: int, actual: int,
    occurrences: nat, resolved: Option<real>)

  predicate IsSuspect(e: Event) {
    Classify(e) != Unexplained && e.symbol != NO_SYMBOL
  }

  // ----- one event, one symbol -----

  /** A live suspect is refreshed; otherwise a new one is opened. */
  function Upserted(existing: Option<Suspect>, e: Event, now: real): Suspect {
    if existing.Some? && existing.value.resolved == None
    then existing.value.(lastDetected := now, kind := e.kind, suspicion := Classify(e), expected := e.expected,
                         actual := e.actual, occurrences := existing.value.occurrences + 1)
    else Suspect(now, now, e.kind, Classify(e), e.expected, e.actual, 1, None)
  }

  function Lookup(m: map<Symbol, Suspect>, s: Symbol): Option<Suspect> {
    if s in m then Some(m[s]) else None
  }

  /** What a run of events makes of one symbol's entry. */
  function UpsertedBy(existing: Option<Suspect>, events: seq<Event>, now: real): Option<Suspect> {
    if events == [] then existing
    else
      var rest, e := UpsertedBy(existing, events[..|events| - 1], now), events[|events| - 1];
      if IsSuspect(e) then Some(Upserted(rest, e, now)) else rest
  }

  // ----- the whole ledger -----

  function UpsertedAll(m: map<Symbol, Suspect>, events: seq<Event>, now: real): map<Symbol, Suspect> {
    if events == [] then m
    else
      var rest, e := UpsertedAll(m, events[..|events| - 1], now), events[|events| - 1];
      if IsSuspect(e) then rest[e.symbol := Upserted(Lookup(rest, e.symbol), e, now)] else rest
  }

  function ActiveSymbols(events: seq<Event>): set<Symbol> {
    set e | e in events && IsSuspect(e) :: e.symbol
  }

  /** A live suspect that no event names is marked as resolved. */
  function Marked(m: map<Symbol, Suspect>, active: set<Symbol>, now: real): map<Symbol, Suspect> {
    map s | s in m :: if s !in active && m[s].resolved == None then m[s].(resolved := Some(now)) else m[s]
  }

  /** The ledger is cut down to its capacity, the suspects detected first going first. */
  ghost predicate CutsDown(before: map<Symbol, Suspect>, after: map<Symbol, Suspect>) {
    && after.Keys <= before.Keys && (forall s :: s in after ==> after[s] == before[s])
    && (|before| <= SUSPECTS_CAP ==> after == before)
    && (|before| > SUSPECTS_CAP ==> |after| == SUSPECTS_CAP)
    && forall gone, kept :: gone in before && gone !in after && kept in after ==>
      before[gone].firstDetected <= before[kept].firstDetected
  }

  method Oldest(m: map<Symbol, Suspect>) returns (oldest: Symbol)
    requires m != map[]
    ensures oldest in m && forall s :: s in m ==> m[oldest].firstDetected <= m[s].firstDetected
  {
    var symbols := InSomeOrder(m.Keys);
    assert forall i :: 0 <= i < |symbols| ==> symbols[i] in m by {
      forall i | 0 <= i < |symbols|
        ensures symbols[i] in m
      {
        Listed(symbols, m.Keys, i);
      }
    }
    var first := Pick(m.Keys);
    assert first in symbols;
    oldest := symbols[0];
    for i := 1 to |symbols|
      invariant oldest in m
      invariant forall j :: 0 <= j < i ==> m[oldest].firstDetected <= m[symbols[j]].firstDetected
    {
      if m[symbols[i]].firstDetected < m[oldest].firstDetected {
        oldest := symbols[i];
      }
    }
    forall s | s in m
      ensures m[oldest].firstDetected <= m[s].firstDetected
    {
      assert s in symbols;
    }
  }

  class SuspectLedger {
    var suspects: map<Symbol, Suspect>

    constructor ()
      ensures suspects == map[]
    {
      suspects := map[];
    }

    method EvictOldest()
      modifies this
      ensures CutsDown(old(suspects), suspects)
    {
      ghost var before := suspects;
      while |suspects| > SUSPECTS_CAP
        invariant suspects.Keys <= before.Keys && forall s :: s in suspects ==> suspects[s] == before[s]
        invariant |before| > SUSPECTS_CAP ==> |suspects| >= SUSPECTS_CAP
        invariant |before| <= SUSPECTS_CAP ==> suspects == before
        invariant forall gone, kept :: gone in before && gone !in suspects && kept in suspects ==>
          before[gone].firstDetected <= before[kept].firstDetected
        decreases |suspects|
      {
        var oldest := Oldest(suspects);
        assert (suspects - {oldest}).Keys == suspects.Keys - {oldest};
        assert |suspects.Keys| == |suspects| && |(suspects - {oldest}).Keys| == |suspects - {oldest}|;
        suspects := suspects - {oldest};
      }
    }

    /** Enters what a reconciliation report suspects, resolves what it no longer names, and evicts what is too much. */
    method UpdateManualTradeSuspects(events: seq<Event>, now: real)
      modifies this
      ensures CutsDown(Marked(UpsertedAll(old(suspects), events, now), ActiveSymbols(events), now), suspects)
    {
      var active: set<Symbol> := {};
      ghost var before := suspects;
      for i := 0 to |events|
        invariant suspects == UpsertedAll(before, events[..i], now)
        invariant active == ActiveSymbols(events[..i])
      {
        var e := events[i];
        assert events[..i + 1][..i] == events[..i] && events[..i + 1] == events[..i] + [e];
        if Classify(e) != Unexplained && e.symbol != NO_SYMBOL {
          active := active + {e.symbol};
          if e.symbol in suspects && suspects[e.symbol].resolved == None {
            var existing := suspects[e.symbol];
            suspects := suspects[e.symbol := existing.(
              lastDetected := now, kind := e.kind, suspicion := Classify(e), expected := e.expected, actual := e.actual,
              occurrences := existing.occurrences + 1)];
          } else {
            suspects := suspects[e.symbol := Suspect(now, now, e.kind, Classify(e), e.expected, e.actual, 1, None)];
          }
        }
      }
      assert events[..|events|] == events;
      suspects := Marked(suspects, active, now);
      EvictOldest();
    }
  }

  // ----- what one sync does to one symbol -----

  lemma {:induction false} UpsertedAllAt(m: map<Symbol, Suspect>, events: seq<Event>, now: real, s: Symbol)
    ensures Lookup(UpsertedAll(m, events, now), s) == UpsertedBy(Lookup(m, s), Of(events, EventSymbol, s), now)
  {
    if events != [] {
      var n := |events| - 1;
      UpsertedAllAt(m, events[..n], now, s);
      var rest, e := Of(events[..n], EventSymbol, s), events[n];
      if e.symbol == s {
        assert (rest + [e])[..|rest|] == rest;
      } else {
        assert rest + [] == rest;
      }
    }
  }

  /** The symbols whose holdings changed without a local order to explain it. */
  ghost predicate Drifted(v: StateView, actual: map<Symbol, int>, s: Symbol) {
    s != NO_SYMBOL && ExpectedDrift(v, actual, s) != []
  }

  lemma {:induction false} OfKeepsMembers(events: seq<Event>, s: Symbol, e: Event)
    ensures e in Of(events, EventSymbol, s) <==> e in events && e.symbol == s
  {
    if events != [] {
      var n := |events| - 1;
      OfKeepsMembers(events[..n], s, e);
      assert events == events[..n] + [events[n]];
    }
  }

  /** A symbol is active in a report exactly when it drifted. */
  lemma ActiveIffDrifted(events: seq<Event>, v: StateView, actual: map<Symbol, int>, s: Symbol)
    requires ReportsDrift(events, v, actual)
    ensures s in ActiveSymbols(events) <==> Drifted(v, actual, s)
  {
    AtMostOneEach(v, actual, s);
    var mine := ExpectedDrift(v, actual, s) + ExpectedExcess(v, actual, s);
    assert Of(events, EventSymbol, s) == mine;
    if Drifted(v, actual, s) {
      var e := ExpectedDrift(v, actual, s)[0];
      assert mine[0] == e;
      OfKeepsMembers(events, s, e);
    }
    if s in ActiveSymbols(events) {
      var e :| e in events && IsSuspect(e) && e.symbol == s;
      OfKeepsMembers(events, s, e);
    }
  }

  lemma UpsertedOnce(existing: Option<Suspect>, drift: seq<Event>, excess: seq<Event>, now: real, s: Symbol)
    requires |drift| <= 1 && (drift != [] ==> drift[0].symbol == s && Classify(drift[0]) != Unexplained)
    requires |excess| <= 1 && (excess != [] ==> Classify(excess[0]) == Unexplained)
    ensures UpsertedBy(existing, drift + excess, now)
      == if drift != [] && s != NO_SYMBOL then Some(Upserted(existing, drift[0], now)) else existing
  {
    assert UpsertedBy(existing, [], now) == existing;
    if drift != [] {
      assert drift[..0] == [];
      assert UpsertedBy(existing, drift, now)
        == if s != NO_SYMBOL then Some(Upserted(existing, drift[0], now)) else existing;
    }
    if excess == [] {
      assert drift + excess == drift;
    } else {
      assert (drift + excess)[..|drift|] == drift;
    }
  }

  /** What a sync makes of one entry before anything is evicted. */
  function Swept(existing: Option<Suspect>, drift: seq<Event>, now: real, s: Symbol): Option<Suspect> {
    if drift != [] && s != NO_SYMBOL then Some(Upserted(existing, drift[0], now))
    else if existing.Some? && existing.value.resolved == None then Some(existing.value.(resolved := Some(now)))
    else existing
  }

  lemma SweptAt(
    m: map<Symbol, Suspect>, events: seq<Event>, v: StateView, actual: map<Symbol, int>, now: real, s: Symbol)
    requires ReportsDrift(events, v, actual)
    ensures Lookup(Marked(UpsertedAll(m, events, now), ActiveSymbols(events), now), s)
      == Swept(Lookup(m, s), ExpectedDrift(v, actual, s), now, s)
  {
    AtMostOneEach(v, actual, s);
    UpsertedAllAt(m, events, now, s);
    UpsertedOnce(Lookup(m, s), ExpectedDrift(v, actual, s), ExpectedExcess(v, actual, s), now, s);
    ActiveIffDrifted(events, v, actual, s);
  }

  // ----- whole runs of syncs -----

  /** One sync as the ledger sees it, with the ledger it left. */
  datatype Sweep = Sweep(
    events: seq<Event>, view: StateView, actual: map<Symbol, int>, now: real, ledger: map<Symbol, Suspect>)

  /** Each sync works on the ledger the one before it left; the first on an empty one. */
  ghost predicate Run(h: seq<Sweep>) {
    h == [] ||
    var last := h[|h| - 1];
    && Run(h[..|h| - 1])
    && ReportsDrift(last.events, last.view, last.actual)
    && CutsDown(Marked(UpsertedAll(LedgerAfter(h[..|h| - 1]), last.events, last.now), ActiveSymbols(last.events),
                       last.now),
                last.ledger)
  }

  function LedgerAfter(h: seq<Sweep>): map<Symbol, Suspect> {
    if h == [] then map[] else h[|h| - 1].ledger
  }

  ghost predicate DriftedLast(h: seq<Sweep>, s: Symbol) {
    h != [] && Drifted(h[|h| - 1].view, h[|h| - 1].actual, s)
  }

  /** The number of syncs in the symbol's latest streak of drifts, counted anew after the ledger lost its entry. */
  ghost function Streak(h: seq<Sweep>, s: Symbol): nat {
    if h == [] then 0
    else
      var before := h[..|h| - 1];
      if !DriftedLast(h, s) then Streak(before, s)
      else if DriftedLast(before, s) && s in LedgerAfter(before) then Streak(before, s) + 1
      else 1
  }

  lemma CutsDownAt(before: map<Symbol, Suspect>, after: map<Symbol, Suspect>, s: Symbol)
    requires CutsDown(before, after)
    ensures |after| <= SUSPECTS_CAP
    ensures s in after ==> Lookup(before, s) == Some(after[s])
    ensures |after| < SUSPECTS_CAP ==> Lookup(before, s) == Lookup(after, s)
  {
  }

  /**
   * The ledger stays bounded, its live entries are the latest drifts, all of them unless it is full, and each counts
   * its streak.
   */
  lemma {:induction false} LedgerTellsTheTruth(h: seq<Sweep>, s: Symbol)
    requires Run(h)
    ensures h != [] ==>
      var ledger := h[|h| - 1].ledger;
      && |ledger| <= SUSPECTS_CAP
      && (s in ledger ==>
        (ledger[s].resolved == None <==> DriftedLast(h, s)) && ledger[s].occurrences == Streak(h, s))
      && (|ledger| < SUSPECTS_CAP && DriftedLast(h, s) ==> s in ledger)
  {
    if h != [] {
      var before, last := h[..|h| - 1], h[|h| - 1];
      LedgerTellsTheTruth(before, s);
      SweptAt(LedgerAfter(before), last.events, last.view, last.actual, last.now, s);
      CutsDownAt(Marked(UpsertedAll(LedgerAfter(before), last.events, last.now), ActiveSymbols(last.events), last.now),
                 last.ledger, s);
    }
  }
}
