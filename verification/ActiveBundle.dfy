/** The one active proposal of a mode: replacing it, reading it, and merging its values into the current settings. */
module ActiveBundles {
  import opened Prelude
  import opened Autotuning

  /** A proposal file; the reader skips files above its size limit. */
  datatype ProposalFile = Unreadable | Readable(bundle: Bundle, small: bool)

  /** The reader of low-risk proposals and the one of high-risk proposals. */
  datatype Reader = LowRisk | HighRisk

  datatype Direction = LargerIsSafer | SmallerIsSafer

  const MIN_LIVE_LOGS := 2

  function ModeOf(r: Reader): Mode {
    match r
    case LowRisk => ApprovedLowRisk
    case HighRisk => ApprovedHighRisk
  }

  /** The settings a reader may override, in the order in which they are merged. */
  function Applicable(r: Reader): seq<Parameter> {
    match r
    case LowRisk => [SellCheckIntervalSeconds, BuyScanIntervalSeconds, ScanSymbolsMaxPerCycle, BuyScanShallowTopK,
                     BuyScanDeepEvalLimit]
    case HighRisk => [RebuyCooldownMinutes, SameSymbolMaxBuysPerDay]
  }

  function SaferDirection(p: Parameter): Direction {
    if p == SellCheckIntervalSeconds || p == BuyScanIntervalSeconds || p == RebuyCooldownMinutes then LargerIsSafer
    else SmallerIsSafer
  }

  predicate IsExpired(e: Expiry, now: real) {
    !e.At? || now >= e.moment
  }

  function CountTrue(flags: seq<bool>): nat {
    if flags == [] then 0 else CountTrue(flags[..|flags| - 1]) + if flags[|flags| - 1] then 1 else 0
  }

  // ----- replacing the active proposal -----

  /** The bundle is active for the mode and is not the one to keep. */
  predicate ToReplace(b: Bundle, keep: string, mode: Mode, now: real) {
    b.proposalId != keep && b.status.Approved? && b.mode == mode && !IsExpired(b.expiry, now)
  }

  function Replacement(f: ProposalFile, keep: string, mode: Mode, now: real): ProposalFile {
    if f.Readable? && ToReplace(f.bundle, keep, mode, now)
    then f.(bundle := f.bundle.(status := Superseded, audit := f.bundle.audit + [Replaced(now, keep)]))
    else f
  }

  function Replacements(files: seq<ProposalFile>, keep: string, mode: Mode, now: real): seq<ProposalFile> {
    if files == [] then []
    else Replacements(files[..|files| - 1], keep, mode, now) + [Replacement(files[|files| - 1], keep, mode, now)]
  }

  function ReplacedIds(files: seq<ProposalFile>, keep: string, mode: Mode, now: real): seq<string> {
    if files == [] then []
    else
      var rest, f := ReplacedIds(files[..|files| - 1], keep, mode, now), files[|files| - 1];
      if f.Readable? && ToReplace(f.bundle, keep, mode, now) then rest + [f.bundle.proposalId] else rest
  }

  // ----- reading the active proposal -----

  predicate IsEligible(f: ProposalFile, r: Reader, now: real, clock: real) {
    && f.Readable? && f.small
    && f.bundle.status.Approved? && f.bundle.mode == ModeOf(r)
    && Rejections(f.bundle, r.HighRisk?, clock) == []
    && (r.HighRisk? ==>
      && f.bundle.evidence.Sources? && CountTrue(f.bundle.evidence.liveLog) >= MIN_LIVE_LOGS && f.bundle.riskReview)
    && !IsExpired(f.bundle.expiry, now)
  }

  function Eligible(files: seq<ProposalFile>, r: Reader, now: real, clock: real): seq<Bundle> {
    if files == [] then []
    else
      var rest, f := Eligible(files[..|files| - 1], r, now, clock), files[|files| - 1];
      if IsEligible(f, r, now, clock) then rest + [f.bundle] else rest
  }

  function Overrides(changes: seq<Change>, r: Reader): map<Parameter, Value> {
    if changes == [] then map[]
    else
      var rest, c := Overrides(changes[..|changes| - 1], r), changes[|changes| - 1];
      if c.Change? && c.parameter in Applicable(r) then rest[c.parameter := c.toValue] else rest
  }

  /** Anything but exactly one active proposal yields nothing. */
  function Resolved(files: seq<ProposalFile>, r: Reader, now: real, clock: real): map<Parameter, Value> {
    var eligible := Eligible(files, r, now, clock);
    if |eligible| == 1 then Overrides(eligible[0].changes, r) else map[]
  }

  method OverridesOf(changes: seq<Change>, r: Reader) returns (overrides: map<Parameter, Value>)
    ensures overrides == Overrides(changes, r)
  {
    overrides := map[];
    for i := 0 to |changes|
      invariant overrides == Overrides(changes[..i], r)
    {
      assert changes[..i + 1][..i] == changes[..i];
      if changes[i].Change? && changes[i].parameter in Applicable(r) {
        overrides := overrides[changes[i].parameter := changes[i].toValue];
      }
    }
    assert changes[..|changes|] == changes;
  }

  class ProposalStore {
    var files: seq<ProposalFile>

    constructor (files: seq<ProposalFile>)
      ensures this.files == files
    {
      this.files := files;
    }

    method SupersedeActiveBundles(keep: string, mode: Mode, now: real) returns (superseded: seq<string>)
      modifies this
      ensures files == Replacements(old(files), keep, mode, now)
      ensures superseded == ReplacedIds(old(files), keep, mode, now)
    {
      superseded := [];
      var rewritten: seq<ProposalFile> := [];
      for i := 0 to |files|
        invariant files == old(files)
        invariant rewritten == Replacements(files[..i], keep, mode, now)
        invariant superseded == ReplacedIds(files[..i], keep, mode, now)
      {
        assert files[..i + 1][..i] == files[..i];
        var file := files[i];
        if file.Readable? && ToReplace(file.bundle, keep, mode, now) {
          var bundle := file.bundle.(status := Superseded);
          bundle := bundle.(audit := bundle.audit + [Replaced(now, keep)]);
          rewritten := rewritten + [file.(bundle := bundle)];
          superseded := superseded + [bundle.proposalId];
        } else {
          rewritten := rewritten + [file];
        }
      }
      assert files[..|files|] == files;
      files := rewritten;
    }

    method ResolveActiveOverrides(r: Reader, now: real, clock: real) returns (overrides: map<Parameter, Value>)
      ensures overrides == Resolved(files, r, now, clock)
    {
      var eligible: seq<Bundle> := [];
      for i := 0 to |files|
        invariant eligible == Eligible(files[..i], r, now, clock)
      {
        assert files[..i + 1][..i] == files[..i];
        if IsEligible(files[i], r, now, clock) {
          eligible := eligible + [files[i].bundle];
        }
      }
      assert files[..|files|] == files;
      if |eligible| != 1 {
        return map[];
      }
      overrides := OverridesOf(eligible[0].changes, r);
    }
  }

  // ----- what passes a test -----

  function Passed<T>(items: seq<T>, test: T -> bool): seq<T> {
    if items == [] then []
    else Passed(items[..|items| - 1], test) + if test(items[|items| - 1]) then [items[|items| - 1]] else []
  }

  ghost predicate IsOnly<T>(items: seq<T>, test: T -> bool, i: int) {
    && 0 <= i < |items| && test(items[i])
    && forall j :: 0 <= j < |items| && j != i ==> !test(items[j])
  }

  lemma {:induction false} NonePasses<T>(items: seq<T>, test: T -> bool)
    ensures Passed(items, test) == [] <==> forall i :: 0 <= i < |items| ==> !test(items[i])
  {
    if items != [] {
      var n := |items| - 1;
      NonePasses(items[..n], test);
      assert forall i :: 0 <= i < n ==> items[..n][i] == items[i];
    }
  }

  lemma {:induction false} OnlyPasses<T>(items: seq<T>, test: T -> bool, i: int)
    requires IsOnly(items, test, i)
    ensures Passed(items, test) == [items[i]]
  {
    var n := |items| - 1;
    if i == n {
      NonePasses(items[..n], test);
    } else {
      OnlyPasses(items[..n], test, i);
    }
  }

  lemma {:induction false} OnePassed<T>(items: seq<T>, test: T -> bool) returns (i: int)
    requires |Passed(items, test)| == 1
    ensures IsOnly(items, test, i)
  {
    var n := |items| - 1;
    assert forall j :: 0 <= j < n ==> items[..n][j] == items[j];
    if test(items[n]) {
      NonePasses(items[..n], test);
      i := n;
    } else {
      i := OnePassed(items[..n], test);
    }
  }

  // ----- what the readers take for active -----

  /** An accepted, approved and unexpired proposal of the reader's mode; one of high risk needs two live logs, too. */
  ghost predicate IsActive(f: ProposalFile, r: Reader, now: real, clock: real) {
    && f.Readable? && f.small && f.bundle.status == Approved
    && f.bundle.mode == (if r.LowRisk? then ApprovedLowRisk else ApprovedHighRisk)
    && Rejections(f.bundle, r.HighRisk?, clock) == [] && f.bundle.expiry.At? && now < f.bundle.expiry.moment
    && (r.HighRisk? ==>
      f.bundle.riskReview && f.bundle.evidence.Sources? && HasTwo(f.bundle.evidence.liveLog))
  }

  ghost predicate HasTwo(flags: seq<bool>) {
    exists i, j :: 0 <= i < j < |flags| && flags[i] && flags[j]
  }

  lemma {:induction false} CountTrueIff(flags: seq<bool>)
    ensures CountTrue(flags) >= 1 <==> exists i :: 0 <= i < |flags| && flags[i]
    ensures CountTrue(flags) >= 2 <==> HasTwo(flags)
  {
    if flags != [] {
      var n := |flags| - 1;
      CountTrueIff(flags[..n]);
      assert forall i :: 0 <= i < n ==> flags[..n][i] == flags[i];
    }
  }

  lemma EligibleIff(f: ProposalFile, r: Reader, now: real, clock: real)
    ensures IsEligible(f, r, now, clock) <==> IsActive(f, r, now, clock)
  {
    if f.Readable? && f.bundle.evidence.Sources? {
      CountTrueIff(f.bundle.evidence.liveLog);
    }
  }

  /** The settings of which a larger number makes the trader slower, among those the reader may override. */
  function Slowing(r: Reader): set<Parameter> {
    if r.LowRisk? then {SellCheckIntervalSeconds, BuyScanIntervalSeconds} else {RebuyCooldownMinutes}
  }

  /** The settings of which a smaller number lets the trader do less, among those the reader may override. */
  function Capping(r: Reader): set<Parameter> {
    if r.LowRisk? then {ScanSymbolsMaxPerCycle, BuyScanShallowTopK, BuyScanDeepEvalLimit}
    else {SameSymbolMaxBuysPerDay}
  }

  ghost function ActiveFor(r: Reader, now: real, clock: real): ProposalFile -> bool {
    f => IsActive(f, r, now, clock)
  }

  /** The `i`-th file holds the only proposal that is active for the reader. */
  ghost predicate IsTheOne(files: seq<ProposalFile>, r: Reader, now: real, clock: real, i: int) {
    IsOnly(files, ActiveFor(r, now, clock), i)
  }

  /** What passes is what the loop of the reader collects. */
  lemma {:induction false} EligiblePass(files: seq<ProposalFile>, r: Reader, now: real, clock: real)
    ensures
      var (eligible, passed) := (Eligible(files, r, now, clock), Passed(files, ActiveFor(r, now, clock)));
      |eligible| == |passed| && forall i :: 0 <= i < |passed| ==> passed[i].Readable? && passed[i].bundle == eligible[i]
  {
    if files != [] {
      EligiblePass(files[..|files| - 1], r, now, clock);
      EligibleIff(files[|files| - 1], r, now, clock);
    }
  }

  lemma ResolvedFromOne(files: seq<ProposalFile>, r: Reader, now: real, clock: real, i: int)
    requires IsTheOne(files, r, now, clock, i)
    ensures Resolved(files, r, now, clock) == Overrides(files[i].bundle.changes, r)
  {
    EligiblePass(files, r, now, clock);
    OnlyPasses(files, ActiveFor(r, now, clock), i);
  }

  lemma ResolvedHasOne(files: seq<ProposalFile>, r: Reader, now: real, clock: real) returns (i: int)
    requires Resolved(files, r, now, clock) != map[]
    ensures IsTheOne(files, r, now, clock, i)
  {
    EligiblePass(files, r, now, clock);
    i := OnePassed(files, ActiveFor(r, now, clock));
  }

  lemma {:induction false} OverrideIs(changes: seq<Change>, r: Reader, p: Parameter, k: int)
    requires IsLastChange(changes, p, k) && p in Slowing(r) + Capping(r)
    ensures p in Overrides(changes, r) && Overrides(changes, r)[p] == changes[k].toValue
  {
    var n := |changes| - 1;
    if k < n {
      assert forall j :: 0 <= j < n ==> changes[..n][j] == changes[j];
      OverrideIs(changes[..n], r, p, k);
    }
  }

  ghost predicate SetsLast(changes: seq<Change>, p: Parameter, k: int, value: Value) {
    IsLastChange(changes, p, k) && changes[k].toValue == value
  }

  /** The only active proposal sets it to that value in the end. */
  ghost predicate IsSet(files: seq<ProposalFile>, r: Reader, now: real, clock: real, p: Parameter, value: Value) {
    exists i, k :: IsTheOne(files, r, now, clock, i) && SetsLast(files[i].bundle.changes, p, k, value)
  }

  lemma ResolvedIsSet(files: seq<ProposalFile>, r: Reader, now: real, clock: real, p: Parameter)
    requires p in Resolved(files, r, now, clock)
    ensures p in Slowing(r) + Capping(r) && IsSet(files, r, now, clock, p, Resolved(files, r, now, clock)[p])
  {
    var i := ResolvedHasOne(files, r, now, clock);
    ResolvedFromOne(files, r, now, clock, i);
    var k := OverrideComesFromChange(files[i].bundle.changes, r, p);
    assert SetsLast(files[i].bundle.changes, p, k, Resolved(files, r, now, clock)[p]);
  }

  lemma SetIsResolved(files: seq<ProposalFile>, r: Reader, now: real, clock: real, p: Parameter, value: Value)
    requires p in Slowing(r) + Capping(r) && IsSet(files, r, now, clock, p, value)
    ensures p in Resolved(files, r, now, clock) && Resolved(files, r, now, clock)[p] == value
  {
    var i, k :| IsTheOne(files, r, now, clock, i) && SetsLast(files[i].bundle.changes, p, k, value);
    ResolvedFromOne(files, r, now, clock, i);
    OverrideIs(files[i].bundle.changes, r, p, k);
  }

  /**
   * A reader hands out a value for a setting exactly when there is one active proposal, the reader may override the
   * setting, and the value is that of its last change in the proposal.
   */
  lemma ResolvedIff(files: seq<ProposalFile>, r: Reader, now: real, clock: real, p: Parameter, value: Value)
    ensures
      (p in Resolved(files, r, now, clock) && Resolved(files, r, now, clock)[p] == value) <==>
        p in Slowing(r) + Capping(r) && IsSet(files, r, now, clock, p, value)
  {
    if p in Resolved(files, r, now, clock) && Resolved(files, r, now, clock)[p] == value {
      ResolvedIsSet(files, r, now, clock, p);
    }
    if p in Slowing(r) + Capping(r) && IsSet(files, r, now, clock, p, value) {
      SetIsResolved(files, r, now, clock, p, value);
    }
  }

  /** The approved and unexpired proposals of the mode are replaced, but for the one to keep; no other file is. */
  lemma {:induction false} ReplacementsAt(files: seq<ProposalFile>, keep: string, mode: Mode, now: real, i: nat)
    requires i < |files|
    ensures |Replacements(files, keep, mode, now)| == |files|
    ensures
      var (f, after) := (files[i], Replacements(files, keep, mode, now)[i]);
      if f.Readable? && f.bundle.proposalId != keep && f.bundle.status == Approved && f.bundle.mode == mode
         && f.bundle.expiry.At? && now < f.bundle.expiry.moment
      then after
        == f.(bundle := f.bundle.(status := Superseded, audit := f.bundle.audit + [Replaced(now, keep)]))
      else after == f
  {
    var n := |files| - 1;
    if i < n {
      ReplacementsAt(files[..n], keep, mode, now, i);
    } else if n > 0 {
      ReplacementsAt(files[..n], keep, mode, now, 0);
    }
  }

  /** The names that are listed are those of the replaced proposals. */
  lemma {:induction false} ReplacedAreListed(
    files: seq<ProposalFile>, keep: string, mode: Mode, now: real, id: string)
    ensures id in ReplacedIds(files, keep, mode, now) <==>
      exists i :: 0 <= i < |files| && files[i].Readable? && ToReplace(files[i].bundle, keep, mode, now)
        && files[i].bundle.proposalId == id
  {
    if files != [] {
      var n := |files| - 1;
      ReplacedAreListed(files[..n], keep, mode, now, id);
      assert forall i :: 0 <= i < n ==> files[..n][i] == files[i];
      assert files == files[..n] + [files[n]];
    }
  }

  // ----- one active proposal -----

  function WithId(bundles: seq<Bundle>, id: string): seq<Bundle> {
    if bundles == [] then []
    else
      var rest, b := WithId(bundles[..|bundles| - 1], id), bundles[|bundles| - 1];
      if b.proposalId == id then rest + [b] else rest
  }

  lemma ReplacementEligible(
    f: ProposalFile, keep: string, mode: Mode, now: real, r: Reader, later: real, clock: real)
    requires now <= later
    ensures
      var after := Replacement(f, keep, mode, now);
      IsEligible(after, r, later, clock) <==>
        IsEligible(f, r, later, clock) && (ModeOf(r) == mode ==> f.bundle.proposalId == keep)
    ensures IsEligible(Replacement(f, keep, mode, now), r, later, clock) ==> Replacement(f, keep, mode, now) == f
  {
  }

  /** From the replacement on, a reader of that mode sees of the active proposals exactly the one to keep. */
  lemma {:induction false} OnlyTheKeptStaysActive(
    files: seq<ProposalFile>, keep: string, r: Reader, now: real, later: real, clock: real)
    requires now <= later
    ensures Eligible(Replacements(files, keep, ModeOf(r), now), r, later, clock)
      == WithId(Eligible(files, r, later, clock), keep)
  {
    if files != [] {
      var n := |files| - 1;
      OnlyTheKeptStaysActive(files[..n], keep, r, now, later, clock);
      ReplacementEligible(files[n], keep, ModeOf(r), now, r, later, clock);
      var before, after := Eligible(files[..n], r, later, clock), Replacements(files[..n], keep, ModeOf(r), now);
      var last := Replacement(files[n], keep, ModeOf(r), now);
      assert (after + [last])[..|after + [last]| - 1] == after;
      if IsEligible(files[n], r, later, clock) {
        assert (before + [files[n].bundle])[..|before|] == before;
      }
    }
  }

  /** A reader of another mode notices nothing. */
  lemma {:induction false} OtherModesUntouched(
    files: seq<ProposalFile>, keep: string, mode: Mode, r: Reader, now: real, later: real, clock: real)
    requires now <= later && ModeOf(r) != mode
    ensures Eligible(Replacements(files, keep, mode, now), r, later, clock) == Eligible(files, r, later, clock)
  {
    if files != [] {
      var n := |files| - 1;
      OtherModesUntouched(files[..n], keep, mode, r, now, later, clock);
      ReplacementEligible(files[n], keep, mode, now, r, later, clock);
      var after, last := Replacements(files[..n], keep, mode, now), Replacement(files[n], keep, mode, now);
      assert (after + [last])[..|after + [last]| - 1] == after;
    }
  }

  lemma {:induction false} EligibleIsSound(files: seq<ProposalFile>, r: Reader, now: real, clock: real, i: nat)
    requires i < |Eligible(files, r, now, clock)|
    ensures
      var b := Eligible(files, r, now, clock)[i];
      Rejections(b, r.HighRisk?, clock) == [] && b.mode == ModeOf(r)
  {
    var n := |files| - 1;
    var rest := Eligible(files[..n], r, now, clock);
    if i < |rest| {
      EligibleIsSound(files[..n], r, now, clock, i);
    }
  }

  lemma {:induction false} OverrideComesFromChange(changes: seq<Change>, r: Reader, p: Parameter) returns (i: nat)
    requires p in Overrides(changes, r)
    ensures p in Applicable(r)
    ensures IsLastChange(changes, p, i) && changes[i].toValue == Overrides(changes, r)[p]
  {
    var n := |changes| - 1;
    if changes[n].Change? && changes[n].parameter == p && p in Applicable(r) {
      i := n;
    } else {
      i := OverrideComesFromChange(changes[..n], r, p);
    }
  }

  /** A number in the range that a setting may be tuned in. */
  predicate Within(p: Parameter, value: Value) {
    value.Number? &&
    match p
    case SellCheckIntervalSeconds => 30.0 <= value.x <= 120.0
    case BuyScanIntervalSeconds => 180.0 <= value.x <= 600.0
    case ScanSymbolsMaxPerCycle => 15.0 <= value.x <= 40.0
    case BuyScanShallowTopK => 5.0 <= value.x <= 20.0
    case BuyScanDeepEvalLimit => 2.0 <= value.x <= 8.0
    case RebuyCooldownMinutes => 15.0 <= value.x <= 240.0
    case SameSymbolMaxBuysPerDay => 1.0 <= value.x <= 5.0
    case _ => false
  }

  /** How far a proposal may move a setting. */
  function LargestStep(p: Parameter): real {
    match p
    case SellCheckIntervalSeconds => 10.0
    case BuyScanIntervalSeconds => 30.0
    case ScanSymbolsMaxPerCycle => 5.0
    case BuyScanShallowTopK => 2.0
    case RebuyCooldownMinutes => 15.0
    case _ => 1.0
  }

  /** The change, from one number to another, is no larger than its setting allows. */
  predicate WithinStep(c: Change) {
    c.Change? && (c.fromValue.Number? && c.toValue.Number? ==>
      -LargestStep(c.parameter) <= c.toValue.x - c.fromValue.x <= LargestStep(c.parameter))
  }

  /**
   * A change is sound iff it is of a setting that one of the readers may override, the low-risk one in a low-risk
   * proposal, starts at the number of the baseline, and leads to a number within its range and step, or to "NaN".
   */
  lemma SoundChangeIsWithin(c: Change, mode: Mode, baseline: map<Parameter, Value>)
    ensures SoundChange(c, mode, baseline) <==>
      && c.Change? && !c.riskTierD
      && (c.parameter in Slowing(LowRisk) + Capping(LowRisk)
          || (mode != ApprovedLowRisk && c.parameter in Slowing(HighRisk) + Capping(HighRisk)))
      && (c.fromValue.Number? || c.fromValue == NotANumber)
      && (c.parameter in baseline ==> c.fromValue.Number? && ReadsAs(baseline[c.parameter], c.fromValue.x))
      && (c.toValue == NotANumber || (Within(c.parameter, c.toValue) && WithinStep(c)))
  {
  }

  lemma EligibleChangeIsSound(files: seq<ProposalFile>, r: Reader, now: real, clock: real, k: nat, i: nat)
    requires k < |Eligible(files, r, now, clock)| && i < |Eligible(files, r, now, clock)[k].changes|
    ensures
      var b := Eligible(files, r, now, clock)[k];
      SoundChange(b.changes[i], b.mode, ValuesOf(b.baseline))
  {
    EligibleIsSound(files, r, now, clock, k);
    AcceptedIff(Eligible(files, r, now, clock)[k], r.HighRisk?, clock);
  }

  /**
   * Every value a reader hands out is for a setting it may override and comes from a change of the one active proposal.
   * It is within the bounds of the whitelist, and its change within the maximum step, exactly unless it is "NaN".
   */
  lemma ResolvedIsBounded(files: seq<ProposalFile>, r: Reader, now: real, clock: real, p: Parameter)
    returns (c: Change)
    requires p in Resolved(files, r, now, clock)
    ensures p in Applicable(r)
    ensures Within(p, Resolved(files, r, now, clock)[p]) <==> Resolved(files, r, now, clock)[p] != NotANumber
    ensures |Eligible(files, r, now, clock)| == 1 && c in Eligible(files, r, now, clock)[0].changes
    ensures Resolved(files, r, now, clock)[p] != NotANumber ==> WithinStep(c)
    ensures c.Change? && c.parameter == p && c.toValue == Resolved(files, r, now, clock)[p]
  {
    var b := Eligible(files, r, now, clock)[0];
    var i := OverrideComesFromChange(b.changes, r, p);
    c := b.changes[i];
    EligibleChangeIsSound(files, r, now, clock, 0, i);
    SoundChangeIsWithin(c, b.mode, ValuesOf(b.baseline));
  }

  // ----- merging -----

  /** The override counts only if it compares as the safer one, which "NaN" never does, nor anything with "NaN". */
  predicate IsSaferThan(p: Parameter, override: Value, current: Value) {
    Num(current).Some? && Num(override).Some?
    && if SaferDirection(p) == LargerIsSafer then Num(override).value > Num(current).value
       else Num(override).value < Num(current).value
  }

  function Safer(p: Parameter, current: Value, override: Value): Value {
    if IsSaferThan(p, override, current) then override else current
  }

  function MergeOne(current: map<Parameter, Value>, overrides: map<Parameter, Value>, p: Parameter)
    : map<Parameter, Value>
  {
    if p !in overrides || !IsNumeric(overrides[p]) then current
    else if p in current && IsNumeric(current[p]) then current[p := Safer(p, current[p], overrides[p])]
    else current[p := overrides[p]]
  }

  function MergedAlong(current: map<Parameter, Value>, overrides: map<Parameter, Value>, order: seq<Parameter>)
    : map<Parameter, Value>
  {
    if order == [] then current
    else MergeOne(MergedAlong(current, overrides, order[..|order| - 1]), overrides, order[|order| - 1])
  }

  function Merged(current: map<Parameter, Value>, overrides: map<Parameter, Value>, r: Reader): map<Parameter, Value> {
    MergedAlong(current, overrides, Applicable(r))
  }

  method MergeSaferOf(current: map<Parameter, Value>, overrides: map<Parameter, Value>, r: Reader)
    returns (merged: map<Parameter, Value>)
    ensures merged == Merged(current, overrides, r)
  {
    merged := current;
    var names := Applicable(r);
    for i := 0 to |names|
      invariant merged == MergedAlong(current, overrides, names[..i])
    {
      assert names[..i + 1][..i] == names[..i];
      var name := names[i];
      if name in overrides && IsNumeric(overrides[name]) {
        if name in merged && IsNumeric(merged[name]) {
          merged := merged[name := Safer(name, merged[name], overrides[name])];
        } else {
          merged := merged[name := overrides[name]];
        }
      }
    }
    assert names[..|names|] == names;
  }

  predicate AtLeastAsSafe(p: Parameter, x: real, y: real) {
    if SaferDirection(p) == LargerIsSafer then x >= y else x <= y
  }

  /** The setting has a number, be it "NaN". */
  predicate HasNumber(values: map<Parameter, Value>, p: Parameter) {
    p in values && IsNumeric(values[p])
  }

  predicate IsNaN(values: map<Parameter, Value>, p: Parameter) {
    p in values && values[p] == NotANumber
  }

  /** What a merge makes of one setting. */
  predicate MergesTo(
    before: map<Parameter, Value>, after: map<Parameter, Value>, p: Parameter, override: Option<Value>)
  {
    if override.None? || !IsNumeric(override.value)
    then (p in after <==> p in before) && (p in before ==> after[p] == before[p])
    else
      && HasNumber(after, p)
      && (after[p] == override.value || (p in before && after[p] == before[p]))
      && (p in before && Num(before[p]).Some? && Num(before[p]) == Num(override.value) ==> after[p] == before[p])
      && (Num(after[p]).Some? && Num(override.value).Some? ==>
        AtLeastAsSafe(p, Num(after[p]).value, Num(override.value).value))
      && (p in before && Num(before[p]).Some? ==>
        Num(after[p]).Some? && AtLeastAsSafe(p, Num(after[p]).value, Num(before[p]).value))
      && (IsNaN(after, p) <==> IsNaN(before, p) || (override.value == NotANumber && !HasNumber(before, p)))
  }

  function OverrideFor(overrides: map<Parameter, Value>, p: Parameter, names: seq<Parameter>): Option<Value> {
    if p in overrides && p in names then Some(overrides[p]) else None
  }

  /** One more setting merged, maybe for the second time. */
  lemma MergeOneMeans(
    before: map<Parameter, Value>, merged: map<Parameter, Value>, overrides: map<Parameter, Value>, q: Parameter,
    p: Parameter, earlier: Option<Value>)
    requires MergesTo(before, merged, p, earlier)
    requires earlier.Some? ==> p in overrides && overrides[p] == earlier.value
    ensures MergesTo(before, MergeOne(merged, overrides, q), p,
                     if p == q && p in overrides then Some(overrides[p]) else earlier)
  {
  }

  lemma {:induction false} MergedAlongMeans(
    current: map<Parameter, Value>, overrides: map<Parameter, Value>, order: seq<Parameter>, p: Parameter)
    ensures MergesTo(current, MergedAlong(current, overrides, order), p, OverrideFor(overrides, p, order))
  {
    if order != [] {
      var n := |order| - 1;
      MergedAlongMeans(current, overrides, order[..n], p);
      MergeOneMeans(current, MergedAlong(current, overrides, order[..n]), overrides, order[n], p,
                    OverrideFor(overrides, p, order[..n]));
      assert order == order[..n] + [order[n]];
    }
  }

  /**
   * A merge never makes a setting less safe than it is or than the override asks for, takes one of the two values, and
   * leaves everything else alone.
   */
  lemma MergeIsSafer(current: map<Parameter, Value>, overrides: map<Parameter, Value>, r: Reader, p: Parameter)
    ensures MergesTo(current, Merged(current, overrides, r), p, OverrideFor(overrides, p, Applicable(r)))
  {
    MergedAlongMeans(current, overrides, Applicable(r), p);
  }

  /**
   * Tuning leaves a setting as it is or moves it within its bounds, unless there was no number before and the override
   * is "NaN", which then is what the setting becomes.
   */
  lemma TunedStaysInBounds(
    current: map<Parameter, Value>, files: seq<ProposalFile>, r: Reader, now: real, clock: real, p: Parameter)
    requires p in Resolved(files, r, now, clock)
    ensures
      var override := Resolved(files, r, now, clock)[p];
      var merged := Merged(current, Resolved(files, r, now, clock), r);
      && HasNumber(merged, p)
      && (Within(p, merged[p]) || (p in current && merged[p] == current[p])
        <==> !(override == NotANumber && !HasNumber(current, p)))
  {
    var _ := ResolvedIsBounded(files, r, now, clock, p);
    MergeIsSafer(current, Resolved(files, r, now, clock), r, p);
  }

  /** The safer of two numbers, either of which may be missing. */
  function SaferNumber(slowing: bool, current: Option<real>, override: Option<real>): Option<real> {
    if override.None? then current
    else if current.None? then override
    else if slowing then Some(MaxReal(current.value, override.value))
    else Some(if override.value < current.value then override.value else current.value)
  }

  /**
   * A merge takes the larger number of every setting that slows the trader, the smaller one of every cap, and leaves
   * the others alone; a "NaN" stays what it is.
   */
  lemma MergedNumber(current: map<Parameter, Value>, overrides: map<Parameter, Value>, r: Reader, p: Parameter)
    ensures NumberOf(Merged(current, overrides, r), p)
      == if p !in Slowing(r) + Capping(r) || IsNaN(current, p) then NumberOf(current, p)
         else SaferNumber(p in Slowing(r), NumberOf(current, p), NumberOf(overrides, p))
  {
    MergeIsSafer(current, overrides, r, p);
  }

  /**
   * Merging breaks the nesting of two nested caps exactly when the outer cap is overridden to less than the inner one
   * is and less than the inner one is overridden to, if it is at all.
   */
  lemma NestingBreaksIff(
    current: map<Parameter, Value>, overrides: map<Parameter, Value>, inner: Parameter, outer: Parameter)
    requires inner in Applicable(LowRisk) && outer in Applicable(LowRisk)
    requires SaferDirection(inner) == SaferDirection(outer) == SmallerIsSafer
    requires NumberOf(current, inner).Some? && NumberOf(current, outer).Some? && !Exceeds(current, inner, outer)
    ensures Exceeds(Merged(current, overrides, LowRisk), inner, outer) <==>
      var (newInner, newOuter) := (NumberOf(overrides, inner), NumberOf(overrides, outer));
      var cap := NumberOf(current, inner);
      && newOuter.Some? && newOuter.value < cap.value
      && (newInner.Some? ==> newOuter.value < newInner.value)
  {
    MergedNumber(current, overrides, LowRisk, inner);
    MergedNumber(current, overrides, LowRisk, outer);
  }

  lemma OneChange(c: Change, r: Reader, baseline: map<Parameter, Value>)
    requires c.Change? && c.parameter in Applicable(r)
    ensures Overrides([c], r) == map[c.parameter := c.toValue]
    ensures Effective(baseline, [c]) == baseline[c.parameter := c.toValue]
  {
    assert [c][..|[c]| - 1] == [];
  }

  /** An approved proposal that lowers the outer cap of a baseline with a small inner cap. */
  function LoweringBundle(now: real): Bundle {
    Bundle("atp_0001", Approved, ApprovedLowRisk,
           Baseline(map[BuyScanShallowTopK := Number(7.0), BuyScanDeepEvalLimit := Number(5.0)]),
           Sources([true]), At(now + 1.0), ApprovedBy(false),
           [Change(BuyScanShallowTopK, Number(7.0), Number(5.0), false)], false, [])
  }

  lemma LoweringIsAccepted(now: real)
    ensures Rejections(LoweringBundle(now), false, now) == []
  {
    var b := LoweringBundle(now);
    OneChange(b.changes[0], LowRisk, ValuesOf(b.baseline));
    AcceptedIff(b, false, now);
  }

  lemma OneFile(b: Bundle, r: Reader, now: real, clock: real)
    requires IsEligible(Readable(b, true), r, now, clock)
    ensures Resolved([Readable(b, true)], r, now, clock) == Overrides(b.changes, r)
  {
    var files := [Readable(b, true)];
    assert files[..0] == [];
    assert Eligible(files, r, now, clock) == [b];
  }

  /**
   * So a proposal that is accepted, active and nested over its own baseline can break the nesting of the current
   * settings.
   */
  lemma NestingCanBreak(now: real)
    ensures
      var files := [Readable(LoweringBundle(now), true)];
      var current := map[BuyScanShallowTopK := Number(7.0), BuyScanDeepEvalLimit := Number(7.0)];
      && Rejections(LoweringBundle(now), false, now) == []
      && !Exceeds(current, BuyScanDeepEvalLimit, BuyScanShallowTopK)
      && Exceeds(Merged(current, Resolved(files, LowRisk, now, now), LowRisk), BuyScanDeepEvalLimit, BuyScanShallowTopK)
  {
    var b := LoweringBundle(now);
    var current := map[BuyScanShallowTopK := Number(7.0), BuyScanDeepEvalLimit := Number(7.0)];
    LoweringIsAccepted(now);
    OneFile(b, LowRisk, now, now);
    OneChange(b.changes[0], LowRisk, ValuesOf(b.baseline));
    NestingBreaksIff(current, Overrides(b.changes, LowRisk), BuyScanDeepEvalLimit, BuyScanShallowTopK);
  }

  /**
   * The daily limit zero means "no limit", yet it is the smaller number. With an override of at least one there is a
   * limit after the merge exactly when there was one before or no number at all.
   */
  lemma LimitAppliesIff(current: map<Parameter, Value>, overrides: map<Parameter, Value>)
    requires
      var limit := NumberOf(overrides, SameSymbolMaxBuysPerDay);
      limit.Some? && limit.value >= 1.0
    ensures
      var (before, after) := (NumberOf(current, SameSymbolMaxBuysPerDay),
                              NumberOf(Merged(current, overrides, HighRisk), SameSymbolMaxBuysPerDay));
      && (after.None? <==> IsNaN(current, SameSymbolMaxBuysPerDay))
      && (after.Some? ==> (after.value >= 1.0 <==> before.None? || before.value >= 1.0))
      && (after.Some? ==> (after.value > 0.0 <==> before.None? || before.value > 0.0))
  {
    MergedNumber(current, overrides, HighRisk, SameSymbolMaxBuysPerDay);
  }

  /** An approved proposal that sets the outer cap to "NaN". */
  function NaNBundle(now: real): Bundle {
    Bundle("atp_0002", Approved, ApprovedLowRisk, Baseline(map[BuyScanShallowTopK := Number(7.0)]),
           Sources([true]), At(now + 1.0), ApprovedBy(false),
           [Change(BuyScanShallowTopK, Number(7.0), NotANumber, false)], false, [])
  }

  /** No bound, step or order of caps keeps it out: it is accepted, and handed out as the only active proposal. */
  lemma NaNIsHandedOut(now: real)
    ensures Rejections(NaNBundle(now), false, now) == []
    ensures Resolved([Readable(NaNBundle(now), true)], LowRisk, now, now) == map[BuyScanShallowTopK := NotANumber]
  {
    var b := NaNBundle(now);
    OneChange(b.changes[0], LowRisk, ValuesOf(b.baseline));
    AcceptedIff(b, false, now);
    OneFile(b, LowRisk, now, now);
  }
}
