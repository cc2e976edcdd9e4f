/**
 * Approved proposals that tune the trader's settings: which ones are valid, which one is active, and how its values are
 * merged with the current ones.
 */
module Autotuning {
  import opened Prelude
  import opened Visits

  datatype Parameter =
    | ScanSymbolsMaxPerCycle | BuyScanDeepEvalLimit | BuyScanShallowTopK | BuyScanIntervalSeconds
    | SellCheckIntervalSeconds | SellWatchMaxHoldingsPerTick
    | RebuyCooldownMinutes | SameSymbolMaxBuysPerDay | MathMultiplier
    | BuyMaxAccountExposurePct | BuyMaxBudgetPerTradeKrw | BuyMaxQtyPerTrade | BuyDailyMaxOrderSubmissions
    | TierD(name: string)
    | OtherParameter(name: string)

  /**
   * A value as it comes out of a JSON file, whose reader takes "NaN" for a number; a truth value counts as a number.
   */
  datatype Value = Number(x: real) | NotANumber | Truth(b: bool) | Text(s: string)

  datatype Tier = A | B | C

  datatype Spec = Spec(
    tier: Tier, boundMin: Option<real>, boundMax: Option<real>, maxStep: Option<real>, blocked: bool)

  datatype Change =
    | NotAnObject
    | BadName
    | Change(parameter: Parameter, fromValue: Value, toValue: Value, riskTierD: bool)

  datatype Baseline = NoBaseline | BadBaseline | BadValues | Baseline(values: map<Parameter, Value>)

  datatype Expiry = NoExpiry | BadExpiry | NoZone | At(moment: real)

  datatype Mode = ApprovedLowRisk | ApprovedHighRisk | Shadow | OtherMode

  datatype Status = Approved | Superseded | OtherStatus

  /** Who generated a proposal; an automated generator may go by its name or by its kind and name. */
  datatype Approval = BadApproval | Incomplete | ApprovedBy(sameAsAutomatedGenerator: bool)

  datatype Evidence = NotAList | Sources(liveLog: seq<bool>)

  /** An entry of a bundle's audit: when it was replaced, and by which proposal. */
  datatype Replaced = Replaced(moment: real, successor: string)

  datatype Bundle = Bundle(
    proposalId: string, status: Status, mode: Mode, baseline: Baseline, evidence: Evidence, expiry: Expiry,
    approval: Approval, changes: seq<Change>, riskReview: bool, audit: seq<Replaced>)

  datatype Rejection =
    | HighRiskDisabled | MissingBaseline | BaselineNotObject | ValuesNotObject
    | EvidenceNotList | EvidenceRequired | LiveLogRequired
    | TtlRequired | TtlInvalid | TtlWithoutZone | Expired
    | ApprovalNotObject | ApprovalRequired | SelfApproved
    | ChangesMissing | ChangeNotObject | ChangeBadName
    | Forbidden(p: Parameter) | Unknown(p: Parameter) | ParameterBlocked(p: Parameter) | TierTooHigh(p: Parameter)
    | FromMismatch(p: Parameter) | FromNotNumeric(p: Parameter) | ToNotNumeric(p: Parameter)
    | BelowMin(p: Parameter) | AboveMax(p: Parameter) | StepTooLarge(p: Parameter)
    | DeepExceedsShallow | ShallowExceedsScanMax

  /** Passes for an integer or a floating-point number. */
  predicate IsNumeric(v: Value) {
    !v.Text?
  }

  /** What the value can be compared by: no comparison with "NaN" ever holds. */
  function Num(v: Value): Option<real> {
    match v
    case Number(x) => Some(x)
    case NotANumber => None
    case Truth(b) => Some(if b then 1.0 else 0.0)
    case Text(_) => None
  }

  predicate Same(a: Value, b: Value) {
    if Num(a).Some? && Num(b).Some? then Num(a) == Num(b) else a == b && a != NotANumber
  }

  function Distance(x: real, y: real): real {
    if x < y then y - x else x - y
  }

  function Bounded(tier: Tier, min: real, max: real, step: real): Option<Spec> {
    Some(Spec(tier, Some(min), Some(max), Some(step), false))
  }

  function BlockedSpec(tier: Tier): Option<Spec> {
    Some(Spec(tier, None, None, None, true))
  }

  /** The whitelist and its bounds. */
  function Whitelist(p: Parameter): Option<Spec> {
    match p
    case ScanSymbolsMaxPerCycle => Bounded(A, 15.0, 40.0, 5.0)
    case BuyScanDeepEvalLimit => Bounded(A, 2.0, 8.0, 1.0)
    case BuyScanShallowTopK => Bounded(A, 5.0, 20.0, 2.0)
    case BuyScanIntervalSeconds => Bounded(A, 180.0, 600.0, 30.0)
    case SellCheckIntervalSeconds => Bounded(A, 30.0, 120.0, 10.0)
    case SellWatchMaxHoldingsPerTick => Some(Spec(A, None, None, Some(1.0), true))
    case RebuyCooldownMinutes => Bounded(B, 15.0, 240.0, 15.0)
    case SameSymbolMaxBuysPerDay => Bounded(B, 1.0, 5.0, 1.0)
    case MathMultiplier => BlockedSpec(B)
    case BuyMaxAccountExposurePct => BlockedSpec(C)
    case BuyMaxBudgetPerTradeKrw => BlockedSpec(C)
    case BuyMaxQtyPerTrade => BlockedSpec(C)
    case BuyDailyMaxOrderSubmissions => BlockedSpec(C)
    case TierD(_) => None
    case OtherParameter(_) => None
  }

  // ----- validating a proposal -----

  predicate LiveEligible(mode: Mode) {
    mode.ApprovedLowRisk? || mode.ApprovedHighRisk?
  }

  function ValuesOf(b: Baseline): map<Parameter, Value> {
    if b.Baseline? then b.values else map[]
  }

  function BaselineRejections(b: Baseline): seq<Rejection> {
    match b
    case NoBaseline => [MissingBaseline]
    case BadBaseline => [BaselineNotObject]
    case BadValues => [ValuesNotObject]
    case Baseline(_) => []
  }

  function EvidenceRejections(e: Evidence, mode: Mode): seq<Rejection> {
    var sources := if e.Sources? then e.liveLog else [];
    (if e.NotAList? then [EvidenceNotList] else [])
    + (if (mode.Shadow? || LiveEligible(mode)) && sources == [] then [EvidenceRequired]
       else if LiveEligible(mode) && true !in sources then [LiveLogRequired]
       else [])
  }

  function TtlRejections(e: Expiry, mode: Mode, clock: real): seq<Rejection> {
    match e
    case NoExpiry => if LiveEligible(mode) then [TtlRequired] else []
    case BadExpiry => [TtlInvalid]
    case NoZone => [TtlWithoutZone]
    case At(moment) => if clock > moment then [Expired] else []
  }

  function ApprovalRejections(b: Bundle): seq<Rejection> {
    if !b.status.Approved? then []
    else
      match b.approval
      case BadApproval => [ApprovalNotObject, ApprovalRequired]
      case Incomplete => [ApprovalRequired]
      case ApprovedBy(same) => if same then [SelfApproved] else []
  }

  function HeaderRejections(b: Bundle, allowHighRisk: bool, clock: real): seq<Rejection> {
    (if b.mode.ApprovedHighRisk? && !allowHighRisk then [HighRiskDisabled] else [])
    + BaselineRejections(b.baseline) + EvidenceRejections(b.evidence, b.mode)
    + TtlRejections(b.expiry, b.mode, clock) + ApprovalRejections(b)
    + (if b.changes == [] then [ChangesMissing] else [])
  }

  /** A floating-point or whole number, as bounds are meant for. */
  predicate IsPlain(v: Value) {
    v.Number? || v.NotANumber?
  }

  /** Bounds and step, checked on whatever can be compared. */
  function BoundRejections(p: Parameter, spec: Spec, fromValue: Value, toValue: Value): seq<Rejection> {
    match Num(toValue)
    case None => []
    case Some(to) =>
      (if spec.boundMin.Some? && to < spec.boundMin.value then [BelowMin(p)] else [])
      + (if spec.boundMax.Some? && to > spec.boundMax.value then [AboveMax(p)] else [])
      + (if Num(fromValue).Some? && spec.maxStep.Some? && Distance(to, Num(fromValue).value) > spec.maxStep.value
         then [StepTooLarge(p)] else [])
  }

  function ChangeRejections(c: Change, mode: Mode, baseline: map<Parameter, Value>): seq<Rejection> {
    match c
    case NotAnObject => [ChangeNotObject]
    case BadName => [ChangeBadName]
    case Change(p, fromValue, toValue, riskTierD) =>
      if p.TierD? || riskTierD then [Forbidden(p)]
      else
        match Whitelist(p)
        case None => [Unknown(p)]
        case Some(spec) =>
          if spec.blocked then [ParameterBlocked(p)]
          else
            (if mode.ApprovedLowRisk? && spec.tier != A then [TierTooHigh(p)] else [])
            + (if p in baseline && !Same(baseline[p], fromValue) then [FromMismatch(p)] else [])
            + (if !IsPlain(fromValue) then [FromNotNumeric(p)] else [])
            + (if !IsPlain(toValue) then [ToNotNumeric(p)] else [])
            + BoundRejections(p, spec, fromValue, toValue)
  }

  function ChangeCheck(mode: Mode, baseline: map<Parameter, Value>): Change -> seq<Rejection> {
    c => ChangeRejections(c, mode, baseline)
  }

  function ChangesRejections(changes: seq<Change>, mode: Mode, baseline: map<Parameter, Value>): seq<Rejection> {
    Along(ChangeCheck(mode, baseline), changes)
  }

  /** The values a proposal leads to: its baseline, overlaid with one change after the other. */
  function Effective(baseline: map<Parameter, Value>, changes: seq<Change>): map<Parameter, Value> {
    if changes == [] then baseline
    else
      var rest, c := Effective(baseline, changes[..|changes| - 1]), changes[|changes| - 1];
      if c.Change? then rest[c.parameter := c.toValue] else rest
  }

  function NumberOf(values: map<Parameter, Value>, p: Parameter): Option<real> {
    if p in values then Num(values[p]) else None
  }

  predicate Exceeds(values: map<Parameter, Value>, p: Parameter, q: Parameter) {
    NumberOf(values, p).Some? && NumberOf(values, q).Some? && NumberOf(values, p).value > NumberOf(values, q).value
  }

  function CrossRejections(values: map<Parameter, Value>): seq<Rejection> {
    (if Exceeds(values, BuyScanDeepEvalLimit, BuyScanShallowTopK) then [DeepExceedsShallow] else [])
    + (if Exceeds(values, BuyScanShallowTopK, ScanSymbolsMaxPerCycle) then [ShallowExceedsScanMax] else [])
  }

  function Rejections(b: Bundle, allowHighRisk: bool, clock: real): seq<Rejection> {
    HeaderRejections(b, allowHighRisk, clock) + ChangesRejections(b.changes, b.mode, ValuesOf(b.baseline))
    + CrossRejections(Effective(ValuesOf(b.baseline), b.changes))
  }

  method EffectiveValues(baseline: map<Parameter, Value>, changes: seq<Change>) returns (values: map<Parameter, Value>)
    ensures values == Effective(baseline, changes)
  {
    values := baseline;
    for i := 0 to |changes|
      invariant values == Effective(baseline, changes[..i])
    {
      assert changes[..i + 1][..i] == changes[..i];
      if changes[i].Change? {
        values := values[changes[i].parameter := changes[i].toValue];
      }
    }
    assert changes[..|changes|] == changes;
  }

  method CheckChanges(changes: seq<Change>, mode: Mode, baseline: map<Parameter, Value>)
    returns (rejections: seq<Rejection>)
    ensures rejections == ChangesRejections(changes, mode, baseline)
  {
    var check := ChangeCheck(mode, baseline);
    rejections := [];
    for i := 0 to |changes|
      invariant rejections == Along(check, changes[..i])
    {
      AlongStep(check, changes, i);
      rejections := rejections + check(changes[i]);
    }
    assert changes[..|changes|] == changes;
  }

  method ValidateProposal(b: Bundle, allowHighRisk: bool, clock: real) returns (rejections: seq<Rejection>)
    ensures rejections == Rejections(b, allowHighRisk, clock)
  {
    rejections := HeaderRejections(b, allowHighRisk, clock);
    var found := CheckChanges(b.changes, b.mode, ValuesOf(b.baseline));
    rejections := rejections + found;
    var values := EffectiveValues(ValuesOf(b.baseline), b.changes);
    rejections := rejections + CrossRejections(values);
  }

  // ----- what a valid proposal is sure of -----

  predicate InBounds(spec: Spec, x: real) {
    && (spec.boundMin.Some? ==> spec.boundMin.value <= x)
    && (spec.boundMax.Some? ==> x <= spec.boundMax.value)
  }

  /** What a value reads as when it is compared. */
  predicate ReadsAs(v: Value, x: real) {
    v == Number(x) || (v == Truth(true) && x == 1.0) || (v == Truth(false) && x == 0.0)
  }

  /** Whatever the two settings read as, the first is at most the second. */
  ghost predicate AreNested(values: map<Parameter, Value>, inner: Parameter, outer: Parameter) {
    inner in values && outer in values ==>
      forall x, y :: ReadsAs(values[inner], x) && ReadsAs(values[outer], y) ==> x <= y
  }

  lemma NestedIff(values: map<Parameter, Value>, inner: Parameter, outer: Parameter)
    ensures AreNested(values, inner, outer) <==> !Exceeds(values, inner, outer)
  {
    if Exceeds(values, inner, outer) {
      assert ReadsAs(values[inner], NumberOf(values, inner).value);
      assert ReadsAs(values[outer], NumberOf(values, outer).value);
    }
  }

  /**
   * A change of a whitelisted numeric setting, from its baseline value, within bounds and step as far as these can be
   * compared.
   */
  predicate SoundChange(c: Change, mode: Mode, baseline: map<Parameter, Value>) {
    && c.Change? && !c.riskTierD
    && (c.fromValue.Number? || c.fromValue.NotANumber?) && (c.toValue.Number? || c.toValue.NotANumber?)
    && (c.parameter in baseline ==> c.fromValue.Number? && ReadsAs(baseline[c.parameter], c.fromValue.x))
    && match Whitelist(c.parameter)
       case None => false
       case Some(spec) =>
         && !spec.blocked && (mode.ApprovedLowRisk? ==> spec.tier == A)
         && (c.toValue.Number? ==> InBounds(spec, c.toValue.x))
         && (c.toValue.Number? && c.fromValue.Number? && spec.maxStep.Some? ==>
           -spec.maxStep.value <= c.toValue.x - c.fromValue.x <= spec.maxStep.value)
  }

  predicate SoundHeader(b: Bundle, allowHighRisk: bool, clock: real) {
    && (b.mode.ApprovedHighRisk? ==> allowHighRisk)
    && b.baseline.Baseline? && b.evidence.Sources? && b.changes != []
    && (b.mode.Shadow? ==> b.evidence.liveLog != [])
    && (b.mode in {ApprovedLowRisk, ApprovedHighRisk} ==> true in b.evidence.liveLog && b.expiry.At?)
    && !b.expiry.BadExpiry? && !b.expiry.NoZone? && (b.expiry.At? ==> clock <= b.expiry.moment)
    && (b.status.Approved? ==> b.approval.ApprovedBy? && !b.approval.sameAsAutomatedGenerator)
  }

  lemma SoundHeaderIff(b: Bundle, allowHighRisk: bool, clock: real)
    ensures HeaderRejections(b, allowHighRisk, clock) == [] <==> SoundHeader(b, allowHighRisk, clock)
  {
  }

  lemma SoundChangeIff(c: Change, mode: Mode, baseline: map<Parameter, Value>)
    ensures ChangeRejections(c, mode, baseline) == [] <==> SoundChange(c, mode, baseline)
  {
  }

  lemma SoundChangesIff(changes: seq<Change>, mode: Mode, baseline: map<Parameter, Value>)
    ensures ChangesRejections(changes, mode, baseline) == []
      <==> forall i :: 0 <= i < |changes| ==> SoundChange(changes[i], mode, baseline)
  {
    AlongNothing(ChangeCheck(mode, baseline), changes);
    forall i | 0 <= i < |changes|
      ensures ChangeCheck(mode, baseline)(changes[i]) == [] <==> SoundChange(changes[i], mode, baseline)
    {
      SoundChangeIff(changes[i], mode, baseline);
    }
  }

  /** A proposal is accepted exactly when header and changes are sound and the resulting limits stay nested. */
  lemma AcceptedIff(b: Bundle, allowHighRisk: bool, clock: real)
    ensures
      var baseline := if b.baseline.Baseline? then b.baseline.values else map[];
      Rejections(b, allowHighRisk, clock) == [] <==>
        && SoundHeader(b, allowHighRisk, clock)
        && (forall i :: 0 <= i < |b.changes| ==> SoundChange(b.changes[i], b.mode, baseline))
        && AreNested(Effective(baseline, b.changes), BuyScanDeepEvalLimit, BuyScanShallowTopK)
        && AreNested(Effective(baseline, b.changes), BuyScanShallowTopK, ScanSymbolsMaxPerCycle)
  {
    NestedIff(Effective(ValuesOf(b.baseline), b.changes), BuyScanDeepEvalLimit, BuyScanShallowTopK);
    NestedIff(Effective(ValuesOf(b.baseline), b.changes), BuyScanShallowTopK, ScanSymbolsMaxPerCycle);
    SoundHeaderIff(b, allowHighRisk, clock);
    SoundChangesIff(b.changes, b.mode, ValuesOf(b.baseline));
  }

  /** The `k`-th change is the last one of its setting. */
  ghost predicate IsLastChange(changes: seq<Change>, p: Parameter, k: int) {
    && 0 <= k < |changes| && changes[k].Change? && changes[k].parameter == p
    && forall j :: k < j < |changes| && changes[j].Change? ==> changes[j].parameter != p
  }

  /** A proposal leads to the value of the last change of a setting. */
  lemma {:induction false} EffectiveIsLast(baseline: map<Parameter, Value>, changes: seq<Change>, p: Parameter, k: int)
    requires IsLastChange(changes, p, k)
    ensures p in Effective(baseline, changes) && Effective(baseline, changes)[p] == changes[k].toValue
  {
    var n := |changes| - 1;
    if k < n {
      assert forall j :: 0 <= j < n ==> changes[..n][j] == changes[j];
      EffectiveIsLast(baseline, changes[..n], p, k);
    }
  }

  /** And to that of the baseline, if it has one, where nothing changes. */
  lemma {:induction false} EffectiveIsBaseline(baseline: map<Parameter, Value>, changes: seq<Change>, p: Parameter)
    requires forall j :: 0 <= j < |changes| && changes[j].Change? ==> changes[j].parameter != p
    ensures p in Effective(baseline, changes) <==> p in baseline
    ensures p in baseline ==> Effective(baseline, changes)[p] == baseline[p]
  {
    if changes != [] {
      EffectiveIsBaseline(baseline, changes[..|changes| - 1], p);
    }
  }

  // ----- what each rejection says -----

  /** The header draws this rejection. */
  predicate HeaderDraws(b: Bundle, allowHighRisk: bool, clock: real, x: Rejection) {
    var live := b.mode in {ApprovedLowRisk, ApprovedHighRisk};
    var sources := b.evidence.Sources? && b.evidence.liveLog != [];
    match x
    case HighRiskDisabled => b.mode == ApprovedHighRisk && !allowHighRisk
    case MissingBaseline => b.baseline == NoBaseline
    case BaselineNotObject => b.baseline == BadBaseline
    case ValuesNotObject => b.baseline == BadValues
    case EvidenceNotList => b.evidence == NotAList
    case EvidenceRequired => (live || b.mode == Shadow) && !sources
    case LiveLogRequired => live && sources && true !in b.evidence.liveLog
    case TtlRequired => b.expiry == NoExpiry && live
    case TtlInvalid => b.expiry == BadExpiry
    case TtlWithoutZone => b.expiry == NoZone
    case Expired => b.expiry.At? && clock > b.expiry.moment
    case ApprovalNotObject => b.status == Approved && b.approval == BadApproval
    case ApprovalRequired => b.status == Approved && b.approval in {BadApproval, Incomplete}
    case SelfApproved => b.status == Approved && b.approval == ApprovedBy(true)
    case ChangesMissing => b.changes == []
    case _ => false
  }

  lemma InParts<T>(a: seq<T>, b: seq<T>, c: seq<T>, d: seq<T>, e: seq<T>, x: T)
    ensures x in a + b + c + d + e <==> x in a || x in b || x in c || x in d || x in e
  {
  }

  lemma BaselineRejectionsMean(b: Baseline, x: Rejection)
    ensures x in BaselineRejections(b) <==>
      || (x == MissingBaseline && b == NoBaseline)
      || (x == BaselineNotObject && b == BadBaseline)
      || (x == ValuesNotObject && b == BadValues)
  {
  }

  lemma EvidenceRejectionsMean(e: Evidence, mode: Mode, x: Rejection)
    ensures
      var (live, sources) := (mode in {ApprovedLowRisk, ApprovedHighRisk}, e.Sources? && e.liveLog != []);
      x in EvidenceRejections(e, mode) <==>
        || (x == EvidenceNotList && e == NotAList)
        || (x == EvidenceRequired && (live || mode == Shadow) && !sources)
        || (x == LiveLogRequired && live && sources && true !in e.liveLog)
  {
  }

  lemma TtlRejectionsMean(e: Expiry, mode: Mode, clock: real, x: Rejection)
    ensures x in TtlRejections(e, mode, clock) <==>
      || (x == TtlRequired && e == NoExpiry && mode in {ApprovedLowRisk, ApprovedHighRisk})
      || (x == TtlInvalid && e == BadExpiry) || (x == TtlWithoutZone && e == NoZone)
      || (x == Expired && e.At? && clock > e.moment)
  {
  }

  lemma ApprovalRejectionsMean(b: Bundle, x: Rejection)
    ensures x in ApprovalRejections(b) <==>
      && b.status == Approved
      && (|| (x == ApprovalNotObject && b.approval == BadApproval)
          || (x == ApprovalRequired && b.approval in {BadApproval, Incomplete})
          || (x == SelfApproved && b.approval == ApprovedBy(true)))
  {
  }

  lemma HeaderRejectionsMean(b: Bundle, allowHighRisk: bool, clock: real, x: Rejection)
    ensures x in HeaderRejections(b, allowHighRisk, clock) <==> HeaderDraws(b, allowHighRisk, clock, x)
  {
    InParts(if b.mode.ApprovedHighRisk? && !allowHighRisk then [HighRiskDisabled] else [],
            BaselineRejections(b.baseline), EvidenceRejections(b.evidence, b.mode),
            TtlRejections(b.expiry, b.mode, clock), ApprovalRejections(b), x);
    BaselineRejectionsMean(b.baseline, x);
    EvidenceRejectionsMean(b.evidence, b.mode, x);
    TtlRejectionsMean(b.expiry, b.mode, clock, x);
    ApprovalRejectionsMean(b, x);
  }

  /** The two values read as the same number, or are the same text. */
  ghost predicate Agree(a: Value, b: Value) {
    (exists x :: ReadsAs(a, x) && ReadsAs(b, x)) || (a.Text? && a == b)
  }

  /** The change is of a setting on the whitelist that nothing keeps from being tuned. */
  predicate IsOpen(c: Change) {
    c.Change? && !c.parameter.TierD? && !c.riskTierD
    && Whitelist(c.parameter).Some? && !Whitelist(c.parameter).value.blocked
  }

  /** The change draws this rejection. */
  ghost predicate ChangeDraws(c: Change, mode: Mode, baseline: map<Parameter, Value>, x: Rejection) {
    match x
    case ChangeNotObject => c == NotAnObject
    case ChangeBadName => c == BadName
    case Forbidden(p) => c.Change? && c.parameter == p && (p.TierD? || c.riskTierD)
    case Unknown(p) => c.Change? && c.parameter == p && !p.TierD? && !c.riskTierD && Whitelist(p) == None
    case ParameterBlocked(p) =>
      c.Change? && c.parameter == p && !c.riskTierD && Whitelist(p).Some? && Whitelist(p).value.blocked
    case TierTooHigh(p) =>
      IsOpen(c) && c.parameter == p && mode == ApprovedLowRisk && Whitelist(p).value.tier in {B, C}
    case FromMismatch(p) => IsOpen(c) && c.parameter == p && p in baseline && !Agree(baseline[p], c.fromValue)
    case FromNotNumeric(p) => IsOpen(c) && c.parameter == p && (c.fromValue.Text? || c.fromValue.Truth?)
    case ToNotNumeric(p) => IsOpen(c) && c.parameter == p && (c.toValue.Text? || c.toValue.Truth?)
    case BelowMin(p) =>
      IsOpen(c) && c.parameter == p && Whitelist(p).value.boundMin.Some?
      && exists x :: ReadsAs(c.toValue, x) && x < Whitelist(p).value.boundMin.value
    case AboveMax(p) =>
      IsOpen(c) && c.parameter == p && Whitelist(p).value.boundMax.Some?
      && exists x :: ReadsAs(c.toValue, x) && x > Whitelist(p).value.boundMax.value
    case StepTooLarge(p) =>
      IsOpen(c) && c.parameter == p && Whitelist(p).value.maxStep.Some?
      && StepsTooFar(c.fromValue, c.toValue, Whitelist(p).value.maxStep.value)
    case _ => false
  }

  ghost predicate StepsTooFar(fromValue: Value, toValue: Value, step: real) {
    exists x, y :: ReadsAs(fromValue, x) && ReadsAs(toValue, y) && !(x - step <= y <= x + step)
  }

  lemma SameAgrees(a: Value, b: Value)
    ensures Same(a, b) <==> Agree(a, b)
  {
    if Num(a).Some? && Num(a) == Num(b) {
      assert ReadsAs(a, Num(a).value) && ReadsAs(b, Num(a).value);
    }
  }

  lemma BoundRejectionsMean(p: Parameter, spec: Spec, fromValue: Value, toValue: Value, x: Rejection)
    ensures x in BoundRejections(p, spec, fromValue, toValue) <==>
      || (x == BelowMin(p) && spec.boundMin.Some? && exists y :: ReadsAs(toValue, y) && y < spec.boundMin.value)
      || (x == AboveMax(p) && spec.boundMax.Some? && exists y :: ReadsAs(toValue, y) && y > spec.boundMax.value)
      || (x == StepTooLarge(p) && spec.maxStep.Some? && StepsTooFar(fromValue, toValue, spec.maxStep.value))
  {
    if Num(toValue).Some? {
      assert ReadsAs(toValue, Num(toValue).value);
    }
    if Num(fromValue).Some? {
      assert ReadsAs(fromValue, Num(fromValue).value);
    }
  }

  lemma ClosedChangeMeans(c: Change, mode: Mode, baseline: map<Parameter, Value>, x: Rejection)
    requires !IsOpen(c)
    ensures x in ChangeRejections(c, mode, baseline) <==> ChangeDraws(c, mode, baseline, x)
  {
  }

  lemma OpenChangeParts(c: Change, mode: Mode, baseline: map<Parameter, Value>, x: Rejection)
    requires IsOpen(c)
    ensures
      var p, spec := c.parameter, Whitelist(c.parameter).value;
      x in ChangeRejections(c, mode, baseline) <==>
        || (x == TierTooHigh(p) && mode.ApprovedLowRisk? && spec.tier != A)
        || (x == FromMismatch(p) && p in baseline && !Same(baseline[p], c.fromValue))
        || (x == FromNotNumeric(p) && !IsPlain(c.fromValue))
        || (x == ToNotNumeric(p) && !IsPlain(c.toValue))
        || x in BoundRejections(p, spec, c.fromValue, c.toValue)
  {
    var p, spec := c.parameter, Whitelist(c.parameter).value;
    InParts(if mode.ApprovedLowRisk? && spec.tier != A then [TierTooHigh(p)] else [],
            if p in baseline && !Same(baseline[p], c.fromValue) then [FromMismatch(p)] else [],
            if !IsPlain(c.fromValue) then [FromNotNumeric(p)] else [],
            if !IsPlain(c.toValue) then [ToNotNumeric(p)] else [],
            BoundRejections(p, spec, c.fromValue, c.toValue), x);
  }

  lemma OpenChangeMeans(c: Change, mode: Mode, baseline: map<Parameter, Value>, x: Rejection)
    requires IsOpen(c)
    ensures x in ChangeRejections(c, mode, baseline) <==> ChangeDraws(c, mode, baseline, x)
  {
    var p, spec := c.parameter, Whitelist(c.parameter).value;
    if p in baseline {
      SameAgrees(baseline[p], c.fromValue);
    }
    BoundRejectionsMean(p, spec, c.fromValue, c.toValue, x);
    OpenChangeParts(c, mode, baseline, x);
  }

  lemma ChangeRejectionsMean(c: Change, mode: Mode, baseline: map<Parameter, Value>, x: Rejection)
    ensures x in ChangeRejections(c, mode, baseline) <==> ChangeDraws(c, mode, baseline, x)
  {
    if IsOpen(c) {
      OpenChangeMeans(c, mode, baseline, x);
    } else {
      ClosedChangeMeans(c, mode, baseline, x);
    }
  }

  /** Every rejection is reported exactly when what it says is the case. */
  lemma RejectionsMean(b: Bundle, allowHighRisk: bool, clock: real, x: Rejection)
    ensures
      var baseline := if b.baseline.Baseline? then b.baseline.values else map[];
      var values := Effective(baseline, b.changes);
      x in Rejections(b, allowHighRisk, clock) <==>
        || HeaderDraws(b, allowHighRisk, clock, x)
        || (exists i :: 0 <= i < |b.changes| && ChangeDraws(b.changes[i], b.mode, baseline, x))
        || (x == DeepExceedsShallow && !AreNested(values, BuyScanDeepEvalLimit, BuyScanShallowTopK))
        || (x == ShallowExceedsScanMax && !AreNested(values, BuyScanShallowTopK, ScanSymbolsMaxPerCycle))
  {
    var baseline := ValuesOf(b.baseline);
    var values := Effective(baseline, b.changes);
    HeaderRejectionsMean(b, allowHighRisk, clock, x);
    AlongHas(ChangeCheck(b.mode, baseline), b.changes, x);
    forall i | 0 <= i < |b.changes|
      ensures x in ChangeCheck(b.mode, baseline)(b.changes[i]) <==> ChangeDraws(b.changes[i], b.mode, baseline, x)
    {
      ChangeRejectionsMean(b.changes[i], b.mode, baseline, x);
    }
    NestedIff(values, BuyScanDeepEvalLimit, BuyScanShallowTopK);
    NestedIff(values, BuyScanShallowTopK, ScanSymbolsMaxPerCycle);
    var (header, changes) := (HeaderRejections(b, allowHighRisk, clock),
                              ChangesRejections(b.changes, b.mode, baseline));
    assert x in header + changes + CrossRejections(values) <==>
      x in header || x in changes || x in CrossRejections(values);
  }
}
