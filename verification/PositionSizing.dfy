/** Trading costs in basis points, rounded half to even per component. */
module Costs {
  import opened Prelude

  datatype CostRates = CostRates(
    buyFeeBps: real, buySlippageBps: real, sellFeeBps: real, sellTaxBps: real, sellSlippageBps: real)

  datatype CostEstimate = CostEstimate(
    buyNotional: int, sellNotional: int, buyFee: int, buySlippage: int, sellFee: int, sellTax: int, sellSlippage: int)
  {
    function Entry(): int { buyNotional + buyFee + buySlippage }

    function Exit(): int { sellFee + sellTax + sellSlippage }

    function RoundTrip(): int { buyFee + buySlippage + sellFee + sellTax + sellSlippage }
  }

  /** The unrounded share of a notional. */
  function Share(notional: int, bps: real): real {
    Max(notional, 0) as real * MaxReal(bps, 0.0) / 10000.0
  }

  function BpsAmount(notional: int, bps: real): int {
    RoundHalfEven(Share(notional, bps))
  }

  function EstimateCosts(buyNotional: int, sellNotional: int, rates: CostRates): CostEstimate {
    var buy, sell := Max(buyNotional, 0), Max(sellNotional, 0);
    CostEstimate(buy, sell,
                 BpsAmount(buy, rates.buyFeeBps), BpsAmount(buy, rates.buySlippageBps),
                 BpsAmount(sell, rates.sellFeeBps), BpsAmount(sell, rates.sellTaxBps),
                 BpsAmount(sell, rates.sellSlippageBps))
  }

  /** The nearest whole number to the share of a notional, the even one of two that are equally near. */
  predicate IsRounded(amount: int, notional: int, bps: real) {
    var off := 10000.0 * amount as real - notional as real * bps;
    -5000.0 <= off <= 5000.0 && (off == 5000.0 || off == -5000.0 ==> amount % 2 == 0)
  }

  /** What a component of the costs amounts to; negative notionals and rates count as zero. */
  lemma BpsAmountIsRounded(notional: int, bps: real)
    ensures IsRounded(BpsAmount(notional, bps), Max(0, notional), MaxReal(0.0, bps))
  {
    var share := Share(notional, bps);
    var amount, down := RoundHalfEven(share), share.Floor;
    assert share * 10000.0 == Max(0, notional) as real * MaxReal(0.0, bps);
    assert down as real <= share < down as real + 1.0;
    assert amount == down || amount == down + 1;
    assert (down + 1) as real == down as real + 1.0;
  }

  /** The components of an estimate and what they add up to. */
  lemma EstimateMeans(buyNotional: int, sellNotional: int, rates: CostRates)
    ensures
      var e := EstimateCosts(buyNotional, sellNotional, rates);
      var (buy, sell) := (Max(0, buyNotional), Max(0, sellNotional));
      && IsRounded(e.buyFee, buy, MaxReal(0.0, rates.buyFeeBps))
      && IsRounded(e.buySlippage, buy, MaxReal(0.0, rates.buySlippageBps))
      && IsRounded(e.sellFee, sell, MaxReal(0.0, rates.sellFeeBps))
      && IsRounded(e.sellTax, sell, MaxReal(0.0, rates.sellTaxBps))
      && IsRounded(e.sellSlippage, sell, MaxReal(0.0, rates.sellSlippageBps))
      && e.Entry() == buy + e.buyFee + e.buySlippage
      && e.RoundTrip() == e.Entry() - buy + e.Exit() && e.Exit() == e.sellFee + e.sellTax + e.sellSlippage
  {
    var buy, sell := Max(buyNotional, 0), Max(sellNotional, 0);
    BpsAmountIsRounded(buy, rates.buyFeeBps);
    BpsAmountIsRounded(buy, rates.buySlippageBps);
    BpsAmountIsRounded(sell, rates.sellFeeBps);
    BpsAmountIsRounded(sell, rates.sellTaxBps);
    BpsAmountIsRounded(sell, rates.sellSlippageBps);
  }

  lemma ShareMonotone(m: int, n: int, bps: real)
    requires m <= n
    ensures 0.0 <= Share(m, bps) <= Share(n, bps)
  {
    var x, y, rate := Max(m, 0) as real, Max(n, 0) as real, MaxReal(bps, 0.0);
    ProductMonotone(0.0, x, rate);
    ProductMonotone(x, y, rate);
  }

  lemma ProductMonotone(x: real, y: real, k: real)
    requires x <= y && k >= 0.0
    ensures x * k <= y * k
  {
  }

  lemma {:induction false} BpsAmountMonotone(m: int, n: int, bps: real)
    requires m <= n
    ensures 0 <= BpsAmount(m, bps) <= BpsAmount(n, bps)
  {
    ShareMonotone(m, n, bps);
    RoundHalfEvenMonotone(Share(m, bps), Share(n, bps));
  }

  /** A larger notional never costs less, in any component or total, despite the rounding. */
  lemma {:induction false} CostsMonotone(m: int, n: int, rates: CostRates)
    requires m <= n
    ensures
      var (a, b) := (EstimateCosts(m, m, rates), EstimateCosts(n, n, rates));
      && a.Entry() <= b.Entry() && a.Exit() <= b.Exit() && a.RoundTrip() <= b.RoundTrip()
      && b.Entry() - a.Entry() >= Max(n, 0) - Max(m, 0)
  {
    var x, y := Max(m, 0), Max(n, 0);
    BpsAmountMonotone(x, y, rates.buyFeeBps);
    BpsAmountMonotone(x, y, rates.buySlippageBps);
    BpsAmountMonotone(x, y, rates.sellFeeBps);
    BpsAmountMonotone(x, y, rates.sellTaxBps);
    BpsAmountMonotone(x, y, rates.sellSlippageBps);
  }
}

/** How many shares one BUY may take. */
module PositionSizings {
  import opened Prelude
  import opened Costs

  datatype Limits = Limits(
    price: int,
    orderableCash: int,
    orderableQty: int,
    totalEvaluation: int,
    cashAvailable: int,
    maxBudget: int,
    maxExposurePct: real,
    maxQty: int,
    rates: CostRates)

  datatype BlockReason = NotBlocked | QtyOrPriceLimited | CashInsufficient | ExposureLimited | TradeBudgetLimited

  datatype Sizing = Sizing(
    recommendedQty: int,
    recommendedNotional: int,
    maxAffordableQty: int,
    budgetLimitedQty: int,
    exposureLimitedQty: int,
    maxQtyLimitedQty: int,
    rescued: bool,
    block: BlockReason)

  /** Estimated cash needed to enter with `qty` shares. */
  function EntryCost(l: Limits, qty: int): int {
    EstimateCosts(qty * l.price, qty * l.price, l.rates).Entry()
  }

  function ExposureBudget(l: Limits): int {
    var basis := if l.totalEvaluation <= 0 then l.cashAvailable else l.totalEvaluation;
    Truncate(basis as real * (l.maxExposurePct / 100.0))
  }

  /** The amount is at most the configured percentage of the account, or of the cash when the account shows nothing. */
  predicate WithinExposure(l: Limits, amount: int) {
    var basis := if l.totalEvaluation > 0 then l.totalEvaluation else l.cashAvailable;
    100.0 * amount as real <= basis as real * l.maxExposurePct
  }

  /** The exposure in whole units bounds the same amounts. */
  lemma ExposureIff(l: Limits, amount: int)
    requires amount >= 1
    ensures amount <= ExposureBudget(l) <==> WithinExposure(l, amount)
  {
    var basis := if l.totalEvaluation <= 0 then l.cashAvailable else l.totalEvaluation;
    var exposure := basis as real * (l.maxExposurePct / 100.0);
    assert 100.0 * exposure == basis as real * l.maxExposurePct;
    TruncateBounds(exposure, amount);
  }

  lemma TruncateBounds(x: real, n: int)
    requires n >= 1
    ensures n <= Truncate(x) <==> n as real <= x
  {
    if x >= 0.0 {
      assert x.Floor as real <= x < (x.Floor + 1) as real;
    }
  }

  function CostOf(l: Limits): int -> int {
    qty => EntryCost(l, qty)
  }

  /** `qty` shares respect cash, exposure, the orderable quantity and the quantity cap. */
  predicate FitsApartFromBudget(l: Limits, cost: int -> int, qty: int) {
    && 1 <= qty <= l.orderableQty && qty <= l.maxQty
    && cost(qty) <= l.orderableCash
    && WithinExposure(l, cost(qty))
  }

  predicate Fits(l: Limits, cost: int -> int, qty: int) {
    FitsApartFromBudget(l, cost, qty) && cost(qty) <= l.maxBudget
  }

  lemma {:induction false} EntryCostMonotone(l: Limits, q: int, r: int)
    requires l.price > 0 && 0 <= q <= r
    ensures EntryCost(l, q) <= EntryCost(l, r)
    ensures r > 0 ==> EntryCost(l, r) > 0
  {
    var x, y := q * l.price, r * l.price;
    Products(q, r, l.price);
    CostsMonotone(x, y, l.rates);
    CostsMonotone(0, y, l.rates);
    BpsAmountMonotone(0, 0, l.rates.buyFeeBps);
    BpsAmountMonotone(0, 0, l.rates.buySlippageBps);
  }

  /** The entry cost is the price of all shares with the rounded fee and slippage on it. */
  lemma EntryCostMeans(l: Limits, qty: int) returns (fee: int, slippage: int)
    requires l.price > 0 && qty >= 0
    ensures EntryCost(l, qty) == qty * l.price + fee + slippage
    ensures IsRounded(fee, qty * l.price, MaxReal(0.0, l.rates.buyFeeBps))
    ensures IsRounded(slippage, qty * l.price, MaxReal(0.0, l.rates.buySlippageBps))
  {
    Products(qty, qty, l.price);
    EstimateMeans(qty * l.price, qty * l.price, l.rates);
    var e := EstimateCosts(qty * l.price, qty * l.price, l.rates);
    fee, slippage := e.buyFee, e.buySlippage;
  }

  lemma Products(q: int, r: int, price: int)
    requires price > 0 && 0 <= q <= r
    ensures 0 <= q * price <= r * price
    ensures r > 0 ==> r * price > 0
  {
  }

  /** More shares never cost less, and every share costs something. */
  ghost predicate Costly(cost: int -> int) {
    && (forall q, r :: 0 <= q <= r ==> cost(q) <= cost(r))
    && (forall q :: q >= 1 ==> cost(q) >= 1)
  }

  lemma EntryCostsMonotone(l: Limits)
    requires l.price > 0
    ensures Costly(CostOf(l))
  {
    forall q, r | 0 <= q <= r
      ensures CostOf(l)(q) <= CostOf(l)(r)
    {
      EntryCostMonotone(l, q, r);
    }
    forall q | q >= 1
      ensures CostOf(l)(q) >= 1
    {
      EntryCostMonotone(l, 0, q);
    }
  }

  /** Binary search for the largest quantity whose cost stays within `limit`. */
  method MaxQtyWithEntryLimit(cost: int -> int, limit: int, upperBound: int) returns (best: int)
    requires Costly(cost)
    ensures best >= 0
    ensures forall q :: q >= 1 ==> (q <= best <==> q <= upperBound && cost(q) <= limit)
  {
    if limit <= 0 || upperBound <= 0 {
      return 0;
    }
    var low, high := 0, upperBound;
    best := 0;
    while low <= high
      invariant 0 <= low <= high + 1 && high <= upperBound
      invariant best == Max(0, low - 1)
      invariant forall q :: 1 <= q < low ==> cost(q) <= limit
      invariant forall q :: high < q <= upperBound ==> cost(q) > limit
      decreases high - low
    {
      var mid := (low + high) / 2;
      if cost(mid) <= limit {
        best := mid;
        low := mid + 1;
      } else {
        high := mid - 1;
      }
    }
  }

  /**
   * The recommendation is the largest quantity that fits every limit; when only the trade budget keeps a single share
   * out, that one share may be rescued.
   */
  ghost predicate SizedFor(l: Limits, cost: int -> int, allowRescue: bool, s: Sizing) {
    && 0 <= s.recommendedQty <= Max(0, l.orderableQty)
    && s.recommendedNotional == s.recommendedQty * l.price
    && (l.price <= 0 ==> s.recommendedQty == 0 && !s.rescued && s.block == QtyOrPriceLimited)
    && (l.price > 0 && !s.rescued ==> forall q :: q >= 1 ==> (Fits(l, cost, q) <==> q <= s.recommendedQty))
    && (l.price > 0 ==> (s.rescued <==> allowRescue && FitsApartFromBudget(l, cost, 1) && cost(1) > l.maxBudget))
    && (s.rescued ==> s.recommendedQty == 1)
    && (s.block == NotBlocked <==> s.recommendedQty > 0)
    && (l.price > 0 && s.recommendedQty == 0 ==>
      var affordable := Min(l.orderableQty, l.maxQty) >= 1 && cost(1) <= l.orderableCash;
      && (s.block == CashInsufficient <==> !affordable)
      && (s.block == ExposureLimited <==> affordable && !WithinExposure(l, cost(1)))
      && s.block != QtyOrPriceLimited)
  }

  /** A quantity that can be ordered, does not exceed the maximum, and costs no more than that. */
  predicate Covers(l: Limits, cost: int -> int, limit: int, qty: int) {
    qty <= l.orderableQty && qty <= l.maxQty && cost(qty) <= limit
  }

  /** The same within the exposure. */
  predicate Exposes(l: Limits, cost: int -> int, qty: int) {
    qty <= l.orderableQty && qty <= l.maxQty && WithinExposure(l, cost(qty))
  }

  /** The largest such quantity, or zero if there is none. */
  ghost predicate IsLargestFor(l: Limits, cost: int -> int, limit: int, n: int) {
    n >= 0 && forall q :: q >= 1 ==> (q <= n <==> Covers(l, cost, limit, q))
  }

  ghost predicate IsLargestExposed(l: Limits, cost: int -> int, n: int) {
    n >= 0 && forall q :: q >= 1 ==> (q <= n <==> Exposes(l, cost, q))
  }

  /** What each limit by itself leaves; nothing without a price. */
  ghost predicate NamesLimits(l: Limits, cost: int -> int, s: Sizing) {
    if l.price <= 0 then
      s.maxAffordableQty == s.budgetLimitedQty == s.exposureLimitedQty == s.maxQtyLimitedQty == 0
    else
      && IsLargestFor(l, cost, l.orderableCash, s.maxAffordableQty)
      && IsLargestFor(l, cost, l.maxBudget, s.budgetLimitedQty)
      && IsLargestExposed(l, cost, s.exposureLimitedQty)
      && s.maxQtyLimitedQty == l.maxQty
  }

  method CalculatePositionSizing(l: Limits, allowRescue: bool) returns (s: Sizing)
    ensures SizedFor(l, CostOf(l), allowRescue, s) && NamesLimits(l, CostOf(l), s)
  {
    if l.price <= 0 {
      return Sizing(0, 0, 0, 0, 0, 0, false, QtyOrPriceLimited);
    }
    EntryCostsMonotone(l);
    s := SizeWithCost(l, CostOf(l), allowRescue);
  }

  method LargestFor(l: Limits, cost: int -> int, limit: int) returns (n: int)
    requires Costly(cost)
    ensures IsLargestFor(l, cost, limit, n)
  {
    n := MaxQtyWithEntryLimit(cost, limit, Min(l.orderableQty, l.maxQty));
    forall q | q >= 1
      ensures q <= n <==> Covers(l, cost, limit, q)
    {
      assert cost(q) >= 1;
    }
  }

  lemma LargestIsExposed(l: Limits, cost: int -> int, n: int)
    requires Costly(cost) && IsLargestFor(l, cost, ExposureBudget(l), n)
    ensures IsLargestExposed(l, cost, n)
  {
    forall q | q >= 1
      ensures q <= n <==> Exposes(l, cost, q)
    {
      assert q <= n <==> Covers(l, cost, ExposureBudget(l), q);
      ExposureIff(l, cost(q));
    }
  }

  method SizeWithCost(l: Limits, cost: int -> int, allowRescue: bool) returns (s: Sizing)
    requires l.price > 0 && Costly(cost)
    ensures SizedFor(l, cost, allowRescue, s) && NamesLimits(l, cost, s)
  {
    var affordable := LargestFor(l, cost, l.orderableCash);
    var budgetLimited := LargestFor(l, cost, l.maxBudget);
    var exposureLimited := LargestFor(l, cost, ExposureBudget(l));
    LargestIsExposed(l, cost, exposureLimited);
    forall q | q >= 1
      ensures FitsApartFromBudget(l, cost, q) <==> q <= affordable && q <= exposureLimited
      ensures Fits(l, cost, q) <==> q <= affordable && q <= exposureLimited && q <= budgetLimited
    {
      assert q <= affordable <==> Covers(l, cost, l.orderableCash, q);
      assert q <= budgetLimited <==> Covers(l, cost, l.maxBudget, q);
      assert q <= exposureLimited <==> Exposes(l, cost, q);
    }
    assert 1 <= affordable <==> Covers(l, cost, l.orderableCash, 1);
    assert 1 <= budgetLimited <==> Covers(l, cost, l.maxBudget, 1);
    assert 1 <= exposureLimited <==> Exposes(l, cost, 1);
    var recommended := Min(Min(affordable, budgetLimited), Min(exposureLimited, l.maxQty));

    if recommended <= 0 {
      var block := QtyOrPriceLimited;
      if affordable <= 0 {
        block := CashInsufficient;
      } else if exposureLimited <= 0 {
        block := ExposureLimited;
      } else if budgetLimited <= 0 {
        block := TradeBudgetLimited;
      } else if l.orderableQty <= 0 || l.maxQty <= 0 {
        block := QtyOrPriceLimited;
      }
      if && allowRescue && budgetLimited <= 0 && affordable >= 1 && exposureLimited >= 1
         && l.orderableQty >= 1 && l.maxQty >= 1
      {
        return Sizing(1, l.price, affordable, budgetLimited, exposureLimited, l.maxQty, true, NotBlocked);
      }
      return Sizing(0, 0, affordable, budgetLimited, exposureLimited, l.maxQty, false, block);
    }
    assert Fits(l, cost, recommended);
    s := Sizing(recommended, recommended * l.price, affordable, budgetLimited, exposureLimited, l.maxQty, false,
                NotBlocked);
  }
}
