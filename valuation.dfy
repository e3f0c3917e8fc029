/**
 * Fair-price valuation of one security (`calculate_fair_price`, app.py
 * lines 99-210): six estimators from the sector multiples, a fixed-weight
 * blend that is NOT renormalised (the weights add up to 1.05), a PEG
 * divisor, a leverage factor, a 5% haircut, and the gap to the current price.
 */
module Valuation {
  import opened Wrappers
  import opened Sectors
  import opened Fundamentals
  import opened EarningsScore

  /** The six estimators of lines 175-180. */
  datatype Estimates = Estimates(
    trailingPe: real,
    forwardPe: real,
    book: real,
    revenue: real,
    evEbitda: real,
    ddm: real)

  /** What the provider returned for one ticker. */
  datatype FetchOutcome =
    | FetchFailed   // a provider call raised before the arithmetic
    | Fetched(info: Info, ebitda: Option<real>, earnings: EarningsDates)

  /** The result record of lines 191-205 (the metrics copied into it are kept as `metrics`). */
  datatype ValuationResult = ValuationResult(
    ticker: string,
    sector: string,
    currentPrice: real,
    fairPrice: real,
    diffNominal: real,
    diffPercent: real,
    valueBet: bool,
    metrics: Metrics,
    beatProb: int,
    missProb: int)

  /** The blend weights of line 183, in estimator order. */
  const WTrailingPe: real := 0.3
  const WForwardPe: real := 0.25
  const WBook: real := 0.15
  const WRevenue: real := 0.15
  const WEvEbitda: real := 0.15
  const WDdm: real := 0.05

  /** The conservatism haircut of line 186. */
  const Haircut: real := 0.95

  /** Trailing-earnings estimator: 0 unless `eps > 0` (line 175). */
  function TrailingPeValue(eps: real, m: SectorMultiples): (v: real)
    requires WellFormed(m)
    ensures eps <= 0.0 ==> v == 0.0
    ensures eps > 0.0 ==> v > 0.0 && v == eps * m.currentPe
  {
    if eps > 0.0 then eps * m.currentPe else 0.0
  }

  /** Forward-earnings estimator: 0 unless `forward_eps > 0` (line 176). */
  function ForwardPeValue(forwardEps: real, m: SectorMultiples): (v: real)
    requires WellFormed(m)
    ensures forwardEps <= 0.0 ==> v == 0.0
    ensures forwardEps > 0.0 ==> v > 0.0 && v == forwardEps * m.forwardPe
  {
    if forwardEps > 0.0 then forwardEps * m.forwardPe else 0.0
  }

  /**
   * Enterprise-value estimator (line 179): never negative, 0 when there are
   * no shares, otherwise the per-share surplus of EBITDA times the multiple
   * over net debt.
   */
  function EvEbitdaValue(ebitda: real, netDebt: real, shares: real, m: SectorMultiples): (v: real)
    ensures v >= 0.0
    ensures shares <= 0.0 ==> v == 0.0
    ensures shares > 0.0 && ebitda * m.evEbitda - netDebt >= 0.0 ==> v * shares == ebitda * m.evEbitda - netDebt
    ensures shares > 0.0 && ebitda * m.evEbitda - netDebt <= 0.0 ==> v == 0.0
  {
    var raw := if shares > 0.0 then (ebitda * m.evEbitda - netDebt) / shares else 0.0;
    if raw > 0.0 then raw else 0.0
  }

  /** `cost_equity` of line 164. */
  function CostOfEquity(beta: real): real {
    0.03 + beta * 0.06
  }

  /** The growth of line 163: retained ROE when ROE is positive, else the sector's growth. */
  function DdmGrowth(roe: real, payout: real, sector: string): real {
    if roe > 0.0 then (1.0 - payout) * roe else SectorGrowth(sector)
  }

  /** The Gordon formula applies only when `cost_equity > growth > 0` (line 180). */
  predicate GordonApplies(costEquity: real, growth: real) {
    costEquity > growth > 0.0
  }

  /**
   * Dividend-discount estimator (line 180): solves the Gordon equation over a
   * strictly positive denominator when it applies (whatever the sign of
   * `eps`), and is otherwise the mean of the two earnings estimators.
   */
  function DdmValue(eps: real, payout: real, costEquity: real, growth: real,
                    trailingPe: real, forwardPe: real): (v: real)
    ensures GordonApplies(costEquity, growth) ==>
      costEquity - growth > 0.0 && v * (costEquity - growth) == eps * (1.0 - payout)
    ensures !GordonApplies(costEquity, growth) ==> 2.0 * v == trailingPe + forwardPe
  {
    if GordonApplies(costEquity, growth) then eps * (1.0 - payout) / (costEquity - growth)
    else (trailingPe + forwardPe) / 2.0
  }

  /** All six estimators for one snapshot. The book and revenue estimators are unguarded (lines 177-178). */
  function EstimatesOf(info: Info, met: Metrics, m: SectorMultiples): (e: Estimates)
    requires WellFormed(m)
    ensures e.trailingPe != 0.0 ==> met.eps > 0.0
    ensures e.forwardPe != 0.0 ==> met.forwardEps > 0.0
    ensures e.book == met.bookValue * m.pb
    ensures e.revenue == RevenuePerShare(info) * m.ps
    ensures e.evEbitda >= 0.0 && (met.shares <= 0.0 ==> e.evEbitda == 0.0)
    ensures e.trailingPe == TrailingPeValue(met.eps, m) && e.forwardPe == ForwardPeValue(met.forwardEps, m)
    ensures e.evEbitda == EvEbitdaValue(met.ebitda, NetDebt(info, met), met.shares, m)
    // the DDM estimator discounts at 0.03 + 0.06 * beta, with the growth of line 163
    ensures e.ddm == DdmValue(met.eps, met.payout, CostOfEquity(met.beta),
                              DdmGrowth(met.roe, met.payout, SectorName(info)), e.trailingPe, e.forwardPe)
  {
    var pe := TrailingPeValue(met.eps, m);
    var fpe := ForwardPeValue(met.forwardEps, m);
    var growth := DdmGrowth(met.roe, met.payout, SectorName(info));
    Estimates(
      trailingPe := pe,
      forwardPe := fpe,
      book := met.bookValue * m.pb,
      revenue := RevenuePerShare(info) * m.ps,
      evEbitda := EvEbitdaValue(met.ebitda, NetDebt(info, met), met.shares, m),
      ddm := DdmValue(met.eps, met.payout, CostOfEquity(met.beta), growth, pe, fpe))
  }

  /** The weighted sum of line 183, without renormalisation. */
  function Blend(e: Estimates): real {
    WTrailingPe * e.trailingPe + WForwardPe * e.forwardPe + WBook * e.book
    + WRevenue * e.revenue + WEvEbitda * e.evEbitda + WDdm * e.ddm
  }

  /** `1 - 0.05 * (debt_to_equity / 100)` of line 185. */
  function LeverageFactor(debtToEquity: real): real {
    1.0 - 0.05 * (debtToEquity / 100.0)
  }

  /** Lines 184-186: divide by PEG when it is positive, apply leverage, then the haircut. */
  function Adjust(blend: real, peg: real, debtToEquity: real): real {
    var afterPeg := if peg > 0.0 then blend / peg else blend / 1.0;
    afterPeg * LeverageFactor(debtToEquity) * Haircut
  }

  /** `diff_percent` of line 189. */
  function DiffPercent(fair: real, price: real): (d: real)
    ensures price <= 0.0 ==> d == 0.0
    ensures price > 0.0 ==> d * price == (fair - price) * 100.0
    ensures d > 0.0 <==> price > 0.0 && fair > price
    ensures d < 0.0 <==> price > 0.0 && fair < price
  {
    if price > 0.0 then (fair - price) / price * 100.0 else 0.0
  }

  /** The unrounded fair price of one snapshot. */
  function FairPrice(info: Info, ebitda: Option<real>): real {
    var met := MetricsOf(info, ebitda);
    var m := Lookup(SectorName(info));
    Adjust(Blend(EstimatesOf(info, met, m)), m.peg, met.debtToEquity)
  }

  /**
   * `calculate_fair_price` on what the provider returned. A failed fetch or
   * an `info` without `regularMarketPrice` gives `None`; any other snapshot,
   * including one whose price is zero or negative, gives a record.
   */
  function CalculateFairPrice(ticker: string, fetched: FetchOutcome): (r: Option<ValuationResult>)
    ensures r.Some? <==> fetched.Fetched? && fetched.info.regularMarketPrice.Some?
    ensures r.Some? ==> r.value.ticker == ticker && r.value.sector == SectorName(fetched.info)
    ensures r.Some? ==> r.value.currentPrice == CurrentPrice(fetched.info)
    ensures r.Some? ==> r.value.fairPrice == FairPrice(fetched.info, fetched.ebitda)
    ensures r.Some? ==> r.value.diffNominal == r.value.fairPrice - r.value.currentPrice
    ensures r.Some? ==> r.value.diffPercent == DiffPercent(r.value.fairPrice, r.value.currentPrice)
    ensures r.Some? && r.value.currentPrice <= 0.0 ==> r.value.diffPercent == 0.0
    ensures r.Some? ==> (r.value.valueBet <==> r.value.currentPrice > 0.0 && r.value.fairPrice > r.value.currentPrice)
    ensures r.Some? ==> (r.value.valueBet <==> r.value.diffPercent > 0.0)
    ensures r.Some? ==> (r.value.beatProb, r.value.missProb) == (0, 0)
                        || (1 <= r.value.beatProb <= 5 && 1 <= r.value.missProb <= 5)
    // the scores are the scorer's on the snapshot's earnings history and the sector's growth
    ensures r.Some? ==> (r.value.beatProb, r.value.missProb)
                        == Scores(fetched.earnings, fetched.info.forwardEps, r.value.metrics.earningsGrowth,
                                  r.value.metrics.shortInterest, Lookup(SectorName(fetched.info)).growth)
    ensures r.Some? ==> r.value.metrics == MetricsOf(fetched.info, fetched.ebitda)
  {
    match fetched
    case FetchFailed => None
    case Fetched(info, ebitda, earnings) =>
      if info.regularMarketPrice.None? then None
      else
        var met := MetricsOf(info, ebitda);
        var price := CurrentPrice(info);
        var fair := FairPrice(info, ebitda);
        var diffPercent := DiffPercent(fair, price);
        var growth := Lookup(SectorName(info)).growth;
        var scores := Scores(earnings, info.forwardEps, met.earningsGrowth, met.shortInterest, growth);
        Some(ValuationResult(
          ticker := ticker,
          sector := SectorName(info),
          currentPrice := price,
          fairPrice := fair,
          diffNominal := fair - price,
          diffPercent := diffPercent,
          valueBet := diffPercent > 0.0,
          metrics := met,
          beatProb := scores.0,
          missProb := scores.1))
  }

  /** The six weights add up to 1.05: equal estimates are scaled up by 5%, not averaged. */
  lemma BlendIsNotRenormalised(x: real)
    ensures WTrailingPe + WForwardPe + WBook + WRevenue + WEvEbitda + WDdm == 1.05
    ensures Blend(Estimates(x, x, x, x, x, x)) == 1.05 * x
  {
  }

  /**
   * The leverage factor is positive below a debt-to-equity of 2000, zero at
   * 2000 and negative above it; so a positive blend turns into a negative
   * fair price once debt-to-equity exceeds 2000.
   */
  lemma LeverageSign(blend: real, peg: real, debtToEquity: real)
    ensures debtToEquity < 2000.0 ==> LeverageFactor(debtToEquity) > 0.0
    ensures debtToEquity == 2000.0 ==> Adjust(blend, peg, debtToEquity) == 0.0
    ensures blend > 0.0 && debtToEquity > 2000.0 ==> Adjust(blend, peg, debtToEquity) < 0.0
    ensures blend > 0.0 && debtToEquity < 2000.0 ==> Adjust(blend, peg, debtToEquity) > 0.0
  {
    var afterPeg := if peg > 0.0 then blend / peg else blend / 1.0;
    assert blend > 0.0 ==> afterPeg > 0.0;
    var f := LeverageFactor(debtToEquity);
    assert debtToEquity > 2000.0 ==> f < 0.0;
    if blend > 0.0 && debtToEquity > 2000.0 {
      assert afterPeg * f < 0.0;
    }
    if blend > 0.0 && debtToEquity < 2000.0 {
      assert afterPeg * f > 0.0;
    }
  }

  /** PEG divides the blend only when it is positive; otherwise the blend passes through. */
  lemma PegDivision(blend: real, peg: real, debtToEquity: real)
    ensures peg > 0.0 ==> Adjust(blend, peg, debtToEquity) * peg == blend * LeverageFactor(debtToEquity) * Haircut
    ensures peg <= 0.0 ==> Adjust(blend, peg, debtToEquity) == blend * LeverageFactor(debtToEquity) * Haircut
  {
  }

  /**
   * With only the trailing earnings known (every other estimator 0) and the
   * Gordon formula not applying, the DDM estimator is half the trailing one
   * and the blend is 0.325 of it rather than the trailing estimate itself.
   */
  lemma TrailingOnlyBlend(pe: real, eps: real, payout: real, costEquity: real, growth: real)
    requires !GordonApplies(costEquity, growth)
    ensures Blend(Estimates(pe, 0.0, 0.0, 0.0, 0.0, DdmValue(eps, payout, costEquity, growth, pe, 0.0))) == 0.325 * pe
  {
  }
}
