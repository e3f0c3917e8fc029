/**
 * The fundamental snapshot of one security as the provider hands it over:
 * the fields of its `info` dictionary that the valuation reads (app.py
 * lines 111-169), each present or absent, and the metrics read from them
 * with the code's defaults.
 */
module Fundamentals {
  import opened Wrappers

  /** The keys of `info` that the valuation reads; `None` is a missing key. */
  datatype Info = Info(
    regularMarketPrice: Option<real>,
    currentPrice: Option<real>,
    sector: Option<string>,
    trailingEps: Option<real>,
    forwardEps: Option<real>,
    returnOnEquity: Option<real>,
    beta: Option<real>,
    debtToEquity: Option<real>,
    payoutRatio: Option<real>,
    bookValue: Option<real>,
    sharesOutstanding: Option<real>,
    totalDebt: Option<real>,
    totalCash: Option<real>,
    revenuePerShare: Option<real>,
    earningsGrowth: Option<real>,
    shortPercentOfFloat: Option<real>)

  /** An `info` dictionary without any of these keys. */
  const EmptyInfo: Info :=
    Info(None, None, None, None, None, None, None, None, None, None, None, None, None, None, None, None)

  /** The metrics the valuation arithmetic uses, after defaults are applied. */
  datatype Metrics = Metrics(
    eps: real,
    forwardEps: real,
    roe: real,
    beta: real,
    debtToEquity: real,
    payout: real,
    bookValue: real,
    ebitda: real,
    shares: real,
    totalDebt: real,
    earningsGrowth: real,
    shortInterest: real)

  /**
   * The `metrics` dictionary (lines 111-156) restricted to what the
   * valuation reads. `ebitda` is the `EBITDA` entry of the latest financials
   * row, absent when the financials are empty.
   */
  function MetricsOf(info: Info, ebitda: Option<real>): (m: Metrics)
    // a present key keeps its value
    ensures info.trailingEps.Some? ==> m.eps == info.trailingEps.value
    ensures info.forwardEps.Some? ==> m.forwardEps == info.forwardEps.value
    ensures info.returnOnEquity.Some? ==> m.roe == info.returnOnEquity.value
    ensures info.beta.Some? ==> m.beta == info.beta.value
    ensures info.debtToEquity.Some? ==> m.debtToEquity == info.debtToEquity.value
    ensures info.payoutRatio.Some? ==> m.payout == info.payoutRatio.value
    ensures info.bookValue.Some? ==> m.bookValue == info.bookValue.value
    ensures ebitda.Some? ==> m.ebitda == ebitda.value
    ensures info.sharesOutstanding.Some? ==> m.shares == info.sharesOutstanding.value
    ensures info.totalDebt.Some? ==> m.totalDebt == info.totalDebt.value
    ensures info.earningsGrowth.Some? ==> m.earningsGrowth == info.earningsGrowth.value
    ensures info.shortPercentOfFloat.Some? ==> m.shortInterest == info.shortPercentOfFloat.value
    // an absent key defaults to 0, except beta and shares outstanding, which default to 1
    ensures info.beta.None? ==> m.beta == 1.0
    ensures info.sharesOutstanding.None? ==> m.shares == 1.0
    ensures info.trailingEps.None? ==> m.eps == 0.0
    ensures info.forwardEps.None? ==> m.forwardEps == 0.0
    ensures info.returnOnEquity.None? ==> m.roe == 0.0
    ensures info.debtToEquity.None? ==> m.debtToEquity == 0.0
    ensures info.payoutRatio.None? ==> m.payout == 0.0
    ensures info.bookValue.None? ==> m.bookValue == 0.0
    ensures ebitda.None? ==> m.ebitda == 0.0
    ensures info.totalDebt.None? ==> m.totalDebt == 0.0
    ensures info.earningsGrowth.None? ==> m.earningsGrowth == 0.0
    ensures info.shortPercentOfFloat.None? ==> m.shortInterest == 0.0
  {
    Metrics(
      eps := info.trailingEps.GetOr(0.0),
      forwardEps := info.forwardEps.GetOr(0.0),
      roe := info.returnOnEquity.GetOr(0.0),
      beta := info.beta.GetOr(1.0),
      debtToEquity := info.debtToEquity.GetOr(0.0),
      payout := info.payoutRatio.GetOr(0.0),
      bookValue := info.bookValue.GetOr(0.0),
      ebitda := ebitda.GetOr(0.0),
      shares := info.sharesOutstanding.GetOr(1.0),
      totalDebt := info.totalDebt.GetOr(0.0),
      earningsGrowth := info.earningsGrowth.GetOr(0.0),
      shortInterest := info.shortPercentOfFloat.GetOr(0.0))
  }

  /** `info.get('sector', 'Other')` (line 171). */
  function SectorName(info: Info): string {
    info.sector.GetOr("Other")
  }

  /** `info.get('currentPrice', 0)` (line 169). */
  function CurrentPrice(info: Info): real {
    info.currentPrice.GetOr(0.0)
  }

  /** Total debt less `info.get('totalCash', 0)` (line 167). */
  function NetDebt(info: Info, m: Metrics): real {
    m.totalDebt - info.totalCash.GetOr(0.0)
  }

  /** `info.get('revenuePerShare', 0)` (line 168). */
  function RevenuePerShare(info: Info): real {
    info.revenuePerShare.GetOr(0.0)
  }
}
