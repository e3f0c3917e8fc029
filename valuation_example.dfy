/**
 * A worked valuation: a Technology stock with trailing EPS 5, price 100 and
 * every other key absent, followed through the table, the estimators, the
 * blend and the adjustments.
 */
module ValuationExample {
  import opened Wrappers
  import opened Sectors
  import opened Fundamentals
  import opened EarningsScore
  import opened Valuation

  /** The Technology row of the table. */
  lemma TechnologyRow()
    ensures Lookup("Technology") == TechnologyRowValue
    ensures SectorGrowth("Technology") == 0.15
  {
    assert "Technology" in SectorTable;
  }

  /** A Technology snapshot with trailing EPS 5, price 100 and every other key absent. */
  function TechnologySnapshot(): Info {
    EmptyInfo.(regularMarketPrice := Some(100.0), currentPrice := Some(100.0),
               sector := Some("Technology"), trailingEps := Some(5.0))
  }

  /** The Technology row, as a value. */
  const TechnologyRowValue: SectorMultiples := SectorMultiples(64.15, 86.40, 11.12, 14.26, 34.48, 1.5, 0.15, 0.20)

  // The steps of the example below, kept apart so that each is a small proof.

  lemma TechnologyMetrics()
    ensures MetricsOf(TechnologySnapshot(), None)
            == Metrics(5.0, 0.0, 0.0, 1.0, 0.0, 0.0, 0.0, 0.0, 1.0, 0.0, 0.0, 0.0)
    ensures SectorName(TechnologySnapshot()) == "Technology"
    ensures RevenuePerShare(TechnologySnapshot()) == 0.0
    ensures CurrentPrice(TechnologySnapshot()) == 100.0
  {
  }

  lemma TechnologyEstimatesOf(info: Info, met: Metrics, m: SectorMultiples)
    requires m == TechnologyRowValue
    requires met == Metrics(5.0, 0.0, 0.0, 1.0, 0.0, 0.0, 0.0, 0.0, 1.0, 0.0, 0.0, 0.0)
    requires RevenuePerShare(info) == 0.0 && NetDebt(info, met) == 0.0
    requires DdmGrowth(0.0, 0.0, SectorName(info)) == 0.15
    ensures WellFormed(m)
    ensures EstimatesOf(info, met, m) == Estimates(320.75, 0.0, 0.0, 0.0, 0.0, 160.375)
  {
    assert WellFormed(m);
    assert !GordonApplies(CostOfEquity(1.0), 0.15);
    assert TrailingPeValue(5.0, m) == 320.75;
    assert ForwardPeValue(0.0, m) == 0.0;
  }

  /**
   * The estimators for `TechnologySnapshot`: 320.75 from trailing earnings,
   * nothing from the four others, and a DDM fallback of 160.375 (half the
   * trailing estimate), because the cost of equity 0.09 does not exceed the
   * sector growth 0.15; their blend is 104.24375.
   */
  lemma TechnologyEstimates()
    ensures EstimatesOf(TechnologySnapshot(), MetricsOf(TechnologySnapshot(), None), Lookup("Technology"))
            == Estimates(320.75, 0.0, 0.0, 0.0, 0.0, 160.375)
    ensures Blend(Estimates(320.75, 0.0, 0.0, 0.0, 0.0, 160.375)) == 104.24375
  {
    TechnologyRow();
    TechnologyMetrics();
    var info := TechnologySnapshot();
    var met := MetricsOf(info, None);
    assert NetDebt(info, met) == 0.0;
    assert DdmGrowth(0.0, 0.0, "Technology") == 0.15;
    TechnologyEstimatesOf(info, met, Lookup("Technology"));
  }

  /** The record of a priced snapshot whose fair price is known. */
  lemma PricedRecord(ticker: string, info: Info, earnings: EarningsDates, fair: real)
    requires info.regularMarketPrice.Some? && CurrentPrice(info) == 100.0
    requires FairPrice(info, None) == fair
    ensures var r := CalculateFairPrice(ticker, Fetched(info, None, earnings));
            r.Some? && r.value.fairPrice == fair && r.value.diffPercent == fair - 100.0
            && (r.value.valueBet <==> fair > 100.0)
  {
  }

  /**
   * For `TechnologySnapshot` the blend divided by PEG 1.5 and cut by 5% is
   * about 66.02, so the stock is about 34% below its price and not a value bet.
   */
  lemma TechnologyExample(info: Info)
    requires info == TechnologySnapshot()
    ensures var r := CalculateFairPrice("T", Fetched(info, None, NoAttribute));
            && r.Some?
            && r.value.fairPrice == 104.24375 / 1.5 * 0.95
            && 66.02 < r.value.fairPrice < 66.03
            && !r.value.valueBet
            && -33.98 < r.value.diffPercent < -33.97
  {
    TechnologyFair(info);
    TechnologyMetrics();
    PricedRecord("T", info, NoAttribute, 104.24375 / 1.5 * 0.95);
  }

  /** The fair price of `TechnologySnapshot`. */
  lemma TechnologyFair(info: Info)
    requires info == TechnologySnapshot()
    ensures FairPrice(info, None) == 104.24375 / 1.5 * 0.95
  {
    TechnologyEstimates();
    TechnologyRow();
    TechnologyMetrics();
    TechnologyFairPrice(info, MetricsOf(info, None));
  }

  /** From the blend to the fair price: PEG 1.5, no leverage, the 5% haircut. */
  lemma TechnologyFairPrice(info: Info, met: Metrics)
    requires met == MetricsOf(info, None) && met.debtToEquity == 0.0
    requires SectorName(info) == "Technology" && Lookup("Technology") == TechnologyRowValue
    requires Blend(EstimatesOf(info, met, TechnologyRowValue)) == 104.24375
    ensures FairPrice(info, None) == 104.24375 / 1.5 * 0.95
  {
    assert Adjust(104.24375, 1.5, 0.0) == 104.24375 / 1.5 * 0.95;
  }
}
