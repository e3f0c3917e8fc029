/**
 * Option scanning for one ticker (app.py lines 253-297): the Black-Scholes
 * guard and call/put dispatch, the volatility default, the divergence
 * percentage, and the loop that prices every quote of the first three
 * expirations.
 */
module Options {
  import opened Wrappers

  /**
   * The closed-form Black-Scholes prices of a call and of a put as functions
   * of (S, K, T, r, sigma). They use ln, exp, sqrt and the normal CDF, which
   * this model leaves uninterpreted.
   */
  datatype ClosedForm = ClosedForm(
    call: (real, real, real, real, real) -> real,
    put: (real, real, real, real, real) -> real)

  /** The two option types the scanner iterates over, calls first (line 279). */
  datatype OptionKind = Call | Put

  /** The `option_type` string passed to `black_scholes`. */
  function KindName(kind: OptionKind): string {
    match kind
    case Call => "call"
    case Put => "put"
  }

  /** `opt_type.upper()`, the `Type` column of a record (line 287). */
  function KindLabel(kind: OptionKind): string {
    match kind
    case Call => "CALL"
    case Put => "PUT"
  }

  /**
   * `black_scholes` (lines 253-259): exactly 0 for a non-positive time or
   * volatility; otherwise the call formula for the type "call" and the put
   * formula for any other type string.
   */
  function BlackScholes(s: real, k: real, t: real, r: real, sigma: real, optionType: string, f: ClosedForm): (price: real)
    ensures t <= 0.0 || sigma <= 0.0 ==> price == 0.0
    ensures t > 0.0 && sigma > 0.0 && optionType == "call" ==> price == f.call(s, k, t, r, sigma)
    ensures t > 0.0 && sigma > 0.0 && optionType != "call" ==> price == f.put(s, k, t, r, sigma)
  {
    if t <= 0.0 || sigma <= 0.0 then 0.0
    else if optionType == "call" then f.call(s, k, t, r, sigma)
    else f.put(s, k, t, r, sigma)
  }

  /**
   * What the quarterly earnings history gave `calculate_earnings_vol`: an
   * error, or the number of period-over-period changes and their annualised
   * standard deviation.
   */
  datatype EarningsHistory = HistoryFailed | Changes(count: nat, annualizedStd: real)

  /** `calculate_earnings_vol` (lines 261-267): 0.2 on an error or with fewer than four changes. */
  function EarningsVol(h: EarningsHistory): (sigma: real)
    ensures h.HistoryFailed? || h.count < 4 ==> sigma == 0.2
    ensures h.Changes? && h.count >= 4 ==> sigma == h.annualizedStd
  {
    match h
    case HistoryFailed => 0.2
    case Changes(count, std) => if count >= 4 then std else 0.2
  }

  /** The divergence of line 284: guarded to 0 for a non-positive market price. */
  function ValueDiff(theo: real, market: real): (d: real)
    ensures market <= 0.0 ==> d == 0.0
    ensures market > 0.0 ==> d * market == (theo - market) * 100.0
    ensures d > 0.0 <==> market > 0.0 && theo > market
  {
    if market > 0.0 then (theo - market) / market * 100.0 else 0.0
  }

  /** One row of a chain: the strike and the last traded price. */
  datatype Quote = Quote(strike: real, lastPrice: real)

  datatype Chain = Chain(calls: seq<Quote>, puts: seq<Quote>)

  /**
   * One listed expiration: its date string, the year fraction to it (computed
   * from the clock by the caller), and its chain, `None` when fetching or
   * parsing it raised.
   */
  datatype Expiry = Expiry(date: string, years: real, chain: Option<Chain>)

  /**
   * What the provider gave for one ticker: `info['currentPrice']`, the
   * earnings history for the volatility, and the list of expirations,
   * `None` when reading it raised.
   */
  datatype OptionsInput = OptionsInput(
    currentPrice: Option<real>,
    history: EarningsHistory,
    expirations: Option<seq<Expiry>>)

  /** One record of `options_data` (lines 285-294). */
  datatype OptionRecord = OptionRecord(
    ticker: string,
    kind: string,
    strike: real,
    expiration: string,
    marketPrice: real,
    theoPrice: real,
    valuePct: real,
    vol: real)

  /** The pricing context shared by every row of one ticker. */
  datatype Pricing = Pricing(ticker: string, spot: real, rate: real, sigma: real, formula: ClosedForm)

  /** The record for one quote (lines 281-294). */
  function RecordFor(p: Pricing, e: Expiry, kind: OptionKind, q: Quote): (o: OptionRecord)
    ensures o.ticker == p.ticker && o.kind == KindLabel(kind) && o.expiration == e.date && o.vol == p.sigma
    ensures o.strike == q.strike && o.marketPrice == q.lastPrice
    ensures e.years <= 0.0 || p.sigma <= 0.0 ==> o.theoPrice == 0.0
    // a call row is priced with the call formula and a put row with the put formula
    ensures e.years > 0.0 && p.sigma > 0.0 && kind == Call ==>
      o.theoPrice == p.formula.call(p.spot, q.strike, e.years, p.rate, p.sigma)
    ensures e.years > 0.0 && p.sigma > 0.0 && kind == Put ==>
      o.theoPrice == p.formula.put(p.spot, q.strike, e.years, p.rate, p.sigma)
    ensures q.lastPrice <= 0.0 ==> o.valuePct == 0.0
    ensures q.lastPrice > 0.0 ==> o.valuePct * q.lastPrice == (o.theoPrice - q.lastPrice) * 100.0
    ensures o.valuePct > 0.0 <==> q.lastPrice > 0.0 && o.theoPrice > q.lastPrice
  {
    var theo := BlackScholes(p.spot, q.strike, e.years, p.rate, p.sigma, KindName(kind), p.formula);
    OptionRecord(p.ticker, KindLabel(kind), q.strike, e.date, q.lastPrice, theo, ValueDiff(theo, q.lastPrice), p.sigma)
  }

  /** The records for the rows of one frame, in row order. */
  function QuoteRows(p: Pricing, e: Expiry, kind: OptionKind, quotes: seq<Quote>): (rows: seq<OptionRecord>)
    ensures |rows| == |quotes|
    ensures forall i :: 0 <= i < |quotes| ==> rows[i] == RecordFor(p, e, kind, quotes[i])
  {
    if quotes == [] then []
    else QuoteRows(p, e, kind, quotes[..|quotes| - 1]) + [RecordFor(p, e, kind, quotes[|quotes| - 1])]
  }

  /** Calls, then puts, of one fetched chain (line 279). */
  function ChainRows(p: Pricing, e: Expiry, c: Chain): seq<OptionRecord> {
    QuoteRows(p, e, Call, c.calls) + QuoteRows(p, e, Put, c.puts)
  }

  predicate ChainsFetched(exps: seq<Expiry>) {
    forall i :: 0 <= i < |exps| ==> exps[i].chain.Some?
  }

  /** The records of a run of expirations whose chains were all fetched. */
  function AllRows(p: Pricing, exps: seq<Expiry>): seq<OptionRecord>
    requires ChainsFetched(exps)
  {
    if exps == [] then []
    else AllRows(p, exps[..|exps| - 1]) + ChainRows(p, exps[|exps| - 1], exps[|exps| - 1].chain.value)
  }

  /** `stock.options[:3]`. */
  function FirstThree(exps: seq<Expiry>): (used: seq<Expiry>)
    ensures |used| <= 3 && used <= exps
    ensures |exps| >= 3 ==> |used| == 3
    ensures |exps| < 3 ==> used == exps
  {
    if |exps| <= 3 then exps else exps[..3]
  }

  /** The pricing context of a ticker: spot `info.get('currentPrice', 0)` and the volatility estimate. */
  function PricingFor(ticker: string, input: OptionsInput, rate: real, formula: ClosedForm): Pricing {
    Pricing(ticker, input.currentPrice.GetOr(0.0), rate, EarningsVol(input.history), formula)
  }

  /**
   * What `get_options_value` returns: the records of the first three
   * expirations, or nothing at all when reading the expirations or any one of
   * their chains raised (records already built are dropped with the frame).
   */
  function OptionsValue(ticker: string, input: OptionsInput, rate: real, formula: ClosedForm): seq<OptionRecord> {
    match input.expirations
    case None => []
    case Some(exps) =>
      var used := FirstThree(exps);
      if ChainsFetched(used) then AllRows(PricingFor(ticker, input, rate, formula), used) else []
  }

  /** Appends the records of one frame's rows, in order (the innermost loop, lines 280-294). */
  method AppendQuoteRows(rows: seq<OptionRecord>, p: Pricing, e: Expiry, kind: OptionKind, quotes: seq<Quote>)
    returns (out: seq<OptionRecord>)
    ensures out == rows + QuoteRows(p, e, kind, quotes)
  {
    out := rows;
    var j := 0;
    while j < |quotes|
      invariant 0 <= j <= |quotes|
      invariant out == rows + QuoteRows(p, e, kind, quotes[..j])
    {
      assert quotes[..j + 1][..j] == quotes[..j];
      out := out + [RecordFor(p, e, kind, quotes[j])];
      j := j + 1;
    }
    assert quotes[..j] == quotes;
  }

  /** The two frames of one chain, calls first (line 279). */
  method AppendChainRows(rows: seq<OptionRecord>, p: Pricing, e: Expiry, c: Chain) returns (out: seq<OptionRecord>)
    ensures out == rows + ChainRows(p, e, c)
  {
    out := AppendQuoteRows(rows, p, e, Call, c.calls);
    out := AppendQuoteRows(out, p, e, Put, c.puts);
  }

  /** `get_options_value` (lines 269-297). */
  method GetOptionsValue(ticker: string, input: OptionsInput, rate: real, formula: ClosedForm)
    returns (rows: seq<OptionRecord>)
    ensures rows == OptionsValue(ticker, input, rate, formula)
  {
    if input.expirations.None? {
      return [];
    }
    var p := PricingFor(ticker, input, rate, formula);
    var used := FirstThree(input.expirations.value);
    rows := [];
    var i := 0;
    while i < |used|
      invariant 0 <= i <= |used|
      invariant ChainsFetched(used[..i])
      invariant rows == AllRows(p, used[..i])
    {
      var e := used[i];
      if e.chain.None? {
        ChainMissing(ticker, input, rate, formula, i);
        return [];
      }
      rows := AppendChainRows(rows, p, e, e.chain.value);
      AllRowsStep(p, used, i);
      i := i + 1;
    }
    AllChainsFetched(ticker, input, rate, formula, rows, i);
  }

  /** A chain of the first three that could not be read empties the result. */
  lemma ChainMissing(ticker: string, input: OptionsInput, rate: real, formula: ClosedForm, i: nat)
    requires input.expirations.Some?
    requires i < |FirstThree(input.expirations.value)| && FirstThree(input.expirations.value)[i].chain.None?
    ensures OptionsValue(ticker, input, rate, formula) == []
  {
  }

  /** Once every chain of the first three has been read, the result is all their records. */
  lemma AllChainsFetched(ticker: string, input: OptionsInput, rate: real, formula: ClosedForm,
                         rows: seq<OptionRecord>, i: nat)
    requires input.expirations.Some?
    requires i == |FirstThree(input.expirations.value)|
    requires ChainsFetched(FirstThree(input.expirations.value)[..i])
    requires rows == AllRows(PricingFor(ticker, input, rate, formula), FirstThree(input.expirations.value)[..i])
    ensures rows == OptionsValue(ticker, input, rate, formula)
  {
    assert FirstThree(input.expirations.value)[..i] == FirstThree(input.expirations.value);
  }

  /** One more fetched expiration appends its chain's records. */
  lemma AllRowsStep(p: Pricing, exps: seq<Expiry>, i: nat)
    requires i < |exps| && ChainsFetched(exps[..i]) && exps[i].chain.Some?
    ensures ChainsFetched(exps[..i + 1])
    ensures AllRows(p, exps[..i + 1]) == AllRows(p, exps[..i]) + ChainRows(p, exps[i], exps[i].chain.value)
  {
    assert exps[..i + 1][..i] == exps[..i];
  }

  /** The number of quotes in a run of fetched chains. */
  function QuoteCount(exps: seq<Expiry>): nat
    requires ChainsFetched(exps)
  {
    if exps == [] then 0
    else QuoteCount(exps[..|exps| - 1]) + |exps[|exps| - 1].chain.value.calls| + |exps[|exps| - 1].chain.value.puts|
  }

  /** What every record of `AllRows` satisfies. */
  ghost predicate WellPriced(p: Pricing, exps: seq<Expiry>, o: OptionRecord) {
    && o.ticker == p.ticker
    && (o.kind == "CALL" || o.kind == "PUT")
    && o.vol == p.sigma
    && (o.marketPrice <= 0.0 ==> o.valuePct == 0.0)
    && (o.valuePct > 0.0 <==> o.marketPrice > 0.0 && o.theoPrice > o.marketPrice)
    && (p.sigma <= 0.0 ==> o.theoPrice == 0.0)
    && exists k :: 0 <= k < |exps| && o.expiration == exps[k].date
  }

  /**
   * One record per quote, and every record carries the ticker, a CALL or PUT
   * type, the volatility used, a guarded divergence and the date of one of
   * the expirations it came from.
   */
  lemma {:induction false} AllRowsProperties(p: Pricing, exps: seq<Expiry>)
    requires ChainsFetched(exps)
    ensures |AllRows(p, exps)| == QuoteCount(exps)
    ensures forall o :: o in AllRows(p, exps) ==> WellPriced(p, exps, o)
  {
    if exps != [] {
      var init := exps[..|exps| - 1];
      var last := exps[|exps| - 1];
      AllRowsProperties(p, init);
      var c := last.chain.value;
      forall o | o in AllRows(p, exps) ensures WellPriced(p, exps, o) {
        if o in AllRows(p, init) {
          assert WellPriced(p, init, o);
          var k :| 0 <= k < |init| && o.expiration == init[k].date;
          assert exps[k] == init[k];
        } else {
          assert o in ChainRows(p, last, c);
          assert exps[|exps| - 1] == last;
          if o in QuoteRows(p, last, Call, c.calls) {
            var i :| 0 <= i < |c.calls| && o == QuoteRows(p, last, Call, c.calls)[i];
          } else {
            assert o in QuoteRows(p, last, Put, c.puts);
            var i :| 0 <= i < |c.puts| && o == QuoteRows(p, last, Put, c.puts)[i];
          }
        }
      }
    }
  }

  /**
   * The scan of one ticker: nothing when the expirations or one of the first
   * three chains could not be read; otherwise one well-priced record per
   * quote of the first three expirations.
   */
  lemma OptionsValueProperties(ticker: string, input: OptionsInput, rate: real, formula: ClosedForm)
    ensures input.expirations.None? ==> OptionsValue(ticker, input, rate, formula) == []
    ensures input.expirations.Some? && !ChainsFetched(FirstThree(input.expirations.value)) ==>
      OptionsValue(ticker, input, rate, formula) == []
    ensures input.expirations.Some? && ChainsFetched(FirstThree(input.expirations.value)) ==>
      var used := FirstThree(input.expirations.value);
      && |OptionsValue(ticker, input, rate, formula)| == QuoteCount(used)
      && forall o :: o in OptionsValue(ticker, input, rate, formula) ==>
           WellPriced(PricingFor(ticker, input, rate, formula), used, o)
  {
    if input.expirations.Some? && ChainsFetched(FirstThree(input.expirations.value)) {
      AllRowsProperties(PricingFor(ticker, input, rate, formula), FirstThree(input.expirations.value));
    }
  }
}
