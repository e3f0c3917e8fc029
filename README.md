# Stock and options analyzer — a Dafny model

`app.py` is a single-page stock screener. It assembles a universe of tickers
from four index listings (S&P 500, NASDAQ-100, Hang Seng, Nikkei 225), each
with a static fallback list. For every ticker it computes a "fair price" by
blending six valuation estimators driven by a table of sector multiples, and
it scores the chance of an earnings beat or miss on a 1-5 scale. It also
prices the listed options of a ticker with Black-Scholes and reports how far
the market price is from the theoretical one. The batch view values every
ticker, sorts by `Diff %`, filters the tickers that report earnings within
thirty days, and lists the best-valued options of the first fifty tickers.

This project models the deterministic part of that page. The network, the
market-data library and the UI are left out: what they return comes in as
parameters.

- `sectors.dfy` (`Sectors`): the multiples table, the identity sector
  mapping and the fall-back to the `Other` row.
- `fundamentals.dfy` (`Fundamentals`): the `info` snapshot as a record of
  optional fields (`dict.get` semantics) and the metrics with the code's
  defaults. Every metric defaults to 0, except `Beta` and
  `Shares Outstanding`, which default to 1.
- `valuation.dfy` (`Valuation`): the six guarded estimators, the blend
  (weights summing to 1.05), the PEG, leverage and haircut adjustments,
  `diff_percent` and the valuation record.
- `valuation_example.dfy` (`ValuationExample`): a Technology stock with EPS
  5 and price 100, followed through to its fair price of about 66.02.
- `scoring.dfy` (`EarningsScore`): the beat rate, the ESP proxy, the two
  clamped rule accumulators and the `(0, 0)` exception result.
- `options.dfy` (`Options`): the Black-Scholes guard and call/put dispatch
  with the closed-form formulas left uninterpreted, the volatility default,
  the guarded `Value %`, and `get_options_value`'s loops as methods proved
  against a specification function.
- `universe.dfy` (`Universe`), `listings.dfy` (`Listings`): source
  outcomes, the Hang Seng code formatting, the Nikkei filter, the fallback
  lists and the de-duplicating merge.
- `tables.dfy` (`Tables`): the frame operations the page uses (row filter,
  descending sort, concatenation).
- `batch.dfy` (`Batch`): the "Load & Sort All" loop, the upcoming-earnings
  filter and view, and the top-value-options table.

In a few places the code does less than one might expect; the model follows the code:

- The estimator weights are not renormalised. They sum to 1.05, so equal
  estimates come out 5% higher.
- A snapshot whose current price is zero or negative is still valued. Only
  its `Diff %` is forced to 0, so it is never a value bet.
- A listings source that is reached but yields nothing contributes nothing.
  Only an exception brings in the fallback list.
- The batch runs one ticker after the other, with no pool, timeout or
  cancellation.
- When no ticker can be valued, the collected frame has no `Diff %` column
  and sorting it raises: the upcoming-earnings view and the options table
  are never reached.
- The upcoming-earnings filter looks for `Earnings Date` among the
  calendar's row labels (app.py:305) and then reads it as a column
  (app.py:306). A calendar must carry the label in both places; one that
  holds it in only one of them raises or is skipped, and the ticker is never
  reported.

## Model

| member | source | states |
|---|---|---|
| Sectors.MappingIsIdentity | app.py:29-42 | the mapping knows exactly the table's sectors and sends each to itself |
| Sectors.TableWellFormed | app.py:13-26 | the table has an `Other` row, and every row's multiples are positive |
| Sectors.MappedName | app.py:172 | the mapped name is always a table sector: the sector itself when known, `Other` otherwise |
| Sectors.Lookup | app.py:172 | the lookup never fails: a known sector gets its row, any other name the `Other` row, and every row is positive |
| Sectors.SectorGrowth | app.py:163 | the fallback growth is the mapped sector's table growth and is positive, so the 0.05 default never applies |
| Fundamentals.MetricsOf | app.py:111-156 | each of the twelve metrics the arithmetic reads keeps the value of its key when the key is present; a missing key gives 0, except `Beta` and `Shares Outstanding`, which give 1 |
| Fundamentals.SectorName | app.py:171 | `info.get('sector', 'Other')` |
| Fundamentals.CurrentPrice | app.py:169 | `info.get('currentPrice', 0)` |
| Fundamentals.NetDebt | app.py:167 | total debt less `info.get('totalCash', 0)` |
| Fundamentals.RevenuePerShare | app.py:168 | `info.get('revenuePerShare', 0)` |
| Valuation.TrailingPeValue | app.py:175 | the trailing-PE estimate is 0 unless EPS is positive, and then it is positive and EPS times the sector multiple |
| Valuation.ForwardPeValue | app.py:176 | the forward-PE estimate is 0 unless forward EPS is positive, and then it is positive and forward EPS times the multiple |
| Valuation.EvEbitdaValue | app.py:179 | the EV/EBITDA estimate is never negative, is 0 without shares, and is the per-share surplus over net debt when that is non-negative |
| Valuation.DdmValue | app.py:163-180 | when cost of equity > growth > 0 the denominator is positive and the Gordon equation holds, whatever the sign of EPS; otherwise the estimate is the mean of the two PE estimates |
| Valuation.CostOfEquity | app.py:164 | the cost of equity is 0.03 + 0.06 * beta |
| Valuation.DdmGrowth | app.py:163 | the growth is `(1 - payout) * ROE` when ROE is positive, and the sector's table growth otherwise |
| Valuation.GordonApplies | app.py:180 | the chained guard `cost_equity > growth > 0` |
| Valuation.EstimatesOf | app.py:158-180 | the six estimates are the trailing-PE, forward-PE, book, revenue and EV/EBITDA estimators on the snapshot's metrics, and the DDM estimator with cost of equity 0.03 + 0.06 * beta and the growth of line 163; so the PE estimates are non-zero only for positive earnings and the EV estimate is non-negative |
| Valuation.DiffPercent | app.py:188-189 | `Diff %` is 0 for a non-positive price and otherwise solves `d * price = (fair - price) * 100`; it is positive exactly when the price is positive and below the fair price |
| Valuation.Blend | app.py:183 | the fixed-weight sum of the six estimates, weights 0.3, 0.25, 0.15, 0.15, 0.15 and 0.05 |
| Valuation.LeverageFactor | app.py:185 | `1 - 0.05 * (D/E / 100)` |
| Valuation.Adjust | app.py:184-186 | the blend divided by PEG when PEG is positive, times the leverage factor, times 0.95 |
| Valuation.FairPrice | app.py:158-186 | the adjusted blend of the estimates of the snapshot's metrics under its sector's multiples |
| Valuation.CalculateFairPrice | app.py:99-210 | a record exists exactly when the snapshot was fetched and has `regularMarketPrice`; it carries the ticker, sector, price, the metrics and the fair price; its `Diff %` is `DiffPercent` of fair and current price, `Value Bet` holds exactly when that is positive, and the two scores are the scorer's on the snapshot's earnings history and the sector's growth, (0, 0) or both in 1..5 |
| Valuation.BlendIsNotRenormalised | app.py:183 | the weights sum to 1.05, so six equal estimates blend to 1.05 times the estimate |
| Valuation.LeverageSign | app.py:185 | the leverage factor is positive below debt-to-equity 2000 and zero at 2000; a positive blend gives a negative fair price above 2000 |
| Valuation.PegDivision | app.py:184-186 | the blend is divided by PEG only when PEG is positive, then scaled by leverage and the 0.95 haircut |
| Valuation.TrailingOnlyBlend | app.py:180-183 | with only the trailing estimate non-zero and the Gordon formula not applying, the blend is 0.325 times the trailing estimate |
| ValuationExample.TechnologyRow | app.py:14 | the Technology row has the listed multiples and growth 0.15 |
| ValuationExample.TechnologyMetrics | app.py:111-169 | the example snapshot's metrics are EPS 5, beta 1, one share and zeros elsewhere; its price is 100 |
| ValuationExample.TechnologyEstimatesOf | app.py:174-180 | with Technology multiples and EPS 5 the estimates are 320.75, 0, 0, 0, 0 and the DDM fallback 160.375 |
| ValuationExample.TechnologyEstimates | app.py:174-183 | the example's estimates are as above and blend to 104.24375 |
| ValuationExample.TechnologyFairPrice | app.py:184-186 | a Technology blend of 104.24375 with no leverage becomes 104.24375 / 1.5 * 0.95 |
| ValuationExample.TechnologyFair | app.py:158-186 | the example snapshot's fair price is 104.24375 / 1.5 * 0.95 |
| ValuationExample.PricedRecord | app.py:188-198 | at price 100 the record carries the fair price, `Diff %` equals fair - 100, and it is a value bet exactly when fair > 100 |
| ValuationExample.TechnologyExample | app.py:158-198 | the example's fair price lies in (66.02, 66.03), it is not a value bet, and its `Diff %` lies in (-33.98, -33.97) |
| EarningsScore.BeatCount | app.py:215 | at most one beat per row, and every row beats exactly when the count equals the number of rows |
| EarningsScore.Beats | app.py:215 | a row beats when both EPS cells are numbers and the reported one is strictly larger; a comparison with NaN is false |
| EarningsScore.HasHistory | app.py:214 | the frame has rows and both the `Reported EPS` and `EPS Estimate` columns |
| EarningsScore.BeatRate | app.py:214-217 | the beat rate is in [0, 1], is 0.5 without a usable history, and is otherwise the fraction of rows that beat |
| EarningsScore.Esp | app.py:220-225 | ESP is 0 when the consensus is 0, NaN when either operand is NaN and the consensus is not 0, and otherwise a number: the surprise over the consensus in percent |
| EarningsScore.GatherSignals | app.py:213-229 | gathering fails exactly when `earnings_dates` is `None` or is a non-empty frame without `EPS Estimate`; otherwise the beat rate is `BeatRate` of the frame (0.5 without history), and ESP is 0 without rows and otherwise `Esp` of the first row's estimate against `forwardEps`, or against that estimate when the key is missing |
| EarningsScore.Clamp | app.py:238-247 | the result is in 1..5, equals its input inside that range and saturates outside it |
| EarningsScore.RawBeat | app.py:231-237 | the beat accumulator: 2 or 1 for a beat rate above 0.7 or 0.5, and 1 each for ESP above 5, growth above 0.1, short interest below 5 and sector growth above 0.1 |
| EarningsScore.RawMiss | app.py:240-246 | the miss accumulator: 2 or 1 for a beat rate below 0.3 or 0.5, and 1 each for ESP below -5, negative growth, short interest above 10 and sector growth below 0.05 |
| EarningsScore.BeatRateBeatPoints | app.py:232-233 | 2 above 0.7, 1 above 0.5, else 0 |
| EarningsScore.EspBeatPoints | app.py:234 | 1 when ESP is a number above 5 |
| EarningsScore.GrowthBeatPoints | app.py:235 | 1 when earnings growth is above 0.1 |
| EarningsScore.ShortBeatPoints | app.py:236 | 1 when short interest is below 5 |
| EarningsScore.SectorBeatPoints | app.py:237 | 1 when sector growth is above 0.1 |
| EarningsScore.BeatRateMissPoints | app.py:241-242 | 2 below 0.3, 1 below 0.5, else 0 |
| EarningsScore.EspMissPoints | app.py:243 | 1 when ESP is a number below -5 |
| EarningsScore.GrowthMissPoints | app.py:244 | 1 when earnings growth is negative |
| EarningsScore.ShortMissPoints | app.py:245 | 1 when short interest is above 10 |
| EarningsScore.SectorMissPoints | app.py:246 | 1 when sector growth is below 0.05 |
| EarningsScore.Scores | app.py:212-251 | the result is (0, 0) exactly on the exception path, and otherwise both scores are in 1..5 |
| EarningsScore.SignalsAreDisjoint | app.py:231-247 | each signal adds to at most one of the two accumulators, the raw scores sum to at most 6, and a beat rate of 0.5 adds to neither |
| EarningsScore.BeatRateMonotone | app.py:232-247 | a higher beat rate never lowers the beat score and never raises the miss score |
| EarningsScore.AllBeatsGiveTopRate | app.py:215-233 | a history where every row beats gives beat rate 1, two beat points and no miss points |
| Options.BlackScholes | app.py:253-259 | the price is exactly 0 when T or sigma is non-positive; otherwise the call formula for `'call'` and the put formula for any other type |
| Options.EarningsVol | app.py:261-267 | the volatility is 0.2 after an error or with fewer than four changes, and the annualised deviation otherwise |
| Options.ValueDiff | app.py:284 | `Value %` is 0 when the market price is non-positive; otherwise it is positive exactly when the theoretical price exceeds the market price |
| Options.RecordFor | app.py:281-293 | a record carries the ticker, the upper-case type, the strike, expiration, market price and volatility; its theoretical price is 0 when T or sigma is non-positive and otherwise the call formula for a call row and the put formula for a put row; its `Value %` is 0 for a non-positive market price and otherwise solves `v * market = (theo - market) * 100` |
| Options.KindName | app.py:279 | the `opt_type` string passed to `black_scholes`, `'call'` or `'put'` |
| Options.KindLabel | app.py:287 | `opt_type.upper()`, `CALL` or `PUT` |
| Options.QuoteRows | app.py:280-294 | one record per quote, in order, each priced with the frame's type |
| Options.ChainRows | app.py:279-294 | the records of one chain: its calls, then its puts |
| Options.AllRows | app.py:274-294 | the records of a run of fetched expirations, expiration after expiration |
| Options.PricingFor | app.py:272-273 | the spot is `currentPrice` or 0, and the volatility is the earnings volatility |
| Options.OptionsValue | app.py:269-297 | the reference result of `get_options_value`: nothing when the expirations or one of the first three chains cannot be read, otherwise the records of the first three expirations |
| Options.FirstThree | app.py:275 | at most the first three expirations, as a prefix |
| Options.AppendQuoteRows | app.py:280-294 | the loop appends exactly the records of the frame's quotes |
| Options.AppendChainRows | app.py:279-294 | one chain adds its call records and then its put records |
| Options.GetOptionsValue | app.py:269-297 | the loop returns exactly the specified rows: nothing when the expirations or a chain cannot be read, all records of the first three chains otherwise |
| Options.ChainMissing | app.py:275-297 | a missing chain among the first three empties the whole result |
| Options.AllChainsFetched | app.py:274-295 | with every chain read, the accumulated rows are the specified rows |
| Options.AllRowsStep | app.py:275-294 | the rows of one more expiration are appended after those of the earlier ones |
| Options.AllRowsProperties | app.py:274-294 | one record per quote, each carrying the ticker, CALL or PUT, the volatility used, a guarded `Value %` and the date of one of the scanned expirations |
| Options.OptionsValueProperties | app.py:269-297 | the scan is empty when the expirations or a chain cannot be read, and otherwise has one well-priced record per quote |
| Universe.Decimal | app.py:78 | the decimal numeral of a number has at least one digit and no leading zero |
| Universe.DecimalValue | app.py:78 | `int()` of a string of decimal digits |
| Universe.DigitPrefix | app.py:78 | the longest run of digits at the start of a string, which stops at the first non-digit |
| Universe.ZeroPad4 | app.py:78 | `{:04d}` pads with zeros on the left to four characters and leaves longer numerals alone |
| Universe.DecimalRoundTrip | app.py:78 | reading the numeral of `n` back gives `n` |
| Universe.LeadingZeros | app.py:78 | leading zeros do not change the value of a numeral |
| Universe.HangSengTickerRoundTrip | app.py:78 | a formatted Hang Seng ticker is max(4, digits of n) digits plus `.HK`, and its code reads back as `n` |
| Universe.HangSengTicker | app.py:78 | `{:04d}.HK` of a code |
| Universe.FirstDigitRun | app.py:78 | the extracted code is missing exactly when the cell has no digit; otherwise it is the maximal digit run starting at the first digit of the cell |
| Universe.HangSengTickers | app.py:78 | at most one ticker per scraped cell; `HangSengTickersExactly` gives the membership |
| Universe.HangSengTickersHead | app.py:78 | the first cell contributes its ticker, if it has one, ahead of the rest |
| Universe.HangSengTickersExactly | app.py:78 | a string is a scraped Hang Seng ticker exactly when it is `{:04d}.HK` of `int()` of the first digit run of some cell |
| Universe.HangSengTickersWellFormed | app.py:78 | every scraped Hang Seng ticker has the canonical form |
| Universe.FallbackSpellingDiffers | app.py:78-82 | the fallback spelling "00388.HK" is not canonical, while the formatter writes code 388 as "0388.HK" |
| Universe.Strip | app.py:90 | the stripped text is a slice of the original with no white space at either end, and everything cut off before or after it is white space |
| Universe.IsSpace | app.py:90 | Python's `str.isspace` for one character |
| Universe.IsDigitString | app.py:90 | `str.isdigit()`: non-empty and all digits |
| Universe.TrimStart | app.py:90 | the result is a suffix of the input that does not start with white space, and every character removed is white space |
| Universe.TrimEnd | app.py:90 | the result is a prefix of the input that does not end with white space, and every character removed is white space |
| Universe.NikkeiTickers | app.py:90 | at most one ticker per anchor |
| Universe.NikkeiTickersWellFormed | app.py:90 | every scraped Nikkei ticker is a digit run followed by `.T` |
| Universe.NikkeiTickersHead | app.py:90 | the first anchor contributes its ticker, if it yields one, ahead of the rest |
| Universe.NikkeiTickersExactly | app.py:90 | a string is a scraped Nikkei ticker exactly when some anchor's stripped text is all digits and the string is that text plus `.T` |
| Universe.ListContribution | app.py:50-71 | an S&P 500 or NASDAQ-100 source that raised contributes exactly its fallback, and one that was scraped contributes exactly its items |
| Universe.HangSengContribution | app.py:74-83 | a raising Hang Seng source contributes exactly its fallback; a scraped one contributes exactly the formatted codes of its cells, each canonical, at most one per cell |
| Universe.NikkeiContribution | app.py:86-95 | a raising Nikkei source contributes exactly its fallback; a scraped one contributes exactly the tickers of its anchors, each a digit code plus `.T`, at most one per anchor |
| Universe.Contributions | app.py:45-95 | the four contributions in the order of the `extend` calls |
| Universe.RemoveDuplicates | app.py:97 | the result has no duplicates and the same elements as its input |
| Universe.GetIndexTickers | app.py:45-97 | the universe has no duplicates and holds exactly the tickers some source or fallback contributed |
| Universe.EmptyScrapeIsNotReplaced | app.py:50-95 | empty scrapes contribute nothing, and with every source down the universe is the four fallbacks |
| Listings.SP500FallbackSize | app.py:58 | the S&P 500 fallback has 331 tickers |
| Listings.Nasdaq100FallbackSize | app.py:70 | the NASDAQ-100 fallback has 101 tickers |
| Listings.HangSengFallbackSize | app.py:82 | the Hang Seng fallback has 82 tickers |
| Listings.NikkeiFallbackSize | app.py:94 | the Nikkei fallback has 100 tickers |
| Listings.AllSourcesDown | app.py:45-97 | with every source down the merge receives the four fallbacks, 614 tickers, so the universe is never empty |
| Tables.Filter | app.py:392-393 | the filter keeps each row that satisfies the condition as often as it occurred, and no other row |
| Tables.SortDesc | app.py:351 | the sort is descending by key and is a permutation of its input |
| Tables.Concat | app.py:390 | a row is in the concatenation exactly when it is in one of the frames |
| Tables.ConcatSkipsEmpty | app.py:385-386 | an empty frame adds nothing to a concatenation |
| Batch.CollectedExactly | app.py:347-350 | a valuation is collected exactly when it is some ticker's result, and there is one per ticker exactly when every ticker could be valued |
| Batch.Collected | app.py:347-350 | the reference list of valuations kept, in ticker order |
| Batch.Valuer | app.py:348 | `calculate_fair_price(t)` on the snapshot fetched for `t` |
| Batch.CollectedValuations | app.py:347-350 | every collected valuation is a value bet exactly when its `Diff %` is positive and has scores (0, 0) or both in 1..5; nothing drops out exactly when every snapshot was fetched and has `regularMarketPrice` |
| Batch.CollectValuations | app.py:347-350 | the loop keeps exactly the non-`None` results, in ticker order |
| Batch.ValueBetsLead | app.py:351 | in a table sorted by `Diff %`, every value bet comes before every other row |
| Batch.LoadAndSortAll | app.py:345-351 | no table exactly when no ticker could be valued (sorting a frame without a `Diff %` column raises); otherwise the table is a permutation of the collected valuations, sorted by `Diff %` descending, with the value bets first |
| Batch.GetUpcomingEarnings | app.py:299-313 | a ticker is kept exactly when its calendar is a non-empty frame with "Earnings Date" both as a row label and as a column whose date lies strictly between now and thirty days later, in the order of the input |
| Batch.ReportsSoon | app.py:305-309 | the calendar test of one ticker |
| Batch.RowAndColumnBothNeeded | app.py:305-309 | a calendar holding the date only as a row label, or only as a column, is never reported; one holding it as both, a second after now, is |
| Batch.UpcomingView | app.py:371-372 | the view keeps exactly the table rows of upcoming tickers, sorted by beat score descending |
| Batch.TickerIn | app.py:372 | `df['Ticker'].isin(upcoming)` for one row |
| Batch.ScannedTickers | app.py:383 | the options scan looks at a prefix of at most fifty tickers |
| Batch.OptionRowsOrigin | app.py:383-390 | every scanned option record carries one of the scanned tickers and a CALL or PUT type |
| Batch.OptionRows | app.py:383-390 | the reference records of the scanned tickers, ticker after ticker |
| Batch.ScanOptions | app.py:382-386 | the non-empty frames stack up to exactly the records of every scanned ticker |
| Batch.FilterAndSort | app.py:391-393 | the type filter followed by the `Value %` filter keeps exactly the selected records, sorted by `Value %` descending |
| Batch.Selected | app.py:392-393 | the type selector (`ALL` or the record's type) and the `Value %` minimum |
| Batch.TopValueOptions | app.py:382-393 | the table is exactly the selected records of the first fifty tickers, sorted by `Value %` descending; each matches the type selector and reaches the minimum |
| Batch.LoadAndSortAllSection | app.py:343-398 | nothing is shown past the sort exactly when no ticker could be valued; otherwise the table sorted by `Diff %` with the value bets first, the upcoming tickers of the whole universe with their view of the table, and the selected options of the first fifty tickers, sorted by `Value %` descending |

## Left out

- HTTP requests, HTML parsing and `pd.read_html` (app.py:50-95). Each source's outcome is an input: the extracted items or an exception.
- The market-data library (`yf.Ticker`, `info`, `financials`, `earnings_dates`, option chains, calendars). Snapshots, chains and calendars are inputs, passed as functions of the ticker.
- Universe.GetIndexTickers: takes the four fallback lists as a parameter; `Listings.SourceFallbacks` holds the lists written in the source.
- Options.BlackScholes: the closed-form call and put prices (logarithm, exponential, square root, normal CDF) are uninterpreted functions passed in as `ClosedForm`.
- Options.EarningsVol: the standard deviation of the earnings changes is an input; only the 0.2 default is modelled.
- `round(..., 2)` on prices and percentages (app.py:195-197, 291-293). Values are kept unrounded, so the `Value %` filter compares the unrounded percentage.
- Batch.LoadAndSortAll: sorts by the unrounded `Diff %`; the source sorts by the rounded column with a sort that need not be stable. A value bet whose `Diff %` lies in (0, 0.005) shows 0.0 and ties with every row whose rounded `Diff %` is 0.0 (rows priced at or below 0, and rows with `Diff %` in (-0.005, 0]), so there a "No" row can come before it; "value bets first" holds of the unrounded key only.
- The clock and calendar: `now` and the year fraction T are parameters. The source reads the clock twice in one comparison (app.py:309); the model uses one `now`.
- Floating point: all arithmetic is exact `real` arithmetic. NaN appears only where the scorer meets it (missing earnings cells, ESP); NaN in snapshot fields and `info` keys holding `None` are not modelled.
- Metrics that the arithmetic never reads (margins, yields, ratios and the like, app.py:111-156). They are displayed, not used.
- Tables.SortDesc: keeps rows with equal keys in input order; pandas' default sort promises no order for them.
- Universe.RemoveDuplicates: keeps the first occurrence of each ticker in order; `list(set(...))` has an arbitrary order.
- Python's `isdigit` (app.py:90) and the regular expression `\d` (app.py:78) also accept non-ASCII decimal digits, which `int()` reads; the model accepts only `0`-`9`. `strip` is modelled with Python's white-space set.
- EarningsScore.GatherSignals: an earnings frame is empty exactly when it has no rows. A frame with rows but no columns at all, which pandas also calls empty, is not represented.
- The Streamlit UI: icons, styling, warnings, the spinner, the single-ticker view and the one-day cache (app.py:44, 316-400 apart from the filters).
