/**
 * The "Load & Sort All" section of the page (app.py lines 343-400): every
 * ticker of the universe valued and sorted by Diff %, the view of the
 * tickers that report earnings within thirty days, and the table of the
 * best-valued options of the first fifty tickers. Everything runs one ticker
 * after the other.
 */
module Batch {
  import opened Wrappers
  import opened Tables
  import opened Valuation
  import opened Options

  // ---------------------------------------------------------------
  // Valuing the universe (lines 345-351)

  /** `calculate_fair_price` of each ticker, on the snapshot `fetch` gives for it. */
  function Valuer(fetch: string -> FetchOutcome): string -> Option<ValuationResult> {
    (t: string) => CalculateFairPrice(t, fetch(t))
  }

  /** The valuations of the tickers that could be valued, in ticker order. */
  function Collected(tickers: seq<string>, value: string -> Option<ValuationResult>): seq<ValuationResult> {
    if tickers == [] then []
    else
      var init := Collected(tickers[..|tickers| - 1], value);
      match value(tickers[|tickers| - 1])
      case None => init
      case Some(r) => init + [r]
  }

  /** The `Diff %` column. */
  function DiffPercentKey(r: ValuationResult): real {
    r.diffPercent
  }

  /**
   * A valuation is collected exactly when it is the result for one of the
   * tickers, and one is collected per ticker exactly when every ticker could
   * be valued.
   */
  lemma {:induction false} CollectedExactly(tickers: seq<string>, value: string -> Option<ValuationResult>)
    ensures |Collected(tickers, value)| <= |tickers|
    ensures forall r :: r in Collected(tickers, value) <==>
      exists i :: 0 <= i < |tickers| && value(tickers[i]) == Some(r)
    ensures |Collected(tickers, value)| == |tickers| <==> forall i :: 0 <= i < |tickers| ==> value(tickers[i]).Some?
  {
    if tickers != [] {
      var init := tickers[..|tickers| - 1];
      CollectedExactly(init, value);
      assert forall i :: 0 <= i < |init| ==> init[i] == tickers[i];
      forall r | exists i :: 0 <= i < |tickers| && value(tickers[i]) == Some(r)
        ensures r in Collected(tickers, value)
      {
        var i :| 0 <= i < |tickers| && value(tickers[i]) == Some(r);
        if i < |init| {
          assert value(init[i]) == Some(r);
        }
      }
    }
  }

  /**
   * What every collected valuation satisfies: it is a value bet exactly when
   * its `Diff %` is positive, and its two scores are (0, 0) or both in 1..5.
   * A ticker drops out exactly when it has no snapshot or no
   * `regularMarketPrice`.
   */
  lemma CollectedValuations(tickers: seq<string>, fetch: string -> FetchOutcome)
    ensures forall r :: r in Collected(tickers, Valuer(fetch)) ==>
      && (r.valueBet <==> r.diffPercent > 0.0)
      && ((r.beatProb, r.missProb) == (0, 0) || (1 <= r.beatProb <= 5 && 1 <= r.missProb <= 5))
    ensures |Collected(tickers, Valuer(fetch))| == |tickers| <==>
      forall i :: 0 <= i < |tickers| ==> fetch(tickers[i]).Fetched? && fetch(tickers[i]).info.regularMarketPrice.Some?
  {
    var value := Valuer(fetch);
    CollectedExactly(tickers, value);
    forall r | r in Collected(tickers, value)
      ensures && (r.valueBet <==> r.diffPercent > 0.0)
              && ((r.beatProb, r.missProb) == (0, 0) || (1 <= r.beatProb <= 5 && 1 <= r.missProb <= 5))
    {
      var i :| 0 <= i < |tickers| && value(tickers[i]) == Some(r);
      assert CalculateFairPrice(tickers[i], fetch(tickers[i])) == Some(r);
    }
    forall i | 0 <= i < |tickers|
      ensures value(tickers[i]).Some? <==> fetch(tickers[i]).Fetched? && fetch(tickers[i]).info.regularMarketPrice.Some?
    {
      assert value(tickers[i]) == CalculateFairPrice(tickers[i], fetch(tickers[i]));
    }
  }

  /** The loop of lines 347-350: one `calculate_fair_price` per ticker, keeping the results that are not `None`. */
  method CollectValuations(tickers: seq<string>, fetch: string -> FetchOutcome) returns (results: seq<ValuationResult>)
    ensures results == Collected(tickers, Valuer(fetch))
  {
    results := [];
    var i := 0;
    while i < |tickers|
      invariant 0 <= i <= |tickers|
      invariant results == Collected(tickers[..i], Valuer(fetch))
    {
      assert tickers[..i + 1][..i] == tickers[..i];
      var res := Valuer(fetch)(tickers[i]);
      if res.Some? {
        results := results + [res.value];
      }
      i := i + 1;
    }
    assert tickers[..i] == tickers;
  }

  /** In a table sorted by `Diff %`, the value bets (positive `Diff %`) come first. */
  lemma ValueBetsLead(df: seq<ValuationResult>)
    requires SortedDesc(df, DiffPercentKey)
    requires forall r :: r in df ==> (r.valueBet <==> r.diffPercent > 0.0)
    ensures forall i, j :: 0 <= i < j < |df| && df[j].valueBet ==> df[i].valueBet
  {
    forall i, j | 0 <= i < j < |df| && df[j].valueBet ensures df[i].valueBet {
      assert DiffPercentKey(df[i]) >= DiffPercentKey(df[j]);
    }
  }

  /**
   * The "Load & Sort All" table: the collected valuations, largest `Diff %`
   * first, so the value bets come before every other row. When no ticker
   * could be valued the frame has no `Diff %` column and sorting it raises
   * (line 351): `None`, and nothing after it on the page runs.
   */
  method LoadAndSortAll(tickers: seq<string>, fetch: string -> FetchOutcome) returns (df: Option<seq<ValuationResult>>)
    ensures df.None? <==> Collected(tickers, Valuer(fetch)) == []
    ensures df.Some? ==> SortedDesc(df.value, DiffPercentKey)
    ensures df.Some? ==> multiset(df.value) == multiset(Collected(tickers, Valuer(fetch)))
    ensures df.Some? ==> forall i, j :: 0 <= i < j < |df.value| && df.value[j].valueBet ==> df.value[i].valueBet
  {
    var results := CollectValuations(tickers, fetch);
    if results == [] {
      return None;
    }
    CollectedValuations(tickers, fetch);
    assert forall r :: r in results ==> (r.valueBet <==> r.diffPercent > 0.0);
    var sorted := SortDesc(results, DiffPercentKey);
    assert forall r :: r in sorted ==> r in results by {
      forall r | r in sorted ensures r in results {
        assert r in multiset(sorted);
      }
    }
    ValueBetsLead(sorted);
    df := Some(sorted);
  }

  // ---------------------------------------------------------------
  // Upcoming earnings (lines 299-313 and 371-373)

  /**
   * What `stock.calendar` gave for a ticker: an error (reading it, or `.empty`
   * on something that is not a frame), or a frame. `dateRow` says whether
   * "Earnings Date" is a row label; `dateColumn` is the first entry of a
   * column labelled "Earnings Date", as a date in seconds, `None` when the
   * frame has no such column.
   */
  datatype CalendarOutcome =
    | CalendarFailed
    | CalendarFrame(isEmpty: bool, dateRow: bool, dateColumn: Option<int>)

  /** Thirty days, in seconds (`timedelta(days=30)`). */
  const EarningsWindow: int := 30 * 86400

  /**
   * Lines 305-309: the frame is not empty, "Earnings Date" is a row label,
   * the column of that name can be read, and its date lies strictly after
   * `now` and strictly before `now` plus thirty days. A missing column
   * raises `KeyError`, which the bare `except` swallows.
   */
  predicate ReportsSoon(c: CalendarOutcome, now: int) {
    && c.CalendarFrame? && !c.isEmpty && c.dateRow && c.dateColumn.Some?
    && now < c.dateColumn.value < now + EarningsWindow
  }

  /**
   * Line 305 looks for "Earnings Date" among the row labels, line 306 reads
   * it as a column: a calendar that holds the date only as a row, however
   * near the date, is never reported, and neither is one that holds it only
   * as a column.
   */
  lemma RowAndColumnBothNeeded(isEmpty: bool, dateRow: bool, at: int, now: int)
    ensures !ReportsSoon(CalendarFrame(isEmpty, true, None), now)
    ensures !ReportsSoon(CalendarFrame(isEmpty, false, Some(at)), now)
    ensures ReportsSoon(CalendarFrame(false, true, Some(now + 1)), now)
  {
  }

  function ReportsSoonFilter(calendar: string -> CalendarOutcome, now: int): string -> bool {
    (t: string) => ReportsSoon(calendar(t), now)
  }

  /**
   * `get_upcoming_earnings`: the tickers, in order, whose next earnings date
   * falls inside the window; a ticker whose calendar cannot be read, or whose
   * date cannot be found under both labels, is skipped.
   */
  method GetUpcomingEarnings(tickers: seq<string>, calendar: string -> CalendarOutcome, now: int)
    returns (upcoming: seq<string>)
    ensures upcoming == Filter(tickers, ReportsSoonFilter(calendar, now))
    ensures forall t :: t in upcoming <==> t in tickers && ReportsSoon(calendar(t), now)
  {
    upcoming := [];
    var i := 0;
    while i < |tickers|
      invariant 0 <= i <= |tickers|
      invariant upcoming == Filter(tickers[..i], ReportsSoonFilter(calendar, now))
    {
      assert tickers[..i + 1][..i] == tickers[..i];
      var c := calendar(tickers[i]);
      if c.CalendarFrame? && !c.isEmpty && c.dateRow {
        match c.dateColumn
        case None =>          // KeyError, swallowed
        case Some(at) =>
          if now < at < now + EarningsWindow {
            upcoming := upcoming + [tickers[i]];
          }
      }
      i := i + 1;
    }
    assert tickers[..i] == tickers;
  }

  function TickerIn(upcoming: seq<string>): ValuationResult -> bool {
    (r: ValuationResult) => r.ticker in upcoming
  }

  function BeatProbKey(r: ValuationResult): real {
    r.beatProb as real
  }

  /**
   * The upcoming-earnings view: the rows of the sorted table whose ticker is
   * upcoming, highest beat score first.
   */
  function UpcomingView(df: seq<ValuationResult>, upcoming: seq<string>): (view: seq<ValuationResult>)
    ensures SortedDesc(view, BeatProbKey)
    ensures forall r :: r in view <==> r in df && r.ticker in upcoming
    ensures forall r :: multiset(view)[r] == if r.ticker in upcoming then multiset(df)[r] else 0
  {
    var kept := Filter(df, TickerIn(upcoming));
    SortDesc(kept, BeatProbKey)
  }

  // ---------------------------------------------------------------
  // Top value options (lines 382-393)

  /** `get_options_value`'s default risk-free rate (line 269). */
  const DefaultRate: real := 0.04

  /** Only the first fifty tickers of the universe are scanned for options (line 383). */
  const OptionsScanLimit: nat := 50

  /** `tickers[:50]`. */
  function ScannedTickers(tickers: seq<string>): (s: seq<string>)
    ensures |s| == if |tickers| < OptionsScanLimit then |tickers| else OptionsScanLimit
    ensures s <= tickers
  {
    if |tickers| < OptionsScanLimit then tickers else tickers[..OptionsScanLimit]
  }

  /** The option records of every ticker, ticker after ticker. */
  function OptionRows(tickers: seq<string>, inputs: string -> OptionsInput, formula: ClosedForm): seq<OptionRecord> {
    if tickers == [] then []
    else
      var t := tickers[|tickers| - 1];
      OptionRows(tickers[..|tickers| - 1], inputs, formula) + OptionsValue(t, inputs(t), DefaultRate, formula)
  }

  /** Every record comes from the scan of one of the tickers, and carries that ticker and a CALL or PUT type. */
  lemma {:induction false} OptionRowsOrigin(tickers: seq<string>, inputs: string -> OptionsInput, formula: ClosedForm)
    ensures forall o :: o in OptionRows(tickers, inputs, formula) ==>
      o.ticker in tickers && (o.kind == "CALL" || o.kind == "PUT")
  {
    if tickers != [] {
      var init := tickers[..|tickers| - 1];
      var t := tickers[|tickers| - 1];
      OptionRowsOrigin(init, inputs, formula);
      OptionsValueProperties(t, inputs(t), DefaultRate, formula);
      forall o | o in OptionRows(tickers, inputs, formula)
        ensures o.ticker in tickers && (o.kind == "CALL" || o.kind == "PUT")
      {
        if o in OptionRows(init, inputs, formula) {
          assert o.ticker in init;
        } else {
          assert o in OptionsValue(t, inputs(t), DefaultRate, formula);
        }
      }
    }
  }

  /** The type selector, `'ALL'`, `'CALL'` or `'PUT'`, and the `Min Value %` slider. */
  predicate Selected(o: OptionRecord, optionType: string, minValue: int) {
    (optionType == "ALL" || o.kind == optionType) && o.valuePct >= minValue as real
  }

  function SelectedBy(optionType: string, minValue: int): OptionRecord -> bool {
    (o: OptionRecord) => Selected(o, optionType, minValue)
  }

  /** The `Value %` column. */
  function ValuePctKey(o: OptionRecord): real {
    o.valuePct
  }

  /**
   * The loop of lines 383-386: the option frames of the scanned tickers,
   * leaving out the empty ones, which changes nothing once they are stacked.
   */
  method ScanOptions(scanned: seq<string>, inputs: string -> OptionsInput, formula: ClosedForm)
    returns (optionsAll: seq<seq<OptionRecord>>)
    ensures Concat(optionsAll) == OptionRows(scanned, inputs, formula)
    ensures forall k :: 0 <= k < |optionsAll| ==> optionsAll[k] != []
  {
    optionsAll := [];
    var i := 0;
    while i < |scanned|
      invariant 0 <= i <= |scanned|
      invariant Concat(optionsAll) == OptionRows(scanned[..i], inputs, formula)
      invariant forall k :: 0 <= k < |optionsAll| ==> optionsAll[k] != []
    {
      assert scanned[..i + 1][..i] == scanned[..i];
      var opt := GetOptionsValue(scanned[i], inputs(scanned[i]), DefaultRate, formula);
      ConcatSkipsEmpty(optionsAll, opt);
      if opt != [] {
        optionsAll := optionsAll + [opt];
      }
      i := i + 1;
    }
    assert scanned[..i] == scanned;
  }

  /**
   * The filters of lines 391-393, one after the other: the type selector
   * first, then the `Value %` minimum, then the sort.
   */
  function FilterAndSort(all: seq<OptionRecord>, optionType: string, minValue: int): (filtered: seq<OptionRecord>)
    ensures SortedDesc(filtered, ValuePctKey)
    ensures multiset(filtered) == multiset(Filter(all, SelectedBy(optionType, minValue)))
  {
    var typed := if optionType == "ALL" then all else Filter(all, (o: OptionRecord) => o.kind == optionType);
    var kept := Filter(typed, (o: OptionRecord) => o.valuePct >= minValue as real);
    var selected := Filter(all, SelectedBy(optionType, minValue));
    assert multiset(kept) == multiset(selected) by {
      forall o ensures multiset(kept)[o] == multiset(selected)[o] {
      }
    }
    SortDesc(kept, ValuePctKey)
  }

  /**
   * The "Top Value Options" table: the options of the first fifty tickers
   * that match the type selector and reach the minimum `Value %`, largest
   * `Value %` first.
   */
  method TopValueOptions(tickers: seq<string>, inputs: string -> OptionsInput, formula: ClosedForm,
                         optionType: string, minValue: int) returns (filtered: seq<OptionRecord>)
    ensures SortedDesc(filtered, ValuePctKey)
    ensures multiset(filtered)
            == multiset(Filter(OptionRows(ScannedTickers(tickers), inputs, formula), SelectedBy(optionType, minValue)))
    ensures forall o :: o in filtered ==>
      Selected(o, optionType, minValue) && o.ticker in ScannedTickers(tickers)
  {
    var scanned := ScannedTickers(tickers);
    var optionsAll := ScanOptions(scanned, inputs, formula);
    if optionsAll == [] {
      return [];
    }
    filtered := FilterAndSort(Concat(optionsAll), optionType, minValue);
    OptionRowsOrigin(scanned, inputs, formula);
    assert forall o :: o in filtered ==> o in multiset(filtered);
  }

  // ---------------------------------------------------------------
  // The whole section (lines 343-398)

  /** What the section shows: the sorted table, the upcoming tickers and their view, and the top options. */
  datatype BatchPage = BatchPage(
    table: seq<ValuationResult>,
    upcoming: seq<string>,
    upcomingView: seq<ValuationResult>,
    topOptions: seq<OptionRecord>)

  /**
   * The "Load & Sort All" button: the sorted table, then the upcoming
   * earnings, then the options of the first fifty tickers. When no ticker
   * could be valued, sorting the table raises and the section shows nothing
   * further (`None`).
   */
  method LoadAndSortAllSection(tickers: seq<string>, fetch: string -> FetchOutcome,
                               calendar: string -> CalendarOutcome, now: int,
                               inputs: string -> OptionsInput, formula: ClosedForm,
                               optionType: string, minValue: int) returns (page: Option<BatchPage>)
    ensures page.None? <==> Collected(tickers, Valuer(fetch)) == []
    ensures page.Some? ==> SortedDesc(page.value.table, DiffPercentKey)
                           && multiset(page.value.table) == multiset(Collected(tickers, Valuer(fetch)))
    ensures page.Some? ==> forall i, j :: 0 <= i < j < |page.value.table| && page.value.table[j].valueBet ==>
                             page.value.table[i].valueBet
    ensures page.Some? ==> page.value.upcoming == Filter(tickers, ReportsSoonFilter(calendar, now))
    ensures page.Some? ==> page.value.upcomingView == UpcomingView(page.value.table, page.value.upcoming)
    ensures page.Some? ==> SortedDesc(page.value.topOptions, ValuePctKey)
    ensures page.Some? ==>
      multiset(page.value.topOptions)
      == multiset(Filter(OptionRows(ScannedTickers(tickers), inputs, formula), SelectedBy(optionType, minValue)))
  {
    var df := LoadAndSortAll(tickers, fetch);
    if df.None? {
      return None;
    }
    var upcoming := GetUpcomingEarnings(tickers, calendar, now);
    var view := UpcomingView(df.value, upcoming);
    var top := TopValueOptions(tickers, inputs, formula, optionType, minValue);
    page := Some(BatchPage(df.value, upcoming, view, top));
  }
}
