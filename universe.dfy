/**
 * Universe assembly (`get_index_tickers`, app.py lines 44-97): four listings
 * sources, each either scraped or replaced by its static fallback when the
 * request or the parsing raises, concatenated and de-duplicated.
 */
module Universe {
  import opened Wrappers

  /**
   * What one listings request gave: the items its parser extracted (ticker
   * cells, Hang Seng `Ticker` cells, Nikkei anchor texts), or an exception
   * anywhere in the request or the parsing.
   */
  datatype SourceOutcome = Scraped(items: seq<string>) | Raised

  /** The static lists used in place of a source that raised, one per source. */
  datatype Fallbacks = Fallbacks(sp500: seq<string>, nasdaq100: seq<string>, hangSeng: seq<string>,
                                 nikkei: seq<string>)

  // ---------------------------------------------------------------
  // Digits and decimal numerals

  predicate IsDigit(c: char) {
    '0' <= c <= '9'
  }

  predicate AllDigits(s: string) {
    forall i :: 0 <= i < |s| ==> IsDigit(s[i])
  }

  function DigitValue(c: char): nat
    requires IsDigit(c)
  {
    c as int - '0' as int
  }

  function DigitChar(d: nat): (c: char)
    requires d < 10
    ensures IsDigit(c) && DigitValue(c) == d
  {
    ('0' as int + d) as char
  }

  /** `int(code)` of a string of decimal digits. */
  function DecimalValue(s: string): nat
    requires AllDigits(s)
  {
    if s == [] then 0 else 10 * DecimalValue(s[..|s| - 1]) + DigitValue(s[|s| - 1])
  }

  /** The decimal numeral of `n`, without leading zeros. */
  function Decimal(n: nat): (s: string)
    ensures |s| >= 1 && AllDigits(s)
    ensures |s| > 1 ==> s[0] != '0'
  {
    if n < 10 then [DigitChar(n)] else Decimal(n / 10) + [DigitChar(n % 10)]
  }

  function Zeros(k: nat): (z: string)
    ensures |z| == k && AllDigits(z)
    ensures forall i :: 0 <= i < k ==> z[i] == '0'
  {
    seq(k, _ => '0')
  }

  /** The format `{:04d}`: zero-padded on the left to at least four characters. */
  function ZeroPad4(s: string): (r: string)
    ensures |r| == if |s| < 4 then 4 else |s|
    ensures |s| < 4 ==> r == Zeros(4 - |s|) + s
    ensures |s| >= 4 ==> r == s
  {
    if |s| < 4 then Zeros(4 - |s|) + s else s
  }

  lemma {:induction false} DecimalRoundTrip(n: nat)
    ensures DecimalValue(Decimal(n)) == n
  {
    var s := Decimal(n);
    if n >= 10 {
      DecimalRoundTrip(n / 10);
      assert s[..|s| - 1] == Decimal(n / 10);
    }
  }

  /** Leading zeros do not change the value of a numeral. */
  lemma {:induction false} LeadingZeros(k: nat, s: string)
    requires AllDigits(s)
    ensures AllDigits(Zeros(k) + s) && DecimalValue(Zeros(k) + s) == DecimalValue(s)
  {
    var t := Zeros(k) + s;
    assert AllDigits(t);
    if s == [] {
      assert t == Zeros(k);
      if k > 0 {
        assert t[..|t| - 1] == Zeros(k - 1);
        LeadingZeros(k - 1, []);
        assert Zeros(k - 1) + [] == Zeros(k - 1);
      }
    } else {
      var init := s[..|s| - 1];
      assert t[..|t| - 1] == Zeros(k) + init;
      LeadingZeros(k, init);
    }
  }

  // ---------------------------------------------------------------
  // Hang Seng: `f"{int(code):04d}.HK"` (line 78)

  function HangSengTicker(n: nat): string {
    ZeroPad4(Decimal(n)) + ".HK"
  }

  /**
   * A Hang Seng ticker as line 78 writes it: at least four digits, with no
   * leading zero beyond four, then ".HK".
   */
  ghost predicate IsHangSengTicker(t: string) {
    && |t| >= 7
    && t[|t| - 3..] == ".HK"
    && AllDigits(t[..|t| - 3])
    && (|t| - 3 > 4 ==> t[0] != '0')
  }

  /**
   * A formatted code reads back as the number it came from: `int(code)` of
   * the digits before ".HK" is `n`, and there are exactly max(4, digits of n)
   * of them.
   */
  lemma HangSengTickerRoundTrip(n: nat)
    ensures var t := HangSengTicker(n);
            && IsHangSengTicker(t)
            && |t| - 3 == (if |Decimal(n)| < 4 then 4 else |Decimal(n)|)
            && DecimalValue(t[..|t| - 3]) == n
  {
    var d := Decimal(n);
    var t := HangSengTicker(n);
    assert t[..|t| - 3] == ZeroPad4(d);
    assert t[|t| - 3..] == ".HK";
    DecimalRoundTrip(n);
    if |d| < 4 {
      LeadingZeros(4 - |d|, d);
    }
  }

  /** The longest prefix of `s` made of digits. */
  function DigitPrefix(s: string): (p: string)
    ensures p <= s && AllDigits(p)
    ensures |p| < |s| ==> !IsDigit(s[|p|])
  {
    if s != [] && IsDigit(s[0]) then [s[0]] + DigitPrefix(s[1..]) else []
  }

  /** `str.extract(r'(\d+)')`: the first run of digits in a cell, `None` (NaN) when there is none. */
  function FirstDigitRun(s: string): (r: Option<string>)
    ensures r.Some? ==> |r.value| > 0 && AllDigits(r.value)
    ensures r.None? <==> forall i :: 0 <= i < |s| ==> !IsDigit(s[i])
    // the run starts at the first digit of the cell and takes every digit after it
    ensures r.Some? ==> exists i :: 0 <= i < |s| && IsDigit(s[i]) && (forall j :: 0 <= j < i ==> !IsDigit(s[j]))
                                    && r.value == DigitPrefix(s[i..])
  {
    if s == [] then None
    else if IsDigit(s[0]) then
      assert s[0..] == s;
      Some(DigitPrefix(s))
    else
      var r := FirstDigitRun(s[1..]);
      if r.None? then r
      else
        var i :| 0 <= i < |s[1..]| && IsDigit(s[1..][i]) && (forall j :: 0 <= j < i ==> !IsDigit(s[1..][j]))
                 && r.value == DigitPrefix(s[1..][i..]);
        assert s[1..][i..] == s[i + 1..];
        assert forall j :: 0 <= j < i + 1 ==> !IsDigit(s[j]) by {
          forall j | 0 <= j < i + 1 ensures !IsDigit(s[j]) {
            if j > 0 { assert s[j] == s[1..][j - 1]; }
          }
        }
        r
  }

  /** The Hang Seng tickers of the scraped `Ticker` cells, in order; cells without digits are dropped. */
  function HangSengTickers(cells: seq<string>): (ts: seq<string>)
    ensures |ts| <= |cells|
  {
    if cells == [] then []
    else
      var rest := HangSengTickers(cells[1..]);
      match FirstDigitRun(cells[0])
      case None => rest
      case Some(code) => [HangSengTicker(DecimalValue(code))] + rest
  }

  /** The ticker line 78 makes of one `Ticker` cell, if the cell holds a digit. */
  predicate YieldsHangSengTicker(cell: string, t: string) {
    FirstDigitRun(cell).Some? && t == HangSengTicker(DecimalValue(FirstDigitRun(cell).value))
  }

  /** The first cell contributes its ticker, if any, ahead of the others'. */
  lemma HangSengTickersHead(cells: seq<string>, t: string)
    requires cells != []
    ensures t in HangSengTickers(cells) <==> YieldsHangSengTicker(cells[0], t) || t in HangSengTickers(cells[1..])
  {
  }

  /**
   * A string is a Hang Seng ticker of the scrape exactly when it is the
   * formatted value of the first digit run of some cell.
   */
  lemma {:induction false} HangSengTickersExactly(cells: seq<string>, t: string)
    ensures t in HangSengTickers(cells) <==> exists i :: 0 <= i < |cells| && YieldsHangSengTicker(cells[i], t)
  {
    if cells != [] {
      HangSengTickersExactly(cells[1..], t);
      HangSengTickersHead(cells, t);
      if exists i :: 0 <= i < |cells| && YieldsHangSengTicker(cells[i], t) {
        var i :| 0 <= i < |cells| && YieldsHangSengTicker(cells[i], t);
        if i > 0 {
          assert YieldsHangSengTicker(cells[1..][i - 1], t);
        }
      }
      if t in HangSengTickers(cells[1..]) {
        var i :| 0 <= i < |cells[1..]| && YieldsHangSengTicker(cells[1..][i], t);
        assert YieldsHangSengTicker(cells[i + 1], t);
      }
    }
  }

  lemma {:induction false} HangSengTickersWellFormed(cells: seq<string>)
    ensures forall t :: t in HangSengTickers(cells) ==> IsHangSengTicker(t)
  {
    if cells != [] {
      HangSengTickersWellFormed(cells[1..]);
      match FirstDigitRun(cells[0])
      case None =>
      case Some(code) => HangSengTickerRoundTrip(DecimalValue(code));
    }
  }

  /**
   * The fallback list spells some codes with five digits and a leading zero
   * ("00388.HK"), a form the formatter never produces: it writes 388 as
   * "0388.HK". The same listing can therefore appear under two spellings
   * depending on whether the Hang Seng page could be read.
   */
  lemma FallbackSpellingDiffers()
    ensures !IsHangSengTicker("00388.HK")
    ensures HangSengTicker(388) == "0388.HK"
  {
    assert Decimal(3) == "3";
    assert Decimal(38) == "38";
    assert Decimal(388) == "388";
  }

  // ---------------------------------------------------------------
  // Nikkei: `a.text.strip() + '.T'` for anchors whose stripped text `isdigit()` (line 90)

  /** Python's `str.isspace` for one character. */
  predicate IsSpace(c: char) {
    || c == ' ' || ('\t' <= c <= '\r') || ('\U{1c}' <= c <= '\U{1f}')
    || c == '\U{85}' || c == '\U{a0}' || c == '\U{1680}' || ('\U{2000}' <= c <= '\U{200a}')
    || c == '\U{2028}' || c == '\U{2029}' || c == '\U{202f}' || c == '\U{205f}' || c == '\U{3000}'
  }

  function TrimStart(s: string): (r: string)
    ensures |r| <= |s| && r == s[|s| - |r|..]
    ensures forall i :: 0 <= i < |s| - |r| ==> IsSpace(s[i])
    ensures |r| > 0 ==> !IsSpace(r[0])
  {
    if |s| > 0 && IsSpace(s[0]) then TrimStart(s[1..]) else s
  }

  function TrimEnd(s: string): (r: string)
    ensures |r| <= |s| && r == s[..|r|]
    ensures forall i :: |r| <= i < |s| ==> IsSpace(s[i])
    ensures |r| > 0 ==> !IsSpace(r[|r| - 1])
  {
    if |s| > 0 && IsSpace(s[|s| - 1]) then TrimEnd(s[..|s| - 1]) else s
  }

  /** `r` is the slice of `s` starting at `a`, and everything of `s` outside it is white space. */
  predicate SpaceAround(s: string, r: string, a: nat) {
    && a + |r| <= |s| && r == s[a..a + |r|]
    && (forall i :: 0 <= i < a ==> IsSpace(s[i]))
    && (forall i :: a + |r| <= i < |s| ==> IsSpace(s[i]))
  }

  /**
   * `str.strip()`: a slice of `s` with no white space left at either end;
   * everything cut off before or after it is white space.
   */
  function Strip(s: string): (r: string)
    ensures |r| <= |s|
    ensures |r| > 0 ==> !IsSpace(r[0]) && !IsSpace(r[|r| - 1])
    ensures exists a :: SpaceAround(s, r, a)
  {
    var front := TrimStart(s);
    var r := TrimEnd(front);
    var a := |s| - |front|;
    assert SpaceAround(s, r, a);
    r
  }

  /** `str.isdigit()`, restricted to the ASCII digits. */
  predicate IsDigitString(s: string) {
    |s| > 0 && AllDigits(s)
  }

  /** The Nikkei tickers of the scraped anchor texts, in order. */
  function NikkeiTickers(texts: seq<string>): (ts: seq<string>)
    ensures |ts| <= |texts|
  {
    if texts == [] then []
    else
      var rest := NikkeiTickers(texts[1..]);
      var code := Strip(texts[0]);
      if IsDigitString(code) then [code + ".T"] + rest else rest
  }

  /** A Nikkei ticker as line 90 writes it: a non-empty run of digits, then ".T". */
  ghost predicate IsNikkeiTicker(t: string) {
    |t| > 2 && t[|t| - 2..] == ".T" && IsDigitString(t[..|t| - 2])
  }

  lemma {:induction false} NikkeiTickersWellFormed(texts: seq<string>)
    ensures forall t :: t in NikkeiTickers(texts) ==> IsNikkeiTicker(t)
  {
    if texts != [] {
      NikkeiTickersWellFormed(texts[1..]);
      var code := Strip(texts[0]);
      if IsDigitString(code) {
        var t := code + ".T";
        assert t[..|t| - 2] == code;
        assert t[|t| - 2..] == ".T";
      }
    }
  }

  /** The ticker line 90 makes of one anchor text, if its stripped text is all digits. */
  predicate YieldsTicker(text: string, t: string) {
    IsDigitString(Strip(text)) && t == Strip(text) + ".T"
  }

  /** The first anchor contributes its ticker, if any, ahead of the others'. */
  lemma NikkeiTickersHead(texts: seq<string>, t: string)
    requires texts != []
    ensures t in NikkeiTickers(texts) <==> YieldsTicker(texts[0], t) || t in NikkeiTickers(texts[1..])
  {
  }

  /**
   * A string is a Nikkei ticker of the scrape exactly when some anchor's
   * stripped text is all digits and the string is that text followed by ".T".
   */
  lemma {:induction false} NikkeiTickersExactly(texts: seq<string>, t: string)
    ensures t in NikkeiTickers(texts) <==> exists i :: 0 <= i < |texts| && YieldsTicker(texts[i], t)
  {
    if texts != [] {
      NikkeiTickersExactly(texts[1..], t);
      NikkeiTickersHead(texts, t);
      if exists i :: 0 <= i < |texts| && YieldsTicker(texts[i], t) {
        var i :| 0 <= i < |texts| && YieldsTicker(texts[i], t);
        if i > 0 {
          assert YieldsTicker(texts[1..][i - 1], t);
        }
      }
      if t in NikkeiTickers(texts[1..]) {
        var i :| 0 <= i < |texts[1..]| && YieldsTicker(texts[1..][i], t);
        assert YieldsTicker(texts[i + 1], t);
      }
    }
  }

  // ---------------------------------------------------------------
  // The four sources and the merge

  /** The S&P 500 or NASDAQ-100 contribution: the scraped list as it is, or the fallback. */
  function ListContribution(o: SourceOutcome, fallback: seq<string>): (c: seq<string>)
    ensures o.Raised? ==> c == fallback
    ensures o.Scraped? ==> c == o.items
  {
    match o
    case Raised => fallback
    case Scraped(items) => items
  }

  /** The Hang Seng contribution: formatted codes, or the fallback. */
  function HangSengContribution(o: SourceOutcome, fallback: seq<string>): (c: seq<string>)
    ensures o.Raised? ==> c == fallback
    ensures o.Scraped? ==> c == HangSengTickers(o.items)
    ensures o.Scraped? ==> |c| <= |o.items| && forall t :: t in c ==> IsHangSengTicker(t)
  {
    match o
    case Raised => fallback
    case Scraped(cells) =>
      HangSengTickersWellFormed(cells);
      HangSengTickers(cells)
  }

  /** The Nikkei contribution: digit codes with ".T", or the fallback. */
  function NikkeiContribution(o: SourceOutcome, fallback: seq<string>): (c: seq<string>)
    ensures o.Raised? ==> c == fallback
    ensures o.Scraped? ==> c == NikkeiTickers(o.items)
    ensures o.Scraped? ==> |c| <= |o.items| && forall t :: t in c ==> IsNikkeiTicker(t)
  {
    match o
    case Raised => fallback
    case Scraped(texts) =>
      NikkeiTickersWellFormed(texts);
      NikkeiTickers(texts)
  }

  /** Everything the four sources contribute, in the order of the `extend` calls. */
  function Contributions(fb: Fallbacks, sp500: SourceOutcome, nasdaq: SourceOutcome,
                         hangSeng: SourceOutcome, nikkei: SourceOutcome): seq<string> {
    ListContribution(sp500, fb.sp500) + ListContribution(nasdaq, fb.nasdaq100)
    + HangSengContribution(hangSeng, fb.hangSeng) + NikkeiContribution(nikkei, fb.nikkei)
  }

  predicate NoDuplicates(s: seq<string>) {
    forall i, j :: 0 <= i < j < |s| ==> s[i] != s[j]
  }

  /** `list(set(xs))`: each element once (this model keeps first occurrences in order; Python's order is arbitrary). */
  function RemoveDuplicates(xs: seq<string>): (r: seq<string>)
    ensures NoDuplicates(r)
    ensures forall x :: x in r <==> x in xs
    ensures |r| <= |xs|
  {
    if xs == [] then []
    else
      var r := RemoveDuplicates(xs[..|xs| - 1]);
      assert forall x :: x in xs <==> x in xs[..|xs| - 1] || x == xs[|xs| - 1] by {
        assert xs == xs[..|xs| - 1] + [xs[|xs| - 1]];
      }
      if xs[|xs| - 1] in r then r else r + [xs[|xs| - 1]]
  }

  /**
   * `get_index_tickers`: the four contributions, extended in order, then
   * de-duplicated. No ticker appears twice, and a ticker is listed exactly
   * when some source (or its fallback) contributed it.
   */
  method GetIndexTickers(fb: Fallbacks, sp500: SourceOutcome, nasdaq: SourceOutcome,
                         hangSeng: SourceOutcome, nikkei: SourceOutcome) returns (result: seq<string>)
    ensures NoDuplicates(result)
    ensures forall t :: t in result <==> t in Contributions(fb, sp500, nasdaq, hangSeng, nikkei)
    ensures |result| <= |Contributions(fb, sp500, nasdaq, hangSeng, nikkei)|
  {
    var tickers: seq<string> := [];
    tickers := tickers + ListContribution(sp500, fb.sp500);
    tickers := tickers + ListContribution(nasdaq, fb.nasdaq100);
    tickers := tickers + HangSengContribution(hangSeng, fb.hangSeng);
    tickers := tickers + NikkeiContribution(nikkei, fb.nikkei);
    result := RemoveDuplicates(tickers);
  }

  /**
   * A source that is reached but yields nothing contributes nothing: only an
   * exception brings in the fallback. With every source down, the universe
   * is the four fallbacks one after the other.
   */
  lemma EmptyScrapeIsNotReplaced(fb: Fallbacks)
    ensures Contributions(fb, Scraped([]), Scraped([]), Scraped([]), Scraped([])) == []
    ensures Contributions(fb, Raised, Raised, Raised, Raised)
            == fb.sp500 + fb.nasdaq100 + fb.hangSeng + fb.nikkei
  {
  }
}
