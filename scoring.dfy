/**
 * Earnings beat/miss scoring (app.py lines 212-251): two rule-based
 * accumulators over five signals, each clamped to 1..5, with (0, 0) when
 * gathering the signals raises.
 */
module EarningsScore {
  import opened Wrappers

  /** One row of the earnings history; `None` is a missing (NaN) cell. */
  datatype EarningsRow = EarningsRow(reported: Option<real>, estimate: Option<real>)

  /** What the provider's `earnings_dates` attribute gave (line 108). */
  datatype EarningsDates =
    | NoAttribute   // the attribute is missing: an empty frame is used instead
    | NoneValue     // the attribute is None: reading `.empty` raises inside the scorer
    | Frame(hasReported: bool, hasEstimate: bool, rows: seq<EarningsRow>)

  /** The scorer's inputs after they have been gathered. `esp` is `None` when it is NaN. */
  datatype Signals = Signals(
    beatRate: real,
    esp: Option<real>,
    earningsGrowth: real,
    shortInterest: real,
    sectorGrowth: real)

  /** `Reported EPS > EPS Estimate` for one row; a comparison with NaN is false. */
  predicate Beats(row: EarningsRow) {
    row.reported.Some? && row.estimate.Some? && row.reported.value > row.estimate.value
  }

  /** The number of rows whose reported EPS beat the estimate. */
  function BeatCount(rows: seq<EarningsRow>): (n: nat)
    ensures n <= |rows|
    ensures n == |rows| <==> forall i :: 0 <= i < |rows| ==> Beats(rows[i])
  {
    if rows == [] then 0
    else BeatCount(rows[..|rows| - 1]) + (if Beats(rows[|rows| - 1]) then 1 else 0)
  }

  /** True when the frame has rows and both EPS columns (line 214). */
  predicate HasHistory(dates: EarningsDates) {
    dates.Frame? && |dates.rows| > 0 && dates.hasReported && dates.hasEstimate
  }

  /** The mean of the beat column, or the neutral 0.5 without a history (lines 214-217). */
  function BeatRate(dates: EarningsDates): (rate: real)
    ensures 0.0 <= rate <= 1.0
    ensures !HasHistory(dates) ==> rate == 0.5
    ensures HasHistory(dates) ==> rate * (|dates.rows| as real) == BeatCount(dates.rows) as real
  {
    if HasHistory(dates) then BeatCount(dates.rows) as real / |dates.rows| as real else 0.5
  }

  /**
   * The earnings-surprise proxy (line 223): the latest estimate against the
   * consensus, in percent; 0 when the consensus is 0, NaN (`None`) when
   * either operand is NaN and the consensus is not 0.
   */
  function Esp(latest: Option<real>, consensus: Option<real>): (esp: Option<real>)
    ensures consensus == Some(0.0) ==> esp == Some(0.0)
    ensures consensus.None? || latest.None? ==> esp.None? || consensus == Some(0.0)
    ensures esp.Some? && consensus != Some(0.0) ==>
      latest.Some? && consensus.Some? && esp.value * consensus.value == (latest.value - consensus.value) * 100.0
    ensures latest.Some? && consensus.Some? ==> esp.Some?
  {
    match consensus
    case None => None
    case Some(c) =>
      if c == 0.0 then Some(0.0)
      else match latest
        case None => None
        case Some(l) => Some((l - c) / c * 100.0)
  }

  /**
   * Lines 214-229. `None` stands for the exception that ends the scorer:
   * `earnings_dates` being None, or a non-empty frame without an
   * `EPS Estimate` column.
   */
  function GatherSignals(dates: EarningsDates, forwardEps: Option<real>, earningsGrowth: real,
                         shortInterest: real, sectorGrowth: real): (s: Option<Signals>)
    ensures s.None? <==> dates.NoneValue? || (dates.Frame? && |dates.rows| > 0 && !dates.hasEstimate)
    ensures s.Some? ==> 0.0 <= s.value.beatRate <= 1.0
    ensures s.Some? && !HasHistory(dates) ==> s.value.beatRate == 0.5
    ensures s.Some? && HasHistory(dates) ==> s.value.beatRate == BeatRate(dates)
    ensures s.Some? && (dates.NoAttribute? || |dates.rows| == 0) ==> s.value.esp == Some(0.0)
    // a non-empty frame: the latest estimate against `forwardEps`, or against itself when that key is missing
    ensures s.Some? && dates.Frame? && |dates.rows| > 0 ==>
      s.value.esp == Esp(dates.rows[0].estimate, if forwardEps.Some? then forwardEps else dates.rows[0].estimate)
    ensures s.Some? ==> s.value.earningsGrowth == earningsGrowth && s.value.shortInterest == shortInterest
                        && s.value.sectorGrowth == sectorGrowth
  {
    match dates
    case NoneValue => None
    case NoAttribute => Some(Signals(0.5, Some(0.0), earningsGrowth, shortInterest, sectorGrowth))
    case Frame(hasReported, hasEstimate, rows) =>
      if |rows| == 0 then
        Some(Signals(0.5, Some(0.0), earningsGrowth, shortInterest, sectorGrowth))
      else if !hasEstimate then
        None
      else
        var latest := rows[0].estimate;
        var consensus := if forwardEps.Some? then forwardEps else latest;
        Some(Signals(BeatRate(dates), Esp(latest, consensus), earningsGrowth, shortInterest, sectorGrowth))
  }

  // Points each signal adds to the beat accumulator (lines 231-237) ...

  function BeatRateBeatPoints(rate: real): int { if rate > 0.7 then 2 else if rate > 0.5 then 1 else 0 }
  function EspBeatPoints(esp: Option<real>): int { if esp.Some? && esp.value > 5.0 then 1 else 0 }
  function GrowthBeatPoints(growth: real): int { if growth > 0.1 then 1 else 0 }
  function ShortBeatPoints(short: real): int { if short < 5.0 then 1 else 0 }
  function SectorBeatPoints(sectorGrowth: real): int { if sectorGrowth > 0.1 then 1 else 0 }

  // ... and to the miss accumulator (lines 240-246).

  function BeatRateMissPoints(rate: real): int { if rate < 0.3 then 2 else if rate < 0.5 then 1 else 0 }
  function EspMissPoints(esp: Option<real>): int { if esp.Some? && esp.value < -5.0 then 1 else 0 }
  function GrowthMissPoints(growth: real): int { if growth < 0.0 then 1 else 0 }
  function ShortMissPoints(short: real): int { if short > 10.0 then 1 else 0 }
  function SectorMissPoints(sectorGrowth: real): int { if sectorGrowth < 0.05 then 1 else 0 }

  function RawBeat(s: Signals): int {
    BeatRateBeatPoints(s.beatRate) + EspBeatPoints(s.esp) + GrowthBeatPoints(s.earningsGrowth)
    + ShortBeatPoints(s.shortInterest) + SectorBeatPoints(s.sectorGrowth)
  }

  function RawMiss(s: Signals): int {
    BeatRateMissPoints(s.beatRate) + EspMissPoints(s.esp) + GrowthMissPoints(s.earningsGrowth)
    + ShortMissPoints(s.shortInterest) + SectorMissPoints(s.sectorGrowth)
  }

  /** `min(max(x, 1), 5)`. */
  function Clamp(x: int): (r: int)
    ensures 1 <= r <= 5
    ensures 1 <= x <= 5 ==> r == x
    ensures x < 1 ==> r == 1
    ensures x > 5 ==> r == 5
  {
    if x < 1 then 1 else if x > 5 then 5 else x
  }

  /**
   * `calculate_earnings_beat_prob`: (beat score, miss score). Exactly the
   * exception path yields (0, 0); otherwise both scores lie in 1..5.
   */
  function Scores(dates: EarningsDates, forwardEps: Option<real>, earningsGrowth: real,
                  shortInterest: real, sectorGrowth: real): (r: (int, int))
    ensures r == (0, 0) <==> GatherSignals(dates, forwardEps, earningsGrowth, shortInterest, sectorGrowth).None?
    ensures r != (0, 0) ==> 1 <= r.0 <= 5 && 1 <= r.1 <= 5
    ensures dates.NoneValue? ==> r == (0, 0)
  {
    match GatherSignals(dates, forwardEps, earningsGrowth, shortInterest, sectorGrowth)
    case None => (0, 0)
    case Some(s) => (Clamp(RawBeat(s)), Clamp(RawMiss(s)))
  }

  /**
   * The beat and miss thresholds are disjoint: every signal adds to at most
   * one accumulator, so the two raw scores together never exceed 6, and the
   * neutral beat rate 0.5 adds to neither.
   */
  lemma SignalsAreDisjoint(s: Signals)
    ensures BeatRateBeatPoints(s.beatRate) == 0 || BeatRateMissPoints(s.beatRate) == 0
    ensures EspBeatPoints(s.esp) == 0 || EspMissPoints(s.esp) == 0
    ensures GrowthBeatPoints(s.earningsGrowth) == 0 || GrowthMissPoints(s.earningsGrowth) == 0
    ensures ShortBeatPoints(s.shortInterest) == 0 || ShortMissPoints(s.shortInterest) == 0
    ensures SectorBeatPoints(s.sectorGrowth) == 0 || SectorMissPoints(s.sectorGrowth) == 0
    ensures 0 <= RawBeat(s) && 0 <= RawMiss(s) && RawBeat(s) + RawMiss(s) <= 6
    ensures s.beatRate == 0.5 ==> BeatRateBeatPoints(s.beatRate) == 0 && BeatRateMissPoints(s.beatRate) == 0
  {
  }

  /** A higher beat rate never lowers the beat score and never raises the miss score. */
  lemma BeatRateMonotone(s: Signals, rate: real)
    requires s.beatRate <= rate
    ensures Clamp(RawBeat(s)) <= Clamp(RawBeat(s.(beatRate := rate)))
    ensures Clamp(RawMiss(s.(beatRate := rate))) <= Clamp(RawMiss(s))
  {
  }

  /** A history in which every row beat its estimate gives the top beat rate and its two points. */
  lemma AllBeatsGiveTopRate(dates: EarningsDates)
    requires HasHistory(dates)
    requires forall i :: 0 <= i < |dates.rows| ==> Beats(dates.rows[i])
    ensures BeatRate(dates) == 1.0
    ensures BeatRateBeatPoints(BeatRate(dates)) == 2 && BeatRateMissPoints(BeatRate(dates)) == 0
  {
    assert BeatCount(dates.rows) == |dates.rows|;
  }
}
