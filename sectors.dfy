/**
 * The process-wide table of benchmark valuation multiples per sector
 * (app.py lines 13-26) and the sector-name mapping (lines 29-42).
 * Both are constants; the lookups below never fail.
 */
module Sectors {

  datatype SectorMultiples = SectorMultiples(
    currentPe: real,
    forwardPe: real,
    pb: real,
    ps: real,
    evEbitda: real,
    peg: real,
    growth: real,
    roe: real)

  /** The fallback sector name. */
  const OtherSector: string := "Other"

  /** Default growth when the mapped sector has no table entry (line 163). */
  const DefaultGrowth: real := 0.05

  const SectorTable: map<string, SectorMultiples> := map[
    "Technology" := SectorMultiples(64.15, 86.40, 11.12, 14.26, 34.48, 1.5, 0.15, 0.20),
    "Financial Services" := SectorMultiples(35.16, 20.64, 2.11, 5.14, 62.82, 1.29, 0.1537, 0.1311),
    "Real Estate" := SectorMultiples(44.63, 41.45, 2.01, 6.02, 20.33, 4.75, 0.05, 0.045),
    "Consumer Cyclical" := SectorMultiples(28.81, 22.74, 8.43, 1.94, 18.21, 10.52, 0.08, 0.12),
    "Consumer Defensive" := SectorMultiples(23.97, 22.81, 2.18, 1.35, 11.17, 2.04, 0.06, 0.10),
    "Healthcare" := SectorMultiples(129.64, 18.72, 5.70, 4.84, 15.37, 2.61, 0.12, 0.15),
    "Utilities" := SectorMultiples(19.19, 16.47, 1.82, 2.97, 13.44, 3.28, 0.04, 0.08),
    "Communication Services" := SectorMultiples(74.81, 46.36, 1.62, 1.30, 6.62, 3.10, 0.10, 0.09),
    "Energy" := SectorMultiples(9.09, 14.75, 1.66, 1.39, 6.70, 4.15, 0.07, 0.14),
    "Industrials" := SectorMultiples(43.07, 21.97, 4.27, 2.87, 15.35, 1.92, 0.09, 0.13),
    "Basic Materials" := SectorMultiples(15.75, 14.53, 1.61, 0.70, 7.97, 2.55, 0.05, 0.11),
    "Other" := SectorMultiples(22.0, 18.0, 3.0, 2.76, 11.0, 2.0, 0.1, 0.12)
  ]

  const SectorMapping: map<string, string> := map[
    "Technology" := "Technology",
    "Financial Services" := "Financial Services",
    "Real Estate" := "Real Estate",
    "Consumer Cyclical" := "Consumer Cyclical",
    "Consumer Defensive" := "Consumer Defensive",
    "Healthcare" := "Healthcare",
    "Utilities" := "Utilities",
    "Communication Services" := "Communication Services",
    "Energy" := "Energy",
    "Industrials" := "Industrials",
    "Basic Materials" := "Basic Materials",
    "Other" := "Other"
  ]

  /** Every multiple in the table, including the growth rate and ROE, is positive. */
  ghost predicate WellFormed(m: SectorMultiples) {
    && m.currentPe > 0.0 && m.forwardPe > 0.0 && m.pb > 0.0 && m.ps > 0.0
    && m.evEbitda > 0.0 && m.peg > 0.0 && m.growth > 0.0 && m.roe > 0.0
  }

  /** The mapping sends every name it knows to itself, and knows exactly the table's sectors. */
  lemma MappingIsIdentity()
    ensures SectorMapping.Keys == SectorTable.Keys
    ensures forall s :: s in SectorMapping ==> SectorMapping[s] == s
  {
  }

  lemma TableWellFormed()
    ensures OtherSector in SectorTable
    ensures forall s :: s in SectorTable ==> WellFormed(SectorTable[s])
  {
  }

  /** `sector_mapping.get(sector, 'Other')`: always the name of a table entry. */
  function MappedName(sector: string): (name: string)
    ensures name in SectorTable
    ensures sector in SectorTable ==> name == sector
    ensures sector !in SectorTable ==> name == OtherSector
  {
    MappingIsIdentity();
    if sector in SectorMapping then SectorMapping[sector] else OtherSector
  }

  /**
   * `sector_multiples.get(sector_mapping.get(sector, 'Other'), sector_multiples['Other'])`
   * (line 172): a known sector gets its own row, anything else the 'Other' row.
   * The mapped name is always a table key, so the dictionary default is never used.
   */
  function Lookup(sector: string): (m: SectorMultiples)
    ensures sector in SectorTable ==> m == SectorTable[sector]
    ensures sector !in SectorTable ==> m == SectorTable[OtherSector]
    ensures WellFormed(m)
  {
    TableWellFormed();
    SectorTable[MappedName(sector)]
  }

  /**
   * The growth rate read at line 163 through a separate chain of lookups that
   * defaults to 0.05; it is always the growth of the row `Lookup` returns.
   */
  function SectorGrowth(sector: string): (g: real)
    ensures g == Lookup(sector).growth
    ensures g > 0.0
  {
    var name := MappedName(sector);
    if name in SectorTable then SectorTable[name].growth else DefaultGrowth
  }
}
