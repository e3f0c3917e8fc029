/**
 * The static ticker lists `get_index_tickers` falls back on when a listings
 * source cannot be read (app.py lines 58, 70, 82 and 94).
 */
module Listings {
  import opened Universe

  /** The static fallback for the S&P 500 list (line 58). */
  const SP500Fallback: seq<string> := [
    "NVDA", "AAPL", "MSFT", "AMZN", "GOOGL", "AVGO", "GOOG", "META", "TSLA", "BRK.B", "LLY", "JPM",
    "WMT", "V", "ORCL", "XOM", "MA", "JNJ", "NFLX", "PLTR", "ABBV", "COST", "AMD", "BAC", "HD",
    "PG", "GE", "CVX", "CSCO", "KO", "UNH", "IBM", "MU", "WFC", "MS", "CAT", "AXP", "PM", "TMUS",
    "GS", "RTX", "CRM", "MRK", "ABT", "MCD", "TMO", "PEP", "LIN", "ISRG", "UBER", "DIS", "APP",
    "QCOM", "LRCX", "INTU", "T", "AMGN", "AMAT", "C", "NOW", "NEE", "VZ", "INTC", "SCHW", "ANET",
    "BLK", "APH", "BKNG", "TJX", "GEV", "DHR", "GILD", "BSX", "ACN", "SPGI", "KLAC", "BA", "TXN",
    "PFE", "PANW", "ADBE", "SYK", "ETN", "CRWD", "COF", "WELL", "UNP", "PGR", "DE", "LOW", "HON",
    "MDT", "CB", "ADI", "PLD", "COP", "VRTX", "HOOD", "BX", "HCA", "LMT", "KKR", "CEG", "PH",
    "MCK", "CME", "ADP", "CMCSA", "SO", "CVS", "MO", "SBUX", "NEM", "DUK", "BMY", "NKE", "GD",
    "TT", "DELL", "MMC", "DASH", "MMM", "ICE", "AMT", "CDNS", "MCO", "WM", "ORLY", "SHW", "HWM",
    "UPS", "NOC", "JCI", "EQIX", "BK", "MAR", "COIN", "APO", "TDG", "AON", "CTAS", "WMB", "ABNB",
    "MDLZ", "ECL", "USB", "REGN", "SNPS", "MNST", "CSX", "RSG", "DDOG", "AEP", "AZO", "TRV", "PWR",
    "CMI", "ADSK", "NSC", "MSI", "FDX", "CL", "HLT", "WDAY", "FTNT", "PYPL", "MSTR", "WBD", "IDXX",
    "ROST", "PCAR", "EA", "NXPI", "ROP", "BKR", "XEL", "ZS", "FAST", "EXC", "AXON", "TTWO", "FANG",
    "CCEP", "PAYX", "TEAM", "CPRT", "KDP", "CTSH", "GEHC", "VRSK", "KHC", "MCHP", "CSGP", "ODFL",
    "CHTR", "BIIB", "DXCM", "TTD", "LULU", "DRI", "CHD", "TYL", "RL", "CTRA", "NVR", "IP", "AMCR",
    "CPAY", "KEY", "ON", "TSN", "CDW", "WST", "BG", "PFG", "EXPD", "J", "TRMB", "CHRW", "SW",
    "CNC", "ZBH", "PKG", "GPC", "EVRG", "GPN", "MKC", "GDDY", "Q", "INVH", "LNT", "PSKY", "SNA",
    "PNR", "APTV", "LUV", "IFF", "IT", "DD", "LII", "HOLX", "GEN", "ESS", "FTV", "DOW", "WY",
    "BBY", "JBHT", "MAA", "ERIE", "LYB", "TKO", "COO", "TXT", "UHS", "OMC", "ALLE", "DPZ", "KIM",
    "FOX", "EG", "FOXA", "ALB", "FFIV", "AVY", "CF", "BF.B", "SOLV", "NDSN", "BALL", "REG", "CLX",
    "MAS", "WYNN", "AKAM", "HRL", "VTRS", "HII", "IEX", "ZBRA", "HST", "DECK", "DOC", "JKHY",
    "SJM", "BEN", "UDR", "AIZ", "BLDR", "BXP", "DAY", "CPT", "HAS", "PNW", "RVTY", "GL", "IVZ",
    "FDS", "SWK", "SWKS", "EPAM", "AES", "ALGN", "NWSA", "MRNA", "BAX", "CPB", "TECH", "TAP",
    "PAYC", "ARE", "POOL", "AOS", "IPG", "MGM", "GNRC", "APA", "DVA", "HSIC", "FRT", "CAG", "NCLH",
    "MOS", "CRL", "LW", "LKQ", "MTCH", "MOH", "SOLS", "MHK", "NWS"
  ]

  /** The static fallback for the NASDAQ-100 list (line 70). */
  const Nasdaq100Fallback: seq<string> := [
    "NVDA", "AAPL", "MSFT", "AMZN", "GOOGL", "AVGO", "GOOG", "META", "TSLA", "NFLX", "PLTR",
    "COST", "AMD", "ASML", "CSCO", "MU", "AZN", "TMUS", "PEP", "LIN", "ISRG", "SHOP", "APP",
    "QCOM", "LRCX", "PDD", "INTU", "AMGN", "AMAT", "INTC", "BKNG", "GILD", "KLAC", "ARM", "TXN",
    "PANW", "ADBE", "CRWD", "HON", "ADI", "VRTX", "CEG", "MELI", "ADP", "CMCSA", "SBUX", "DASH",
    "CDNS", "ORLY", "MAR", "CTAS", "MRVL", "ABNB", "MDLZ", "REGN", "SNPS", "MNST", "CSX", "DDOG",
    "AEP", "ADSK", "TRI", "WDAY", "FTNT", "PYPL", "MSTR", "WBD", "IDXX", "ROST", "PCAR", "EA",
    "NXPI", "ROP", "BKR", "XEL", "ZS", "FAST", "EXC", "AXON", "TTWO", "FANG", "CCEP", "PAYX",
    "TEAM", "CPRT", "KDP", "CTSH", "GEHC", "VRSK", "KHC", "MCHP", "CSGP", "ODFL", "CHTR", "BIIB",
    "DXCM", "TTD", "LULU", "ON", "CDW", "GFS"
  ]

  /** The static fallback for the Hang Seng list (line 82). */
  const HangSengFallback: seq<string> := [
    "0005.HK", "0011.HK", "00388.HK", "00939.HK", "01299.HK", "01398.HK", "02318.HK", "02388.HK",
    "02628.HK", "03968.HK", "03988.HK", "0002.HK", "0003.HK", "0006.HK", "0836.HK", "01038.HK",
    "02688.HK", "0012.HK", "0016.HK", "0017.HK", "0101.HK", "0688.HK", "0823.HK", "0960.HK",
    "01109.HK", "01113.HK", "01209.HK", "01997.HK", "06098.HK", "0001.HK", "0027.HK", "0066.HK",
    "0175.HK", "0241.HK", "0267.HK", "0288.HK", "0291.HK", "0316.HK", "0322.HK", "0386.HK",
    "0669.HK", "0700.HK", "0762.HK", "0857.HK", "0868.HK", "0881.HK", "0883.HK", "0941.HK",
    "0968.HK", "0981.HK", "0992.HK", "01044.HK", "01088.HK", "01093.HK", "01099.HK", "01177.HK",
    "01211.HK", "01378.HK", "01810.HK", "01876.HK", "01928.HK", "01929.HK", "02015.HK", "02020.HK",
    "02269.HK", "02313.HK", "02319.HK", "02331.HK", "02359.HK", "02382.HK", "02899.HK", "03690.HK",
    "03692.HK", "06618.HK", "06690.HK", "06862.HK", "09618.HK", "09633.HK", "09888.HK", "09961.HK",
    "09988.HK", "09999.HK"
  ]

  /** The static fallback for the Nikkei 225 list (line 94). */
  const NikkeiFallback: seq<string> := [
    "7203.T", "6758.T", "9984.T", "8306.T", "6501.T", "9983.T", "8316.T", "7974.T", "8035.T",
    "6857.T", "8058.T", "7011.T", "8001.T", "6861.T", "4519.T", "8411.T", "9432.T", "6098.T",
    "8031.T", "8766.T", "9434.T", "2914.T", "9433.T", "4063.T", "6503.T", "7741.T", "6701.T",
    "6702.T", "4502.T", "8267.T", "8002.T", "4568.T", "7267.T", "6367.T", "8053.T", "6902.T",
    "6981.T", "8015.T", "5803.T", "8725.T", "3382.T", "4661.T", "6146.T", "5802.T", "8801.T",
    "5108.T", "6301.T", "6762.T", "6954.T", "7269.T", "8750.T", "4578.T", "7751.T", "8591.T",
    "6178.T", "8630.T", "9020.T", "6752.T", "8802.T", "9022.T", "4901.T", "2802.T", "1605.T",
    "8308.T", "4307.T", "6273.T", "4543.T", "6723.T", "4503.T", "1925.T", "8830.T", "8604.T",
    "5401.T", "9766.T", "7013.T", "4452.T", "8309.T", "3659.T", "7832.T", "6971.T", "4689.T",
    "5020.T", "1812.T", "2502.T", "9503.T", "6988.T", "6594.T", "7270.T", "6920.T", "6326.T",
    "4507.T", "7733.T", "9735.T", "1801.T", "9531.T", "1928.T", "9101.T", "4755.T", "9532.T",
    "1802.T"
  ]

  /** The four lists, as the merge receives them. */
  const SourceFallbacks: Fallbacks := Fallbacks(SP500Fallback, Nasdaq100Fallback, HangSengFallback, NikkeiFallback)

  lemma SP500FallbackSize()
    ensures |SP500Fallback| == 331
  {
  }

  lemma Nasdaq100FallbackSize()
    ensures |Nasdaq100Fallback| == 101
  {
  }

  lemma HangSengFallbackSize()
    ensures |HangSengFallback| == 82
  {
  }

  lemma NikkeiFallbackSize()
    ensures |NikkeiFallback| == 100
  {
  }

  /**
   * With every source down, the universe is the four fallbacks: 614 entries
   * before de-duplication, so it is never empty.
   */
  lemma AllSourcesDown()
    ensures |Contributions(SourceFallbacks, Raised, Raised, Raised, Raised)| == 614
  {
    EmptyScrapeIsNotReplaced(SourceFallbacks);
    SP500FallbackSize();
    Nasdaq100FallbackSize();
    HangSengFallbackSize();
    NikkeiFallbackSize();
  }
}
