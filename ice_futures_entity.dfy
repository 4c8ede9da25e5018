/**
 * The futures records: one row of the ICE table, the summary statistics, the
 * data-quality report and the history the API returns.
 */
module IceFuturesEntity {
  import opened Wrappers
  import opened JsRuntime

  /** One parsed row of the ICE table, with the contract fields the parser adds. */
  datatype IceFuturesData = IceFuturesData(
    date: string,
    time: string,
    price: real,
    change: real,
    changePercent: real,
    volume: int,
    openInterest: int,
    high: real,
    low: real,
    settlement: real,
    timestamp: int,
    contract: string,
    contractMonth: string,
    contractYear: int)

  datatype Trend = Bullish | Bearish | Neutral

  /**
   * The summary of a price series. `priceChange30d` may be NaN or infinite when
   * the price thirty points back is zero.
   */
  datatype Statistics = Statistics(
    avgPrice: real,
    maxPrice: real,
    minPrice: real,
    volatility: real,
    trend: Trend,
    priceChange30d: JsNumber,
    volumeAvg: real)

  /** The quality report; a score is None where the division is 0/0 (NaN). */
  datatype DataQuality = DataQuality(
    totalDataPoints: nat,
    validPrices: nat,
    validVolumes: nat,
    qualityScore: Option<int>,
    completeness: Option<int>,
    recommendation: string)

  datatype TimeRange = OneMonth | ThreeMonths | SixMonths | OneYear {
    /** The wire form: "1M", "3M", "6M" or "1Y". */
    function Name(): string {
      match this
      case OneMonth => "1M"
      case ThreeMonths => "3M"
      case SixMonths => "6M"
      case OneYear => "1Y"
    }
  }

  /** The range a query string names, if it names one. */
  function ParseTimeRange(s: string): (r: Option<TimeRange>)
    ensures r.Some? ==> r.value.Name() == s
    ensures r.None? ==> forall t: TimeRange :: t.Name() != s
  {
    if s == "1M" then Some(OneMonth)
    else if s == "3M" then Some(ThreeMonths)
    else if s == "6M" then Some(SixMonths)
    else if s == "1Y" then Some(OneYear)
    else None
  }

  /**
   * The `source` object of a history. It is an object, not a value: copies of a
   * history made with the spread operator share it.
   */
  class ScrapeSource {
    var url: string
    var scrapeTime: string

    constructor(url: string, scrapeTime: string)
      ensures this.url == url && this.scrapeTime == scrapeTime
    {
      this.url := url;
      this.scrapeTime := scrapeTime;
    }
  }

  datatype IceFuturesHistory = IceFuturesHistory(
    symbol: string,
    name: string,
    exchange: string,
    currency: string,
    lastUpdate: string,
    dataPoints: int,
    timeRange: TimeRange,
    data: seq<IceFuturesData>,
    statistics: Option<Statistics>,
    source: ScrapeSource,
    dataQuality: Option<DataQuality>)
}
