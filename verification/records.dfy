/** The stock record (`StockData`) that the quote service builds and the page and the
    hook keep in lists and caches. Optional fields are `Option`s: `None` is a property
    the record does not have (`undefined`). */
module Records {
  import opened Wrappers
  import opened Dividends

  /** `totalNetAssets`, typed `any` in the record: absent, `null`, or a number. */
  datatype NetAssets = Undefined | Null | Amount(value: real)

  /** One day of the two-week price history: its day number and closing price. */
  datatype PricePoint = PricePoint(day: int, price: real)

  datatype StockData = StockData(
    symbol: string,
    name: string,
    longName: Option<string>,
    regularMarketPrice: Option<real>,
    dayChange: Option<real>,
    dividendHistory: seq<DividendEvent>,
    yieldRate: real,
    dividendYield: real,
    marketCap: Option<real>,
    monthChange: Option<real>,
    fiftyDayAverageChangePercent: Option<real>,
    payFrequency: string,
    recommendationKey: string,
    isEtf: bool,
    totalNetAssets: NetAssets,
    source: string,
    error: bool,
    errorMessage: Option<string>,
    opinion: Option<string>,
    priceHistory: seq<PricePoint>)

  /** JavaScript truthiness of an optional number: present and non-zero. */
  predicate Truthy(x: Option<real>)
  {
    x.Some? && x.value != 0.0
  }
}
