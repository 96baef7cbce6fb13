/** The records the dashboard passes around (types.ts), plus the small
    wrappers used for optional values and for the failures a fetch can raise. */
module Types {

  /** A value that may be absent: `T | null` / `T | undefined` in the source. */
  datatype Option<+T> = None | Some(value: T)

  /** Why a fetch failed. An `HttpStatus` failure is the
      `HTTP error! status: <status>` error the fetchers throw for a response
      that is not ok; the other two are the transport rejecting and the body
      not being JSON, both of which the fetchers rethrow unchanged. */
  datatype FetchError = HttpStatus(status: int) | NetworkFailure | MalformedJson

  /** The outcome of an async fetcher: its resolved value or the error it throws. */
  datatype Result<+T> = Success(value: T) | Failure(error: FetchError)

  /** A coin summary as the market-data API returns it. */
  datatype Coin = Coin(
    id: string,
    symbol: string,
    name: string,
    image: string,
    currentPrice: real,
    marketCap: real,
    marketCapRank: int,
    totalVolume: real,
    priceChangePercentage24h: real,
    sparklineIn7d: seq<real>)

  /** One point of the line chart: epoch milliseconds and a price. */
  datatype HistoricalDataPoint = HistoricalDataPoint(timestamp: int, price: real)

  /** The line-history fetcher's result: `[timestamp, price]` pairs. */
  datatype ChartData = ChartData(prices: seq<(int, real)>)

  /** `[timestamp, open, high, low, close]` */
  type OHLCDataPointArray = (int, real, real, real, real)

  /** One candle of the candlestick chart. */
  datatype OHLCDataPoint = OHLCDataPoint(timestamp: int, open: real, high: real, low: real, close: real)

  /** The OHLC fetcher's result. */
  type OHLCData = seq<OHLCDataPointArray>
}
