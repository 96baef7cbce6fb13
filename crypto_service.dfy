/** The data layer (services/cryptoService.ts): the coin-list fetcher and the
    two history fetchers, with their stablecoin special case, the trading-pair
    and URL construction, and the mapping of exchange klines to chart points.

    The network is a parameter `network` from a request URL to the response
    it yields; `parseFloat` is a parameter `parse` from text to a price. */
module CryptoService {
  import opened Types
  import opened Sequences

  const CoinGeckoApiUrl := "https://api.coingecko.com/api/v3"
  const BinanceApiUrl := "https://api.binance.com/api/v3"

  /** The single coin-list request: 20 coins by descending market cap, in USD, with sparklines. */
  const CoinsMarketsUrl := CoinGeckoApiUrl + "/coins/markets?vs_currency=usd&order=market_cap_desc&per_page=20&page=1&sparkline=true"

  /** The stablecoin that has no trading pair against itself, and the quote asset of every pair. */
  const Stablecoin := "usdt"
  const QuoteAsset := "USDT"

  /** Spacing of the synthetic line series: 4 hours in milliseconds. */
  const FourHoursMs := 4 * 60 * 60 * 1000

  // ---------------------------------------------------------------------------
  // Responses

  /** What a `fetch` settles to: a response with a status and, when the body
      is JSON, its decoded value; or a rejection by the transport. */
  datatype Response<T> = Received(status: int, body: Option<T>) | TransportError

  /** `response.ok`: the status is in the success range 200–299, that is,
      its hundreds digit is 2. */
  predicate IsOk(status: int)
    ensures IsOk(status) <==> status / 100 == 2
  {
    200 <= status <= 299
  }

  /** The status check and `response.json()` that every fetcher performs:
      a non-ok status throws, a transport or JSON failure propagates, and
      otherwise the decoded body is returned as is. */
  function ReadBody<T>(resp: Response<T>): (r: Result<T>)
    ensures r.Success? <==> resp.Received? && IsOk(resp.status) && resp.body.Some?
    ensures r.Success? ==> r.value == resp.body.value
    ensures resp.TransportError? ==> r == Failure(NetworkFailure)
    ensures resp.Received? && !IsOk(resp.status) ==> r == Failure(HttpStatus(resp.status))
    ensures resp.Received? && IsOk(resp.status) && resp.body.None? ==> r == Failure(MalformedJson)
  {
    match resp
    case TransportError => Failure(NetworkFailure)
    case Received(status, body) =>
      if !IsOk(status) then Failure(HttpStatus(status))
      else if body.None? then Failure(MalformedJson)
      else Success(body.value)
  }

  /** `fetchCoins`: one request to the fixed coin-list URL; the list comes
      back exactly as received (same coins, same order), and every failure
      is surfaced unchanged. */
  function FetchCoins(network: string -> Response<seq<Coin>>): (r: Result<seq<Coin>>)
    ensures var resp := network(CoinsMarketsUrl);
      && (r.Success? <==> resp.Received? && IsOk(resp.status) && resp.body.Some?)
      && (r.Success? ==> r.value == resp.body.value)
      && (resp.Received? && !IsOk(resp.status) ==> r == Failure(HttpStatus(resp.status)))
      && (resp.TransportError? ==> r == Failure(NetworkFailure))
  {
    ReadBody(network(CoinsMarketsUrl))
  }

  // ---------------------------------------------------------------------------
  // Symbols

  /** `toLowerCase` on one character (ASCII letters only). */
  function LowerChar(c: char): char {
    if 'A' <= c <= 'Z' then (c as int + 32) as char else c
  }

  /** `toUpperCase` on one character (ASCII letters only). */
  function UpperChar(c: char): char {
    if 'a' <= c <= 'z' then (c as int - 32) as char else c
  }

  function ToLower(s: string): (r: string)
    ensures |r| == |s| && forall i :: 0 <= i < |s| ==> r[i] == LowerChar(s[i])
  {
    MapSeq(LowerChar, s)
  }

  function ToUpper(s: string): (r: string)
    ensures |r| == |s| && forall i :: 0 <= i < |s| ==> r[i] == UpperChar(s[i])
  {
    MapSeq(UpperChar, s)
  }

  /** The stablecoin test `coinSymbol.toLowerCase() === 'usdt'`. It holds
      exactly for the symbols whose pair would be the stablecoin against
      itself, `USDTUSDT`, which the exchange does not list. */
  predicate IsStablecoin(coinSymbol: string)
    ensures IsStablecoin(coinSymbol) <==> PairSymbol(coinSymbol) == QuoteAsset + QuoteAsset
  {
    assert PairSymbol(coinSymbol) == QuoteAsset + QuoteAsset <==> ToUpper(coinSymbol) == QuoteAsset by {
      if PairSymbol(coinSymbol) == QuoteAsset + QuoteAsset {
        assert ToUpper(coinSymbol) == PairSymbol(coinSymbol)[..|coinSymbol|];
      }
    }
    ToLower(coinSymbol) == Stablecoin
  }

  /** The test is case-insensitive and exact: it holds for precisely the
      four-letter symbols spelling u, s, d, t in any mix of cases. */
  lemma IsStablecoinSpelling(coinSymbol: string)
    ensures IsStablecoin(coinSymbol) <==>
      |coinSymbol| == 4 &&
      coinSymbol[0] in {'u', 'U'} && coinSymbol[1] in {'s', 'S'} &&
      coinSymbol[2] in {'d', 'D'} && coinSymbol[3] in {'t', 'T'}
  {
  }

  /** Every spelling of the stablecoin the app can receive takes the synthetic branch. */
  lemma StablecoinSpellings()
    ensures IsStablecoin("usdt") && IsStablecoin("USDT") && IsStablecoin("Usdt")
    ensures !IsStablecoin("usdc") && !IsStablecoin("usdt ") && !IsStablecoin("")
  {
  }

  /** The exchange trading pair `${coinSymbol.toUpperCase()}USDT`: the
      symbol upper-cased letter by letter, followed by the quote asset. */
  function PairSymbol(coinSymbol: string): (pair: string)
    ensures |pair| == |coinSymbol| + |QuoteAsset|
    ensures pair[..|coinSymbol|] == ToUpper(coinSymbol) && pair[|coinSymbol|..] == QuoteAsset
    ensures forall i :: 0 <= i < |coinSymbol| ==> !('a' <= pair[i] <= 'z')
  {
    ToUpper(coinSymbol) + QuoteAsset
  }

  /** The pair does not depend on how the caller cased the symbol. */
  lemma PairSymbolIgnoresCase(coinSymbol: string)
    ensures PairSymbol(ToLower(coinSymbol)) == PairSymbol(coinSymbol)
    ensures PairSymbol(ToUpper(coinSymbol)) == PairSymbol(coinSymbol)
  {
  }

  // ---------------------------------------------------------------------------
  // Kline requests

  /** A request to the exchange's kline endpoint; the limit is sent as the
      literal text the fetcher writes into its URL. */
  datatype KlineQuery = KlineQuery(symbol: string, interval: string, limit: string) {
    /** `${BINANCE_API_URL}/klines?symbol=…&interval=…&limit=…`: the endpoint,
        then the pair, the interval and the limit as query parameters. */
    function Url(): (u: string)
      ensures var head := BinanceApiUrl + "/klines?symbol=" + symbol + "&interval=" + interval + "&limit=";
        |u| == |head| + |limit| && u[..|head|] == head && u[|head|..] == limit
    {
      BinanceApiUrl + "/klines?symbol=" + symbol + "&interval=" + interval + "&limit=" + limit
    }
  }

  /** Line history: 4-hour candles, 42 of them (7 days), for the symbol's pair. */
  function LineQuery(coinSymbol: string): (q: KlineQuery)
    ensures q.Url() == "https://api.binance.com/api/v3/klines?symbol=" + ToUpper(coinSymbol) + "USDT&interval=4h&limit=42"
  {
    var q := KlineQuery(PairSymbol(coinSymbol), "4h", "42");
    UrlShape(ToUpper(coinSymbol), "4h", "42");
    assert "USDT&interval=" + "4h" + "&limit=" + "42" == "USDT&interval=4h&limit=42";
    q
  }

  /** OHLC history: daily candles, 7 of them, for the symbol's pair. */
  function OhlcQuery(coinSymbol: string): (q: KlineQuery)
    ensures q.Url() == "https://api.binance.com/api/v3/klines?symbol=" + ToUpper(coinSymbol) + "USDT&interval=1d&limit=7"
  {
    var q := KlineQuery(PairSymbol(coinSymbol), "1d", "7");
    UrlShape(ToUpper(coinSymbol), "1d", "7");
    assert "USDT&interval=" + "1d" + "&limit=" + "7" == "USDT&interval=1d&limit=7";
    q
  }

  /** Regrouping of a kline URL around the upper-cased symbol. */
  lemma UrlShape(upper: string, interval: string, limit: string)
    ensures BinanceApiUrl + "/klines?symbol=" + (upper + QuoteAsset) + "&interval=" + interval + "&limit=" + limit ==
      "https://api.binance.com/api/v3/klines?symbol=" + upper + ("USDT&interval=" + interval + "&limit=" + limit)
  {
  }

  // ---------------------------------------------------------------------------
  // Kline rows

  /** The leading fields of one exchange kline row
      `[openTime, open, high, low, close, ...]`; prices arrive as text. */
  datatype Kline = Kline(openTime: int, open: string, high: string, low: string, close: string)

  /** Line-history mapping: each row becomes `[openTime, parse(close)]`,
      one point per row, in the rows' order. */
  function KlinesToPrices(rows: seq<Kline>, parse: string -> real): (prices: seq<(int, real)>)
    ensures |prices| == |rows|
    ensures forall k :: 0 <= k < |rows| ==> prices[k].0 == rows[k].openTime && prices[k].1 == parse(rows[k].close)
  {
    MapSeq((row: Kline) => (row.openTime, parse(row.close)), rows)
  }

  /** Only the open time and the close reach the line series: rows that
      agree on those give the same series whatever their open, high and low. */
  lemma KlinesToPricesUsesOnlyClose(rows: seq<Kline>, rows': seq<Kline>, parse: string -> real)
    requires |rows| == |rows'|
    requires forall k :: 0 <= k < |rows| ==> rows[k].openTime == rows'[k].openTime && rows[k].close == rows'[k].close
    ensures KlinesToPrices(rows, parse) == KlinesToPrices(rows', parse)
  {
  }

  /** OHLC mapping: each row becomes `[openTime, parse(open), parse(high),
      parse(low), parse(close)]`, one candle per row, in the rows' order. */
  function KlinesToCandles(rows: seq<Kline>, parse: string -> real): (data: OHLCData)
    ensures |data| == |rows|
    ensures forall k :: 0 <= k < |rows| ==>
      data[k] == (rows[k].openTime, parse(rows[k].open), parse(rows[k].high), parse(rows[k].low), parse(rows[k].close))
  {
    MapSeq((row: Kline) => (row.openTime, parse(row.open), parse(row.high), parse(row.low), parse(row.close)), rows)
  }

  /** The two mappings agree: each line point is the open time and close of
      the candle built from the same row. */
  lemma PricesAreCandleCloses(rows: seq<Kline>, parse: string -> real)
    ensures var prices, candles := KlinesToPrices(rows, parse), KlinesToCandles(rows, parse);
      |prices| == |candles| &&
      forall k :: 0 <= k < |prices| ==> prices[k] == (candles[k].0, candles[k].4)
  {
  }

  // ---------------------------------------------------------------------------
  // Synthetic stablecoin series

  /** The flat stablecoin line: 42 points priced 1.00, 4 hours apart, the last at `now`. */
  function SyntheticLine(now: int): (prices: seq<(int, real)>)
    ensures |prices| == 42
    ensures forall k :: 0 <= k < |prices| ==> prices[k].1 == 1.0
    ensures prices[0].0 == now - 41 * FourHoursMs && prices[41].0 == now
    ensures forall k :: 0 < k < |prices| ==> prices[k].0 == prices[k - 1].0 + FourHoursMs
    ensures forall j, k :: 0 <= j < k < |prices| ==> prices[j].0 < prices[k].0
  {
    seq(42, k requires 0 <= k < 42 => (now - (41 - k) * FourHoursMs, 1.0))
  }

  /** The loop that builds the flat line, oldest point first. */
  method BuildSyntheticLine(now: int) returns (prices: seq<(int, real)>)
    ensures prices == SyntheticLine(now)
  {
    prices := [];
    var i := 41;
    while i >= 0
      invariant -1 <= i <= 41
      invariant |prices| == 41 - i
      invariant forall k :: 0 <= k < |prices| ==> prices[k] == (now - (41 - k) * FourHoursMs, 1.0)
    {
      prices := prices + [(now - i * FourHoursMs, 1.0)];
      i := i - 1;
    }
  }

  /** The seven flat stablecoin candles; `dayStart(i)` is the instant local
      midnight began `i` days before now. Oldest day first, every price 1.00. */
  function SyntheticCandles(dayStart: nat -> int): (data: OHLCData)
    ensures |data| == 7
    ensures forall k :: 0 <= k < |data| ==>
      data[k].1 == 1.0 && data[k].2 == 1.0 && data[k].3 == 1.0 && data[k].4 == 1.0
    ensures forall k :: 0 <= k < |data| ==> data[k].0 == dayStart(6 - k)
  {
    seq(7, k requires 0 <= k < 7 => (dayStart(6 - k), 1.0, 1.0, 1.0, 1.0))
  }

  /** The loop that builds the flat candles, from six days back to today. */
  method BuildSyntheticCandles(dayStart: nat -> int) returns (data: OHLCData)
    ensures data == SyntheticCandles(dayStart)
  {
    data := [];
    var i := 6;
    while i >= 0
      invariant -1 <= i <= 6
      invariant |data| == 6 - i
      invariant forall k :: 0 <= k < |data| ==> data[k] == (dayStart(6 - k), 1.0, 1.0, 1.0, 1.0)
    {
      data := data + [(dayStart(i), 1.0, 1.0, 1.0, 1.0)];
      i := i - 1;
    }
  }

  /** An earlier day starts earlier: if each midnight precedes the one after
      it, the synthetic candles' timestamps strictly increase. */
  lemma SyntheticCandlesAscending(dayStart: nat -> int)
    requires forall i: nat :: dayStart(i + 1) < dayStart(i)
    ensures var data := SyntheticCandles(dayStart);
      forall j, k :: 0 <= j < k < |data| ==> data[j].0 < data[k].0
  {
    var data := SyntheticCandles(dayStart);
    forall j, k | 0 <= j < k < |data|
      ensures data[j].0 < data[k].0
    {
      EarlierDayStartsEarlier(dayStart, 6 - k, 6 - j);
    }
  }

  lemma {:induction false} EarlierDayStartsEarlier(dayStart: nat -> int, newer: nat, older: nat)
    requires forall i: nat :: dayStart(i + 1) < dayStart(i)
    requires newer < older
    ensures dayStart(older) < dayStart(newer)
    decreases older - newer
  {
    if newer + 1 < older {
      EarlierDayStartsEarlier(dayStart, newer + 1, older);
    }
  }

  // ---------------------------------------------------------------------------
  // History fetchers

  /** `fetchCoinChartData`: the stablecoin gets the flat synthetic line and no
      request is made (`requested` is None); any other symbol issues the
      4-hour, 42-candle query for its pair and maps the klines to
      `[openTime, close]` points, failing with the fetch's own error. */
  method FetchCoinChartData(coinSymbol: string, now: int, network: string -> Response<seq<Kline>>, parse: string -> real)
    returns (requested: Option<KlineQuery>, r: Result<ChartData>)
    ensures requested.None? <==> IsStablecoin(coinSymbol)
    ensures requested.None? ==> r == Success(ChartData(SyntheticLine(now)))
    ensures requested.Some? ==> requested.value == LineQuery(coinSymbol)
    ensures requested.Some? ==>
      var body := ReadBody(network(requested.value.Url()));
      && (r.Success? <==> body.Success?)
      && (r.Success? ==> r.value.prices == KlinesToPrices(body.value, parse))
      && (r.Failure? ==> r.error == body.error)
  {
    if IsStablecoin(coinSymbol) {
      var prices := BuildSyntheticLine(now);
      return None, Success(ChartData(prices));
    }
    var query := LineQuery(coinSymbol);
    requested := Some(query);
    match ReadBody(network(query.Url()))
    case Success(rows) => r := Success(ChartData(KlinesToPrices(rows, parse)));
    case Failure(e) => r := Failure(e);
  }

  /** `fetchCoinOHLCData`: the stablecoin gets seven flat synthetic candles
      and no request is made; any other symbol issues the daily, 7-candle
      query for its pair and maps the klines to candles, failing with the
      fetch's own error. */
  method FetchCoinOHLCData(coinSymbol: string, dayStart: nat -> int, network: string -> Response<seq<Kline>>, parse: string -> real)
    returns (requested: Option<KlineQuery>, r: Result<OHLCData>)
    ensures requested.None? <==> IsStablecoin(coinSymbol)
    ensures requested.None? ==> r == Success(SyntheticCandles(dayStart))
    ensures requested.Some? ==> requested.value == OhlcQuery(coinSymbol)
    ensures requested.Some? ==>
      var body := ReadBody(network(requested.value.Url()));
      && (r.Success? <==> body.Success?)
      && (r.Success? ==> r.value == KlinesToCandles(body.value, parse))
      && (r.Failure? ==> r.error == body.error)
  {
    if IsStablecoin(coinSymbol) {
      var data := BuildSyntheticCandles(dayStart);
      return None, Success(data);
    }
    var query := OhlcQuery(coinSymbol);
    requested := Some(query);
    match ReadBody(network(query.Url()))
    case Success(rows) => r := Success(KlinesToCandles(rows, parse));
    case Failure(e) => r := Failure(e);
  }
}
