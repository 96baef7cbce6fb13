# CryptoPulse dashboard: data layer and app state, in Dafny

CryptoPulse is a browser dashboard. It loads the top 20 coins from a
market-data API. For the selected coin it loads two price histories from an
exchange's kline (candle) endpoint: a 7-day line series at 4-hour intervals
and 7 daily candles. This project models and proves two parts of it:

- **the data layer** (`services/cryptoService.ts`), module `CryptoService`:
  - the coin-list fetcher;
  - the two history fetchers, including the Tether (`usdt`) special case,
    which skips the network and synthesizes flat 1.00 series;
  - the trading-pair and request-URL construction;
  - the mapping of exchange kline rows to line points and candles.
- **the app state** (`App.tsx`), module `App`: class `AppState` holds the
  component's seven state slots plus the chart type. It has one method per
  event: coin-list load start and completion, coin selection, chart-type
  toggle, and chart-cycle start and completion. Pure functions give the
  coin lookup, the displayed coin name and the chart that is rendered.

The records of `types.ts` are datatypes in module `Types`. Module `Sequences`
holds the element-wise `map` that the fetchers and the app both use.

Inputs that the code gets from the environment are parameters:

- the network is a function `network` from a request URL to a `Response`
  (a status with an optional decoded JSON body, or a transport error);
- `parseFloat` is a function `parse` from text to a `real` price;
- `Date.now()` is the integer `now`;
- the local-midnight calendar arithmetic of the Tether candles is a function
  `dayStart(i)`, the instant at which local midnight fell `i` days ago.

The chart effect can interleave with other events. The model therefore
exposes its two halves as separate events, `StartChartCycle` and
`CompleteChartCycle`. `FetchAllChartData` runs the two halves back to back.

The chart effect (`App.tsx:41-74`) has no guard against an older chart cycle
finishing after a newer selection: whichever cycle completes last is
committed, and the model keeps that behaviour. `App.StaleCycleOverwritesNewer` proves
this scenario. After it, the chart shows coin A's series while coin B is
selected.

## Model

| member | source | states |
|---|---|---|
| `Sequences.MapSeq` | services/cryptoService.ts:62 | `.map` keeps length and order: result element k is `f` of input element k |
| `CryptoService.IsOk` | services/cryptoService.ts:56 | `response.ok` holds exactly for the 2xx statuses (hundreds digit 2) |
| `CryptoService.ReadBody` | services/cryptoService.ts:56-59 | the fetcher succeeds exactly when the status is 200–299 and the body decodes; a non-ok status fails with `HttpStatus(status)`; transport and JSON failures propagate |
| `CryptoService.FetchCoins` | services/cryptoService.ts:7-27 | one request to the fixed 20-coin URL; on success the list is the body as received, same coins in the same order; every failure is rethrown |
| `CryptoService.ToLower` | services/cryptoService.ts:33 | lower-casing keeps length and lower-cases each character in place |
| `CryptoService.ToUpper` | services/cryptoService.ts:45 | upper-casing keeps length and upper-cases each character in place |
| `CryptoService.IsStablecoin` | services/cryptoService.ts:33 | `toLowerCase() === 'usdt'` holds exactly for the symbols whose pair would be `USDTUSDT` |
| `CryptoService.IsStablecoinSpelling` | services/cryptoService.ts:33 | the stablecoin test holds iff the symbol is four letters spelling u, s, d, t in any mix of cases |
| `CryptoService.StablecoinSpellings` | services/cryptoService.ts:73 | "usdt", "USDT" and "Usdt" take the synthetic branch; "usdc", "usdt " and "" do not |
| `CryptoService.PairSymbol` | services/cryptoService.ts:45 | the pair is the upper-cased symbol followed by "USDT"; it has no lower-case ASCII letter in the symbol part |
| `CryptoService.PairSymbolIgnoresCase` | services/cryptoService.ts:87 | a lower-cased or upper-cased spelling of a symbol gives the same pair |
| `CryptoService.KlineQuery.Url` | services/cryptoService.ts:47-48 | the URL is the kline endpoint with the pair, the interval and the limit as query parameters, ending in exactly the limit text |
| `CryptoService.LineQuery` | services/cryptoService.ts:45-48 | line history requests exactly `…/klines?symbol=<UPPER>USDT&interval=4h&limit=42` |
| `CryptoService.OhlcQuery` | services/cryptoService.ts:87-90 | OHLC history requests exactly `…/klines?symbol=<UPPER>USDT&interval=1d&limit=7` |
| `CryptoService.KlinesToPrices` | services/cryptoService.ts:60-62 | one point per kline row, in row order; point k is row k's open time and parsed close |
| `CryptoService.KlinesToPricesUsesOnlyClose` | services/cryptoService.ts:62 | rows that agree on open time and close give the same line series whatever their open, high and low |
| `CryptoService.KlinesToCandles` | services/cryptoService.ts:101-110 | one candle per kline row, in row order; candle k is row k's open time and its parsed open, high, low and close |
| `CryptoService.PricesAreCandleCloses` | services/cryptoService.ts:102-103 | for the same rows, line point k is the timestamp and close of candle k |
| `CryptoService.SyntheticLine` | services/cryptoService.ts:34-41 | the flat series has 42 points, each priced 1.00; the first is at `now - 41*14400000`, the last at `now`; consecutive points are exactly 14,400,000 ms apart; timestamps strictly increase |
| `CryptoService.BuildSyntheticLine` | services/cryptoService.ts:35-40 | the `for (i = 41; i >= 0; i--)` loop builds exactly that flat series |
| `CryptoService.SyntheticCandles` | services/cryptoService.ts:74-83 | exactly 7 candles, open = high = low = close = 1.00; candle k starts at the midnight `6 - k` days back |
| `CryptoService.BuildSyntheticCandles` | services/cryptoService.ts:75-82 | the `for (i = 6; i >= 0; i--)` loop builds exactly those candles |
| `CryptoService.SyntheticCandlesAscending` | services/cryptoService.ts:77-81 | if each midnight precedes the next one, the candle timestamps strictly increase |
| `CryptoService.FetchCoinChartData` | services/cryptoService.ts:30-68 | the stablecoin (any case) issues no request and yields the flat line. Any other symbol requests its pair at 4h/42. On success the result is the mapped klines; on failure, the fetch's own error |
| `CryptoService.FetchCoinOHLCData` | services/cryptoService.ts:71-115 | the stablecoin issues no request and yields the 7 flat candles. Any other symbol requests its pair at 1d/7. On success the result is the mapped klines; on failure, the fetch's own error |
| `App.ChartFailedMessage` | App.tsx:65 | the chart failure message is the fixed prefix, then the coin's name, then the fixed suffix |
| `App.FindById` | App.tsx:77 | `coins.find`: None iff no coin has the id; otherwise a listed coin with that id, and no earlier coin has it |
| `App.SelectedCoinName` | App.tsx:83 | the selected coin's name, or "Crypto" when nothing is selected or the name is empty (falsy) |
| `App.RenderChart` | App.tsx:85-99 | while the chart loads, the spinner and neither dataset. Otherwise `line` shows `chartData` and `candle` shows `ohlcData`, titled with the selected coin name |
| `App.ToHistoricalPoints` | App.tsx:54-56 | each `[timestamp, price]` becomes `{timestamp, price}`; length and order kept |
| `App.ToOhlcPoints` | App.tsx:59-61 | each `[t, o, h, l, c]` becomes `{timestamp, open, high, low, close}`; length and order kept |
| `App.ConversionsAreLossless` | App.tsx:54-61 | the tuples can be read back from the converted records unchanged |
| `App.JoinBoth` | App.tsx:49-52 | `Promise.all` yields both results iff both fetches succeed; otherwise the cycle fails with no partial result |
| `App.AppState.constructor` | App.tsx:11-18 | the initial state: no coins, no selection, empty series, coin list loading, chart not loading, no error, line chart |
| `App.AppState.StartCoinLoad` | App.tsx:22-23 | clears the error and marks the coin list loading; nothing else changes |
| `App.AppState.CompleteCoinLoad` | App.tsx:24-33 | on success, coins become the fetched list and the first fetched coin is selected (selection unchanged for an empty list). On failure, the fixed message is set and coins are kept. Loading ends either way |
| `App.AppState.FetchCoinData` | App.tsx:20-34 | a whole coin load ends with the fetched list or the failure message, the error cleared on success, and not loading |
| `App.AppState.SelectCoin` | App.tsx:76-81 | the selection becomes the first coin with the id; an unknown id leaves it unchanged; no other slot changes |
| `App.AppState.SetChartType` | App.tsx:120-121 | the toggle changes only the chart type |
| `App.AppState.StartChartCycle` | App.tsx:41-47 | with no selection nothing happens. Otherwise the chart is marked loading, the error is cleared, and the cycle is tied to the selected coin |
| `App.AppState.CompleteChartCycle` | App.tsx:54-70 | on success both converted series are committed. On failure both series are emptied and the error names the cycle's coin. Loading ends either way; coins and selection are untouched |
| `App.AppState.FetchAllChartData` | App.tsx:41-74 | a whole cycle commits both series or neither and ends not loading. A stablecoin selection yields the synthetic series. Any other selection commits the mapped klines of the 4h/42 and 1d/7 responses exactly when both reads succeed |
| `App.StablecoinChartIsFlat` | App.tsx:44-62 | after selecting Tether, the chart holds 42 points and 7 candles, every price 1.00, whatever the network returns, with no error |
| `App.StaleCycleOverwritesNewer` | App.tsx:41-74 | a cycle for coin A that completes after coin B's commits A's series while B stays selected |

## Left out

- HTTP details: request headers, `console.error` logging and the text of the thrown `Error`. A non-ok status is kept as `HttpStatus(status)`.
- JSON decoding: a response body is either a decoded value or undecodable. A kline row is a record of its first five fields (open time, then open, high, low and close as text). The trailing fields the code never reads are not represented. The code would read short or malformed rows as `undefined`/`NaN`; the model does not represent such rows.
- `parseFloat` and floating point: prices are `real` and parsing is the abstract `parse`. `NaN` and rounding are not modelled. Timestamps are exact integers.
- `CryptoService.ToLower`, `CryptoService.ToUpper`: case mapping covers ASCII letters only. JavaScript's `toLowerCase`/`toUpperCase` also map other Unicode letters.
- `CryptoService.SyntheticCandles`: the timestamps are the abstract `dayStart(i)`. The code computes them with `setDate` and `setHours(0, 0, 0, 0)` in the local time zone, so day length and daylight-saving time are not modelled. Only the count, the order given ordered midnights, and the 1.00 prices are proved.
- `App.JoinBoth`: `Promise.all` rejects with whichever fetch fails first in time. The app discards that error, so the join keeps only success or failure.
- Concurrency: the events can be applied in any order, which covers the interleavings of async effects. Nothing cancels or orders in-flight requests.
- React scheduling: the chart effect fires when `selectedCoin` changes by reference identity. The model leaves the caller to fire `StartChartCycle`; it does not derive it from re-renders.
- Rendering: JSX, the chart components in `components/` (axis padding, candle geometry, number formatting) and the loading skeleton.
