/** The dashboard's state and its event handlers (App.tsx): loading the coin
    list, selecting a coin, and the chart cycle that fetches both histories
    for the selected coin; plus the derived coin name and the chart choice. */
module App {
  import opened Types
  import opened Sequences
  import CryptoService

  datatype ChartType = Line | Candle

  /** What `renderChart` puts on screen. */
  datatype ChartView =
    | Spinner
    | PriceChart(points: seq<HistoricalDataPoint>, coinName: string)
    | CandleChart(candles: seq<OHLCDataPoint>, coinName: string)

  /** A snapshot of every state slot of the app. */
  datatype Snapshot = Snapshot(
    coins: seq<Coin>,
    selectedCoin: Option<Coin>,
    chartData: seq<HistoricalDataPoint>,
    ohlcData: seq<OHLCDataPoint>,
    loadingCoins: bool,
    loadingChart: bool,
    error: Option<string>,
    chartType: ChartType)

  const CoinsLoadFailedMessage := "Failed to load cryptocurrency data. Please try again later."

  const ChartFailedPrefix := "Failed to load chart for "
  const ChartFailedSuffix := ". It may not be available on Binance."

  /** The chart-cycle failure message, which names the coin. */
  function ChartFailedMessage(coinName: string): (m: string)
    ensures |m| == |ChartFailedPrefix| + |coinName| + |ChartFailedSuffix|
    ensures m[..|ChartFailedPrefix|] == ChartFailedPrefix
    ensures m[|ChartFailedPrefix|..|ChartFailedPrefix| + |coinName|] == coinName
    ensures m[|ChartFailedPrefix| + |coinName|..] == ChartFailedSuffix
  {
    ChartFailedPrefix + coinName + ChartFailedSuffix
  }

  /** `coins.find((c) => c.id === coinId)`: the first coin with that id, or
      None when no coin has it. */
  function FindById(coins: seq<Coin>, coinId: string): (found: Option<Coin>)
    ensures found.None? <==> forall k :: 0 <= k < |coins| ==> coins[k].id != coinId
    ensures found.Some? ==>
      exists k :: 0 <= k < |coins| && coins[k] == found.value && found.value.id == coinId &&
        forall j :: 0 <= j < k ==> coins[j].id != coinId
  {
    if coins == [] then None
    else if coins[0].id == coinId then Some(coins[0])
    else
      var rest := FindById(coins[1..], coinId);
      assert rest.Some? ==>
        exists k :: 0 <= k < |coins| && coins[k] == rest.value && rest.value.id == coinId &&
          forall j :: 0 <= j < k ==> coins[j].id != coinId
      by {
        if rest.Some? {
          var k :| 0 <= k < |coins| - 1 && coins[1..][k] == rest.value && rest.value.id == coinId &&
            forall j :: 0 <= j < k ==> coins[1..][j].id != coinId;
          assert coins[k + 1] == rest.value;
          forall j | 0 <= j < k + 1 ensures coins[j].id != coinId {
            if j > 0 { assert coins[j] == coins[1..][j - 1]; }
          }
        }
      }
      rest
  }

  /** `selectedCoin?.name || 'Crypto'`: the coin's name, unless there is no
      coin or its name is empty (falsy), in which case "Crypto". */
  function SelectedCoinName(selected: Option<Coin>): (name: string)
    ensures selected.Some? && selected.value.name != "" ==> name == selected.value.name
    ensures selected.None? || selected.value.name == "" ==> name == "Crypto"
    ensures name != ""
  {
    if selected.Some? && selected.value.name != "" then selected.value.name else "Crypto"
  }

  /** `renderChart`: a spinner while the chart cycle runs; otherwise the line
      chart over `chartData` or the candle chart over `ohlcData`, whichever
      chart type is chosen, titled with the selected coin's name. */
  function RenderChart(s: Snapshot): (v: ChartView)
    ensures v.Spinner? <==> s.loadingChart
    ensures v.PriceChart? <==> !s.loadingChart && s.chartType.Line?
    ensures v.CandleChart? <==> !s.loadingChart && s.chartType.Candle?
    ensures v.PriceChart? ==> v.points == s.chartData
    ensures v.CandleChart? ==> v.candles == s.ohlcData
    ensures !v.Spinner? ==> v.coinName == SelectedCoinName(s.selectedCoin)
  {
    if s.loadingChart then Spinner
    else if s.chartType.Line? then PriceChart(s.chartData, SelectedCoinName(s.selectedCoin))
    else CandleChart(s.ohlcData, SelectedCoinName(s.selectedCoin))
  }

  /** `([timestamp, price]) => ({ timestamp, price })` over the line series. */
  function ToHistoricalPoints(prices: seq<(int, real)>): (points: seq<HistoricalDataPoint>)
    ensures |points| == |prices|
    ensures forall k :: 0 <= k < |prices| ==>
      points[k].timestamp == prices[k].0 && points[k].price == prices[k].1
  {
    MapSeq((p: (int, real)) => HistoricalDataPoint(p.0, p.1), prices)
  }

  /** `([timestamp, open, high, low, close]) => ({ timestamp, open, high, low, close })`. */
  function ToOhlcPoints(data: OHLCData): (candles: seq<OHLCDataPoint>)
    ensures |candles| == |data|
    ensures forall k :: 0 <= k < |data| ==>
      candles[k].timestamp == data[k].0 && candles[k].open == data[k].1 && candles[k].high == data[k].2 &&
      candles[k].low == data[k].3 && candles[k].close == data[k].4
  {
    MapSeq((c: OHLCDataPointArray) => OHLCDataPoint(c.0, c.1, c.2, c.3, c.4), data)
  }

  /** Neither conversion loses anything: the tuples can be read back from the records. */
  lemma ConversionsAreLossless(prices: seq<(int, real)>, data: OHLCData)
    ensures MapSeq((p: HistoricalDataPoint) => (p.timestamp, p.price), ToHistoricalPoints(prices)) == prices
    ensures MapSeq((c: OHLCDataPoint) => (c.timestamp, c.open, c.high, c.low, c.close), ToOhlcPoints(data)) == data
  {
  }

  /** `Promise.all` over the two history fetches: the cycle succeeds with
      both results only when both fetches succeed; otherwise it fails, and
      no result of either fetch survives. */
  function JoinBoth(line: Result<ChartData>, ohlc: Result<OHLCData>): (both: Option<(ChartData, OHLCData)>)
    ensures both.Some? <==> line.Success? && ohlc.Success?
    ensures both.Some? ==> both.value.0 == line.value && both.value.1 == ohlc.value
  {
    if line.Success? && ohlc.Success? then Some((line.value, ohlc.value)) else None
  }

  /** The `App` component's state slots, changed by one method per event. */
  class AppState {
    var coins: seq<Coin>
    var selectedCoin: Option<Coin>
    var chartData: seq<HistoricalDataPoint>
    var ohlcData: seq<OHLCDataPoint>
    var loadingCoins: bool
    var loadingChart: bool
    var error: Option<string>
    var chartType: ChartType

    function State(): Snapshot
      reads this
    {
      Snapshot(coins, selectedCoin, chartData, ohlcData, loadingCoins, loadingChart, error, chartType)
    }

    /** The initial `useState` values. */
    constructor ()
      ensures State() == Snapshot([], None, [], [], true, false, None, Line)
    {
      coins, selectedCoin := [], None;
      chartData, ohlcData := [], [];
      loadingCoins, loadingChart := true, false;
      error, chartType := None, Line;
    }

    /** `fetchCoinData` before its await: clear the error, mark the list loading. */
    method StartCoinLoad()
      modifies this
      ensures State() == old(State()).(error := None, loadingCoins := true)
    {
      error := None;
      loadingCoins := true;
    }

    /** `fetchCoinData` after its await. On success the list is replaced as
        received and its first coin, if any, becomes the selection; on failure
        the fixed load-failure message is shown and the list is kept. Either
        way the list stops loading. */
    method CompleteCoinLoad(fetched: Result<seq<Coin>>)
      modifies this
      ensures fetched.Success? ==> State() == old(State()).(
        coins := fetched.value,
        selectedCoin := if |fetched.value| > 0 then Some(fetched.value[0]) else old(selectedCoin),
        loadingCoins := false)
      ensures fetched.Failure? ==> State() == old(State()).(
        error := Some(CoinsLoadFailedMessage),
        loadingCoins := false)
    {
      match fetched {
        case Success(list) =>
          coins := list;
          if |list| > 0 {
            selectedCoin := Some(list[0]);
          }
        case Failure(_) =>
          error := Some(CoinsLoadFailedMessage);
      }
      loadingCoins := false;
    }

    /** The whole of `fetchCoinData`, run without interleaving. */
    method FetchCoinData(network: string -> CryptoService.Response<seq<Coin>>)
      modifies this
      ensures var fetched := CryptoService.FetchCoins(network);
        State() == old(State()).(
          coins := if fetched.Success? then fetched.value else old(coins),
          selectedCoin := if fetched.Success? && |fetched.value| > 0 then Some(fetched.value[0]) else old(selectedCoin),
          error := if fetched.Success? then None else Some(CoinsLoadFailedMessage),
          loadingCoins := false)
    {
      StartCoinLoad();
      var fetched := CryptoService.FetchCoins(network);
      CompleteCoinLoad(fetched);
    }

    /** `handleSelectCoin`: the first listed coin with that id becomes the
        selection; an unknown id changes nothing. */
    method SelectCoin(coinId: string)
      modifies this
      ensures var found := FindById(old(coins), coinId);
        State() == old(State()).(selectedCoin := if found.Some? then found else old(selectedCoin))
    {
      var coin := FindById(coins, coinId);
      if coin.Some? {
        selectedCoin := coin;
      }
    }

    /** The Line / Candle toggle buttons. */
    method SetChartType(t: ChartType)
      modifies this
      ensures State() == old(State()).(chartType := t)
    {
      chartType := t;
    }

    /** The chart effect up to its await: with no selection it does nothing;
        otherwise it marks the chart loading, clears the error, and returns
        the coin the cycle is for (the effect's captured `selectedCoin`). */
    method StartChartCycle() returns (cycleCoin: Option<Coin>)
      modifies this
      ensures cycleCoin == old(selectedCoin)
      ensures cycleCoin.None? ==> State() == old(State())
      ensures cycleCoin.Some? ==> State() == old(State()).(loadingChart := true, error := None)
    {
      cycleCoin := selectedCoin;
      if cycleCoin.Some? {
        loadingChart := true;
        error := None;
      }
    }

    /** The chart effect after `Promise.all` settles. When both fetches
        succeeded, both series are converted and committed; when either
        failed, both series are emptied and the error names the cycle's coin.
        Either way the chart stops loading. */
    method CompleteChartCycle(cycleCoin: Coin, both: Option<(ChartData, OHLCData)>)
      modifies this
      ensures both.Some? ==> State() == old(State()).(
        chartData := ToHistoricalPoints(both.value.0.prices),
        ohlcData := ToOhlcPoints(both.value.1),
        loadingChart := false)
      ensures both.None? ==> State() == old(State()).(
        error := Some(ChartFailedMessage(cycleCoin.name)),
        chartData := [],
        ohlcData := [],
        loadingChart := false)
    {
      match both {
        case Some((lineData, candleData)) =>
          chartData := ToHistoricalPoints(lineData.prices);
          ohlcData := ToOhlcPoints(candleData);
        case None =>
          error := Some(ChartFailedMessage(cycleCoin.name));
          chartData := [];
          ohlcData := [];
      }
      loadingChart := false;
    }

    /** The whole chart effect for the current selection, run without
        interleaving: both fetchers are called for the selected coin's symbol
        and their joined outcome is committed. Returns that outcome (None when
        there was no selection or a fetch failed). */
    method FetchAllChartData(now: int, dayStart: nat -> int,
                             network: string -> CryptoService.Response<seq<CryptoService.Kline>>,
                             parse: string -> real)
      returns (both: Option<(ChartData, OHLCData)>)
      modifies this
      ensures old(selectedCoin).None? ==> State() == old(State()) && both.None?
      ensures old(selectedCoin).Some? ==> State() == old(State()).(
        chartData := if both.Some? then ToHistoricalPoints(both.value.0.prices) else [],
        ohlcData := if both.Some? then ToOhlcPoints(both.value.1) else [],
        error := if both.Some? then None else Some(ChartFailedMessage(old(selectedCoin).value.name)),
        loadingChart := false)
      ensures old(selectedCoin).Some? && CryptoService.IsStablecoin(old(selectedCoin).value.symbol) ==>
        both == Some((ChartData(CryptoService.SyntheticLine(now)), CryptoService.SyntheticCandles(dayStart)))
      ensures old(selectedCoin).Some? && !CryptoService.IsStablecoin(old(selectedCoin).value.symbol) ==>
        var symbol := old(selectedCoin).value.symbol;
        var line := CryptoService.ReadBody(network(CryptoService.LineQuery(symbol).Url()));
        var ohlc := CryptoService.ReadBody(network(CryptoService.OhlcQuery(symbol).Url()));
        && (both.Some? <==> line.Success? && ohlc.Success?)
        && (both.Some? ==>
              both.value == (ChartData(CryptoService.KlinesToPrices(line.value, parse)),
                             CryptoService.KlinesToCandles(ohlc.value, parse)))
    {
      var cycleCoin := StartChartCycle();
      if cycleCoin.None? {
        return None;
      }
      var coin := cycleCoin.value;
      var _, lineData := CryptoService.FetchCoinChartData(coin.symbol, now, network, parse);
      var _, candleData := CryptoService.FetchCoinOHLCData(coin.symbol, dayStart, network, parse);
      both := JoinBoth(lineData, candleData);
      CompleteChartCycle(coin, both);
    }
  }

  /** Selecting Tether shows a flat chart whatever the network does: after
      the chart cycle, 42 line points and 7 candles, every price 1.00, and no error. */
  method StablecoinChartIsFlat(tether: Coin, now: int, dayStart: nat -> int,
                               network: string -> CryptoService.Response<seq<CryptoService.Kline>>,
                               parse: string -> real)
    returns (shown: Snapshot)
    requires CryptoService.IsStablecoin(tether.symbol)
    ensures |shown.chartData| == 42 && |shown.ohlcData| == 7
    ensures forall k :: 0 <= k < |shown.chartData| ==> shown.chartData[k].price == 1.0
    ensures forall k :: 0 <= k < |shown.ohlcData| ==>
      shown.ohlcData[k].open == 1.0 && shown.ohlcData[k].high == 1.0 &&
      shown.ohlcData[k].low == 1.0 && shown.ohlcData[k].close == 1.0
    ensures shown.error.None? && !shown.loadingChart
  {
    var app := new AppState();
    app.CompleteCoinLoad(Success([tether]));
    var _ := app.FetchAllChartData(now, dayStart, network, parse);
    shown := app.State();
  }

  /** The chart effect has no staleness guard: when coin A's cycle completes
      after coin B's, A's series are what the chart shows while B is selected. */
  method StaleCycleOverwritesNewer(a: Coin, b: Coin, dataA: (ChartData, OHLCData), dataB: (ChartData, OHLCData))
    returns (shown: Snapshot)
    requires a.id != b.id
    ensures shown.selectedCoin == Some(b)
    ensures shown.chartData == ToHistoricalPoints(dataA.0.prices)
    ensures shown.ohlcData == ToOhlcPoints(dataA.1)
  {
    var app := new AppState();
    app.CompleteCoinLoad(Success([a, b]));
    var cycleA := app.StartChartCycle();
    app.SelectCoin(b.id);
    var cycleB := app.StartChartCycle();
    app.CompleteChartCycle(b, Some(dataB));
    app.CompleteChartCycle(a, Some(dataA));
    shown := app.State();
  }
}
