/** data_fetcher.py: per-item fetch loops over yfinance and CoinGecko, the source validators
    and the default source lists. The two market-data services are oracles passed in. */
module DataFetcher {
  import opened Outcomes
  import opened Documents
  import opened PyText
  import opened Lists

  /** What yf.Ticker(ticker).history(period=...) does: raise, or return a (possibly empty) history. */
  datatype StockResponse = StockRaised | History(bars: seq<Bar>)

  /** What get_coin_market_chart_by_id does: raise, or return a dict whose "prices" entry may be
      missing (None here; a None or empty response has no "prices" either). */
  datatype CoinResponse = CoinRaised | MarketChart(prices: Option<seq<PricePoint>>)

  // ---------------------------------------------------------------------------------------------
  // Validators and defaults

  /** validate_ticker: a Borsa Istanbul symbol, ".IS" preceded by at least one character. */
  predicate ValidTicker(ticker: string) {
    EndsWith(ticker, ".IS") && |ticker| > 3
  }

  /** validate_coin: a non-empty string (every value of the model's type is a str). */
  predicate ValidCoin(coin: string) {
    |coin| > 0
  }

  lemma ValidTickerIffSymbolDotIS(ticker: string)
    ensures ValidTicker(ticker) <==> exists symbol: string :: symbol != [] && ticker == symbol + ".IS"
  {
    if ValidTicker(ticker) {
      var symbol := ticker[..|ticker| - 3];
      assert ticker == symbol + ".IS";
    }
  }

  lemma ValidTickerBoundaryCases()
    ensures !ValidTicker(".IS") && ValidTicker("A.IS") && !ValidTicker("ASELS") && !ValidTicker("")
  {
  }

  /** get_available_tickers */
  function AvailableTickers(): (r: seq<string>)
    ensures |r| == 5
    ensures forall t :: t in r ==> ValidTicker(t)
    ensures NoDuplicates(r)
  {
    ["ASELS.IS", "THYAO.IS", "GARAN.IS", "AKBNK.IS", "BIMAS.IS"]
  }

  /** get_available_coins */
  function AvailableCoins(): (r: seq<string>)
    ensures |r| == 4
    ensures forall c :: c in r ==> ValidCoin(c)
    ensures NoDuplicates(r)
  {
    ["bitcoin", "ethereum", "cardano", "solana"]
  }

  // ---------------------------------------------------------------------------------------------
  // Stocks

  /** The history is usable: no exception and `hist.empty` is false. */
  predicate StockHasData(resp: StockResponse) {
    resp.History? && resp.bars != []
  }

  /** (latest - first) / first * 100 on numpy float64 values: a zero first close gives inf or nan
      rather than raising. */
  function StockChangePct(first: real, latest: real): Scalar {
    if first == 0.0 then NonFinite else Num((latest - first) / first * 100.0)
  }

  /** The document appended for one ticker (data_fetcher.py:70-80). */
  function StockDocument(ticker: string, period: string, bars: seq<Bar>): Document
    requires bars != []
  {
    var latest, first := bars[|bars| - 1].close, bars[0].close;
    Document(StockReport(ticker, period, bars),
             map["ticker" := Str(ticker), "type" := Str("stock"), "source" := Str("yfinance"),
                 "period" := Str(period), "latest_price" := Num(latest),
                 "price_change_pct" := StockChangePct(first, latest)])
  }

  /** The documents fetch_stock_data returns: one per ticker with usable history, in order.
      Defined on the prefix processed so far, as the loop builds it. */
  function StockDocs(tickers: seq<string>, period: string, history: (string, string) -> StockResponse)
    : seq<Document>
  {
    if tickers == [] then []
    else
      var ticker := tickers[|tickers| - 1];
      var resp := history(ticker, period);
      StockDocs(tickers[..|tickers| - 1], period, history)
        + (if StockHasData(resp) then [StockDocument(ticker, period, resp.bars)] else [])
  }

  /** fetch_stock_data. `requested` lists the tickers the history service was asked about. */
  method FetchStockData(tickers: seq<string>, period: string, history: (string, string) -> StockResponse)
    returns (documents: seq<Document>, requested: seq<string>)
    ensures documents == StockDocs(tickers, period, history)
    ensures requested == tickers
  {
    documents, requested := [], [];
    if tickers == [] {
      return;
    }
    for i := 0 to |tickers|
      invariant documents == StockDocs(tickers[..i], period, history)
      invariant requested == tickers[..i]
    {
      assert tickers[..i + 1][..i] == tickers[..i];
      var ticker := tickers[i];
      requested := requested + [ticker];
      var hist := history(ticker, period);
      match hist
      case StockRaised =>
        continue;
      case History(bars) =>
        if bars == [] {
          continue;
        }
        documents := documents + [StockDocument(ticker, period, bars)];
    }
    assert tickers[..|tickers|] == tickers;
  }

  /** Exactly the tickers whose history is usable produce a document, in input order, one each. */
  lemma {:induction false} StockDocsAreKeptTickers(tickers: seq<string>, period: string,
                                                   history: (string, string) -> StockResponse)
    ensures var docs, kept := StockDocs(tickers, period, history),
                              Filter(tickers, t => StockHasData(history(t, period)));
            |docs| == |kept| &&
            forall j :: 0 <= j < |docs| ==>
              StockHasData(history(kept[j], period)) &&
              docs[j] == StockDocument(kept[j], period, history(kept[j], period).bars)
  {
    if tickers != [] {
      var init := tickers[..|tickers| - 1];
      assert tickers == init + [tickers[|tickers| - 1]];
      StockDocsAreKeptTickers(init, period, history);
    }
  }

  /** Every stock document is tagged "stock", names an input ticker and carries the period. */
  lemma {:induction false} StockDocsTagged(tickers: seq<string>, period: string, history: (string, string) -> StockResponse)
    ensures var docs := StockDocs(tickers, period, history);
            |docs| <= |tickers| &&
            forall j :: 0 <= j < |docs| ==>
              HasType(docs[j].metadata, "stock") &&
              "ticker" in docs[j].metadata && docs[j].metadata["ticker"].Str? &&
              docs[j].metadata["ticker"].s in tickers &&
              "period" in docs[j].metadata && docs[j].metadata["period"] == Str(period)
  {
    StockDocsAreKeptTickers(tickers, period, history);
  }

  // ---------------------------------------------------------------------------------------------
  // Crypto

  function MinPrice(prices: seq<PricePoint>): (m: real)
    requires prices != []
    ensures forall i :: 0 <= i < |prices| ==> m <= prices[i].price
    ensures exists i :: 0 <= i < |prices| && m == prices[i].price
  {
    if |prices| == 1 then prices[0].price
    else
      var rest := MinPrice(prices[1..]);
      assert forall i :: 1 <= i < |prices| ==> prices[i].price == prices[1..][i - 1].price;
      if prices[0].price <= rest then prices[0].price else rest
  }

  function MaxPrice(prices: seq<PricePoint>): (m: real)
    requires prices != []
    ensures forall i :: 0 <= i < |prices| ==> prices[i].price <= m
    ensures exists i :: 0 <= i < |prices| && m == prices[i].price
  {
    if |prices| == 1 then prices[0].price
    else
      var rest := MaxPrice(prices[1..]);
      assert forall i :: 1 <= i < |prices| ==> prices[i].price == prices[1..][i - 1].price;
      if rest <= prices[0].price then prices[0].price else rest
  }

  /** The chart yields a document: no exception, "prices" present and non-empty, and neither the
      percentage change (first price) nor the volatility (minimum price) divides by zero, which
      Python floats turn into a ZeroDivisionError that the loop catches. */
  predicate CoinHasData(resp: CoinResponse) {
    resp.MarketChart? && resp.prices.Some? && resp.prices.value != []
    && resp.prices.value[0].price != 0.0 && MinPrice(resp.prices.value) != 0.0
  }

  /** The document appended for one coin (data_fetcher.py:144-155). */
  function CryptoDocument(coin: string, days: int, vsCurrency: string, prices: seq<PricePoint>): Document
    requires prices != [] && prices[0].price != 0.0 && MinPrice(prices) != 0.0
  {
    var latest, first := prices[|prices| - 1].price, prices[0].price;
    var low, high := MinPrice(prices), MaxPrice(prices);
    Document(CryptoReport(coin, days, vsCurrency, prices),
             map["coin" := Str(coin), "type" := Str("crypto"), "days" := Int(days),
                 "vs_currency" := Str(vsCurrency), "latest_price" := Num(latest),
                 "price_change_pct" := Num((latest - first) / first * 100.0),
                 "volatility" := Num((high - low) / low * 100.0)])
  }

  /** The documents fetch_crypto_data returns: one per coin whose chart is usable, in order. */
  function CryptoDocs(coins: seq<string>, days: int, vsCurrency: string,
                      chart: (string, string, int) -> CoinResponse): seq<Document>
  {
    if coins == [] then []
    else
      var coin := coins[|coins| - 1];
      var resp := chart(coin, vsCurrency, days);
      CryptoDocs(coins[..|coins| - 1], days, vsCurrency, chart)
        + (if CoinHasData(resp) then [CryptoDocument(coin, days, vsCurrency, resp.prices.value)] else [])
  }

  /** fetch_crypto_data. `requested` lists the coin ids the chart service was asked about. */
  method FetchCryptoData(coins: seq<string>, days: int, vsCurrency: string,
                         chart: (string, string, int) -> CoinResponse)
    returns (documents: seq<Document>, requested: seq<string>)
    ensures documents == CryptoDocs(coins, days, vsCurrency, chart)
    ensures requested == coins
  {
    documents, requested := [], [];
    if coins == [] {
      return;
    }
    for i := 0 to |coins|
      invariant documents == CryptoDocs(coins[..i], days, vsCurrency, chart)
      invariant requested == coins[..i]
    {
      assert coins[..i + 1][..i] == coins[..i];
      var coin := coins[i];
      requested := requested + [coin];
      var marketData := chart(coin, vsCurrency, days);
      match marketData
      case CoinRaised =>
        continue;
      case MarketChart(prices) =>
        if prices.None? {
          continue;
        }
        if prices.value == [] {
          continue;
        }
        if prices.value[0].price == 0.0 || MinPrice(prices.value) == 0.0 {
          continue;   // ZeroDivisionError, caught by the loop's except clause
        }
        documents := documents + [CryptoDocument(coin, days, vsCurrency, prices.value)];
    }
    assert coins[..|coins|] == coins;
  }

  /** Exactly the coins whose chart is usable produce a document, in input order, one each. */
  lemma {:induction false} CryptoDocsAreKeptCoins(coins: seq<string>, days: int, vsCurrency: string,
                                                  chart: (string, string, int) -> CoinResponse)
    ensures var docs, kept := CryptoDocs(coins, days, vsCurrency, chart),
                              Filter(coins, c => CoinHasData(chart(c, vsCurrency, days)));
            |docs| == |kept| &&
            forall j :: 0 <= j < |docs| ==>
              CoinHasData(chart(kept[j], vsCurrency, days)) &&
              docs[j] == CryptoDocument(kept[j], days, vsCurrency, chart(kept[j], vsCurrency, days).prices.value)
  {
    if coins != [] {
      var init := coins[..|coins| - 1];
      assert coins == init + [coins[|coins| - 1]];
      CryptoDocsAreKeptCoins(init, days, vsCurrency, chart);
    }
  }

  /** Every crypto document is tagged "crypto", names an input coin and carries days and currency. */
  lemma {:induction false} CryptoDocsTagged(coins: seq<string>, days: int, vsCurrency: string,
                         chart: (string, string, int) -> CoinResponse)
    ensures var docs := CryptoDocs(coins, days, vsCurrency, chart);
            |docs| <= |coins| &&
            forall j :: 0 <= j < |docs| ==>
              HasType(docs[j].metadata, "crypto") &&
              "coin" in docs[j].metadata && docs[j].metadata["coin"].Str? &&
              docs[j].metadata["coin"].s in coins &&
              "days" in docs[j].metadata && docs[j].metadata["days"] == Int(days) &&
              "vs_currency" in docs[j].metadata && docs[j].metadata["vs_currency"] == Str(vsCurrency)
  {
    CryptoDocsAreKeptCoins(coins, days, vsCurrency, chart);
  }
}
