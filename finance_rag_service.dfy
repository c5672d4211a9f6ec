/** finance_rag_service.py: the service that runs validate-config, fetch, load, build store and
    build chain, turns every failure into a boolean, guards questions, keeps the default
    source lists and counts retrieved sources by type. */
module RagService {
  import opened Outcomes
  import opened Documents
  import opened PyText
  import opened Lists
  import opened Config
  import opened DataFetcher
  import opened RagSystem

  /** Everything outside the process that a pipeline run depends on: whether OPENAI_API_KEY is
      set, the two market-data services, and whether the embedding call (FAISS.from_documents)
      and the RetrievalQA construction return normally. */
  datatype Environment = Environment(
    apiKeyPresent: bool,
    stockHistory: (string, string) -> StockResponse,
    coinChart: (string, string, int) -> CoinResponse,
    embeddingOk: bool,
    chainOk: bool)

  /** stock_docs + crypto_docs as _load_financial_data computes them, with the fetchers' defaults. */
  function FetchedDocuments(env: Environment, tickers: seq<string>, coins: seq<string>): seq<Document> {
    StockDocs(tickers, DefaultStockPeriod, env.stockHistory)
      + CryptoDocs(coins, DefaultCryptoDays, DefaultVsCurrency, env.coinChart)
  }

  /** Load, build_vector_store and build_qa_chain all return normally. */
  predicate PipelineSucceeds(env: Environment, tickers: seq<string>, coins: seq<string>) {
    FetchedDocuments(env, tickers, coins) != [] && env.embeddingOk && env.chainOk
  }

  /** The dict _analyze_sources returns. */
  datatype SourceTypes = SourceTypes(stocks: nat, crypto: nat, total: nat)

  /** The dict the service's ask_question returns. */
  datatype EnrichedAnswer = EnrichedAnswer(
    question: string, answer: string, sources: seq<Metadata>,
    timestamp: int, documentCount: nat, sourceTypes: SourceTypes)

  // ---------------------------------------------------------------------------------------------
  // Counting sources by type

  /** The number of sources whose "type" is t. */
  function CountType(sources: seq<Metadata>, t: string): nat {
    if sources == [] then 0
    else CountType(sources[..|sources| - 1], t) + (if HasType(sources[|sources| - 1], t) then 1 else 0)
  }

  /** A source is counted at most once, as a stock or as crypto. */
  lemma {:induction false} StockAndCryptoCountsBounded(sources: seq<Metadata>)
    ensures CountType(sources, "stock") + CountType(sources, "crypto") <= |sources|
  {
    if sources != [] {
      StockAndCryptoCountsBounded(sources[..|sources| - 1]);
    }
  }

  /** _analyze_sources */
  method AnalyzeSources(sources: seq<Metadata>) returns (r: SourceTypes)
    ensures r.total == |sources|
    ensures r.stocks == CountType(sources, "stock") && r.crypto == CountType(sources, "crypto")
    ensures r.stocks + r.crypto <= r.total
  {
    var stocks, crypto := 0, 0;
    for i := 0 to |sources|
      invariant stocks == CountType(sources[..i], "stock")
      invariant crypto == CountType(sources[..i], "crypto")
    {
      assert sources[..i + 1][..i] == sources[..i];
      if HasType(sources[i], "stock") {
        stocks := stocks + 1;
      } else if HasType(sources[i], "crypto") {
        crypto := crypto + 1;
      }
    }
    assert sources[..|sources|] == sources;
    StockAndCryptoCountsBounded(sources);
    r := SourceTypes(stocks, crypto, |sources|);
  }

  lemma {:induction false} CountTypeAppend(a: seq<Metadata>, b: seq<Metadata>, t: string)
    ensures CountType(a + b, t) == CountType(a, t) + CountType(b, t)
  {
    if b != [] {
      var init := b[..|b| - 1];
      assert (a + b)[..|a + b| - 1] == a + init;
      assert (a + b)[|a + b| - 1] == b[|b| - 1];
      CountTypeAppend(a, init, t);
    } else {
      assert a + b == a;
    }
  }

  lemma {:induction false} CountTypeOfDocs(docs: seq<Document>, t: string, u: string)
    requires t != u
    requires forall j :: 0 <= j < |docs| ==> HasType(docs[j].metadata, t)
    ensures CountType(Metadatas(docs), t) == |docs| && CountType(Metadatas(docs), u) == 0
  {
    if docs != [] {
      var init := docs[..|docs| - 1];
      assert Metadatas(docs)[..|docs| - 1] == Metadatas(init);
      CountTypeOfDocs(init, t, u);
    }
  }

  /** Counting the service's own documents by type recovers how many came from each fetcher. */
  lemma FetchedDocumentsCountByType(env: Environment, tickers: seq<string>, coins: seq<string>)
    ensures var stockDocs := StockDocs(tickers, DefaultStockPeriod, env.stockHistory);
            var cryptoDocs := CryptoDocs(coins, DefaultCryptoDays, DefaultVsCurrency, env.coinChart);
            var sources := Metadatas(FetchedDocuments(env, tickers, coins));
            CountType(sources, "stock") == |stockDocs| && CountType(sources, "crypto") == |cryptoDocs|
  {
    var stockDocs := StockDocs(tickers, DefaultStockPeriod, env.stockHistory);
    var cryptoDocs := CryptoDocs(coins, DefaultCryptoDays, DefaultVsCurrency, env.coinChart);
    StockDocsTagged(tickers, DefaultStockPeriod, env.stockHistory);
    CryptoDocsTagged(coins, DefaultCryptoDays, DefaultVsCurrency, env.coinChart);
    assert Metadatas(stockDocs + cryptoDocs) == Metadatas(stockDocs) + Metadatas(cryptoDocs);
    CountTypeAppend(Metadatas(stockDocs), Metadatas(cryptoDocs), "stock");
    CountTypeAppend(Metadatas(stockDocs), Metadatas(cryptoDocs), "crypto");
    CountTypeOfDocs(stockDocs, "stock", "crypto");
    CountTypeOfDocs(cryptoDocs, "crypto", "stock");
  }

  // ---------------------------------------------------------------------------------------------
  // Default source lists

  /** default.extend(valid); default = list(set(default)) */
  function MergeSources(current: seq<string>, valid: seq<string>): (r: seq<string>)
    ensures NoDuplicates(r)
    ensures forall x :: x in r <==> x in current || x in valid
  {
    Dedup(current + valid)
  }

  /** Merging the same additions a second time leaves the list as the first merge left it,
      so adding "bitcoin" twice keeps one "bitcoin". */
  lemma MergeIsIdempotent(current: seq<string>, valid: seq<string>)
    ensures MergeSources(MergeSources(current, valid), valid) == MergeSources(current, valid)
  {
    DedupAbsorbsPresent(MergeSources(current, valid), valid);
  }

  /** add_custom_tickers stops with False before touching the defaults exactly when no given
      string is a non-empty symbol followed by ".IS". */
  lemma {:induction false} NoValidTickerIffNoSymbolDotIS(tickers: seq<string>)
    ensures Filter(tickers, ValidTicker) != [] <==>
              exists t, symbol: string :: t in tickers && symbol != [] && t == symbol + ".IS"
  {
    if Filter(tickers, ValidTicker) != [] {
      var t := Filter(tickers, ValidTicker)[0];
      assert t in Filter(tickers, ValidTicker);
      ValidTickerIffSymbolDotIS(t);
      var symbol: string :| symbol != [] && t == symbol + ".IS";
      assert t in tickers && symbol != [] && t == symbol + ".IS";
    }
    if exists t, symbol: string :: t in tickers && symbol != [] && t == symbol + ".IS" {
      var t, symbol: string :| t in tickers && symbol != [] && t == symbol + ".IS";
      ValidTickerIffSymbolDotIS(t);
      assert t in Filter(tickers, ValidTicker);
    }
  }

  /** add_custom_coins stops with False before touching the defaults exactly when every given
      coin id is the empty string (an empty list included). */
  lemma NoValidCoinIffAllEmpty(coins: seq<string>)
    ensures Filter(coins, ValidCoin) == [] <==> forall c :: c in coins ==> c == ""
  {
  }

  // ---------------------------------------------------------------------------------------------
  // The service

  class FinanceRAGService {
    var ragSystem: FinanceRAG?
    var isReady: bool
    var initializationTime: Option<int>
    var documentCount: int
    var defaultTickers: seq<string>
    var defaultCoins: seq<string>

    /** The store is consistent whenever there is one, and a ready service has one. */
    ghost predicate Valid()
      reads this, ragSystem
    {
      (ragSystem != null ==> ragSystem.Valid()) && (isReady ==> ragSystem != null)
    }

    /** __init__, which ends by calling initialize(). `now` is the clock reading datetime.now() takes. */
    constructor (env: Environment, now: int)
      ensures Valid()
      ensures defaultTickers == AvailableTickers() && defaultCoins == AvailableCoins()
      ensures isReady == (env.apiKeyPresent && PipelineSucceeds(env, defaultTickers, defaultCoins))
      ensures isReady ==> documentCount == |FetchedDocuments(env, defaultTickers, defaultCoins)|
                          && initializationTime == Some(now)
      ensures !isReady ==> documentCount == 0 && initializationTime == None
      ensures !env.apiKeyPresent ==> ragSystem == null
      ensures env.apiKeyPresent ==> ragSystem != null && RebuiltFrom(env)
      ensures isReady ==> documentCount == ragSystem.DocumentCount()
    {
      ragSystem := null;
      isReady := false;
      initializationTime := None;
      documentCount := 0;
      defaultTickers := AvailableTickers();
      defaultCoins := AvailableCoins();
      new;
      var _ := Initialize(env, now);
    }

    /** initialize: a fresh FinanceRAG, then load, build store, build chain with k = 5. */
    method Initialize(env: Environment, now: int) returns (ok: bool)
      requires Valid()
      modifies this, ragSystem
      ensures Valid()
      ensures defaultTickers == old(defaultTickers) && defaultCoins == old(defaultCoins)
      ensures ok == (env.apiKeyPresent && PipelineSucceeds(env, defaultTickers, defaultCoins))
      ensures isReady == ok
      ensures !env.apiKeyPresent ==> ragSystem == old(ragSystem)
      ensures env.apiKeyPresent ==>
                fresh(ragSystem) && ragSystem.documents == FetchedDocuments(env, defaultTickers, defaultCoins)
      ensures env.apiKeyPresent ==> RebuiltFrom(env)
      ensures !env.apiKeyPresent && ragSystem != null ==> unchanged(ragSystem)
      ensures ok ==>
                documentCount == ragSystem.DocumentCount() && initializationTime == Some(now) &&
                ragSystem.vectorStore == Some(VectorStore(ragSystem.documents)) &&
                ragSystem.qaChain == Some(QaChain(DefaultKRetrieval, VectorStore(ragSystem.documents)))
      ensures !ok ==> documentCount == old(documentCount) && initializationTime == old(initializationTime)
    {
      if !env.apiKeyPresent {
        isReady := false;   // validate_config raised
        return false;
      }
      ragSystem := new FinanceRAG();
      var r := LoadFinancialData(env);
      if r.Fail? {
        isReady := false;
        return false;
      }
      r := ragSystem.BuildVectorStore(env.embeddingOk);
      if r.Fail? {
        isReady := false;
        return false;
      }
      r := ragSystem.BuildQaChain(DefaultKRetrieval, env.chainOk);
      if r.Fail? {
        isReady := false;
        return false;
      }
      isReady := true;
      initializationTime := Some(now);
      documentCount := ragSystem.DocumentCount();
      ok := true;
    }

    /** _load_financial_data: stock documents, then crypto documents, loaded in one batch. */
    method LoadFinancialData(env: Environment) returns (r: Outcome)
      requires Valid()
      modifies ragSystem
      ensures Valid()
      ensures var docs := FetchedDocuments(env, defaultTickers, defaultCoins);
              (docs == [] ==> r == Fail(NoDataFetched)) &&
              (docs != [] && ragSystem == null ==> r == Fail(NoRagSystem)) &&
              (docs != [] && ragSystem != null ==> r == Pass)
      ensures ragSystem != null ==>
                ragSystem.documents == old(ragSystem.documents) + FetchedDocuments(env, defaultTickers, defaultCoins) &&
                ragSystem.vectorStore == old(ragSystem.vectorStore) && ragSystem.qaChain == old(ragSystem.qaChain)
    {
      var stockDocs, _ := FetchStockData(defaultTickers, DefaultStockPeriod, env.stockHistory);
      var cryptoDocs, _ := FetchCryptoData(defaultCoins, DefaultCryptoDays, DefaultVsCurrency, env.coinChart);
      var allDocs := stockDocs + cryptoDocs;
      if allDocs == [] {
        return Fail(NoDataFetched);
      }
      if ragSystem == null {
        return Fail(NoRagSystem);   // AttributeError on None.load_documents
      }
      ragSystem.LoadDocuments(allDocs);
      r := Pass;
    }

    /** ask_question: readiness is checked first, then the question, before the store is asked. */
    method AskQuestion(question: string, invoke: (QaChain, string) -> InvokeResult, now: int)
      returns (r: Result<EnrichedAnswer>)
      requires Valid()
      ensures !isReady ==> r == Err(NotReady)
      ensures isReady && IsBlank(question) ==> r == Err(EmptyQuestion)
      ensures isReady && !IsBlank(question) && ragSystem.qaChain.None? ==> r == Err(NoQaChain)
      ensures isReady && !IsBlank(question) && ragSystem.qaChain.Some? &&
              invoke(ragSystem.qaChain.value, question).InvokeRaised? ==>
                r == Err(UpstreamFailure)
      ensures isReady && !IsBlank(question) && ragSystem.qaChain.Some? &&
              invoke(ragSystem.qaChain.value, question).Invoked? ==>
                var out := invoke(ragSystem.qaChain.value, question);
                var sources := Metadatas(out.sourceDocuments);
                r == Ok(EnrichedAnswer(question, out.result, sources, now, |sources|,
                                       SourceTypes(CountType(sources, "stock"), CountType(sources, "crypto"), |sources|)))
      ensures r.Ok? ==>
                r.value.documentCount == |r.value.sources| == r.value.sourceTypes.total &&
                r.value.sourceTypes.stocks + r.value.sourceTypes.crypto <= r.value.sourceTypes.total
    {
      if !isReady {
        return Err(NotReady);
      }
      if IsBlank(question) {
        return Err(EmptyQuestion);
      }
      var result := ragSystem.AskQuestion(question, invoke);
      match result
      case Err(e) =>
        r := Err(e);
      case Ok(answer) =>
        assert answer.sources == Metadatas(invoke(ragSystem.qaChain.value, question).sourceDocuments);
        var sourceTypes := AnalyzeSources(answer.sources);
        r := Ok(EnrichedAnswer(answer.question, answer.answer, answer.sources, now,
                               |answer.sources|, sourceTypes));
    }

    /** The store as a clear-then-rebuild from the current defaults leaves it: documents are the
        fresh fetch, the vector store exists exactly when that fetch was non-empty and the
        embedding call returned, and the chain (k = 5) exists exactly when every step succeeded. */
    ghost predicate RebuiltFrom(env: Environment)
      reads this, ragSystem
    {
      ragSystem != null ==>
        var docs := FetchedDocuments(env, defaultTickers, defaultCoins);
        ragSystem.documents == docs &&
        ragSystem.vectorStore == (if docs != [] && env.embeddingOk then Some(VectorStore(docs)) else None) &&
        ragSystem.qaChain ==
          (if PipelineSucceeds(env, defaultTickers, defaultCoins)
           then Some(QaChain(DefaultKRetrieval, VectorStore(docs))) else None)
    }

    /** reload_data: clear, then load, build store and build chain again. It never touches
        isReady, so a failed reload of a ready service leaves it "ready" without a chain. */
    method ReloadData(env: Environment) returns (ok: bool)
      requires Valid()
      modifies this, ragSystem
      ensures Valid()
      ensures ragSystem == old(ragSystem) && isReady == old(isReady)
      ensures initializationTime == old(initializationTime)
      ensures defaultTickers == old(defaultTickers) && defaultCoins == old(defaultCoins)
      ensures ok == (ragSystem != null && PipelineSucceeds(env, defaultTickers, defaultCoins))
      ensures RebuiltFrom(env)
      ensures ok ==> documentCount == ragSystem.DocumentCount()
      ensures !ok ==> documentCount == old(documentCount)
      ensures !ok && ragSystem != null ==> ragSystem.qaChain.None?
    {
      if ragSystem != null {
        ragSystem.ClearDocuments();
      }
      var r := LoadFinancialData(env);
      if r.Fail? {
        return false;
      }
      r := ragSystem.BuildVectorStore(env.embeddingOk);
      if r.Fail? {
        return false;
      }
      r := ragSystem.BuildQaChain(DefaultKRetrieval, env.chainOk);
      if r.Fail? {
        return false;
      }
      documentCount := ragSystem.DocumentCount();
      ok := true;
    }

    /** add_custom_tickers: merge the valid tickers into the defaults, then reload. */
    method AddCustomTickers(tickers: seq<string>, env: Environment) returns (ok: bool)
      requires Valid()
      modifies this, ragSystem
      ensures Valid()
      ensures ragSystem == old(ragSystem) && isReady == old(isReady) && defaultCoins == old(defaultCoins)
      ensures Filter(tickers, ValidTicker) == [] ==>
                !ok && unchanged(this) && (ragSystem != null ==> unchanged(ragSystem))
      ensures Filter(tickers, ValidTicker) != [] ==>
                defaultTickers == MergeSources(old(defaultTickers), Filter(tickers, ValidTicker)) &&
                NoDuplicates(defaultTickers) &&
                (forall t :: t in defaultTickers <==> t in old(defaultTickers) || (t in tickers && ValidTicker(t))) &&
                ok == (ragSystem != null && PipelineSucceeds(env, defaultTickers, defaultCoins)) &&
                initializationTime == old(initializationTime) &&
                RebuiltFrom(env) &&
                (ok ==> documentCount == ragSystem.DocumentCount()) &&
                (!ok ==> documentCount == old(documentCount))
    {
      if tickers == [] {
        return false;
      }
      var valid := Filter(tickers, ValidTicker);
      if valid == [] {
        return false;
      }
      defaultTickers := MergeSources(defaultTickers, valid);
      ok := ReloadData(env);
    }

    /** add_custom_coins: merge the valid coin ids into the defaults, then reload. */
    method AddCustomCoins(coins: seq<string>, env: Environment) returns (ok: bool)
      requires Valid()
      modifies this, ragSystem
      ensures Valid()
      ensures ragSystem == old(ragSystem) && isReady == old(isReady) && defaultTickers == old(defaultTickers)
      ensures Filter(coins, ValidCoin) == [] ==>
                !ok && unchanged(this) && (ragSystem != null ==> unchanged(ragSystem))
      ensures Filter(coins, ValidCoin) != [] ==>
                defaultCoins == MergeSources(old(defaultCoins), Filter(coins, ValidCoin)) &&
                NoDuplicates(defaultCoins) &&
                (forall c :: c in defaultCoins <==> c in old(defaultCoins) || (c in coins && ValidCoin(c))) &&
                ok == (ragSystem != null && PipelineSucceeds(env, defaultTickers, defaultCoins)) &&
                initializationTime == old(initializationTime) &&
                RebuiltFrom(env) &&
                (ok ==> documentCount == ragSystem.DocumentCount()) &&
                (!ok ==> documentCount == old(documentCount))
    {
      if coins == [] {
        return false;
      }
      var valid := Filter(coins, ValidCoin);
      if valid == [] {
        return false;
      }
      defaultCoins := MergeSources(defaultCoins, valid);
      ok := ReloadData(env);
    }
  }
}
