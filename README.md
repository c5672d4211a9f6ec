# Finance RAG pipeline: a Dafny model of its bookkeeping layer

The system answers questions about Borsa Istanbul stocks and cryptocurrencies. It fetches
market snapshots from yfinance and CoinGecko, turns each snapshot into a LangChain `Document`
(a rendered report plus a metadata dict), indexes the documents in FAISS, and answers questions
through a LangChain `RetrievalQA` chain over an OpenAI model. Almost all of the real work is done
by those libraries. This project models the part the repository itself writes, in three layers:

- **Fetcher** (`data_fetcher.dfy`, module `DataFetcher`). It holds the ticker and coin
  validators and the default source lists. It also holds the two per-item fetch loops. Each
  loop asks a market-data oracle about every item in order, skips items that raised, had no
  data or had an empty price list, and appends one tagged document for every other item. For
  crypto items, a first price or minimum price of zero makes the Python float division raise
  `ZeroDivisionError`, which the loop catches, so those items are skipped too. Each loop is a
  `method` with a `for` loop. It is proved equal to a specification function (`StockDocs`,
  `CryptoDocs`), and lemmas state what that function returns.
- **Document store** (`rag_system.dfy`, class `RagSystem.FinanceRAG`). It has a document list
  and two optional built parts: a vector store and a QA chain. Both are ordinary (not ghost)
  fields because the source branches on them at run time. A `VectorStore` records the
  documents it was built from. A `QaChain` records its `k` and the store it was built over. The
  invariant `Valid()` states the build order: a chain exists only when a store exists, and
  every store indexes a non-empty prefix of the current document list.
- **Service** (`finance_rag_service.dfy`, class `RagService.FinanceRAGService`). It runs
  validate-config → fetch → load → build store → build chain, and turns every failure into
  `false`. It rejects questions when it is not ready or when the question is blank. It merges
  validated additions into the default lists without duplicates, and it counts retrieved
  sources by type.

The helper modules model the Python behaviour the core depends on:

- `PyText`: `str.isspace`, `str.strip`, `str.endswith`.
- `Lists`: a filtering list comprehension, and `list(set(...))`.
- `Documents`: `Document` and its metadata dict.
- `Outcomes`: one `Error` constructor per exception the code raises, plus `Outcome` and `Result`.
- `Config`: the constants of `config.py`.

Every external service is a parameter of the model (`RagService.Environment`):

- whether `OPENAI_API_KEY` is set;
- the stock-history oracle `(ticker, period) -> StockResponse`;
- the market-chart oracle `(id, vs_currency, days) -> CoinResponse`;
- whether the embedding call behind `FAISS.from_documents` returns normally;
- whether `RetrievalQA.from_chain_type` returns normally.

The chain's `invoke` is a further oracle, `(QaChain, question) -> InvokeResult`, passed to both
`AskQuestion` methods. `datetime.now()` becomes an `int` parameter `now`.

How the code behaves on a failed reload: `reload_data` never changes `is_ready`. When a service
that is ready fails to reload, it stays "ready", but the reload has already cleared its chain.
The next non-blank question therefore gets past the service's readiness check and fails inside
`FinanceRAG.ask_question` with the missing-chain error. The model follows the code here.
`ReloadData` states that `isReady` is unchanged and that a failed reload leaves `qaChain` absent.
`RagService.FinanceRAGService.AskQuestion` states that a ready service without a chain returns
`Err(NoQaChain)`. So `is_ready` does not imply that a chain exists.

## Model

| member | source | states |
|---|---|---|
| DataFetcher.ValidTickerIffSymbolDotIS | data_fetcher.py:173-174 | a ticker is valid exactly when it is some non-empty symbol followed by ".IS" |
| DataFetcher.ValidTickerBoundaryCases | data_fetcher.py:173-174 | ".IS", "ASELS" and "" are rejected; "A.IS" is accepted |
| DataFetcher.AvailableTickers | data_fetcher.py:165-166 | the five default tickers are distinct and each passes validate_ticker |
| DataFetcher.AvailableCoins | data_fetcher.py:169-170 | the four default coins are distinct and each passes validate_coin |
| DataFetcher.FetchStockData | data_fetcher.py:24-87 | the loop returns exactly the specified stock documents; it asks about every ticker once, in order, whatever earlier answers were; an empty list yields no request and no documents |
| DataFetcher.StockDocsAreKeptTickers | data_fetcher.py:31-80 | there is one document per ticker whose history neither raised nor was empty, in input order, each built from that ticker's history; every other ticker is omitted |
| DataFetcher.StockDocsTagged | data_fetcher.py:70-80 | there are at most as many documents as tickers; each has type "stock", a ticker taken from the input and the period passed in |
| DataFetcher.MinPrice | data_fetcher.py:129-130 | min(price_values): no price is below it and one price equals it |
| DataFetcher.MaxPrice | data_fetcher.py:129-130 | max(price_values): no price is above it and one price equals it |
| DataFetcher.FetchCryptoData | data_fetcher.py:90-162 | the loop returns exactly the specified crypto documents; it asks about every coin once, in order; an empty list yields no request and no documents |
| DataFetcher.CryptoDocsAreKeptCoins | data_fetcher.py:98-155 | there is one document per coin whose chart did not raise, has a non-empty "prices" entry, and has a first price and a minimum price that are both non-zero; the documents are in input order and every other coin is omitted |
| DataFetcher.CryptoDocsTagged | data_fetcher.py:144-155 | there are at most as many documents as coins; each has type "crypto", a coin taken from the input, and the days and vs_currency passed in |
| PyText.BlankIffAllSpace | rag_system.py:57-58 | `not q.strip()` holds exactly when every character of q is whitespace, including when q is empty |
| Lists.Filter | finance_rag_service.py:170 | the comprehension keeps exactly the input elements that pass the test, and never yields more elements than the input |
| Lists.Dedup | finance_rag_service.py:179 | list(set(s)) has no duplicates and has the same members as s |
| Lists.DedupAbsorbsPresent | finance_rag_service.py:178-179 | extending a list that has no duplicates with members it already has, then de-duplicating in first-occurrence order, gives back the same list |
| RagSystem.FinanceRAG.constructor | rag_system.py:12-20 | a new store has no documents, no vector store and no chain, so get_document_count (rag_system.py:74-75) is 0 |
| RagSystem.FinanceRAG.LoadDocuments | rag_system.py:22-28 | the documents become old ++ docs (an empty batch changes nothing), so get_document_count (rag_system.py:74-75) grows by exactly len(docs); the store and the chain are untouched |
| RagSystem.FinanceRAG.BuildVectorStore | rag_system.py:31-36 | with no documents it fails and changes nothing; if the embedding call fails it changes nothing; otherwise the store is built from the current documents |
| RagSystem.FinanceRAG.BuildQaChain | rag_system.py:40-49 | with no vector store it fails and changes nothing; otherwise the chain is built with k over the current store |
| RagSystem.FinanceRAG.AskQuestion | rag_system.py:53-71 | no chain is checked first, then a blank question; an invoke that raises is re-raised; on success the question comes back unchanged, and the sources are the returned documents' metadata in the same order and number; success implies documents, store and chain all exist |
| RagSystem.FinanceRAG.ClearDocuments | rag_system.py:78-81 | afterwards there are no documents, no vector store and no chain, and get_document_count (rag_system.py:74-75) is 0 |
| RagService.StockAndCryptoCountsBounded | finance_rag_service.py:123-127 | no source is counted both as a stock and as crypto, so the two counts add up to at most the number of sources |
| RagService.AnalyzeSources | finance_rag_service.py:116-129 | total is the number of sources; stocks and crypto are the numbers of sources whose "type" is "stock" and "crypto"; stocks + crypto <= total |
| RagService.CountTypeAppend | finance_rag_service.py:79 | counting by type over stock_docs + crypto_docs is the sum of the counts over each part |
| RagService.FetchedDocumentsCountByType | finance_rag_service.py:72-79 | over the documents the service loads, the stock count equals the number of stock documents and the crypto count equals the number of crypto documents |
| RagService.NoValidTickerIffNoSymbolDotIS | finance_rag_service.py:170-173 | add_custom_tickers finds a valid ticker (and goes on to merge and reload) exactly when some given string is a non-empty symbol followed by ".IS" (validate_ticker, data_fetcher.py:173-174) |
| RagService.NoValidCoinIffAllEmpty | finance_rag_service.py:193-196 | add_custom_coins returns False without merging or reloading exactly when every given coin id is empty, an empty list included (validate_coin, data_fetcher.py:177-178; `isinstance(coin, str)` holds of every model value) |
| RagService.MergeSources | finance_rag_service.py:178-179 | after merging, the list has no duplicates and its members are exactly the old members plus the valid additions |
| RagService.MergeIsIdempotent | finance_rag_service.py:200-201 | merging the same additions a second time changes nothing (under first-occurrence order), so adding "bitcoin" twice leaves one entry |
| RagService.FinanceRAGService.constructor | finance_rag_service.py:15-29 | the defaults are the fetcher's lists, and the service is ready exactly when the first initialize succeeds; with the key present a store exists whose documents are the fetch of the defaults, whose vector store exists exactly when that fetch is non-empty and the embedding succeeds, and whose chain (k = 5) exists exactly when the service is ready; a ready service's document_count is the store's count; without the key there is no store |
| RagService.FinanceRAGService.Initialize | finance_rag_service.py:32-64 | it succeeds exactly when the key is present, the fetch returns documents, and both builds succeed; with the key present it builds a fresh store whose documents are the fetch of the defaults, whose vector store exists exactly when that fetch is non-empty and the embedding succeeds, and whose chain (k = 5) exists exactly when every step succeeds; on success it is ready and document_count equals the new store's count; a failure returns false with is_ready false and nothing raised, and a missing key leaves the old store untouched |
| RagService.FinanceRAGService.LoadFinancialData | finance_rag_service.py:67-83 | if stocks and crypto both come back empty it fails with no data; otherwise it loads the stock documents followed by the crypto documents |
| RagService.FinanceRAGService.AskQuestion | finance_rag_service.py:87-113 | not ready is rejected first, then a blank question, both before the store is called; otherwise the store's answer is returned with document_count = \|sources\| and the per-type counts |
| RagService.FinanceRAGService.ReloadData | finance_rag_service.py:144-161 | it clears the store before refetching; afterwards the documents are the fresh fetch of the defaults, the vector store exists exactly when that fetch is non-empty and the embedding succeeds, and the chain (k = 5) exists exactly when the whole pipeline succeeds; it returns true exactly when a store exists and the pipeline succeeds, and then document_count is the new count; a failure keeps document_count and leaves no chain; is_ready and initialization_time are never modified |
| RagService.FinanceRAGService.AddCustomTickers | finance_rag_service.py:164-185 | with no valid ticker (including an empty list) it returns false and changes nothing; otherwise the tickers become the old ones plus the valid additions without duplicates, and the reload runs on the merged lists: the documents are their fresh fetch, the store and chain exist as the reload states, the result is the reload's, document_count is the new count on success and unchanged on failure, and initialization_time and is_ready are unchanged |
| RagService.FinanceRAGService.AddCustomCoins | finance_rag_service.py:188-207 | with no valid coin (including an empty list) it returns false and changes nothing; otherwise the coins become the old ones plus the valid additions without duplicates, and the reload runs on the merged lists: the documents are their fresh fetch, the store and chain exist as the reload states, the result is the reload's, document_count is the new count on success and unchanged on failure, and initialization_time and is_ready are unchanged |

## Left out

- Network calls to yfinance, CoinGecko, OpenAI embeddings and chat, FAISS and LangChain
  `RetrievalQA`: these are oracles. Nearest-neighbour ranking is not modelled, and nothing
  relates the number of returned sources to `k`, because the code never checks it.
- Repeated requests to an oracle within one run get the same answer, since each oracle is a
  function. The real services may answer differently from one call to the next.
- The rendered `page_content` text: f-string formatting, the last-five-prices listing, and the
  high, low and mean-volume figures. A `Report` records the data the text is rendered from.
- Floating point: metadata numbers are Dafny `real`s, not IEEE doubles, so rounding is not
  modelled. A stock percentage change over a zero first close is numpy's inf or nan, recorded
  as `NonFinite`.
- `time.sleep(2)` between coin requests, logging, and the `datetime.now()` clock, which is a
  parameter `now`.
- Callers that pass non-`str` items: `validate_coin`'s `isinstance` test is true of every
  model value. Malformed CoinGecko payloads are not modelled either, for example a price entry
  that is not a `[timestamp, price]` pair.
- `FinanceRAG.__init__`'s own `validate_config()` call and the LLM and embedding constructors
  it makes. The only caller is `initialize`, which checks the same key just before, so the
  check is modelled there.
- `get_system_info`: a read-only status report with no logic of its own.
- Lists.Dedup: it fixes one order for `list(set(...))`, first occurrences in input order,
  whereas Python's order is unspecified. The member set and the absence of duplicates hold
  for any order. The exact list equalities hold only for this choice: DedupAbsorbsPresent,
  MergeIsIdempotent, `defaultTickers == MergeSources(...)` and `defaultCoins == MergeSources(...)`
  in AddCustomTickers and AddCustomCoins, and the order of the documents a reload fetches
  after a merge.
- app.py (Flask routes and the global singleton), static/script.js (browser UI) and the
  environment reading of config.py are not part of this model.
- Concurrent `initialize` or `reload_data` calls, which the code does not guard.
