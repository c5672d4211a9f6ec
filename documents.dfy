/** LangChain documents as the fetcher builds them: a rendered report and a metadata dict. */
module Documents {

  /** A metadata value: a string, an int, a (real-valued) float, or a float that is inf or nan. */
  datatype Scalar = Str(s: string) | Int(i: int) | Num(x: real) | NonFinite

  /** A Python dict from string keys to scalars. */
  type Metadata = map<string, Scalar>

  /** One row of a yfinance price history. */
  datatype Bar = Bar(open: real, high: real, low: real, close: real, volume: real)

  /** One [timestamp, price] pair of a CoinGecko market chart. */
  datatype PricePoint = PricePoint(time: int, price: real)

  /** The data a document's page_content is rendered from (the text itself is not modelled). */
  datatype Report =
    | StockReport(ticker: string, period: string, history: seq<Bar>)
    | CryptoReport(coin: string, days: int, vsCurrency: string, prices: seq<PricePoint>)

  datatype Document = Document(pageContent: Report, metadata: Metadata)

  /** [doc.metadata for doc in docs] */
  function Metadatas(docs: seq<Document>): seq<Metadata> {
    seq(|docs|, i requires 0 <= i < |docs| => docs[i].metadata)
  }

  /** metadata.get("type") == t */
  predicate HasType(m: Metadata, t: string) {
    "type" in m && m["type"] == Str(t)
  }
}
