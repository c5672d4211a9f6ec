/** The constants of config.py that the core uses as defaults. */
module Config {
  const DefaultKRetrieval: int := 5
  const DefaultStockPeriod: string := "1mo"
  const DefaultCryptoDays: int := 30
  const DefaultVsCurrency: string := "usd"
}
