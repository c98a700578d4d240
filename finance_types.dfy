/** The records of the finance side of the dashboard: assets (a stock or a
    cryptocurrency), the portfolio aggregate, news items and search results. */
module FinanceTypes {
  import opened Results

  /** The `type` discriminator of an asset: 'stock' or 'crypto'. */
  datatype AssetType = StockType | CryptoType

  /** An asset record; `symbol` is its identity within the working set.
      Prices and changes are JavaScript numbers, modelled as reals; `timestamp` is the
      capture instant in milliseconds. The optional `marketCap` of a stock is never
      filled in by the service and is not modelled. */
  datatype Asset =
    | Stock(symbol: string, name: string, price: real, change: real, changePercent: real,
            volume: real, high: real, low: real, open: real, previousClose: real, timestamp: int)
    | Crypto(id: string, symbol: string, name: string, price: real, change: real, changePercent: real,
             volume: real, marketCap: real, high: real, low: real, timestamp: int)
  {
    function Kind(): AssetType
    {
      if Stock? then StockType else CryptoType
    }
  }

  /** The aggregate shown for the favourite assets. */
  datatype Portfolio = Portfolio(assets: seq<Asset>, totalValue: real, totalChange: real, totalChangePercent: real)

  /** A news article; `url` "#" means "no link". The publication instant is kept as
      milliseconds since the epoch; its ISO-8601 rendering is not modelled. */
  datatype NewsItem = NewsItem(id: string, title: string, description: string, url: string,
                               source: string, publishedAt: int, imageUrl: Option<string>)

  /** One hit of the asset search: stocks carry their region as `exchange`, coins their lookup `id`. */
  datatype SearchResult = SearchResult(symbol: string, name: string, kind: AssetType,
                                       exchange: Option<string>, id: Option<string>)
}
