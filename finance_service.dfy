/** The finance service: stock and crypto normalisation with their error selection, the
    two-source asset search, the fixed mock news and the popular-asset lists. Every network
    exchange is an input (a `Response`); the clock reading `Date.now()` is the input `now`. */
module FinanceService {
  import opened Results
  import opened Text
  import opened Seqs
  import opened Http
  import opened FinanceTypes

  const FinnhubKeyMissing := "Finnhub API key is not configured"
  const InvalidFinnhubKey := "Invalid Finnhub API key"
  const StockNotFound := "Stock symbol not found or market is closed"
  const StockUnexpected := "An unexpected error occurred while fetching stock data."
  const CryptoNotFound := "Cryptocurrency not found"
  const CryptoUnexpected := "An unexpected error occurred while fetching crypto data."

  function StockServiceError(status: nat): string
  {
    "Stock service error: " + NatToString(status)
  }

  function CryptoServiceError(status: nat): string
  {
    "Crypto service error: " + NatToString(status)
  }

  /** `x || 0` on an optional numeric field (a missing field and 0 both give 0). */
  function OrZero(x: Option<real>): real
  {
    if x.Some? then x.value else 0.0
  }

  // ---------------------------------------------------------------- stocks

  /** The Finnhub quote body: current price `c`, change `d`, percent change `dp`, day high
      and low, open and previous close. */
  datatype Quote = Quote(c: real, d: Option<real>, dp: Option<real>, h: real, l: real, o: real, pc: real)

  /** The Finnhub company-profile body. */
  datatype Profile = Profile(name: Option<string>)

  /** Everything `getStockData` learns from its environment: whether the Finnhub key is
      configured, the two responses, and the clock. */
  datatype StockFetch = StockFetch(keyConfigured: bool, quote: Response<Quote>, profile: Response<Profile>, now: int)

  /** The quote request: a thrown `fetch`, a non-OK status (401 is a bad key), an
      unreadable body, or a zero current price all end the attempt. */
  function QuoteStep(quote: Response<Quote>): Attempt<Quote>
  {
    match quote
    case Threw(e) => Raised(e)
    case Answered(status, body) =>
      if !IsOk(status) then
        Raised(ApiError(if status == 401 then InvalidFinnhubKey else StockServiceError(status)))
      else
        match ReadBody(body)
        case Raised(e) => Raised(e)
        case Returned(q) => if q.c == 0.0 then Raised(ApiError(StockNotFound)) else Returned(q)
  }

  /** The profile answers OK with a non-empty name. */
  predicate ProfileNamed(profile: Response<Profile>)
  {
    && profile.Answered? && IsOk(profile.status) && profile.body.Some?
    && profile.body.value.name.Some? && profile.body.value.name.value != ""
  }

  /** `companyName`: the symbol, replaced by the profile's name when the profile answers OK
      with one. A profile request that throws, or an OK profile with an unreadable body,
      ends the attempt. */
  function CompanyName(symbol: string, profile: Response<Profile>): Attempt<string>
  {
    match profile
    case Threw(e) => Raised(e)
    case Answered(status, body) =>
      if !IsOk(status) then Returned(symbol)
      else
        match ReadBody(body)
        case Raised(e) => Raised(e)
        case Returned(p) => Returned(if p.name.Some? && p.name.value != "" then p.name.value else symbol)
  }

  /** The `try` block of `getStockData`. */
  function FetchStock(symbol: string, f: StockFetch): Attempt<Asset>
  {
    match QuoteStep(f.quote)
    case Raised(e) => Raised(e)
    case Returned(q) =>
      match CompanyName(symbol, f.profile)
      case Raised(e) => Raised(e)
      case Returned(name) =>
        Returned(Stock(ToUpper(symbol), name, q.c, OrZero(q.d), OrZero(q.dp), 0.0, q.h, q.l, q.o, q.pc, f.now))
  }

  /** The quote answered OK with a readable body. */
  predicate QuoteRead(f: StockFetch)
  {
    f.quote.Answered? && IsOk(f.quote.status) && f.quote.body.Some?
  }

  /** `getStockData(symbol)`. */
  function GetStockData(symbol: string, f: StockFetch): (r: Result<Asset>)
    ensures !f.keyConfigured ==> r == Err(FinnhubKeyMissing)
    ensures f.keyConfigured && f.quote.Answered? && !IsOk(f.quote.status) ==>
              r == Err(if f.quote.status == 401 then InvalidFinnhubKey else StockServiceError(f.quote.status))
    ensures f.keyConfigured && f.quote.Threw? ==> r == Err(Reclassify(f.quote.thrown, StockUnexpected))
    ensures (f.keyConfigured && f.quote.Answered? && IsOk(f.quote.status) && f.quote.body.None?) ==>
              r == Err(StockUnexpected)
    ensures f.keyConfigured && QuoteRead(f) && f.quote.body.value.c == 0.0 ==> r == Err(StockNotFound)
    ensures (f.keyConfigured && QuoteRead(f) && f.quote.body.value.c != 0.0 && f.profile.Threw?) ==>
              r == Err(Reclassify(f.profile.thrown, StockUnexpected))
    ensures (f.keyConfigured && QuoteRead(f) && f.quote.body.value.c != 0.0
             && f.profile.Answered? && IsOk(f.profile.status) && f.profile.body.None?) ==>
              r == Err(StockUnexpected)
    ensures r.Ok? <==>
              && f.keyConfigured && QuoteRead(f) && f.quote.body.value.c != 0.0
              && !f.profile.Threw? && (f.profile.Answered? && IsOk(f.profile.status) ==> f.profile.body.Some?)
    ensures r.Ok? ==>
              var q := f.quote.body.value;
              && r.value.Stock? && r.value.Kind() == StockType
              && r.value.symbol == ToUpper(symbol)
              && r.value.name == (if ProfileNamed(f.profile) then f.profile.body.value.name.value else symbol)
              && r.value.price == q.c && r.value.price != 0.0
              && r.value.change == OrZero(q.d) && r.value.changePercent == OrZero(q.dp)
              && r.value.high == q.h && r.value.low == q.l
              && r.value.open == q.o && r.value.previousClose == q.pc
              && r.value.volume == 0.0 && r.value.timestamp == f.now
  {
    if !f.keyConfigured then Err(FinnhubKeyMissing)
    else
      match FetchStock(symbol, f)
      case Returned(a) => Ok(a)
      case Raised(e) => Err(Reclassify(e, StockUnexpected))
  }

  /** A failed quote request that was not an `ApiError` never yields a record: its
      message is the network text when the thrown message mentions `fetch`, and the
      generic text otherwise. */
  lemma StockTransportFailure(symbol: string, f: StockFetch)
    requires f.keyConfigured && f.quote.Threw? && !f.quote.thrown.ApiError?
    ensures GetStockData(symbol, f) == Err(Reclassify(f.quote.thrown, StockUnexpected))
    ensures GetStockData(symbol, f) == Err(NetworkErrorText) || GetStockData(symbol, f) == Err(StockUnexpected)
  {
  }

  /** The symbol of a fetched stock is already upper case: upper-casing it again changes nothing. */
  lemma StockSymbolIsUpperCase(symbol: string, f: StockFetch)
    requires GetStockData(symbol, f).Ok?
    ensures ToUpper(GetStockData(symbol, f).value.symbol) == GetStockData(symbol, f).value.symbol
  {
    ToUpperIdempotent(symbol);
  }

  /** Different non-OK statuses other than 401 give different messages. */
  lemma StockServiceErrorNamesStatus(m: nat, n: nat)
    ensures StockServiceError(m) == StockServiceError(n) ==> m == n
  {
    PrefixedNumberInjective("Stock service error: ", m, n);
  }

  // ---------------------------------------------------------------- cryptocurrencies

  /** One coin of the CoinGecko simple-price body. */
  datatype CoinQuote = CoinQuote(usd: real, change24h: Option<real>, volume24h: Option<real>, marketCap: Option<real>)

  /** The CoinGecko coin-detail body. */
  datatype CoinInfo = CoinInfo(name: string, symbol: string)

  /** Everything `getCryptoData` learns from its environment. */
  datatype CryptoFetch = CryptoFetch(price: Response<map<string, CoinQuote>>, info: Response<CoinInfo>, now: int)

  /** The price request: a thrown `fetch`, a non-OK status, an unreadable body or a body
      without the requested coin ends the attempt. */
  function CoinStep(coinId: string, price: Response<map<string, CoinQuote>>): Attempt<CoinQuote>
  {
    match price
    case Threw(e) => Raised(e)
    case Answered(status, body) =>
      if !IsOk(status) then Raised(ApiError(CryptoServiceError(status)))
      else
        match ReadBody(body)
        case Raised(e) => Raised(e)
        case Returned(data) => if coinId !in data then Raised(ApiError(CryptoNotFound)) else Returned(data[coinId])
  }

  /** `coinInfo`: name and symbol both the coin id, replaced by the detail's name and
      upper-cased symbol when the detail request answers OK. */
  function CoinNaming(coinId: string, info: Response<CoinInfo>): Attempt<CoinInfo>
  {
    match info
    case Threw(e) => Raised(e)
    case Answered(status, body) =>
      if !IsOk(status) then Returned(CoinInfo(coinId, coinId))
      else
        match ReadBody(body)
        case Raised(e) => Raised(e)
        case Returned(i) => Returned(CoinInfo(i.name, ToUpper(i.symbol)))
  }

  /** The `try` block of `getCryptoData`. High and low are not upstream data: they are
      synthesised as 5 % above and below the price. */
  function FetchCrypto(coinId: string, f: CryptoFetch): Attempt<Asset>
  {
    match CoinStep(coinId, f.price)
    case Raised(e) => Raised(e)
    case Returned(c) =>
      match CoinNaming(coinId, f.info)
      case Raised(e) => Raised(e)
      case Returned(naming) =>
        Returned(Crypto(coinId, naming.symbol, naming.name, c.usd, OrZero(c.change24h), OrZero(c.change24h),
                        OrZero(c.volume24h), OrZero(c.marketCap), c.usd * 1.05, c.usd * 0.95, f.now))
  }

  /** The price request answered OK with a readable body. */
  predicate PriceRead(f: CryptoFetch)
  {
    f.price.Answered? && IsOk(f.price.status) && f.price.body.Some?
  }

  /** `getCryptoData(coinId)`. */
  function GetCryptoData(coinId: string, f: CryptoFetch): (r: Result<Asset>)
    ensures f.price.Answered? && !IsOk(f.price.status) ==> r == Err(CryptoServiceError(f.price.status))
    ensures f.price.Threw? ==> r == Err(Reclassify(f.price.thrown, CryptoUnexpected))
    ensures f.price.Answered? && IsOk(f.price.status) && f.price.body.None? ==> r == Err(CryptoUnexpected)
    ensures PriceRead(f) && coinId !in f.price.body.value ==> r == Err(CryptoNotFound)
    ensures PriceRead(f) && coinId in f.price.body.value && f.info.Threw? ==>
              r == Err(Reclassify(f.info.thrown, CryptoUnexpected))
    ensures (PriceRead(f) && coinId in f.price.body.value
             && f.info.Answered? && IsOk(f.info.status) && f.info.body.None?) ==>
              r == Err(CryptoUnexpected)
    ensures r.Ok? <==>
              && PriceRead(f) && coinId in f.price.body.value
              && !f.info.Threw? && (f.info.Answered? && IsOk(f.info.status) ==> f.info.body.Some?)
    ensures r.Ok? ==>
              var c := f.price.body.value[coinId];
              && r.value.Crypto? && r.value.Kind() == CryptoType && r.value.id == coinId
              && r.value.price == c.usd
              && r.value.high == c.usd * 1.05 && r.value.low == c.usd * 0.95
              && r.value.change == r.value.changePercent == OrZero(c.change24h)
              && r.value.volume == OrZero(c.volume24h) && r.value.marketCap == OrZero(c.marketCap)
              && r.value.timestamp == f.now
    ensures r.Ok? && f.info.Answered? && !IsOk(f.info.status) ==> r.value.name == r.value.symbol == coinId
    ensures r.Ok? && f.info.Answered? && IsOk(f.info.status) ==>
              r.value.name == f.info.body.value.name && r.value.symbol == ToUpper(f.info.body.value.symbol)
  {
    match FetchCrypto(coinId, f)
    case Returned(a) => Ok(a)
    case Raised(e) => Err(Reclassify(e, CryptoUnexpected))
  }

  /** For a non-negative price the synthesised band contains the price. */
  lemma CryptoBandContainsPrice(coinId: string, f: CryptoFetch)
    requires GetCryptoData(coinId, f).Ok? && GetCryptoData(coinId, f).value.price >= 0.0
    ensures var a := GetCryptoData(coinId, f).value; a.low <= a.price <= a.high
  {
  }

  /** A coin quoted at 50000 with a 24h change of 2 gets high 52500, low 47500 and change 2. */
  lemma CryptoBandExample(f: CryptoFetch)
    requires f.price == Answered(200, Some(map["bitcoin" := CoinQuote(50000.0, Some(2.0), None, None)]))
    requires f.info.Answered? && !IsOk(f.info.status)
    ensures GetCryptoData("bitcoin", f).Ok?
    ensures var a := GetCryptoData("bitcoin", f).value;
            a.high == 52500.0 && a.low == 47500.0 && a.change == 2.0 && a.changePercent == 2.0
            && a.symbol == "bitcoin" && a.marketCap == 0.0
  {
  }

  // ---------------------------------------------------------------- search

  /** One Alpha Vantage symbol-search match. */
  datatype StockMatch = StockMatch(symbol: string, name: string, region: string)
  datatype StockSearchBody = StockSearchBody(bestMatches: Option<seq<StockMatch>>)

  /** One CoinGecko search hit. */
  datatype CoinHit = CoinHit(id: string, symbol: string, name: string)
  datatype CoinSearchBody = CoinSearchBody(coins: Option<seq<CoinHit>>)

  const SearchCap := 5

  function StockMatchResult(m: StockMatch): SearchResult
  {
    SearchResult(m.symbol, m.name, StockType, Some(m.region), None)
  }

  function CoinHitResult(c: CoinHit): SearchResult
  {
    SearchResult(ToUpper(c.symbol), c.name, CryptoType, None, Some(c.id))
  }

  /** The matches a stock search yields: only with a configured key and an OK, readable
      body that has matches; otherwise (failures are swallowed) none. */
  function StockMatches(keyConfigured: bool, reply: Response<StockSearchBody>): seq<StockMatch>
  {
    if keyConfigured && reply.Answered? && IsOk(reply.status) && reply.body.Some?
       && reply.body.value.bestMatches.Some?
    then reply.body.value.bestMatches.value
    else []
  }

  function CoinMatches(reply: Response<CoinSearchBody>): seq<CoinHit>
  {
    if reply.Answered? && IsOk(reply.status) && reply.body.Some? && reply.body.value.coins.Some?
    then reply.body.value.coins.value
    else []
  }

  /** The stock part of the results: the first five matches, in upstream order. */
  function StockHits(keyConfigured: bool, reply: Response<StockSearchBody>): (hits: seq<SearchResult>)
    ensures |hits| <= SearchCap
    ensures !keyConfigured ==> hits == []
    ensures var ms := StockMatches(keyConfigured, reply);
            |hits| == (if |ms| < SearchCap then |ms| else SearchCap)
            && forall i :: 0 <= i < |hits| ==> hits[i] == StockMatchResult(ms[i])
  {
    var ms := Take(StockMatches(keyConfigured, reply), SearchCap);
    seq(|ms|, i requires 0 <= i < |ms| => StockMatchResult(ms[i]))
  }

  /** The crypto part of the results: the first five hits, symbols upper-cased. */
  function CoinHits(reply: Response<CoinSearchBody>): (hits: seq<SearchResult>)
    ensures |hits| <= SearchCap
    ensures var cs := CoinMatches(reply);
            |hits| == (if |cs| < SearchCap then |cs| else SearchCap)
            && forall i :: 0 <= i < |hits| ==> hits[i] == CoinHitResult(cs[i])
  {
    var cs := Take(CoinMatches(reply), SearchCap);
    seq(|cs|, i requires 0 <= i < |cs| => CoinHitResult(cs[i]))
  }

  /** `searchAssets(query)`: the query only shapes the two requests, whose outcomes are
      the inputs. Stock hits come first, then crypto hits; each source's failure is
      swallowed and leaves the other's hits in place. */
  method SearchAssets(alphaVantageKey: bool, stockReply: Response<StockSearchBody>,
                      coinReply: Response<CoinSearchBody>) returns (results: seq<SearchResult>)
    ensures results == StockHits(alphaVantageKey, stockReply) + CoinHits(coinReply)
    ensures |results| <= 2 * SearchCap
    ensures forall i :: 0 <= i < |results| ==>
              (results[i].kind == StockType <==> i < |StockHits(alphaVantageKey, stockReply)|)
  {
    results := [];
    if alphaVantageKey {
      match stockReply {
        case Threw(_) =>
        case Answered(status, body) =>
          if IsOk(status) && body.Some? && body.value.bestMatches.Some? {
            var firstFive := Take(body.value.bestMatches.value, SearchCap);
            var stockResults := seq(|firstFive|, i requires 0 <= i < |firstFive| => StockMatchResult(firstFive[i]));
            results := results + stockResults;
          }
      }
    }
    assert results == StockHits(alphaVantageKey, stockReply);
    match coinReply {
      case Threw(_) =>
      case Answered(status, body) =>
        if IsOk(status) && body.Some? && body.value.coins.Some? {
          var firstFive := Take(body.value.coins.value, SearchCap);
          var coinResults := seq(|firstFive|, i requires 0 <= i < |firstFive| => CoinHitResult(firstFive[i]));
          results := results + coinResults;
        }
    }
  }

  // ---------------------------------------------------------------- news and popular assets

  /** One mock article's fixed copy: title, description and source. */
  datatype MockCopy = MockCopy(title: string, description: string, source: string)

  const MockCopies: seq<MockCopy> := [
    MockCopy("Stock Market Reaches New Heights Amid Economic Recovery",
             "Major indices continue their upward trajectory as investors remain optimistic about economic growth.",
             "Financial Times"),
    MockCopy("Cryptocurrency Market Shows Strong Performance",
             "Bitcoin and other major cryptocurrencies see significant gains as institutional adoption increases.",
             "CoinDesk"),
    MockCopy("Tech Stocks Lead Market Rally",
             "Technology companies report strong earnings, driving market sentiment higher.",
             "Bloomberg")]

  /** The k-th mock article (k from 0): id `mock-<k+1>`, no link, published k hours ago. */
  function MockArticle(k: nat, now: int): NewsItem
    requires k < |MockCopies|
  {
    var copy := MockCopies[k];
    NewsItem("mock-" + NatToString(k + 1), copy.title, copy.description, "#", copy.source, now - k * 3600000, None)
  }

  /** `getMockNews()`: three fixed articles without links, published now, an hour ago and
      two hours ago, newest first. */
  function MockNews(now: int): (news: seq<NewsItem>)
    ensures |news| == 3
    ensures forall i :: 0 <= i < |news| ==> news[i].url == "#" && news[i].imageUrl.None?
    ensures forall i, j :: 0 <= i < j < |news| ==> news[i].id != news[j].id
    ensures news[0].publishedAt == now
    ensures forall i, j :: 0 <= i < j < |news| ==> news[i].publishedAt > news[j].publishedAt
  {
    var news := seq(3, k requires 0 <= k < 3 => MockArticle(k, now));
    forall i, j | 0 <= i < j < |news|
      ensures news[i].id != news[j].id
    {
      PrefixedNumberInjective("mock-", i + 1, j + 1);
    }
    news
  }

  datatype PopularAssets = PopularAssets(stocks: seq<string>, cryptos: seq<string>)

  const PopularStocks: seq<string> := ["AAPL", "GOOGL", "MSFT", "TSLA", "AMZN"]
  const PopularCryptos: seq<string> := ["bitcoin", "ethereum", "cardano", "polkadot", "chainlink"]

  /** `getPopularAssets()`: five tickers, already upper case, and five coin ids, already
      lower case, so neither the stock normaliser's upper-casing nor the crypto lookup-key
      lower-casing changes them. */
  function GetPopularAssets(): (p: PopularAssets)
    ensures |p.stocks| == 5 && |p.cryptos| == 5
    ensures forall i :: 0 <= i < 5 ==> ToUpper(p.stocks[i]) == p.stocks[i] && ToLower(p.cryptos[i]) == p.cryptos[i]
  {
    assert forall i :: 0 <= i < 5 ==> ToUpper(PopularStocks[i]) == PopularStocks[i] by {
      assert ToUpper("AAPL") == "AAPL" && ToUpper("GOOGL") == "GOOGL" && ToUpper("MSFT") == "MSFT";
      assert ToUpper("TSLA") == "TSLA" && ToUpper("AMZN") == "AMZN";
    }
    assert forall i :: 0 <= i < 5 ==> ToLower(PopularCryptos[i]) == PopularCryptos[i] by {
      assert ToLower("bitcoin") == "bitcoin" && ToLower("ethereum") == "ethereum";
      assert ToLower("cardano") == "cardano" && ToLower("polkadot") == "polkadot";
      assert ToLower("chainlink") == "chainlink";
    }
    PopularAssets(PopularStocks, PopularCryptos)
  }
}
