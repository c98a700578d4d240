/** The dashboard's state machine: the fetch-and-upsert handler, the favourite toggle, the
    sort-key toggle, the filter and sort pipeline that derives the displayed list, the
    favourites portfolio, and the initial load of popular assets. Each handler is one
    atomic step; the finance service's responses are inputs. */
module Dashboard {
  import opened Results
  import opened Text
  import opened Seqs
  import opened FinanceTypes
  import opened AssetSort
  import opened Helpers
  import opened FinanceService

  datatype SortField = Name | Price | Change
  datatype SortOrder = Asc | Desc

  // ---------------------------------------------------------------- the derived list

  function InFavorites(favorites: set<string>): Asset -> bool
  {
    (a: Asset) => a.symbol in favorites
  }

  /** The favourites step: with `showFavorites` only favourite symbols remain. */
  function FavoritesFilter(assets: seq<Asset>, favorites: set<string>, showFavorites: bool): (r: seq<Asset>)
    ensures !showFavorites ==> r == assets
    ensures IsSubsequence(r, assets)
    ensures forall a :: multiset(r)[a] == if !showFavorites || a.symbol in favorites then multiset(assets)[a] else 0
  {
    if showFavorites then
      KeepCharacterized(assets, InFavorites(favorites));
      Keep(assets, InFavorites(favorites))
    else
      SubsequenceOfItself(assets);
      assets
  }

  /** Whether the pipeline keeps `a` under the current controls. */
  predicate Shown(a: Asset, favorites: set<string>, showFavorites: bool, filterType: TypeFilter, filterText: string)
  {
    (!showFavorites || a.symbol in favorites) && PassesTypeFilter(a, filterType) && PassesNameFilter(a, filterText)
  }

  /** The list is ordered as the sort controls ask: by price or by changePercent in the
      chosen direction, or by symbol, ascending or descending. */
  predicate ArrangedBy(r: seq<Asset>, sortBy: SortField, sortOrder: SortOrder)
  {
    match sortBy
    case Price => PriceOrdered(r, sortOrder == Asc)
    case Change => ChangeOrdered(r, sortOrder == Asc)
    case Name => SymbolOrdered(r, sortOrder == Asc)
  }

  /** Reversing a list ascending by symbol gives one descending by symbol. */
  lemma ReverseOfSymbolAscending(s: seq<Asset>)
    requires SymbolOrdered(s, true)
    ensures SymbolOrdered(Reverse(s), false)
  {
    var r := Reverse(s);
    forall i, j | 0 <= i < j < |r|
      ensures CompareStrings(r[i].symbol, r[j].symbol) >= 0
    {
      var i', j' := |s| - 1 - i, |s| - 1 - j;
      assert r[i] == s[i'] && r[j] == s[j'];
      assert CompareStrings(s[j'].symbol, s[i'].symbol) <= 0;
      CompareStringsAntisymmetric(s[j'].symbol, s[i'].symbol);
    }
  }

  /** The sort step. There is no descending symbol sort: the ascending one is reversed. */
  function SortStep(s: seq<Asset>, sortBy: SortField, sortOrder: SortOrder): (r: seq<Asset>)
    ensures multiset(r) == multiset(s)
    ensures ArrangedBy(r, sortBy, sortOrder)
  {
    match sortBy
    case Price => SortAssetsByPrice(s, sortOrder == Asc)
    case Change => SortAssetsByChange(s, sortOrder == Asc)
    case Name =>
      var ascending := SortAssetsAlphabetically(s);
      if sortOrder == Desc then
        ReversePermutes(ascending);
        ReverseOfSymbolAscending(ascending);
        Reverse(ascending)
      else ascending
  }

  /** The displayed list: favourites, then type, then name filter, then the sort. It holds
      exactly the shown assets of `assets`, each as often as there, ordered as asked. */
  function View(assets: seq<Asset>, favorites: set<string>, showFavorites: bool, filterType: TypeFilter,
                filterText: string, sortBy: SortField, sortOrder: SortOrder): (r: seq<Asset>)
    ensures forall a :: multiset(r)[a] ==
              if Shown(a, favorites, showFavorites, filterType, filterText) then multiset(assets)[a] else 0
    ensures multiset(r) <= multiset(assets)
    ensures ArrangedBy(r, sortBy, sortOrder)
  {
    var favored := FavoritesFilter(assets, favorites, showFavorites);
    var typed := FilterAssetsByType(favored, filterType);
    var named := FilterAssetsByName(typed, filterText);
    var r := SortStep(named, sortBy, sortOrder);
    assert forall a :: multiset(r)[a] ==
             if Shown(a, favorites, showFavorites, filterType, filterText) then multiset(assets)[a] else 0 by {
      forall a
        ensures multiset(r)[a] ==
                if Shown(a, favorites, showFavorites, filterType, filterText) then multiset(assets)[a] else 0
      {
        assert multiset(r)[a] == multiset(named)[a];
      }
    }
    assert multiset(r) <= multiset(assets) by {
      forall a
        ensures multiset(r)[a] <= multiset(assets)[a]
      {
      }
    }
    r
  }

  /** Sorting by name descending shows exactly the reverse of sorting by name ascending. */
  lemma NameDescendingReversesAscending(assets: seq<Asset>, favorites: set<string>, showFavorites: bool,
                                        filterType: TypeFilter, filterText: string)
    ensures View(assets, favorites, showFavorites, filterType, filterText, Name, Desc)
         == Reverse(View(assets, favorites, showFavorites, filterType, filterText, Name, Asc))
  {
  }

  /** Which assets are shown does not depend on the sort controls. */
  lemma SortControlsKeepSelection(assets: seq<Asset>, favorites: set<string>, showFavorites: bool,
                                  filterType: TypeFilter, filterText: string,
                                  by1: SortField, order1: SortOrder, by2: SortField, order2: SortOrder)
    ensures multiset(View(assets, favorites, showFavorites, filterType, filterText, by1, order1))
         == multiset(View(assets, favorites, showFavorites, filterType, filterText, by2, order2))
  {
  }

  // ---------------------------------------------------------------- the portfolio

  /** `calculatePortfolioSummary(assets.filter(a => favorites.has(a.symbol)))`: the summary
      of exactly the favourite assets, in list order; no filter or sort control enters. */
  function FavoritesPortfolio(assets: seq<Asset>, favorites: set<string>): (p: Portfolio)
    ensures IsSubsequence(p.assets, assets)
    ensures forall a :: multiset(p.assets)[a] == if a.symbol in favorites then multiset(assets)[a] else 0
    ensures p.totalValue == SumOf(p.assets, PriceOf) && p.totalChange == SumOf(p.assets, ChangeOf)
    ensures PercentIsAverageChange(p)
    ensures |p.assets| == 0 ==> p.totalChangePercent == 0.0
  {
    var kept := Keep(assets, InFavorites(favorites));
    var summary := CalculatePortfolioSummary(kept);
    KeepCharacterized(assets, InFavorites(favorites));
    summary
  }

  /** With favourites only, every type and a blank filter, the displayed list sums to the
      portfolio's totals, whatever the sort. */
  lemma PortfolioMatchesFavoritesView(assets: seq<Asset>, favorites: set<string>, filterText: string,
                                      sortBy: SortField, sortOrder: SortOrder)
    requires IsBlank(filterText)
    ensures var shown := CalculatePortfolioSummary(View(assets, favorites, true, All, filterText, sortBy, sortOrder));
            var p := FavoritesPortfolio(assets, favorites);
            shown.totalValue == p.totalValue && shown.totalChange == p.totalChange
            && shown.totalChangePercent == p.totalChangePercent
  {
    var v := View(assets, favorites, true, All, filterText, sortBy, sortOrder);
    var fav := FavoritesPortfolio(assets, favorites).assets;
    assert multiset(v) == multiset(fav) by {
      assert forall a :: multiset(v)[a] == multiset(fav)[a];
    }
    PortfolioTotalsIgnoreOrder(v, fav);
  }

  // ---------------------------------------------------------------- upsert

  /** `assets.findIndex(a => a.symbol === symbol)`. */
  function IndexOfSymbol(assets: seq<Asset>, symbol: string): (i: int)
    ensures -1 <= i < |assets|
    ensures 0 <= i ==> assets[i].symbol == symbol && forall j :: 0 <= j < i ==> assets[j].symbol != symbol
    ensures i == -1 <==> forall j :: 0 <= j < |assets| ==> assets[j].symbol != symbol
    decreases |assets|
  {
    if assets == [] then -1
    else if assets[0].symbol == symbol then 0
    else
      var k := IndexOfSymbol(assets[1..], symbol);
      if k < 0 then -1 else k + 1
  }

  /** The upsert of a fetched asset: replace the entry with its symbol in place, or append. */
  function Upserted(assets: seq<Asset>, asset: Asset): (r: seq<Asset>)
    ensures IndexOfSymbol(assets, asset.symbol) >= 0 ==>
              |r| == |assets| && r[IndexOfSymbol(assets, asset.symbol)] == asset
              && forall j :: 0 <= j < |assets| && j != IndexOfSymbol(assets, asset.symbol) ==> r[j] == assets[j]
    ensures IndexOfSymbol(assets, asset.symbol) < 0 ==> r == assets + [asset]
  {
    var existingIndex := IndexOfSymbol(assets, asset.symbol);
    if existingIndex >= 0 then assets[existingIndex := asset] else assets + [asset]
  }

  /** No two entries share a symbol. */
  predicate UniqueSymbols(assets: seq<Asset>)
  {
    forall i, j :: 0 <= i < j < |assets| ==> assets[i].symbol != assets[j].symbol
  }

  function Symbols(assets: seq<Asset>): set<string>
  {
    set a | a in assets :: a.symbol
  }

  /** Upserting keeps symbols unique, makes the fetched asset the entry for its symbol, and
      grows the list by one exactly when the symbol was new. */
  lemma UpsertKeepsSymbolsUnique(assets: seq<Asset>, asset: Asset)
    requires UniqueSymbols(assets)
    ensures UniqueSymbols(Upserted(assets, asset))
    ensures asset in Upserted(assets, asset)
    ensures Symbols(Upserted(assets, asset)) == Symbols(assets) + {asset.symbol}
    ensures |Upserted(assets, asset)| == |assets| + (if asset.symbol in Symbols(assets) then 0 else 1)
  {
  }

  /** Upserting the same asset again changes nothing. */
  lemma UpsertIdempotent(assets: seq<Asset>, asset: Asset)
    ensures Upserted(Upserted(assets, asset), asset) == Upserted(assets, asset)
  {
    var r := Upserted(assets, asset);
    var k := IndexOfSymbol(assets, asset.symbol);
    var k2 := IndexOfSymbol(r, asset.symbol);
    if k >= 0 {
      assert k2 == k;
    } else {
      assert r[|assets|].symbol == asset.symbol;
      assert k2 == |assets|;
    }
  }

  // ---------------------------------------------------------------- favourites and sort controls

  /** `handleToggleFavorite(symbol)` on the favourites set. */
  function Toggled(favorites: set<string>, symbol: string): (r: set<string>)
    ensures symbol in r <==> symbol !in favorites
    ensures forall s :: s != symbol ==> (s in r <==> s in favorites)
  {
    if symbol in favorites then favorites - {symbol} else favorites + {symbol}
  }

  /** Toggling the same symbol twice restores the set. */
  lemma ToggleTwiceRestores(favorites: set<string>, symbol: string)
    ensures Toggled(Toggled(favorites, symbol), symbol) == favorites
  {
  }

  function Flipped(order: SortOrder): SortOrder
  {
    if order == Asc then Desc else Asc
  }

  datatype SortControls = SortControls(sortBy: SortField, sortOrder: SortOrder)

  /** `handleSortChange(clicked)`: the active key flips the direction; another key becomes
      active, ascending. */
  function NextSort(current: SortControls, clicked: SortField): (next: SortControls)
    ensures next.sortBy == clicked
    ensures clicked == current.sortBy ==> next.sortOrder != current.sortOrder
    ensures clicked != current.sortBy ==> next.sortOrder == Asc
  {
    if current.sortBy == clicked then SortControls(clicked, Flipped(current.sortOrder))
    else SortControls(clicked, Asc)
  }

  /** Clicking the active key twice restores the controls; clicking a new key twice ends
      descending on it. */
  lemma SortClickTwice(current: SortControls, clicked: SortField)
    ensures clicked == current.sortBy ==> NextSort(NextSort(current, clicked), clicked) == current
    ensures clicked != current.sortBy ==> NextSort(NextSort(current, clicked), clicked) == SortControls(clicked, Desc)
  {
  }

  // ---------------------------------------------------------------- fetching

  /** The finance service's answers: per symbol for stocks, per lookup key for coins. */
  datatype Upstream = Upstream(stocks: string -> StockFetch, coins: string -> CryptoFetch)

  function StockFetcher(up: Upstream): string -> Result<Asset>
  {
    (symbol: string) => GetStockData(symbol, up.stocks(symbol))
  }

  function CoinFetcher(up: Upstream): string -> Result<Asset>
  {
    (coinId: string) => GetCryptoData(coinId, up.coins(coinId))
  }

  /** `id || symbol.toLowerCase()`. */
  function CryptoLookupKey(symbol: string, id: Option<string>): (key: string)
    ensures id.Some? && id.value != "" ==> key == id.value
    ensures id.None? || id.value == "" ==> key == ToLower(symbol)
  {
    if id.Some? && id.value != "" then id.value else ToLower(symbol)
  }

  /** The fetch `handleAssetSearch` makes for a selected search result. */
  function FetchAsset(up: Upstream, symbol: string, kind: AssetType, id: Option<string>): (r: Result<Asset>)
    ensures kind == StockType ==> r == StockFetcher(up)(symbol)
    ensures kind == CryptoType ==> r == CoinFetcher(up)(CryptoLookupKey(symbol, id))
    ensures r.Ok? ==> r.value.Kind() == kind
  {
    if kind == StockType then GetStockData(symbol, up.stocks(symbol))
    else
      var key := CryptoLookupKey(symbol, id);
      GetCryptoData(key, up.coins(key))
  }

  const DefaultFetchError := "Failed to fetch asset data"

  /** `err.message || 'Failed to fetch asset data'`. */
  function ErrorText(message: string): (text: string)
    ensures text != ""
    ensures message != "" ==> text == message
    ensures message == "" ==> text == DefaultFetchError
  {
    if message != "" then message else DefaultFetchError
  }

  // ---------------------------------------------------------------- initial load

  /** The successful fetches of `keys`, in order; failures are skipped. */
  function Loaded(keys: seq<string>, fetch: string -> Result<Asset>): (r: seq<Asset>)
    ensures |r| <= |keys|
    decreases |keys|
  {
    if keys == [] then []
    else
      var last := keys[|keys| - 1];
      var before := Loaded(keys[..|keys| - 1], fetch);
      if fetch(last).Ok? then before + [fetch(last).value] else before
  }

  /** What the loading loop collects: the assets of exactly the keys whose fetch succeeds,
      one per such key, in the order of the keys. */
  lemma {:induction false} LoadedCharacterized(keys: seq<string>, fetch: string -> Result<Asset>)
    ensures |Loaded(keys, fetch)| == |Keep(keys, Succeeded(fetch))|
    ensures forall i :: 0 <= i < |Loaded(keys, fetch)| ==>
              fetch(Keep(keys, Succeeded(fetch))[i]) == Ok(Loaded(keys, fetch)[i])
    decreases |keys|
  {
    if keys != [] {
      var last := keys[|keys| - 1];
      LoadedCharacterized(keys[..|keys| - 1], fetch);
      assert keys == keys[..|keys| - 1] + [last];
      KeepAppend(keys[..|keys| - 1], [last], Succeeded(fetch));
    }
  }

  /** The keys whose fetch succeeds, as a filter predicate. */
  function Succeeded(fetch: string -> Result<Asset>): string -> bool
  {
    k => fetch(k).Ok?
  }

  /** Loading keys one after another collects the successes of the first part, then of the
      rest. */
  lemma {:induction false} LoadedAppend(a: seq<string>, b: seq<string>, fetch: string -> Result<Asset>)
    ensures Loaded(a + b, fetch) == Loaded(a, fetch) + Loaded(b, fetch)
    decreases |b|
  {
    if b == [] {
      assert a + b == a;
    } else {
      var b' := b[..|b| - 1];
      assert (a + b)[..|a + b| - 1] == a + b';
      LoadedAppend(a, b', fetch);
    }
  }

  /** Loaded stocks are stock records and loaded coins are crypto records. */
  lemma LoadedKinds(stocks: seq<string>, coins: seq<string>, up: Upstream)
    ensures forall i :: 0 <= i < |Loaded(stocks, StockFetcher(up))| ==> Loaded(stocks, StockFetcher(up))[i].Stock?
    ensures forall i :: 0 <= i < |Loaded(coins, CoinFetcher(up))| ==> Loaded(coins, CoinFetcher(up))[i].Crypto?
  {
    LoadedCharacterized(stocks, StockFetcher(up));
    LoadedCharacterized(coins, CoinFetcher(up));
  }

  /** The initial load: the first three popular stocks, then the first two popular coins,
      one request at a time, keeping whatever loaded. */
  method LoadPopularAssets(up: Upstream) returns (loaded: seq<Asset>)
    ensures loaded == InitialAssets(GetPopularAssets(), up)
  {
    var popular := GetPopularAssets();
    var stocks := Take(popular.stocks, 3);
    var cryptos := Take(popular.cryptos, 2);
    var fromStocks := LoadStocks(up, stocks);
    loaded := LoadCryptos(up, cryptos, fromStocks);
  }

  /** What the initial load collects: the successes among the first three popular stocks,
      then those among the first two popular coins; at most five, every stock first. */
  function InitialAssets(popular: PopularAssets, up: Upstream): (r: seq<Asset>)
    ensures |r| <= 5
    ensures StocksBeforeCoins(r)
  {
    var stocks := Take(popular.stocks, 3);
    var cryptos := Take(popular.cryptos, 2);
    StocksFirst(stocks, cryptos, up);
    Loaded(stocks, StockFetcher(up)) + Loaded(cryptos, CoinFetcher(up))
  }

  /** No coin comes in front of a stock. */
  predicate StocksBeforeCoins(r: seq<Asset>)
  {
    forall i, j :: 0 <= i < j < |r| ==> !(r[i].Crypto? && r[j].Stock?)
  }

  /** Loaded stocks followed by loaded coins put no coin in front of a stock. */
  lemma StocksFirst(symbols: seq<string>, coinIds: seq<string>, up: Upstream)
    ensures StocksBeforeCoins(Loaded(symbols, StockFetcher(up)) + Loaded(coinIds, CoinFetcher(up)))
  {
    var stocks, coins := Loaded(symbols, StockFetcher(up)), Loaded(coinIds, CoinFetcher(up));
    LoadedKinds(symbols, coinIds, up);
    var r := stocks + coins;
    assert forall k :: 0 <= k < |stocks| ==> r[k] == stocks[k] && r[k].Stock?;
    assert forall k :: |stocks| <= k < |r| ==> r[k] == coins[k - |stocks|] && r[k].Crypto?;
  }


  /** The stock loop: each symbol in turn, pushing the asset when the request succeeds. */
  method LoadStocks(up: Upstream, symbols: seq<string>) returns (loaded: seq<Asset>)
    ensures loaded == Loaded(symbols, StockFetcher(up))
  {
    loaded := [];
    for n := 0 to |symbols|
      invariant loaded == Loaded(symbols[..n], StockFetcher(up))
    {
      assert symbols[..n + 1][..n] == symbols[..n];
      var asset := GetStockData(symbols[n], up.stocks(symbols[n]));
      if asset.Ok? {
        loaded := loaded + [asset.value];
      }
    }
    assert symbols[..|symbols|] == symbols;
  }

  /** The coin loop: each id in turn, pushing onto what the stock loop left. */
  method LoadCryptos(up: Upstream, coinIds: seq<string>, start: seq<Asset>) returns (loaded: seq<Asset>)
    ensures loaded == start + Loaded(coinIds, CoinFetcher(up))
  {
    loaded := start;
    for n := 0 to |coinIds|
      invariant loaded == start + Loaded(coinIds[..n], CoinFetcher(up))
    {
      assert coinIds[..n + 1][..n] == coinIds[..n];
      var asset := GetCryptoData(coinIds[n], up.coins(coinIds[n]));
      if asset.Ok? {
        loaded := loaded + [asset.value];
      }
    }
    assert coinIds[..|coinIds|] == coinIds;
  }

  /** The sort stage of the effect, on the filtered copy. */
  method SortFiltered(s: seq<Asset>, sortBy: SortField, sortOrder: SortOrder) returns (filtered: seq<Asset>)
    ensures filtered == SortStep(s, sortBy, sortOrder)
  {
    match sortBy {
      case Price =>
        filtered := SortAssetsByPrice(s, sortOrder == Asc);
      case Change =>
        filtered := SortAssetsByChange(s, sortOrder == Asc);
      case Name =>
        filtered := SortAssetsAlphabetically(s);
        if sortOrder == Desc {
          var buffer := new Asset[|filtered|](i requires 0 <= i < |filtered| => filtered[i]);
          assert buffer[..] == filtered;
          ReverseInPlace(buffer);
          filtered := buffer[..];
        }
    }
  }

  // ---------------------------------------------------------------- the component state

  /** The dashboard component's state. `filteredAssets` is the effect's output and is kept
      equal to the pipeline over the other fields. */
  class App {
    var assets: seq<Asset>
    var filteredAssets: seq<Asset>
    var favorites: set<string>
    var news: seq<NewsItem>
    var loading: bool
    var error: Option<string>
    var sortBy: SortField
    var sortOrder: SortOrder
    var filterText: string
    var filterType: TypeFilter
    var showFavorites: bool

    function CurrentView(): seq<Asset>
      reads this
    {
      View(assets, favorites, showFavorites, filterType, filterText, sortBy, sortOrder)
    }

    /** The effect has run on the current state. */
    ghost predicate Valid()
      reads this
    {
      filteredAssets == CurrentView()
    }

    constructor()
      ensures assets == [] && favorites == {} && news == []
      ensures !loading && error.None?
      ensures sortBy == Name && sortOrder == Asc
      ensures filterText == "" && filterType == All && !showFavorites
      ensures Valid() && filteredAssets == []
    {
      assets, filteredAssets, favorites, news := [], [], {}, [];
      loading, error := false, None;
      sortBy, sortOrder := Name, Asc;
      filterText, filterType, showFavorites := "", All, false;
      new;
      assert multiset(CurrentView()) == multiset{};
    }

    /** The filter-and-sort effect: a copy of `assets` narrowed step by step, sorted, and
        for a descending name sort reversed in place. */
    method Refresh()
      modifies this`filteredAssets
      ensures Valid()
    {
      var filtered := assets;
      if showFavorites {
        filtered := Keep(filtered, InFavorites(favorites));
      }
      filtered := FilterAssetsByType(filtered, filterType);
      filtered := FilterAssetsByName(filtered, filterText);
      filtered := SortFiltered(filtered, sortBy, sortOrder);
      filteredAssets := filtered;
    }

    /** `handleAssetSearch(symbol, type, id)`: fetch, then upsert on success or record the
        message on failure; loading ends false either way. */
    method HandleAssetSearch(up: Upstream, symbol: string, kind: AssetType, id: Option<string>)
      modifies this`assets, this`filteredAssets, this`loading, this`error
      ensures FetchAsset(up, symbol, kind, id).Ok? ==>
                assets == Upserted(old(assets), FetchAsset(up, symbol, kind, id).value) && error.None?
      ensures FetchAsset(up, symbol, kind, id).Err? ==>
                assets == old(assets) && error == Some(ErrorText(FetchAsset(up, symbol, kind, id).message))
      ensures !loading && Valid()
    {
      loading := true;
      error := None;
      var result := FetchAsset(up, symbol, kind, id);
      Settle(result);
    }

    /** Replaces the asset with the same symbol, or appends it when there is none. */
    method Upsert(asset: Asset)
      modifies this`assets
      ensures assets == Upserted(old(assets), asset)
    {
      var existingIndex := IndexOfSymbol(assets, asset.symbol);
      if existingIndex >= 0 {
        assets := assets[existingIndex := asset];
      } else {
        assets := assets + [asset];
      }
    }

    /** The rest of `handleAssetSearch` once the fetch has settled. */
    method Settle(result: Result<Asset>)
      requires loading && error.None?
      modifies this`assets, this`filteredAssets, this`loading, this`error
      ensures result.Ok? ==> assets == Upserted(old(assets), result.value) && error.None?
      ensures result.Err? ==> assets == old(assets) && error == Some(ErrorText(result.message))
      ensures !loading && Valid()
    {
      match result {
        case Ok(asset) =>
          Upsert(asset);
        case Err(message) =>
          error := Some(ErrorText(message));
      }
      loading := false;
      Refresh();
    }

    /** `handleToggleFavorite(symbol)`. */
    method HandleToggleFavorite(symbol: string)
      modifies this`favorites, this`filteredAssets
      ensures favorites == Toggled(old(favorites), symbol)
      ensures Valid()
    {
      if symbol in favorites {
        favorites := favorites - {symbol};
      } else {
        favorites := favorites + {symbol};
      }
      Refresh();
    }

    /** `handleSortChange(newSortBy)`. */
    method HandleSortChange(newSortBy: SortField)
      modifies this`sortBy, this`sortOrder, this`filteredAssets
      ensures SortControls(sortBy, sortOrder) == NextSort(old(SortControls(sortBy, sortOrder)), newSortBy)
      ensures Valid()
    {
      if sortBy == newSortBy {
        sortOrder := if sortOrder == Asc then Desc else Asc;
      } else {
        sortBy := newSortBy;
        sortOrder := Asc;
      }
      Refresh();
    }

    /** The filter text box. */
    method SetFilterText(text: string)
      modifies this`filterText, this`filteredAssets
      ensures filterText == text && Valid()
    {
      filterText := text;
      Refresh();
    }

    /** The type selector. */
    method SetFilterType(filter: TypeFilter)
      modifies this`filterType, this`filteredAssets
      ensures filterType == filter && Valid()
    {
      filterType := filter;
      Refresh();
    }

    /** The "Favorites Only" button. */
    method ToggleShowFavorites()
      modifies this`showFavorites, this`filteredAssets
      ensures showFavorites == !old(showFavorites) && Valid()
    {
      showFavorites := !showFavorites;
      Refresh();
    }

    /** The first-load effect: the popular assets replace the list; the news is stored when
        its request resolved (`None`: it threw, and the failure is swallowed). */
    method LoadInitialData(up: Upstream, newsReply: Option<seq<NewsItem>>)
      modifies this`assets, this`news, this`filteredAssets
      ensures assets == InitialAssets(GetPopularAssets(), up)
      ensures news == if newsReply.Some? then newsReply.value else old(news)
      ensures Valid()
    {
      var loadedAssets := LoadPopularAssets(up);
      assets := loadedAssets;
      if newsReply.Some? {
        news := newsReply.value;
      }
      Refresh();
    }
  }
}
