# Personal finance dashboard: a verified model of its core

This project models the logic of a React finance dashboard. The dashboard keeps a list of
stocks and cryptocurrencies, lets the user search for and add assets, and shows them as a
filtered and sorted list. It also shows a summary of the favourite assets. Two service
layers turn upstream API answers into records: one for stocks and coins, one for weather
locations. The model has four parts:

- **Collection operators and classifiers** (`src/utils/helpers.ts`), in modules `AssetSort` and `Helpers`:
  - the four sorts, which are stable and return a permutation;
  - the name and type filters, which are order-preserving subsequences with exact membership counts;
  - the portfolio fold;
  - the colour, sign and large-number branch choices.
- **The dashboard component** (`src/App.tsx`), in module `Dashboard`:
  - a class `App` with the component's state as fields and its handlers as methods;
  - every handler re-runs the filter and sort effect, so `filteredAssets` always equals the pipeline `View` over the other fields;
  - the descending name sort reverses an array in place (`Seqs.ReverseInPlace`);
  - the initial load is a loop over the first three popular stocks and the first two popular coins.
- **The finance service** (`src/services/financeService.ts`), in module `FinanceService`:
  - stock and crypto normalisation, with its error selection and fallbacks;
  - the shared error reclassification (module `Http`);
  - the two-source search with a cap of five per source;
  - the mock news and the popular lists.
- **The weather service** (`src/services/weatherService.ts`), in module `WeatherService`:
  - `searchLocation`, a method that starts from the air-quality and forecast defaults and overwrites them;
  - the AQI band table;
  - the forecast mapping and the location id.

How external behaviour enters the model:

- **Network answers.** Every exchange is an input value `Response<B>`. It is either `Answered(status, body)` or `Threw(e)`. A body of `None` means `response.json()` rejected.
- **Environment.** Key presence, the clock (`Date.now()`) and the engine's rendering of a number in a template string are also inputs.
- **JavaScript semantics** are written out explicitly:
  - `x || 0`;
  - ASCII `toUpperCase`/`toLowerCase`;
  - `trim` with the ECMAScript white-space set;
  - `includes` as substring search;
  - `${status}` as decimal digits;
  - `Math.round` as `floor(x + 0.5)`.

Two behaviours of the code worth noting:

- The portfolio's `totalChangePercent` is the summed absolute `change` divided by the number of assets (`src/utils/helpers.ts:113`). It is not the mean of `changePercent`. For a two-asset example (prices 100 and 50, changes 10 and -5, percentages 10 and -10), the code gives 2.5 where the mean is 0. `Helpers.SummaryPercentIsNotMeanPercent` proves this.
- News failures are not always swallowed by the news service: a 401 or another non-OK status throws an `ApiError`. The dashboard's initial load swallows it (`src/App.tsx:64-66`) after the assets have been stored.

## Model

| member | source | states |
|---|---|---|
| AssetSort.SortAssetsByPrice | src/utils/helpers.ts:62-66 | the result is a permutation of the input, non-decreasing in price when ascending and non-increasing otherwise (descending by default) |
| AssetSort.SortAssetsByChange | src/utils/helpers.ts:68-72 | a permutation ordered by changePercent in the requested direction |
| AssetSort.SortAssetsByMarketCap | src/utils/helpers.ts:74-80 | a permutation ordered by market cap, where a stock counts as 0 |
| AssetSort.SortAssetsAlphabetically | src/utils/helpers.ts:82-84 | a permutation ascending by symbol |
| AssetSort.SortByPriceStable | src/utils/helpers.ts:62-66 | assets of equal price keep their input order |
| AssetSort.SortByChangeStable | src/utils/helpers.ts:68-72 | assets of equal changePercent keep their input order |
| AssetSort.SortByMarketCapKeepsStockOrder | src/utils/helpers.ts:74-80 | all stocks tie, so the stocks keep their input order among themselves |
| AssetSort.Compare | src/utils/helpers.ts:62-84 | the comparator returns only the sign -1, 0 or 1 |
| AssetSort.CompareSign | src/utils/helpers.ts:62-84 | the comparator's sign: the symbol comparison for the alphabetical sort; otherwise zero exactly when the compared keys are equal, and negative exactly when the first key is the smaller one (ascending) or the larger one (descending) |
| AssetSort.Sort | src/utils/helpers.ts:62-84 | the stable sort returns a list of the same length as its input (its order and permutation properties are the lemmas below) |
| AssetSort.CompareAntisymmetric | src/utils/helpers.ts:62-84 | swapping the arguments negates the comparator |
| AssetSort.CompareTransitive | src/utils/helpers.ts:62-84 | the comparator orders transitively, so a stable sort is well defined |
| AssetSort.SortSortsAndPermutes | src/utils/helpers.ts:62-84 | the stable sort returns a sorted permutation |
| AssetSort.SortIsStable | src/utils/helpers.ts:62-84 | within every class of tied elements, the sorted order is the input order |
| AssetSort.TiesByKey | src/utils/helpers.ts:62-84 | a class of elements that tie only among themselves keeps its order |
| AssetSort.InsertPermutes | src/utils/helpers.ts:62-84 | inserting one element adds exactly that element |
| AssetSort.InsertSorted | src/utils/helpers.ts:62-84 | inserting into a sorted list keeps it sorted |
| AssetSort.InsertTies | src/utils/helpers.ts:62-84 | inserting an element puts it at the head of its own tie class and leaves every other tie class unchanged |
| AssetSort.InsertionPoint | src/utils/helpers.ts:62-84 | the insertion point follows every element that sorts strictly before the new one and precedes the first that does not |
| Text.CompareStrings | src/utils/helpers.ts:83 | the string order yields -1, 0 or 1, and 0 exactly for equal strings |
| Text.CompareStringsAntisymmetric | src/utils/helpers.ts:83 | swapping the strings negates the order |
| Text.CompareStringsTransitive | src/utils/helpers.ts:83 | the string order is transitive |
| Helpers.FilterAssetsByName | src/utils/helpers.ts:86-94 | a blank term returns the input unchanged; otherwise the result is an order-preserving subsequence with every occurrence of the assets whose lowercased symbol or name contains the lowercased, untrimmed term, and no others |
| Text.Trim | src/utils/helpers.ts:87 | `trim` leaves nothing exactly when every character is white space, never lengthens the text, and what it leaves neither starts nor ends with white space |
| Text.Contains | src/utils/helpers.ts:91-92 | `includes` finds the empty needle in every text and never finds a needle longer than the text |
| Text.ContainsIffOccurs | src/utils/helpers.ts:91-92 | `includes` holds exactly when the needle occurs at some offset |
| Text.ToLower | src/utils/helpers.ts:89 | lower-casing keeps the length and maps each character on its own |
| Text.ToUpper | src/services/financeService.ts:49 | upper-casing keeps the length and maps each character on its own (upper-casing again changes nothing: `Text.ToUpperIdempotent`) |
| Helpers.FilterAssetsByType | src/utils/helpers.ts:96-99 | 'all' is the identity; otherwise the result is the order-preserving subsequence of exactly that type |
| Helpers.FilterAssetsByTypeIdempotent | src/utils/helpers.ts:96-99 | filtering by a type twice equals filtering once |
| Seqs.Keep | src/utils/helpers.ts:90-93 | `filter` never lengthens the list (what it keeps is characterised by `Seqs.KeepCharacterized`) |
| Seqs.KeepCharacterized | src/utils/helpers.ts:90-93 | `filter` returns an order-preserving subsequence that keeps every occurrence of the passing elements and nothing else |
| Helpers.SumOfNonNegative | src/utils/helpers.ts:111-112 | the left fold of `reduce` starting at 0: when every term is non-negative the total is non-negative |
| Helpers.CalculatePortfolioSummary | src/utils/helpers.ts:101-121 | the empty list gives all zeros; otherwise the totals are the sums of price and of change, and the percentage times the count is the total change (no division by zero) |
| Helpers.SumOfPermutation | src/utils/helpers.ts:111-112 | the `reduce` sums do not depend on order |
| Helpers.PortfolioTotalsIgnoreOrder | src/utils/helpers.ts:101-121 | two lists holding the same assets have equal totals |
| Helpers.SummaryPercentIsNotMeanPercent | src/utils/helpers.ts:113 | on a two-asset example the summary reports 2.5 where the mean changePercent is 0 |
| Helpers.ChangeColor | src/utils/helpers.ts:50-54 | green exactly for a positive change, red exactly for a negative one, grey exactly for 0 |
| Helpers.ChangeBackgroundColor | src/utils/helpers.ts:56-60 | the same three-way split for the background class |
| Helpers.PercentageSign | src/utils/helpers.ts:28-31 | '+' exactly for non-negative values, including 0 |
| Helpers.LargeNumberMagnitude | src/utils/helpers.ts:12-26 | the plain currency branch is taken exactly below 1000; otherwise the chosen divisor (1e3, 1e6, 1e9 or 1e12) is at most the number, and below trillions the number is under a thousand times it |
| Helpers.LargeNumberScaledRange | src/utils/helpers.ts:12-26 | the currency branch is taken exactly below 1000; a scaled value is at least 1 and below 1000 unless it is in trillions |
| Http.Reclassify | src/services/financeService.ts:65-75 | an ApiError keeps its message, a TypeError mentioning "fetch" becomes the network error, and anything else becomes the service's unexpected-error text |
| Http.FailedFetchIsNetworkError | src/services/financeService.ts:70-72 | a "Failed to fetch" TypeError is reported as the network error |
| Http.ReadBody | src/services/financeService.ts:31 | an unreadable body raises, and a readable one is returned |
| FinanceService.GetStockData | src/services/financeService.ts:13-76 | a missing key fails with the configuration error; a thrown quote request fails with the reclassified message; a non-OK quote fails with the 401 or status message; an unreadable quote body fails with the unexpected text; c == 0 fails with not-found; then a thrown profile request fails with the reclassified message and an unreadable OK profile body with the unexpected text; success exactly when the key, quote and profile steps succeed, and then the record is a stock with the symbol upper-cased, the profile name or else the symbol, c as price, d and dp defaulting to 0, h, l, o and pc as high, low, open and previous close, volume 0 and the clock's timestamp |
| FinanceService.StockSymbolIsUpperCase | src/services/financeService.ts:49 | the symbol of a fetched stock is its own upper case |
| FinanceService.StockTransportFailure | src/services/financeService.ts:65-75 | a failed quote request that is not an ApiError yields its reclassified message, which is the network text or the unexpected text |
| FinanceService.StockServiceErrorNamesStatus | src/services/financeService.ts:28 | different statuses give different service-error messages |
| Text.PrefixedNumberInjective | src/services/financeService.ts:28 | a prefix followed by a decimal number determines the number |
| Text.NatToStringRoundTrip | src/services/financeService.ts:28 | the decimal rendering of a status reads back as that status |
| Text.NatToString | src/services/financeService.ts:28 | a status renders as a non-empty digit string without a leading zero |
| Text.ToUpperIdempotent | src/services/financeService.ts:49 | upper-casing an upper-cased symbol changes nothing |
| FinanceService.GetCryptoData | src/services/financeService.ts:78-138 | a thrown price request fails with the reclassified message; a non-OK price answer fails with the service-error message; an unreadable price body fails with the unexpected text; an absent coin fails with not-found; then a thrown info request fails with the reclassified message and an unreadable OK info body with the unexpected text; success exactly when price and info steps succeed, and then the record has the coin id, usd as price, high and low at 1.05 and 0.95 times the price, change and changePercent both the 24h change or 0, name and symbol equal to the coin id when the info is not OK, and otherwise the info name with the symbol upper-cased |
| FinanceService.CryptoBandContainsPrice | src/services/financeService.ts:119-120 | for a non-negative price, low <= price <= high |
| FinanceService.CryptoBandExample | src/services/financeService.ts:110-123 | a price of 50000 with a 24h change of 2 gives high 52500, low 47500 and change 2 |
| FinanceService.StockHits | src/services/financeService.ts:143-165 | no stock hits without the key; otherwise the first five matches in upstream order, or none when the request fails |
| FinanceService.CoinHits | src/services/financeService.ts:167-187 | the first five coin hits in upstream order with the symbols upper-cased, or none when the request fails |
| FinanceService.SearchAssets | src/services/financeService.ts:140-190 | the results are the stock hits followed by the coin hits, at most 10, and an entry is a stock exactly when it lies in the stock part |
| Seqs.Take | src/services/financeService.ts:153 | `slice(0, n)` keeps the first n elements, or the whole list when it has no more than n |
| FinanceService.MockNews | src/services/financeService.ts:232-259 | three articles without links or images and with distinct ids, the first published now and each later one strictly older |
| FinanceService.GetPopularAssets | src/services/financeService.ts:262-267 | five stock tickers already in upper case and five coin ids already in lower case |
| WeatherService.SearchLocation | src/services/weatherService.ts:10-127 | a missing key fails before any request; a non-OK weather answer fails with the 404, 401 or status message; a thrown request (weather, then air, then forecast) fails with its reclassified message and an unreadable OK body with the unexpected text; an OK air answer without entries, or a weather answer without conditions, fails as reading a property of undefined does; success exactly when the weather, air and forecast steps succeed and a condition is present; the location copies the coordinates, the name, the country, humidity, wind speed and pressure, has the id rendered from the coordinates, is not a favourite, rounds the temperatures, divides visibility by 1000 and sets uvIndex 0; the air snapshot is the placeholder on a non-OK answer and is otherwise built from the first entry; the forecast is empty on a non-OK answer and is otherwise the mapped days |
| WeatherService.MissingEntryIsUnexpected | src/services/weatherService.ts:116-125 | reading a property of a missing entry is reported with the unexpected-error text, not the network text |
| Text.MissingCharNotContained | src/services/weatherService.ts:121 | a needle holding a character the text lacks is never found by `includes` |
| WeatherService.AirQualityInfo | src/services/weatherService.ts:129-161 | aqi 1 to 5 maps to the band of that rank with its fixed advice (1 'Air quality is good. Perfect for outdoor activities.', 2 'Air quality is acceptable for most people.', 3 'Sensitive individuals should consider limiting outdoor activities.', 4 'Everyone should limit outdoor activities.', 5 'Avoid outdoor activities. Health warnings recommended.'); any other aqi gives Good with the advice 'Air quality data unavailable.', and only those aqi values do |
| WeatherService.AirQualityInfoOrdered | src/services/weatherService.ts:129-155 | a worse index never gets a milder band, and distinct in-range indices have distinct advice |
| WeatherService.UnavailableAirQuality | src/services/weatherService.ts:38-48 | the placeholder has aqi 0, zero pollutants, level Good and the recommendation 'Data unavailable', which differs from the advice for an out-of-range index |
| WeatherService.AirQualityOf | src/services/weatherService.ts:50-65 | the snapshot carries the upstream aqi, its six pollutant readings, and that index's band and advice |
| WeatherService.ForecastDays | src/services/weatherService.ts:72-86 | exactly one day per upstream day, in the same order, with the temperatures rounded and the date, condition text and icon, humidity, wind speed and chance of rain copied |
| WeatherService.LocationId | src/services/weatherService.ts:89 | the id is the latitude's text, one '-', then the longitude's text |
| WeatherService.ForecastKeepsDayRange | src/services/weatherService.ts:78-79 | a day whose maximum is at least its minimum keeps that order once rounded |
| WeatherService.Round | src/services/weatherService.ts:92-93 | `Math.round` lands within half a unit, rounding halves up |
| WeatherService.RoundMonotone | src/services/weatherService.ts:78-79 | rounding preserves order |
| WeatherService.LocationIdDeterminesCoordinates | src/services/weatherService.ts:89 | equal coordinates give equal ids; when both latitudes' texts are non-empty with '-' at most as a leading sign, and the texts of the latitudes and of the longitudes differ whenever the numbers do, equal ids give equal coordinates, negative longitudes included |
| Dashboard.FavoritesFilter | src/App.tsx:76-79 | with favourites-only set, exactly the favourite assets remain, in order; otherwise the list is unchanged |
| Dashboard.SortStep | src/App.tsx:88-102 | a permutation ordered as the sort controls ask, with the ascending symbol sort reversed for descending |
| Dashboard.ReverseOfSymbolAscending | src/App.tsx:97-100 | reversing a list that ascends by symbol gives one that descends by symbol |
| Dashboard.View | src/App.tsx:73-105 | the displayed list holds exactly the assets passing the favourites, type and name filters, each as often as in the list, so it is a permutation of a sub-multiset, and it is ordered as the controls ask |
| Dashboard.NameDescendingReversesAscending | src/App.tsx:95-100 | the descending name view is exactly the reverse of the ascending one |
| Dashboard.SortControlsKeepSelection | src/App.tsx:73-105 | the sort controls never change which assets are shown |
| Seqs.Reverse | src/App.tsx:99 | the reversed list has the same length and holds at position i the element at position n-1-i |
| Seqs.ReverseInPlace | src/App.tsx:98-100 | the in-place `reverse` leaves the array holding the reverse of its old contents |
| Seqs.ReversePermutes | src/App.tsx:99 | reversing keeps the same elements |
| Seqs.ReverseReverse | src/App.tsx:99 | reversing twice restores the list |
| Dashboard.SortFiltered | src/App.tsx:88-102 | the effect's sort stage, reversing in place when needed, yields the sort step's list |
| Dashboard.FavoritesPortfolio | src/App.tsx:160 | the portfolio covers exactly the favourite assets, in list order, totals their price and change, and its percentage times the number of favourites is the total change (0 when there are none) |
| Dashboard.PortfolioMatchesFavoritesView | src/App.tsx:160 | with favourites-only, all types and a blank filter, the shown list has the portfolio's totals under any sort |
| Dashboard.IndexOfSymbol | src/App.tsx:121 | `findIndex` returns the first index with the symbol, or -1 exactly when there is none |
| Dashboard.Upserted | src/App.tsx:120-131 | a present symbol is replaced at its index and everything else is unchanged; a new one is appended |
| Dashboard.UpsertKeepsSymbolsUnique | src/App.tsx:120-131 | upserting keeps symbols unique, adds exactly the new symbol, and grows the list only for a new symbol |
| Dashboard.UpsertIdempotent | src/App.tsx:120-131 | upserting the same asset twice equals upserting it once |
| Dashboard.Toggled | src/App.tsx:139-149 | exactly the given symbol changes membership |
| Dashboard.ToggleTwiceRestores | src/App.tsx:139-149 | toggling twice restores the favourites |
| Dashboard.NextSort | src/App.tsx:151-158 | the clicked key becomes active; the same key flips the direction; a new key starts ascending |
| Dashboard.SortClickTwice | src/App.tsx:151-158 | two clicks on the active key restore the controls; two clicks on a new key end descending |
| Dashboard.CryptoLookupKey | src/App.tsx:117 | the id when it is given and non-empty, otherwise the lowercased symbol |
| Dashboard.FetchAsset | src/App.tsx:114-118 | a stock search fetches the stock by symbol and a crypto search fetches the coin by lookup key; a fetched asset has the requested type |
| Dashboard.ErrorText | src/App.tsx:133 | the message when it is non-empty, otherwise the default text; never empty |
| Dashboard.Loaded | src/App.tsx:39-57 | the loop skipping failed fetches collects at most one asset per key |
| Dashboard.LoadedCharacterized | src/App.tsx:39-57 | the loop collects exactly the assets of the keys whose fetch succeeds, one per such key, in key order |
| Dashboard.LoadedAppend | src/App.tsx:39-57 | loading two key lists one after the other collects the first list's successes, then the second's |
| Dashboard.LoadedKinds | src/App.tsx:39-57 | loaded stocks are stock records and loaded coins are crypto records |
| Dashboard.LoadStocks | src/App.tsx:40-47 | the stock loop leaves exactly what `Loaded` collects from the symbols |
| Dashboard.LoadCryptos | src/App.tsx:50-57 | the coin loop appends to the stocks exactly what `Loaded` collects from the coin ids |
| Dashboard.LoadPopularAssets | src/App.tsx:36-57 | the two loops over the first three popular stocks and the first two popular coins leave exactly `InitialAssets` |
| Dashboard.InitialAssets | src/App.tsx:36-57 | the initial load keeps the successes of the first three popular stocks, then those of the first two popular coins: at most five, with no coin in front of a stock |
| Dashboard.StocksFirst | src/App.tsx:39-57 | loaded stocks followed by loaded coins put no coin in front of a stock |
| Dashboard.App.constructor | src/App.tsx:19-29 | the initial state is an empty list, no favourites, name ascending, an empty filter, all types, not loading and no error, with the derived list consistent |
| Dashboard.App.Refresh | src/App.tsx:73-105 | the effect leaves filteredAssets equal to the pipeline over the current state |
| Dashboard.App.HandleAssetSearch | src/App.tsx:107-137 | on success the asset is upserted and the error cleared; on failure the list is unchanged and the error is the message or the default; loading ends false and the derived list is refreshed |
| Dashboard.App.Upsert | src/App.tsx:120-131 | the asset replaces the first one with its symbol, or is appended when there is none: the list becomes `Upserted` of the old list |
| Dashboard.App.Settle | src/App.tsx:120-136 | the bookkeeping after the fetch settles, as for HandleAssetSearch |
| Dashboard.App.HandleToggleFavorite | src/App.tsx:139-149 | the favourites become the toggled set and the derived list is refreshed |
| Dashboard.App.HandleSortChange | src/App.tsx:151-158 | the sort controls become NextSort of the old ones and the derived list is refreshed |
| Dashboard.App.SetFilterText | src/App.tsx:211 | the filter text is set and the derived list is refreshed |
| Dashboard.App.SetFilterType | src/App.tsx:218 | the type filter is set and the derived list is refreshed |
| Dashboard.App.ToggleShowFavorites | src/App.tsx:227 | favourites-only flips and the derived list is refreshed |
| Dashboard.App.LoadInitialData | src/App.tsx:32-70 | the list becomes the popular-asset load, the news is stored when its request resolved, and the derived list is refreshed |

## Left out

- AssetSort.SortAssetsAlphabetically: `localeCompare` is replaced by lexicographic order over characters (code points). Locale collation is host-defined, and for symbols holding characters above U+FFFF even JavaScript's plain code-unit order differs from code-point order.
- AssetSort.Compare: its own contract gives only the range of the sign; what the sign means is stated by `AssetSort.CompareSign`, so that every use of the comparator does not carry those facts.
- AssetSort.Sort: its own contract gives only the length; sortedness, permutation and stability are the lemmas `AssetSort.SortSortsAndPermutes` and `AssetSort.SortIsStable`.
- Seqs.Keep: its own contract gives only the length bound; what it keeps is `Seqs.KeepCharacterized`.
- Dashboard.Loaded: its own contract gives only the length bound; the exact contents are `Dashboard.LoadedCharacterized`.
- Text.ToLower, Text.ToUpper: only ASCII letters change case. Unicode case mapping tables are not modelled.
- WeatherService.Round: real arithmetic, not IEEE-754 doubles. The same holds for the 1.05/0.95 factors, visibility/1000 and every sum. NaN and infinities are not modelled.
- WeatherService.LocationIdDeterminesCoordinates: the engine's number-to-text rendering is a parameter `render`. The converse direction is proved only for the given four coordinates, and only when both latitudes render with '-' at most as a leading sign; a latitude in exponent notation such as `1e-7` breaks that hypothesis, and for such latitudes two coordinate pairs can in principle share an id.
- FinanceService.GetStockData: a quote or profile body with missing numeric or name fields is represented only as far as `Option` fields allow. A `TypeError` raised by reading a field of a malformed body is not modelled, except for the missing first list or condition entry in `searchLocation`.
- Formatting with `Intl`: `formatCurrency`, `formatDate` and `formatTime`, and the `toFixed` digits of `formatPercentage` and `formatLargeNumber`. Only the branch choices are modelled.
- `debounce`, `generateMockPriceHistory` (random numbers) and `isMarketOpen` (reads the clock). These are timer, randomness and clock behaviour.
- `getFinancialNews`. The news request and its NewsAPI mapping are outside the modelled core. The dashboard receives its outcome as an input, and the ISO rendering of `publishedAt` is kept as a millisecond count.
- Query strings and URLs. The search query and symbols only shape request URLs, whose answers are inputs.
- React's asynchrony and batching. Each handler is one atomic step, so the transient `loading = true` is not observable after a handler and interleavings of concurrent requests are not modelled.
- JSX rendering, the search bar and the weather cards. These are presentation only.
- The optional `marketCap` of a stock record. The stock normaliser never sets it, and the market-cap sort counts stocks as 0.
