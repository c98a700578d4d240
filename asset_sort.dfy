/** The four sorts of the helpers: by price, by changePercent, by market cap and
    alphabetically by symbol. Each copies the list and sorts the copy with a comparator;
    JavaScript's `Array.prototype.sort` is stable, so equal elements keep their order.
    The model is a stable insertion sort driven by the same comparator. */
module AssetSort {
  import opened FinanceTypes
  import opened Text
  import opened Seqs

  /** Which comparator a sort uses. */
  datatype Order = ByPrice(ascending: bool) | ByChange(ascending: bool) | ByMarketCap(ascending: bool) | BySymbol

  /** The market cap the comparator reads: a crypto's own, and 0 for every stock. */
  function MarketCapOf(a: Asset): real
  {
    if a.Crypto? then a.marketCap else 0.0
  }

  /** The numeric field a numeric order compares. */
  function Key(o: Order, a: Asset): real
    requires !o.BySymbol?
  {
    match o
    case ByPrice(_) => a.price
    case ByChange(_) => a.changePercent
    case ByMarketCap(_) => MarketCapOf(a)
  }

  function Sign(x: real): int
  {
    if x < 0.0 then -1 else if x > 0.0 then 1 else 0
  }

  /** The sign of the comparator's result: `a.price - b.price` ascending,
      `b.price - a.price` descending, `a.symbol.localeCompare(b.symbol)` by symbol. */
  function Compare(o: Order, a: Asset, b: Asset): (r: int)
    ensures -1 <= r <= 1
  {
    if o.BySymbol? then CompareStrings(a.symbol, b.symbol)
    else if o.ascending then Sign(Key(o, a) - Key(o, b))
    else Sign(Key(o, b) - Key(o, a))
  }

  /** What the comparator's sign means: the symbol comparison for the alphabetical sort;
      otherwise zero exactly when the keys are equal, and negative exactly when the first
      key is the smaller one (ascending) or the larger one (descending). */
  lemma CompareSign(o: Order, a: Asset, b: Asset)
    ensures o.BySymbol? ==> Compare(o, a, b) == CompareStrings(a.symbol, b.symbol)
    ensures !o.BySymbol? ==> (Compare(o, a, b) == 0 <==> Key(o, a) == Key(o, b))
    ensures !o.BySymbol? && o.ascending ==> (Compare(o, a, b) < 0 <==> Key(o, a) < Key(o, b))
    ensures !o.BySymbol? && !o.ascending ==> (Compare(o, a, b) < 0 <==> Key(o, b) < Key(o, a))
  {
  }

  lemma CompareAntisymmetric(o: Order, a: Asset, b: Asset)
    ensures Compare(o, a, b) == -Compare(o, b, a)
  {
    if o.BySymbol? {
      CompareStringsAntisymmetric(a.symbol, b.symbol);
    }
  }

  lemma CompareTransitive(o: Order, a: Asset, b: Asset, c: Asset)
    requires Compare(o, a, b) <= 0 && Compare(o, b, c) <= 0
    ensures Compare(o, a, c) <= 0
  {
    if o.BySymbol? {
      CompareStringsTransitive(a.symbol, b.symbol, c.symbol);
    }
  }

  /** Elements the comparator cannot tell apart. */
  predicate Tied(o: Order, a: Asset, b: Asset)
  {
    Compare(o, a, b) == 0
  }

  /** The elements of `s` tied with `x`, in their order in `s`. */
  function Ties(o: Order, s: seq<Asset>, x: Asset): seq<Asset>
  {
    Keep(s, TiedWith(o, x))
  }

  /** The test "ties with `x`" as a filter predicate. */
  function TiedWith(o: Order, x: Asset): Asset -> bool
  {
    y => Tied(o, x, y)
  }

  predicate Sorted(o: Order, s: seq<Asset>)
  {
    forall i, j :: 0 <= i < j < |s| ==> Compare(o, s[i], s[j]) <= 0
  }

  /** Where `x` goes in `t`: after every element that sorts strictly before it. */
  function InsertionPoint(o: Order, x: Asset, t: seq<Asset>): (k: nat)
    ensures k <= |t|
    ensures forall i :: 0 <= i < k ==> Compare(o, x, t[i]) > 0
    ensures k < |t| ==> Compare(o, x, t[k]) <= 0
    decreases |t|
  {
    if t == [] || Compare(o, x, t[0]) <= 0 then 0 else 1 + InsertionPoint(o, x, t[1..])
  }

  /** Inserting `x` into a sorted list: in front of the first element it does not sort
      strictly after, hence in front of every element it ties with. */
  function Insert(o: Order, x: Asset, t: seq<Asset>): (r: seq<Asset>)
  {
    var k := InsertionPoint(o, x, t);
    t[..k] + [x] + t[k..]
  }

  /** The stable sort: elements are inserted back to front, so each lands in front of the
      later elements it ties with. */
  function Sort(o: Order, s: seq<Asset>): (r: seq<Asset>)
    ensures |r| == |s|
    decreases |s|
  {
    if s == [] then [] else Insert(o, s[0], Sort(o, s[1..]))
  }

  lemma InsertPermutes(o: Order, x: Asset, t: seq<Asset>)
    ensures multiset(Insert(o, x, t)) == multiset(t) + multiset{x}
  {
    var k := InsertionPoint(o, x, t);
    assert t == t[..k] + t[k..];
  }

  lemma InsertSorted(o: Order, x: Asset, t: seq<Asset>)
    requires Sorted(o, t)
    ensures Sorted(o, Insert(o, x, t))
  {
    var k := InsertionPoint(o, x, t);
    var r := Insert(o, x, t);
    forall i, j | 0 <= i < j < |r| ensures Compare(o, r[i], r[j]) <= 0 {
      if j < k {
        assert r[i] == t[i] && r[j] == t[j];
      } else if j == k {
        assert r[i] == t[i] && r[j] == x;
        CompareAntisymmetric(o, x, t[i]);
      } else if i < k {
        assert r[i] == t[i] && r[j] == t[j - 1];
      } else if i == k {
        assert r[i] == x && r[j] == t[j - 1];
        if j - 1 > k { CompareTransitive(o, x, t[k], t[j - 1]); }
      } else {
        assert r[i] == t[i - 1] && r[j] == t[j - 1];
      }
    }
  }

  /** Inserting `x` puts it in front of everything it ties with: the ties of `x`'s class
      gain `x` at their head and every other class is untouched. */
  lemma InsertTies(o: Order, x: Asset, t: seq<Asset>, y: Asset)
    ensures Ties(o, Insert(o, x, t), y) == (if Tied(o, y, x) then [x] else []) + Ties(o, t, y)
  {
    var k := InsertionPoint(o, x, t);
    var before, after := Keep(t[..k], TiedWith(o, y)), Keep(t[k..], TiedWith(o, y));
    TiesAroundInsertionPoint(o, x, t, y);
    if Tied(o, y, x) {
      NoTiesBeforeInsertionPoint(o, x, t, y);
      assert before + [x] + after == [x] + (before + after);
    } else {
      assert before + [] + after == before + after;
    }
  }

  /** The ties of `y` before and after `x`'s insertion point, with and without `x`. */
  lemma TiesAroundInsertionPoint(o: Order, x: Asset, t: seq<Asset>, y: Asset)
    ensures var k := InsertionPoint(o, x, t);
            && Ties(o, Insert(o, x, t), y)
               == Keep(t[..k], TiedWith(o, y)) + (if Tied(o, y, x) then [x] else []) + Keep(t[k..], TiedWith(o, y))
            && Ties(o, t, y) == Keep(t[..k], TiedWith(o, y)) + Keep(t[k..], TiedWith(o, y))
  {
    var k := InsertionPoint(o, x, t);
    assert t == t[..k] + t[k..];
    KeepSplice(t[..k], x, t[k..], TiedWith(o, y));
  }

  /** Nothing that sorts strictly before `x` ties with an element tied with `x`. */
  lemma NoTiesBeforeInsertionPoint(o: Order, x: Asset, t: seq<Asset>, y: Asset)
    requires Tied(o, y, x)
    ensures Keep(t[..InsertionPoint(o, x, t)], TiedWith(o, y)) == []
  {
    var k := InsertionPoint(o, x, t);
    forall z | z in t[..k] ensures !Tied(o, y, z) {
      var i :| 0 <= i < k && t[..k][i] == z;
      if Tied(o, y, z) {
        CompareAntisymmetric(o, y, x);
        CompareTransitive(o, x, y, z);
      }
    }
    KeepNone(t[..k], TiedWith(o, y));
  }

  /** The sort returns a rearrangement of its input in comparator order. */
  lemma {:induction false} SortSortsAndPermutes(o: Order, s: seq<Asset>)
    ensures Sorted(o, Sort(o, s))
    ensures multiset(Sort(o, s)) == multiset(s)
    decreases |s|
  {
    if s != [] {
      SortSortsAndPermutes(o, s[1..]);
      InsertSorted(o, s[0], Sort(o, s[1..]));
      InsertPermutes(o, s[0], Sort(o, s[1..]));
      assert s == [s[0]] + s[1..];
    }
  }

  /** Stability: the elements of each tie class appear in the output in the order they
      had in the input. */
  lemma {:induction false} SortIsStable(o: Order, s: seq<Asset>, y: Asset)
    ensures Ties(o, Sort(o, s), y) == Ties(o, s, y)
    decreases |s|
  {
    if s != [] {
      SortIsStable(o, s[1..], y);
      InsertTies(o, s[0], Sort(o, s[1..]), y);
      KeepAppend([s[0]], s[1..], TiedWith(o, y));
      assert s == [s[0]] + s[1..];
    }
  }

  /** Ordered by price, in the given direction. */
  predicate PriceOrdered(r: seq<Asset>, ascending: bool)
  {
    forall i, j :: 0 <= i < j < |r| ==> if ascending then r[i].price <= r[j].price else r[i].price >= r[j].price
  }

  /** Ordered by changePercent, in the given direction. */
  predicate ChangeOrdered(r: seq<Asset>, ascending: bool)
  {
    forall i, j :: 0 <= i < j < |r| ==>
      if ascending then r[i].changePercent <= r[j].changePercent else r[i].changePercent >= r[j].changePercent
  }

  /** Ordered by symbol (`CompareStrings`), in the given direction. */
  predicate SymbolOrdered(r: seq<Asset>, ascending: bool)
  {
    forall i, j :: 0 <= i < j < |r| ==>
      if ascending then CompareStrings(r[i].symbol, r[j].symbol) <= 0
      else CompareStrings(r[i].symbol, r[j].symbol) >= 0
  }

  /** `sortAssetsByPrice(assets, ascending = false)`. */
  function SortAssetsByPrice(assets: seq<Asset>, ascending: bool := false): (r: seq<Asset>)
    ensures multiset(r) == multiset(assets)
    ensures PriceOrdered(r, ascending)
  {
    SortSortsAndPermutes(ByPrice(ascending), assets);
    Sort(ByPrice(ascending), assets)
  }

  /** `sortAssetsByChange(assets, ascending = false)`: ordered by changePercent. */
  function SortAssetsByChange(assets: seq<Asset>, ascending: bool := false): (r: seq<Asset>)
    ensures multiset(r) == multiset(assets)
    ensures ChangeOrdered(r, ascending)
  {
    SortSortsAndPermutes(ByChange(ascending), assets);
    Sort(ByChange(ascending), assets)
  }

  /** `sortAssetsByMarketCap(assets, ascending = false)`: every stock counts as market cap 0. */
  function SortAssetsByMarketCap(assets: seq<Asset>, ascending: bool := false): (r: seq<Asset>)
    ensures multiset(r) == multiset(assets)
    ensures forall i, j :: 0 <= i < j < |r| ==>
              if ascending then MarketCapOf(r[i]) <= MarketCapOf(r[j])
              else MarketCapOf(r[i]) >= MarketCapOf(r[j])
  {
    SortSortsAndPermutes(ByMarketCap(ascending), assets);
    Sort(ByMarketCap(ascending), assets)
  }

  /** `sortAssetsAlphabetically(assets)`: ascending by symbol only. */
  function SortAssetsAlphabetically(assets: seq<Asset>): (r: seq<Asset>)
    ensures multiset(r) == multiset(assets)
    ensures SymbolOrdered(r, true)
  {
    SortSortsAndPermutes(BySymbol, assets);
    Sort(BySymbol, assets)
  }

  /** Assets with equal price keep their input order in the price sort. */
  lemma SortByPriceStable(assets: seq<Asset>, ascending: bool, price: real)
    ensures Keep(SortAssetsByPrice(assets, ascending), (a: Asset) => a.price == price)
         == Keep(assets, (a: Asset) => a.price == price)
  {
    TiesByKey(ByPrice(ascending), assets, (a: Asset) => a.price == price);
  }

  /** Assets with equal changePercent keep their input order in the change sort. */
  lemma SortByChangeStable(assets: seq<Asset>, ascending: bool, percent: real)
    ensures Keep(SortAssetsByChange(assets, ascending), (a: Asset) => a.changePercent == percent)
         == Keep(assets, (a: Asset) => a.changePercent == percent)
  {
    TiesByKey(ByChange(ascending), assets, (a: Asset) => a.changePercent == percent);
  }

  /** Every stock ties with every other in the market-cap sort, so the stocks keep their
      input order among themselves. */
  lemma SortByMarketCapKeepsStockOrder(assets: seq<Asset>, ascending: bool)
    ensures Keep(SortAssetsByMarketCap(assets, ascending), (a: Asset) => a.Stock?)
         == Keep(assets, (a: Asset) => a.Stock?)
  {
    var o := ByMarketCap(ascending);
    var zero := (a: Asset) => MarketCapOf(a) == 0.0;
    TiesByKey(o, assets, zero);
    KeepOfKeep(Sort(o, assets), zero, (a: Asset) => a.Stock?);
    KeepOfKeep(assets, zero, (a: Asset) => a.Stock?);
  }

  /** A class of elements that the comparator ties together, and separates from everything
      else, keeps its order through the sort. */
  lemma TiesByKey(o: Order, s: seq<Asset>, inClass: Asset -> bool)
    requires forall a, b :: inClass(a) ==> (inClass(b) <==> Tied(o, a, b))
    ensures Keep(Sort(o, s), inClass) == Keep(s, inClass)
  {
    var sorted := Sort(o, s);
    SortSortsAndPermutes(o, s);
    if y :| y in s && inClass(y) {
      SortIsStable(o, s, y);
      assert forall x :: x in s ==> inClass(x) == Tied(o, y, x);
      assert forall x :: x in sorted ==> x in multiset(s);
      KeepExtensional(s, inClass, TiedWith(o, y));
      KeepExtensional(sorted, inClass, TiedWith(o, y));
    } else {
      KeepNone(s, inClass);
      assert forall x :: x in sorted ==> x in multiset(s);
      KeepNone(sorted, inClass);
    }
  }
}
