/** The filters, the portfolio fold and the display classifiers of the helpers. */
module Helpers {
  import opened FinanceTypes
  import opened Text
  import opened Seqs

  // ---------------------------------------------------------------- filters

  /** The `type` filter: 'all', 'stock' or 'crypto'. */
  datatype TypeFilter = All | Only(kind: AssetType)

  /** The lowercased term occurs in the lowercased symbol or in the lowercased name. */
  predicate MatchesTerm(a: Asset, lowerTerm: string)
  {
    Contains(ToLower(a.symbol), lowerTerm) || Contains(ToLower(a.name), lowerTerm)
  }

  function MatchesTermOf(lowerTerm: string): Asset -> bool
  {
    (a: Asset) => MatchesTerm(a, lowerTerm)
  }

  /** Whether `filterAssetsByName` keeps `a` for `searchTerm`: every asset for a blank term,
      otherwise those whose symbol or name contains the lowercased, untrimmed term. */
  predicate PassesNameFilter(a: Asset, searchTerm: string)
  {
    IsBlank(searchTerm) || MatchesTerm(a, ToLower(searchTerm))
  }

  /** `filterAssetsByName(assets, searchTerm)`. */
  function FilterAssetsByName(assets: seq<Asset>, searchTerm: string): (r: seq<Asset>)
    ensures IsBlank(searchTerm) ==> r == assets
    ensures IsSubsequence(r, assets)
    ensures forall a :: multiset(r)[a] == if PassesNameFilter(a, searchTerm) then multiset(assets)[a] else 0
  {
    if Trim(searchTerm) == [] then
      SubsequenceOfItself(assets);
      assets
    else
      KeepCharacterized(assets, MatchesTermOf(ToLower(searchTerm)));
      Keep(assets, MatchesTermOf(ToLower(searchTerm)))
  }

  function OfType(kind: AssetType): Asset -> bool
  {
    (a: Asset) => a.Kind() == kind
  }

  predicate PassesTypeFilter(a: Asset, filter: TypeFilter)
  {
    filter.All? || a.Kind() == filter.kind
  }

  /** `filterAssetsByType(assets, type)`. */
  function FilterAssetsByType(assets: seq<Asset>, filter: TypeFilter): (r: seq<Asset>)
    ensures filter.All? ==> r == assets
    ensures IsSubsequence(r, assets)
    ensures forall a :: multiset(r)[a] == if PassesTypeFilter(a, filter) then multiset(assets)[a] else 0
  {
    if filter.All? then
      SubsequenceOfItself(assets);
      assets
    else
      KeepCharacterized(assets, OfType(filter.kind));
      Keep(assets, OfType(filter.kind))
  }

  /** Filtering by type twice is filtering once. */
  lemma FilterAssetsByTypeIdempotent(assets: seq<Asset>, filter: TypeFilter)
    ensures FilterAssetsByType(FilterAssetsByType(assets, filter), filter) == FilterAssetsByType(assets, filter)
  {
    if filter.Only? {
      KeepOfKeep(assets, OfType(filter.kind), OfType(filter.kind));
    }
  }

  // ---------------------------------------------------------------- portfolio

  /** `assets.reduce((sum, a) => sum + f(a), 0)`, folded from the left. */
  function SumOf(assets: seq<Asset>, f: Asset -> real): real
    decreases |assets|
  {
    if assets == [] then 0.0 else SumOf(assets[..|assets| - 1], f) + f(assets[|assets| - 1])
  }

  /** When every term is non-negative, so is the total. */
  lemma {:induction false} SumOfNonNegative(assets: seq<Asset>, f: Asset -> real)
    requires forall i :: 0 <= i < |assets| ==> f(assets[i]) >= 0.0
    ensures SumOf(assets, f) >= 0.0
    decreases |assets|
  {
    if assets != [] {
      SumOfNonNegative(assets[..|assets| - 1], f);
    }
  }

  function PriceOf(a: Asset): real { a.price }
  function ChangeOf(a: Asset): real { a.change }

  /** The portfolio's percentage times its number of assets is its summed change: the
      percentage is the average absolute change per asset. */
  predicate PercentIsAverageChange(p: Portfolio)
  {
    p.totalChangePercent * (|p.assets| as real) == p.totalChange
  }

  /** `calculatePortfolioSummary(assets)`. The percentage is the summed absolute `change`
      divided by the number of assets, exactly as the helper computes it. */
  function CalculatePortfolioSummary(assets: seq<Asset>): (p: Portfolio)
    ensures assets == [] ==> p == Portfolio([], 0.0, 0.0, 0.0)
    ensures p.assets == assets
    ensures p.totalValue == SumOf(assets, PriceOf) && p.totalChange == SumOf(assets, ChangeOf)
    ensures PercentIsAverageChange(p)
  {
    if |assets| == 0 then Portfolio([], 0.0, 0.0, 0.0)
    else
      var totalValue := SumOf(assets, PriceOf);
      var totalChange := SumOf(assets, ChangeOf);
      var totalChangePercent := if |assets| > 0 then totalChange / (|assets| as real) else 0.0;
      Portfolio(assets, totalValue, totalChange, totalChangePercent)
  }

  lemma {:induction false} SumOfAppend(a: seq<Asset>, b: seq<Asset>, f: Asset -> real)
    ensures SumOf(a + b, f) == SumOf(a, f) + SumOf(b, f)
    decreases |b|
  {
    if b != [] {
      var b' := b[..|b| - 1];
      assert (a + b)[..|a + b| - 1] == a + b';
      SumOfAppend(a, b', f);
    } else {
      assert a + b == a;
    }
  }

  /** Taking out the entry at `k` removes one copy of it. */
  lemma MultisetWithout(b: seq<Asset>, k: nat)
    requires k < |b|
    ensures multiset(b[..k] + b[k + 1..]) == multiset(b) - multiset{b[k]}
  {
    assert b == b[..k] + [b[k]] + b[k + 1..];
    assert multiset(b) == multiset(b[..k]) + multiset{b[k]} + multiset(b[k + 1..]);
    assert multiset(b[..k] + b[k + 1..]) == multiset(b[..k]) + multiset(b[k + 1..]);
  }

  /** Taking out the entry at `k` removes its term from the sum. */
  lemma SumOfWithout(b: seq<Asset>, k: nat, f: Asset -> real)
    requires k < |b|
    ensures SumOf(b, f) == SumOf(b[..k] + b[k + 1..], f) + f(b[k])
  {
    var front, back := b[..k], b[k + 1..];
    var upTo := front + [b[k]];
    assert b == upTo + back;
    assert upTo[..|upTo| - 1] == front;
    assert SumOf(upTo, f) == SumOf(front, f) + f(b[k]);
    SumOfAppend(upTo, back, f);
    SumOfAppend(front, back, f);
  }

  /** The totals do not depend on the order of the assets. */
  lemma {:induction false} SumOfPermutation(a: seq<Asset>, b: seq<Asset>, f: Asset -> real)
    requires multiset(a) == multiset(b)
    ensures SumOf(a, f) == SumOf(b, f)
    decreases |a|
  {
    if a != [] {
      var last := a[|a| - 1];
      var a' := a[..|a| - 1];
      assert a == a' + [last];
      assert multiset(a') == multiset(a) - multiset{last};
      assert last in multiset(b);
      var k :| 0 <= k < |b| && b[k] == last;
      MultisetWithout(b, k);
      SumOfWithout(b, k, f);
      SumOfPermutation(a', b[..k] + b[k + 1..], f);
    }
  }

  /** Two lists holding the same assets, in whatever order, have the same summary totals. */
  lemma PortfolioTotalsIgnoreOrder(a: seq<Asset>, b: seq<Asset>)
    requires multiset(a) == multiset(b)
    ensures CalculatePortfolioSummary(a).totalValue == CalculatePortfolioSummary(b).totalValue
    ensures CalculatePortfolioSummary(a).totalChange == CalculatePortfolioSummary(b).totalChange
    ensures CalculatePortfolioSummary(a).totalChangePercent == CalculatePortfolioSummary(b).totalChangePercent
  {
    SumOfPermutation(a, b, PriceOf);
    SumOfPermutation(a, b, ChangeOf);
    assert |a| == |multiset(a)| == |multiset(b)| == |b|;
  }

  /** The percentage the helper reports is not the mean of the assets' changePercent:
      for a +10 % asset at 100 (change 10) and a -10 % asset at 50 (change -5) the mean
      percentage is 0, while the summary reports (10 + -5) / 2 = 2.5. */
  lemma SummaryPercentIsNotMeanPercent()
    ensures var assets := [Stock("A", "A", 100.0, 10.0, 10.0, 0.0, 0.0, 0.0, 0.0, 0.0, 0),
                           Stock("B", "B", 50.0, -5.0, -10.0, 0.0, 0.0, 0.0, 0.0, 0.0, 0)];
            var p := CalculatePortfolioSummary(assets);
            && p.totalValue == 150.0 && p.totalChange == 5.0 && p.totalChangePercent == 2.5
            && (assets[0].changePercent + assets[1].changePercent) / 2.0 == 0.0
  {
    var assets := [Stock("A", "A", 100.0, 10.0, 10.0, 0.0, 0.0, 0.0, 0.0, 0.0, 0),
                   Stock("B", "B", 50.0, -5.0, -10.0, 0.0, 0.0, 0.0, 0.0, 0.0, 0)];
    assert assets[..1][..0] == [] && assets[..1] == [assets[0]];
    assert SumOf(assets[..1], PriceOf) == 100.0 && SumOf(assets[..1], ChangeOf) == 10.0;
    assert SumOf(assets, PriceOf) == 150.0 && SumOf(assets, ChangeOf) == 5.0;
  }

  // ---------------------------------------------------------------- classifiers

  /** `getChangeColor(change)`. */
  function ChangeColor(change: real): (c: string)
    ensures c == "text-green-600" <==> change > 0.0
    ensures c == "text-red-600" <==> change < 0.0
    ensures c == "text-gray-600" <==> change == 0.0
  {
    if change > 0.0 then "text-green-600"
    else if change < 0.0 then "text-red-600"
    else "text-gray-600"
  }

  /** `getChangeBackgroundColor(change)`. */
  function ChangeBackgroundColor(change: real): (c: string)
    ensures c == "bg-green-100" <==> change > 0.0
    ensures c == "bg-red-100" <==> change < 0.0
    ensures c == "bg-gray-100" <==> change == 0.0
  {
    if change > 0.0 then "bg-green-100"
    else if change < 0.0 then "bg-red-100"
    else "bg-gray-100"
  }

  /** The sign prefix of `formatPercentage(percentage)`; the digits come from `toFixed`,
      which is not modelled. Zero counts as non-negative. */
  function PercentageSign(percentage: real): (sign: string)
    ensures sign == "+" <==> percentage >= 0.0
    ensures sign == "" <==> percentage < 0.0
  {
    if percentage >= 0.0 then "+" else ""
  }

  /** The branches of `formatLargeNumber`: which unit a number is shown in. */
  datatype Magnitude = Trillions | Billions | Millions | Thousands | Plain
  {
    function Divisor(): real
    {
      match this
      case Trillions => 1000000000000.0
      case Billions => 1000000000.0
      case Millions => 1000000.0
      case Thousands => 1000.0
      case Plain => 1.0
    }

    function Suffix(): string
    {
      match this
      case Trillions => "T"
      case Billions => "B"
      case Millions => "M"
      case Thousands => "K"
      case Plain => ""
    }
  }

  /** The branch `formatLargeNumber(num)` takes. */
  function LargeNumberMagnitude(num: real): (m: Magnitude)
    ensures m.Plain? <==> num < 1000.0
    ensures !m.Plain? ==> m.Divisor() <= num
    ensures !m.Trillions? ==> num < m.Divisor() * 1000.0
  {
    if num >= 1000000000000.0 then Trillions
    else if num >= 1000000000.0 then Billions
    else if num >= 1000000.0 then Millions
    else if num >= 1000.0 then Thousands
    else Plain
  }

  /** A scaled number is at least one unit, and below a thousand units unless it is in
      trillions; the plain currency branch is taken exactly for numbers below a thousand. */
  lemma LargeNumberScaledRange(num: real)
    ensures var m := LargeNumberMagnitude(num);
            && (m.Plain? <==> num < 1000.0)
            && (!m.Plain? ==> 1.0 <= num / m.Divisor())
            && (!m.Plain? && !m.Trillions? ==> num / m.Divisor() < 1000.0)
  {
    var m := LargeNumberMagnitude(num);
    var d := m.Divisor();
    if !m.Plain? {
      assert d * 1.0 <= num;
      assert num / d >= 1.0 by { DivisionBounds(num, d); }
      if !m.Trillions? {
        assert num < d * 1000.0;
        DivisionBounds(num, d);
      }
    }
  }

  lemma DivisionBounds(num: real, d: real)
    requires d > 0.0
    ensures d <= num ==> 1.0 <= num / d
    ensures num < d * 1000.0 ==> num / d < 1000.0
  {
    var q := num / d;
    assert num == q * d;
    if num < d * 1000.0 && q >= 1000.0 {
      assert false;
    }
  }
}
