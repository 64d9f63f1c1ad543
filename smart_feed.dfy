/** The product showcase (`smartVitrineRoutes.js`): the additive product score,
    the local-delivery boost, the ranking of the feed with the ids that receive
    the view-counter feedback, and the three top-5 rankings of the analytics
    dashboard. The clock (`now`) and the exploration factor `Math.random()` are
    parameters. */
module SmartFeed {
  import opened Base
  import opened Seqs

  const PromotionWeight: real := 5.0
  const ConversionWeight: real := 0.5
  const RecencyWeight: real := 0.2
  const PersonalWeight: real := 0.2
  const RandomWeight: real := 0.1
  const DayMs: int := 1000 * 60 * 60 * 24
  const RecencyDays: real := 30.0
  const FeedbackSize: nat := 20
  const TopSize: nat := 5
  const MinConversionViews: nat := 5

  /** The `shipping_options` column after the feed's `JSON.parse`: `Absent`
      when it is falsy before or after parsing (`NULL`, `''`, `null`, `0`);
      the `city_id` of each entry when it parses to an array; `NotAList` when
      it is not valid JSON (it stays a string) or parses to something truthy
      that is not an array, which has no `some` to call. */
  datatype ShippingColumn = Absent | CityList(cities: seq<int>) | NotAList

  /** One active product row. A `NULL` or zero counter is 0 (falsy for the
      `||` defaults); a `NULL` category is `None`. */
  datatype Product = Product(
    id: int,
    views: nat,
    totalSold: nat,
    createdAt: int,
    categoryId: Option<int>,
    subcategoryId: Option<int>,
    isPromoted: bool,
    promotionEnd: Option<int>,
    shippingOptions: ShippingColumn)

  /** A product with the `algo_score` the feed adds to it. */
  datatype ScoredProduct = ScoredProduct(product: Product, algoScore: real)

  function AlgoScore(s: ScoredProduct): real { s.algoScore }
  function ProductId(s: ScoredProduct): int { s.product.id }

  // ---------------------------------------------------------------------------
  // Viewer preferences
  // ---------------------------------------------------------------------------

  /** `history.forEach(h => { push(h.category_id); push(h.subcategory_id) })`:
      every purchased category followed by its subcategory, `NULL`s included. */
  method CollectFavourites(history: seq<(Option<int>, Option<int>)>) returns (favourites: seq<Option<int>>)
    ensures |favourites| == 2 * |history|
    ensures forall i :: 0 <= i < |history| ==>
              favourites[2 * i] == history[i].0 && favourites[2 * i + 1] == history[i].1
  {
    favourites := [];
    var k := 0;
    while k < |history|
      invariant 0 <= k <= |history| && |favourites| == 2 * k
      invariant forall i :: 0 <= i < k ==>
                  favourites[2 * i] == history[i].0 && favourites[2 * i + 1] == history[i].1
    {
      favourites := favourites + [history[k].0, history[k].1];
      k := k + 1;
    }
  }

  // ---------------------------------------------------------------------------
  // Score
  // ---------------------------------------------------------------------------

  /** `views_count || 1`: the conversion rate never divides by zero. */
  function ViewsDenominator(views: nat): (d: nat)
    ensures d >= 1 && (views > 0 ==> d == views)
  {
    if views == 0 then 1 else views
  }

  /** `total_sold / (views_count || 1)`. */
  function ConversionRate(p: Product): (r: real)
    ensures r >= 0.0
    ensures r * ViewsDenominator(p.views) as real == p.totalSold as real
  {
    p.totalSold as real / ViewsDenominator(p.views) as real
  }

  /** Age in days, as a real number; negative for a product dated in the future. */
  function DaysOld(createdAt: int, now: int): real {
    (now - createdAt) as real / DayMs as real
  }

  /** `max(0, 1 - daysOld / 30)`. */
  function RecencyScore(createdAt: int, now: int): (r: real)
    ensures r >= 0.0
    ensures createdAt <= now ==> r <= 1.0
    ensures now - createdAt >= 30 * DayMs ==> r == 0.0
    ensures now - createdAt < 30 * DayMs ==> r > 0.0 && r + DaysOld(createdAt, now) / RecencyDays == 1.0
    ensures now < createdAt ==> r > 1.0
  {
    MaxReal(0.0, 1.0 - DaysOld(createdAt, now) / RecencyDays)
  }

  /** 1.0 when the product's subcategory is a favourite, else 0.5 when its
      category is, else 0; `None` preferences (no viewer object) give 0.
      `includes` matches `NULL` against `NULL`. */
  function PersonalScore(p: Product, preferences: Option<seq<Option<int>>>): (r: real)
    ensures preferences.None? ==> r == 0.0
    ensures preferences.Some? ==>
      (r == 1.0 <==> p.subcategoryId in preferences.value)
      && (r == 0.5 <==> p.subcategoryId !in preferences.value && p.categoryId in preferences.value)
      && (r == 0.0 <==> p.subcategoryId !in preferences.value && p.categoryId !in preferences.value)
  {
    match preferences
    case None => 0.0
    case Some(favourites) =>
      if p.subcategoryId in favourites then 1.0
      else if p.categoryId in favourites then 0.5
      else 0.0
  }

  /** `calculateProductScore` with the exploration factor `random` injected:
      the weighted sum, plus the promotion weight when `is_promoted` is set. */
  function ProductScore(p: Product, preferences: Option<seq<Option<int>>>, now: int, random: real): (r: real)
    ensures var organic := ConversionWeight * ConversionRate(p) + RecencyWeight * RecencyScore(p.createdAt, now)
                         + PersonalWeight * PersonalScore(p, preferences) + RandomWeight * random;
      r == organic + (if p.isPromoted then PromotionWeight else 0.0)
  {
    var score := ConversionRate(p) * ConversionWeight
               + RecencyScore(p.createdAt, now) * RecencyWeight
               + PersonalScore(p, preferences) * PersonalWeight
               + random * RandomWeight;
    if p.isPromoted then score + PromotionWeight else score
  }

  /** The promotion flag adds exactly the promotion weight, and nothing else of the product changes the bonus. */
  lemma PromotionAddsWeight(p: Product, preferences: Option<seq<Option<int>>>, now: int, random: real)
    ensures ProductScore(p.(isPromoted := true), preferences, now, random)
         == ProductScore(p.(isPromoted := false), preferences, now, random) + PromotionWeight
  {
  }

  /** The promotion's end date is never looked at: an expired promotion still gets the bonus. */
  lemma PromotionEndIgnored(p: Product, preferences: Option<seq<Option<int>>>, now: int, random: real, end: Option<int>)
    ensures ProductScore(p.(promotionEnd := end), preferences, now, random) == ProductScore(p, preferences, now, random)
  {
  }

  /** For a product not dated in the future and `random` in [0, 1): the organic
      part lies in [0, 0.5 * conversion + 0.5), so a promoted product scores at
      least 5 and an organic one stays below 5 unless its conversion rate reaches 9. */
  lemma ScoreBounds(p: Product, preferences: Option<seq<Option<int>>>, now: int, random: real)
    requires 0.0 <= random < 1.0 && p.createdAt <= now
    ensures var organic := ProductScore(p.(isPromoted := false), preferences, now, random);
      0.0 <= organic < ConversionWeight * ConversionRate(p) + 0.5
    ensures p.isPromoted ==> ProductScore(p, preferences, now, random) >= PromotionWeight
    ensures !p.isPromoted && ConversionRate(p) < 9.0 ==> ProductScore(p, preferences, now, random) < PromotionWeight
  {
    var q := p.(isPromoted := false);
    assert ConversionRate(q) == ConversionRate(p);
    assert PersonalScore(q, preferences) <= 1.0;
  }

  // ---------------------------------------------------------------------------
  // Feed
  // ---------------------------------------------------------------------------

  /** Whether some shipping option serves `city` (`opt.city_id == userCityId`). */
  predicate ShipsTo(options: seq<int>, city: int) {
    exists i :: 0 <= i < |options| && options[i] == city
  }

  /** The feed's `product.shipping_options.some(...)` throws: a city was
      requested and the column is not a list. */
  predicate Throws(p: Product, userCity: Option<int>) {
    userCity.Some? && p.shippingOptions.NotAList?
  }

  /** Halves the score of a product that has shipping options but none for the
      requested city; an empty option list counts as having options. `None`
      when the lookup throws. */
  function LocalBoost(p: Product, userCity: Option<int>): (r: Option<real>)
    ensures r.None? <==> Throws(p, userCity)
    ensures r.Some? ==> r.value == 0.5 || r.value == 1.0
    ensures r.Some? ==> (r.value == 0.5 <==> userCity.Some? && p.shippingOptions.CityList? && !ShipsTo(p.shippingOptions.cities, userCity.value))
  {
    if userCity.None? || p.shippingOptions.Absent? then Some(1.0)
    else if p.shippingOptions.NotAList? then None
    else if userCity.value in p.shippingOptions.cities then Some(1.0)
    else Some(0.5)
  }

  /** The record the feed builds for one product, or `None` when building it throws. */
  function Score(p: Product, preferences: Option<seq<Option<int>>>, userCity: Option<int>, now: int, random: real): (s: Option<ScoredProduct>)
    ensures s.None? <==> Throws(p, userCity)
    ensures s.Some? ==> s.value.product == p
    ensures s.Some? ==> s.value.algoScore == ProductScore(p, preferences, now, random) * LocalBoost(p, userCity).value
  {
    var boost := LocalBoost(p, userCity);
    if boost.None? then None else Some(ScoredProduct(p, ProductScore(p, preferences, now, random) * boost.value))
  }

  /** Every product scored with its own exploration factor `randoms[i]`;
      `None` when the map throws on some product. */
  function ScoreAll(products: seq<Product>, preferences: Option<seq<Option<int>>>, userCity: Option<int>, now: int, randoms: seq<real>): (r: Option<seq<ScoredProduct>>)
    requires |randoms| == |products|
    ensures r.None? <==> exists i :: 0 <= i < |products| && Throws(products[i], userCity)
    ensures r.Some? ==> |r.value| == |products|
    ensures r.Some? ==> forall i :: 0 <= i < |products| ==> Score(products[i], preferences, userCity, now, randoms[i]) == Some(r.value[i])
  {
    if exists i :: 0 <= i < |products| && Throws(products[i], userCity) then None
    else Some(seq(|products|, i requires 0 <= i < |products| => Score(products[i], preferences, userCity, now, randoms[i]).value))
  }

  datatype FeedError = AlgorithmError

  /** `GET /smart-feed`: the scored products, highest `algo_score` first; the
      500 answer when a city was requested and some product's shipping
      options are not a list. */
  function SmartFeed(products: seq<Product>, preferences: Option<seq<Option<int>>>, userCity: Option<int>, now: int, randoms: seq<real>): (r: Result<seq<ScoredProduct>, FeedError>)
    requires |randoms| == |products|
    ensures r.Err? <==> userCity.Some? && exists i :: 0 <= i < |products| && products[i].shippingOptions.NotAList?
    ensures r.Ok? ==> ScoreAll(products, preferences, userCity, now, randoms).Some?
    ensures r.Ok? ==> multiset(r.value) == multiset(ScoreAll(products, preferences, userCity, now, randoms).value)
    ensures r.Ok? ==> SortedDesc(r.value, AlgoScore)
    ensures r.Ok? ==> forall i :: 0 <= i < |r.value| ==> r.value[i].product in products
  {
    match ScoreAll(products, preferences, userCity, now, randoms)
    case None => Err(AlgorithmError)
    case Some(scored) =>
      var r := SortDesc(scored, AlgoScore);
      forall i | 0 <= i < |r| ensures r[i].product in products {
        assert r[i] in multiset(scored);
        var k :| 0 <= k < |scored| && scored[k] == r[i];
        assert Score(products[k], preferences, userCity, now, randoms[k]) == Some(scored[k]);
      }
      Ok(r)
  }

  /** The ids whose view counters the feed bumps: the first twenty of the ranking. */
  function FeedbackIds(ranked: seq<ScoredProduct>): (ids: seq<int>)
    ensures |ids| == Min(FeedbackSize, |ranked|)
    ensures forall i :: 0 <= i < |ids| ==> ids[i] == ranked[i].product.id
  {
    Map(Take(ranked, FeedbackSize), ProductId)
  }

  /** The products that get the feedback outrank every product that does not. */
  lemma FeedbackIsTop(ranked: seq<ScoredProduct>)
    requires SortedDesc(ranked, AlgoScore)
    ensures forall i, j :: 0 <= i < |FeedbackIds(ranked)| <= j < |ranked| ==> ranked[i].algoScore >= ranked[j].algoScore
  {
  }

  // ---------------------------------------------------------------------------
  // Analytics
  // ---------------------------------------------------------------------------

  function Sold(p: Product): real { p.totalSold as real }
  function Viewed(p: Product): real { p.views as real }

  /** `total_sold / views_count * 100`, before `toFixed(1)`. */
  function ConversionPercent(p: Product): real
    requires p.views > 0
  {
    p.totalSold as real / p.views as real * 100.0
  }

  /** A product with its conversion percentage, as the third ranking reports it. */
  datatype ConversionEntry = ConversionEntry(product: Product, conversion: real)

  function Conversion(e: ConversionEntry): real { e.conversion }

  predicate EnoughViews(p: Product) { p.views > MinConversionViews }

  function ToConversionEntry(p: Product): ConversionEntry {
    if p.views > 0 then ConversionEntry(p, ConversionPercent(p)) else ConversionEntry(p, 0.0)
  }

  /** `[...products].sort(by key, descending).slice(0, 5)`. */
  function TopFive<T(==)>(products: seq<T>, key: T -> real): (top: seq<T>)
    ensures |top| == Min(TopSize, |products|)
    ensures SortedDesc(top, key)
    ensures multiset(top) <= multiset(products)
    ensures forall i :: 0 <= i < |top| ==> top[i] in products
    ensures forall x | x in multiset(products) - multiset(top) ::
              forall i | 0 <= i < |top| :: key(top[i]) >= key(x)
  {
    var sorted := SortDesc(products, key);
    TopOfSorted(sorted, TopSize, key);
    PrefixKeepsSorted(sorted, TopSize, key);
    var top := Take(sorted, TopSize);
    assert sorted == top + sorted[|top|..];
    assert multiset(sorted) == multiset(top) + multiset(sorted[|top|..]);
    forall i | 0 <= i < |top| ensures top[i] in products {
      assert top[i] == sorted[i];
      assert sorted[i] in multiset(products);
    }
    top
  }

  /** The best sellers and the most viewed products. */
  function TopSold(products: seq<Product>): seq<Product> { TopFive(products, Sold) }
  function TopViewed(products: seq<Product>): seq<Product> { TopFive(products, Viewed) }

  /** The entries the conversion ranking sorts: every product with more than
      five views, with its percentage. */
  function ConversionEntries(products: seq<Product>): (entries: seq<ConversionEntry>)
    ensures |entries| == |Filter(products, EnoughViews)|
    ensures forall i :: 0 <= i < |entries| ==>
              entries[i].product in products && EnoughViews(entries[i].product)
              && entries[i].conversion == ConversionPercent(entries[i].product)
  {
    var eligible := Filter(products, EnoughViews);
    var entries := Map(eligible, ToConversionEntry);
    assert forall i :: 0 <= i < |entries| ==> entries[i] == ToConversionEntry(eligible[i]);
    entries
  }

  /** The best conversion rates among the products with more than five views:
      as many as there are such products, up to five, and none of the entries
      left out converts better than an entry shown. */
  function TopConversion(products: seq<Product>): (top: seq<ConversionEntry>)
    ensures |top| == Min(TopSize, |Filter(products, EnoughViews)|)
    ensures SortedDesc(top, Conversion)
    ensures multiset(top) <= multiset(ConversionEntries(products))
    ensures forall i :: 0 <= i < |top| ==>
              top[i].product in products && EnoughViews(top[i].product)
              && top[i].conversion == ConversionPercent(top[i].product)
    ensures forall e | e in multiset(ConversionEntries(products)) - multiset(top) ::
              forall i | 0 <= i < |top| :: top[i].conversion >= e.conversion
  {
    var entries := ConversionEntries(products);
    var top := TopFive(entries, Conversion);
    forall e | e in multiset(entries) - multiset(top)
      ensures forall i | 0 <= i < |top| :: top[i].conversion >= e.conversion
    {
      forall i | 0 <= i < |top| ensures top[i].conversion >= e.conversion {
        assert Conversion(top[i]) >= Conversion(e);
      }
    }
    forall i | 0 <= i < |top|
      ensures top[i].product in products && EnoughViews(top[i].product)
              && top[i].conversion == ConversionPercent(top[i].product)
    {
      assert top[i] in entries;
    }
    top
  }

  /** The best sellers are up to five of the products, without repeats beyond
      the input's, and hold the highest `total_sold` of all products. */
  lemma TopSoldRanking(products: seq<Product>)
    ensures |TopSold(products)| == Min(TopSize, |products|)
    ensures multiset(TopSold(products)) <= multiset(products)
    ensures forall x | x in multiset(products) - multiset(TopSold(products)) ::
              forall i | 0 <= i < |TopSold(products)| :: TopSold(products)[i].totalSold >= x.totalSold
  {
    var top := TopSold(products);
    forall x | x in multiset(products) - multiset(top)
      ensures forall i | 0 <= i < |top| :: top[i].totalSold >= x.totalSold
    {
      forall i | 0 <= i < |top| ensures top[i].totalSold >= x.totalSold {
        assert Sold(top[i]) >= Sold(x);
      }
    }
  }

  /** The most viewed list is up to five of the products, without repeats
      beyond the input's, and holds the highest `views_count` of all products. */
  lemma TopViewedRanking(products: seq<Product>)
    ensures |TopViewed(products)| == Min(TopSize, |products|)
    ensures multiset(TopViewed(products)) <= multiset(products)
    ensures forall x | x in multiset(products) - multiset(TopViewed(products)) ::
              forall i | 0 <= i < |TopViewed(products)| :: TopViewed(products)[i].views >= x.views
  {
    var top := TopViewed(products);
    forall x | x in multiset(products) - multiset(top)
      ensures forall i | 0 <= i < |top| :: top[i].views >= x.views
    {
      forall i | 0 <= i < |top| ensures top[i].views >= x.views {
        assert Viewed(top[i]) >= Viewed(x);
      }
    }
  }
}
