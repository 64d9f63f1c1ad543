/** Products (`productRoutes.js`): the media fields a product is stored with,
    the base price and total stock derived from its variations, the checks a
    create or update must pass, how a stored row is read back
    (`parseProductDetails`), and the paid promotion. */
module Product {
  import opened Base
  import opened Shipping

  // ---------------------------------------------------------------------------
  // Media
  // ---------------------------------------------------------------------------

  /** The media columns: `image_url`, `detail_image_urls` (the JSON text of the
      list, kept as the list) and `fy_video_id`. */
  datatype Media = Media(primary: Option<string>, detail: Option<seq<string>>, video: Option<string>)

  /** `processMediaUrls`: `None` stands for a missing list or a missing video id. */
  function ProcessMediaUrls(imageUrls: Option<seq<string>>, videoId: Option<string>): (m: Media)
    ensures m.primary.Some? <==> imageUrls.Some? && |imageUrls.value| > 0
    ensures m.primary.Some? ==> m.primary.value == imageUrls.value[0]
    ensures m.detail.Some? <==> imageUrls.Some? && |imageUrls.value| > 1
    ensures m.detail.Some? ==> [m.primary.value] + m.detail.value == imageUrls.value
    ensures m.video.Some? <==> videoId.Some? && videoId.value != ""
    ensures m.video.Some? ==> m.video == videoId
  {
    var urls := imageUrls.GetOr([]);
    Media(if |urls| > 0 then Some(urls[0]) else None,
          if |urls| > 1 then Some(urls[1..]) else None,
          if videoId.Some? && videoId.value != "" then videoId else None)
  }

  /** The stored media give back the submitted list of images. */
  lemma MediaKeepsImages(imageUrls: seq<string>, videoId: Option<string>)
    requires |imageUrls| > 0
    ensures var m := ProcessMediaUrls(Some(imageUrls), videoId);
      m.primary.Some? && [m.primary.value] + m.detail.GetOr([]) == imageUrls
  {
    var m := ProcessMediaUrls(Some(imageUrls), videoId);
    if |imageUrls| == 1 {
      assert [m.primary.value] == imageUrls;
    }
  }

  // ---------------------------------------------------------------------------
  // Base price and stock
  // ---------------------------------------------------------------------------

  /** A submitted variation: `parseFloat(price)` and `parseInt(stock)`, `None` for `NaN`. */
  datatype VariationInput = VariationInput(price: Option<real>, stock: Option<int>)

  predicate PositivePrice(v: VariationInput) { v.price.Some? && v.price.value > 0.0 }

  /** `Math.min(...prices)`. */
  function MinPrice(vs: seq<VariationInput>): (r: real)
    requires exists i :: 0 <= i < |vs| && PositivePrice(vs[i])
    ensures r > 0.0
    ensures exists i :: 0 <= i < |vs| && PositivePrice(vs[i]) && vs[i].price.value == r
    ensures forall i :: 0 <= i < |vs| && PositivePrice(vs[i]) ==> r <= vs[i].price.value
  {
    var last := vs[|vs| - 1];
    var init := vs[..|vs| - 1];
    if !exists i :: 0 <= i < |init| && PositivePrice(init[i]) then
      assert forall i :: 0 <= i < |init| ==> init[i] == vs[i];
      last.price.value
    else
      var m := MinPrice(init);
      assert forall i :: 0 <= i < |init| ==> init[i] == vs[i];
      if PositivePrice(last) && last.price.value < m then last.price.value else m
  }

  /** The base price of a product with variations: the least positive price, or 0 when none is positive. */
  function VariationsPrice(vs: seq<VariationInput>): (r: real)
    ensures r == 0.0 <==> forall i :: 0 <= i < |vs| ==> !PositivePrice(vs[i])
    ensures r != 0.0 ==>
              r > 0.0
              && (exists i :: 0 <= i < |vs| && PositivePrice(vs[i]) && vs[i].price.value == r)
              && (forall i :: 0 <= i < |vs| && PositivePrice(vs[i]) ==> r <= vs[i].price.value)
  {
    if exists i :: 0 <= i < |vs| && PositivePrice(vs[i]) then MinPrice(vs) else 0.0
  }

  /** `parseInt(v.stock) || 0`. */
  function StockOf(v: VariationInput): int { v.stock.GetOr(0) }

  /** The `reduce` over the variations' stock. */
  function VariationsStock(vs: seq<VariationInput>): int
    decreases |vs|
  {
    if vs == [] then 0 else VariationsStock(vs[..|vs| - 1]) + StockOf(vs[|vs| - 1])
  }

  /** Non-negative variation stocks add up to a non-negative stock, at least as large as each of them. */
  lemma {:induction false} VariationsStockBounds(vs: seq<VariationInput>)
    requires forall i :: 0 <= i < |vs| ==> StockOf(vs[i]) >= 0
    ensures VariationsStock(vs) >= 0
    ensures forall i :: 0 <= i < |vs| ==> StockOf(vs[i]) <= VariationsStock(vs)
    decreases |vs|
  {
    if vs != [] {
      var init := vs[..|vs| - 1];
      assert forall i :: 0 <= i < |init| ==> init[i] == vs[i];
      VariationsStockBounds(init);
    }
  }

  /** `basePrice` and `totalStock`: from the variations when there are any,
      otherwise `parseFloat(price) || 0` and `parseInt(stock_quantity) || 0`. */
  function PriceAndStock(variations: Option<seq<VariationInput>>, bodyPrice: Option<real>, bodyStock: Option<int>): (real, int)
  {
    if variations.Some? && |variations.value| > 0 then (VariationsPrice(variations.value), VariationsStock(variations.value))
    else (bodyPrice.GetOr(0.0), bodyStock.GetOr(0))
  }

  // ---------------------------------------------------------------------------
  // Create and update checks
  // ---------------------------------------------------------------------------

  /** Nothing is added to the seller's price: both fees are 0.00. */
  const MarketplaceFee: real := 0.0
  const ProductDeliveryFee: real := 0.0

  datatype ProductError = NoStore | MissingFields | NoLocalShipping

  /** Whether some shipping option is for the store's own city. */
  predicate HasLocalOption(options: seq<ShippingOption>, storeCity: int) {
    exists i :: 0 <= i < |options| && options[i].cityId == storeCity
  }

  /** The form a product is stored in. */
  datatype NewProduct = NewProduct(price: real, stock: int, subcategory: int, media: Media, shipping: Option<seq<ShippingOption>>)

  /** `POST /products`: a seller without a store is refused; then a missing
      name or subcategory or a base price that is not positive; then non-empty
      shipping options without one for the store's city. */
  function CreateProduct(storeCity: Option<int>, name: string, subcategory: Option<int>,
                         variations: Option<seq<VariationInput>>, bodyPrice: Option<real>, bodyStock: Option<int>,
                         shipping: Option<seq<ShippingOption>>,
                         imageUrls: Option<seq<string>>, videoId: Option<string>): (r: Result<NewProduct, ProductError>)
    ensures storeCity.None? <==> r == Err(NoStore)
    ensures r.Ok? <==>
      storeCity.Some? && name != "" && subcategory.Some? && subcategory.value != 0
      && PriceAndStock(variations, bodyPrice, bodyStock).0 > 0.0
      && (shipping.Some? && |shipping.value| > 0 ==> HasLocalOption(shipping.value, storeCity.value))
    ensures r.Ok? ==>
      r.value.price == PriceAndStock(variations, bodyPrice, bodyStock).0
      && r.value.stock == PriceAndStock(variations, bodyPrice, bodyStock).1
      && r.value.media == ProcessMediaUrls(imageUrls, videoId)
      && (r.value.shipping.Some? <==> shipping.Some? && |shipping.value| > 0)
  {
    if storeCity.None? then Err(NoStore)
    else
      var (price, stock) := PriceAndStock(variations, bodyPrice, bodyStock);
      if name == "" || subcategory.None? || subcategory.value == 0 || price <= 0.0 then Err(MissingFields)
      else
        var options := if shipping.Some? && |shipping.value| > 0 then shipping else None;
        if options.Some? && !HasLocalOption(options.value, storeCity.value) then Err(NoLocalShipping)
        else Ok(NewProduct(price + MarketplaceFee + ProductDeliveryFee, stock, subcategory.value,
                           ProcessMediaUrls(imageUrls, videoId), options))
  }

  /** `PUT /products/:id`: only the shipping check applies, and only when the
      seller's store has a city. */
  function UpdateShippingCheck(storeCity: Option<int>, shipping: Option<seq<ShippingOption>>): (r: Result<(), ProductError>)
    ensures r.Err? <==>
      shipping.Some? && |shipping.value| > 0 && storeCity.Some? && storeCity.value != 0
      && !HasLocalOption(shipping.value, storeCity.value)
    ensures r.Err? ==> r.error == NoLocalShipping
  {
    if shipping.Some? && |shipping.value| > 0 && storeCity.Some? && storeCity.value != 0
       && !HasLocalOption(shipping.value, storeCity.value)
    then Err(NoLocalShipping)
    else Ok(())
  }

  // ---------------------------------------------------------------------------
  // Reading a product back
  // ---------------------------------------------------------------------------

  /** A JSON column: `NULL` or `''`, text that does not parse, or a parsed value. */
  datatype JsonColumn<T> = Missing | Unparsable(text: string) | Parsed(value: T)

  /** A stored district: `null`, `''` or an id. */
  datatype StoredDistrict = NullDistrict | EmptyDistrict | District(id: int)

  datatype StoredOption = StoredOption(cityId: int, district: StoredDistrict, cost: real)

  /** The `attributes_data` object. */
  datatype AttributesData = AttributesData(definitions: seq<string>, variations: seq<map<string, string>>)

  /** What `attributes_data` holds after reading: the data, or the text it was stored as. */
  datatype AttributesOut = Data(data: AttributesData) | KeptText(text: string)

  datatype StoredProduct = StoredProduct(
    detailImages: JsonColumn<seq<string>>,
    shipping: JsonColumn<seq<StoredOption>>,
    attributes: JsonColumn<AttributesData>,
    isPromoted: bool,
    promotionEnd: Option<int>)

  datatype ProductView = ProductView(
    detailImages: seq<string>,
    shipping: seq<ShippingOption>,
    attributes: AttributesOut,
    isPromoted: bool,
    promotionEnd: Option<int>)

  /** The shipping option a stored one is read as: `''` becomes `null`. */
  function ReadOption(o: StoredOption): (r: ShippingOption)
    ensures r.cityId == o.cityId && r.cost == o.cost
    ensures r.districtId.None? <==> o.district == NullDistrict || o.district == EmptyDistrict
    ensures r.districtId.Some? ==> o.district == District(r.districtId.value)
  {
    ShippingOption(o.cityId, if o.district.District? then Some(o.district.id) else None, o.cost)
  }

  /** Whether a promotion still shows at time `now`: it is cleared only when it has an end before `now`. */
  function PromotionShows(isPromoted: bool, promotionEnd: Option<int>, now: int): (r: bool)
    ensures r <==> isPromoted && (promotionEnd.None? || promotionEnd.value >= now)
  {
    if isPromoted && promotionEnd.Some? && promotionEnd.value < now then false else isPromoted
  }

  /** `parseProductDetails` at time `now`. */
  function ParseProductDetails(p: StoredProduct, now: int): (v: ProductView)
    ensures p.detailImages.Parsed? ==> v.detailImages == p.detailImages.value
    ensures !p.detailImages.Parsed? ==> v.detailImages == []
    ensures p.shipping.Parsed? ==>
      |v.shipping| == |p.shipping.value| && forall i :: 0 <= i < |v.shipping| ==> v.shipping[i] == ReadOption(p.shipping.value[i])
    ensures !p.shipping.Parsed? ==> v.shipping == []
    ensures p.attributes.Missing? ==> v.attributes == Data(AttributesData([], []))
    ensures p.attributes.Unparsable? ==> v.attributes == KeptText(p.attributes.text)
    ensures p.attributes.Parsed? ==> v.attributes == Data(p.attributes.value)
    ensures v.isPromoted <==> p.isPromoted && !(p.promotionEnd.Some? && p.promotionEnd.value < now)
    ensures v.promotionEnd == p.promotionEnd
  {
    ProductView(
      if p.detailImages.Parsed? then p.detailImages.value else [],
      if p.shipping.Parsed? then seq(|p.shipping.value|, i requires 0 <= i < |p.shipping.value| => ReadOption(p.shipping.value[i])) else [],
      match p.attributes
      case Missing => Data(AttributesData([], []))
      case Unparsable(text) => KeptText(text)
      case Parsed(a) => Data(a),
      PromotionShows(p.isPromoted, p.promotionEnd, now),
      p.promotionEnd)
  }

  // ---------------------------------------------------------------------------
  // Promotion
  // ---------------------------------------------------------------------------

  const CostPerDay: real := 5.0
  const DayMs: int := 86400000

  datatype PromoteError = InvalidDays | ProductNotFound | InsufficientBalance | ServerError

  /** The promotion columns of a product, with its owner. */
  datatype Promotion = Promotion(sellerId: int, isPromoted: bool, promotionEnd: Option<int>)

  /** The new end: `days` after the current end while the promotion is still running, otherwise after `now`. */
  function NewPromotionEnd(p: Promotion, now: int, days: int): (e: int)
    requires days >= 1
    ensures p.isPromoted && p.promotionEnd.Some? && p.promotionEnd.value > now ==> e == p.promotionEnd.value + days * DayMs
    ensures !(p.isPromoted && p.promotionEnd.Some? && p.promotionEnd.value > now) ==> e == now + days * DayMs
  {
    var start := if p.isPromoted && p.promotionEnd.Some? && p.promotionEnd.value > now then p.promotionEnd.value else now;
    start + days * DayMs
  }

  /** A promotion bought at `now` shows until its new end, and the new end is
      never earlier than a running promotion's end: it is extended, not reset. */
  lemma PromotionExtends(p: Promotion, now: int, days: int)
    requires days >= 1
    ensures var e := NewPromotionEnd(p, now, days);
      e >= now + DayMs
      && (p.isPromoted && p.promotionEnd.Some? ==> e > p.promotionEnd.value)
      && forall t :: now <= t <= e ==> PromotionShows(true, Some(e), t)
  {
  }

  /** Two purchases at the same moment add up to one purchase of all the days. */
  lemma {:induction false} PromotionsAddUp(p: Promotion, now: int, d1: int, d2: int)
    requires d1 >= 1 && d2 >= 1
    ensures var first := Promotion(p.sellerId, true, Some(NewPromotionEnd(p, now, d1)));
      NewPromotionEnd(first, now, d2) == NewPromotionEnd(p, now, d1 + d2)
  {
    var e1 := NewPromotionEnd(p, now, d1);
    assert e1 > now;
  }

  /** The promotions and the sellers' `pending_balance`. */
  class PromotionLedger {
    var products: map<int, Promotion>
    var balances: map<int, real>

    constructor (products: map<int, Promotion>, balances: map<int, real>)
      ensures this.products == products && this.balances == balances
    {
      this.products := products;
      this.balances := balances;
    }

    /** `POST /products/:id/promote` at time `now` for `days` days (a missing
        `days` is 0): the cost is 5.00 a day, charged on `days` as
        given, while the end moves by `parseInt(days)` whole days; on success the
        seller pays exactly the cost and the product is promoted until its new
        end; every refusal changes nothing. */
    method Promote(productId: int, sellerId: int, days: real, now: int) returns (r: Result<real, PromoteError>)
      modifies this
      ensures days < 1.0 ==> r == Err(InvalidDays)
      ensures days >= 1.0 && (productId !in old(products) || old(products)[productId].sellerId != sellerId) ==> r == Err(ProductNotFound)
      ensures days >= 1.0 && productId in old(products) && old(products)[productId].sellerId == sellerId ==>
        (sellerId !in old(balances) ==> r == Err(ServerError))
        && (sellerId in old(balances) && old(balances)[sellerId] < days * CostPerDay ==> r == Err(InsufficientBalance))
        && (sellerId in old(balances) && old(balances)[sellerId] >= days * CostPerDay ==>
              r == Ok(old(balances)[sellerId] - days * CostPerDay)
              && balances == old(balances)[sellerId := old(balances)[sellerId] - days * CostPerDay]
              && products == old(products)[productId := Promotion(sellerId, true, Some(NewPromotionEnd(old(products)[productId], now, days.Floor)))])
      ensures r.Err? ==> products == old(products) && balances == old(balances)
      ensures r.Ok? ==> r.value >= 0.0 && balances[sellerId] == r.value
    {
      if days < 1.0 {
        return Err(InvalidDays);
      }
      var totalCost := days * CostPerDay;
      if productId !in products || products[productId].sellerId != sellerId {
        return Err(ProductNotFound);
      }
      var product := products[productId];
      if sellerId !in balances {
        return Err(ServerError);
      }
      var currentBalance := balances[sellerId];
      if currentBalance < totalCost {
        return Err(InsufficientBalance);
      }
      balances := balances[sellerId := currentBalance - totalCost];
      var newDate := NewPromotionEnd(product, now, days.Floor);
      products := products[productId := Promotion(sellerId, true, Some(newDate))];
      r := Ok(currentBalance - totalCost);
    }
  }
}
