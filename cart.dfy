/** `calculateCartBreakdown` (`cartRoutes.js`): the cart's items priced one by
    one (variation matching, stock check), grouped by store with the store's
    freight fixed at its first item, and the totals. The products the query
    finds are a map from product id to catalogue row. */
module Cart {
  import opened Base
  import opened Shipping
  import opened Text

  /** One entry of `attributes_data.variations`; `NULL`/absent stock and price are 0. */
  datatype Variation = Variation(options: map<string, string>, stock: int, price: real, imageUrl: Option<string>)

  /** The `attributes_data` column: `NULL`, not valid JSON, or its (possibly empty) variations. */
  datatype Attributes = NoAttributes | BadAttributes | Variations(variations: seq<Variation>)

  /** The columns the breakdown reads from a product and its store; a `NULL` price or stock is 0. */
  datatype CatalogueProduct = CatalogueProduct(
    price: real,
    imageUrl: Option<string>,
    stock: int,
    attributes: Attributes,
    shipping: ShippingField,
    storeId: int,
    storeCity: int)

  /** One item of the request. `product_id` is read twice, both times through
      its text `String(product_id)`: `productId` is `parseInt` of it (`None`
      for `NaN`), and `lookupKey` is the id the `productMap` lookup with it
      hits (`Some(n)` exactly when the text is `${n}`); `ItemOf` builds both.
      `quantity` is the parsed quantity, `unitPrice` a truthy `unit_price`. */
  datatype CartItem = CartItem(productId: Option<int>, lookupKey: Option<int>, quantity: int, unitPrice: Option<real>, options: map<string, string>)

  /** The item for a `product_id` whose text is `key`. */
  function ItemOf(key: string, quantity: int, unitPrice: Option<real>, options: map<string, string>): (item: CartItem)
    ensures item.lookupKey.Some? ==> item.productId == item.lookupKey && item.lookupKey.value >= 0 && key == NatToString(item.lookupKey.value)
    ensures forall n: nat :: key == NatToString(n) ==> item.lookupKey == Some(n)
  {
    var lookup := KeyIndex(key);
    assert lookup.Some? ==> NatToString(lookup.value) == key by {
      if lookup.Some? {
        NatToStringOfDigits(key);
      }
    }
    CartItem(ParseDecimalInt(key), lookup, quantity, unitPrice, options)
  }

  /** The catalogue rows found and the buyer's location. */
  datatype Context = Context(catalogue: map<int, CatalogueProduct>, buyerCity: Option<int>, buyerDistrict: Option<int>)

  datatype PricedItem = PricedItem(productId: int, quantity: int, unitPrice: real, total: real, imageUrl: Option<string>, options: map<string, string>)

  datatype StoreCart = StoreCart(storeId: int, items: seq<PricedItem>, subtotal: real, freight: real)

  datatype StoreTotal = StoreTotal(store: StoreCart, totalWithShipping: real)

  datatype CartSummary = CartSummary(valorTotal: real, freteTotal: real, subTotalGeral: real, numeroDeLojas: nat, breakdown: seq<StoreTotal>)

  datatype CartError = NoProductsFound | BadAttributesData(productId: int) | VariationNotFound(productId: int) | InsufficientStock(productId: int, available: int)

  // ---------------------------------------------------------------------------
  // One item
  // ---------------------------------------------------------------------------

  /** A positive parsed product id: the ids that make it into the query. */
  predicate ValidId(item: CartItem) {
    item.productId.Some? && item.productId.value > 0
  }

  /** An item whose parsed id the query found in the catalogue. */
  predicate Queried(item: CartItem, ctx: Context) {
    ValidId(item) && item.productId.value in ctx.catalogue
  }

  /** An item the loop prices: the query found its product, and
      `productMap[item.product_id]` finds it too, which needs the raw key to be
      the id's own rendering (`"7"`, not `"07"` or `"7abc"`). Every other item
      is skipped. */
  predicate Known(item: CartItem, ctx: Context) {
    Queried(item, ctx) && item.lookupKey == item.productId
  }

  function InfoOf(item: CartItem, ctx: Context): CatalogueProduct
    requires Known(item, ctx)
  {
    ctx.catalogue[item.productId.value]
  }

  /** Every selected option is among the variation's options, with the same value. */
  predicate Matches(v: Variation, selected: map<string, string>) {
    forall k :: k in selected ==> k in v.options && v.options[k] == selected[k]
  }

  /** `variations.find(...)` as an index. */
  function FindVariation(vs: seq<Variation>, selected: map<string, string>): (i: nat)
    ensures i <= |vs| && (i < |vs| ==> Matches(vs[i], selected))
    ensures forall k :: 0 <= k < i ==> !Matches(vs[k], selected)
  {
    if vs == [] || Matches(vs[0], selected) then 0 else 1 + FindVariation(vs[1..], selected)
  }

  /** `parseFloat(price || 0)`, replaced by a truthy `unit_price` of the item. */
  function BasePrice(item: CartItem, info: CatalogueProduct): real {
    if item.unitPrice.Some? then item.unitPrice.value else info.price
  }

  /** Whether the variation search runs: options were selected and the product has variations. */
  predicate Selects(item: CartItem, info: CatalogueProduct) {
    info.attributes.Variations? && |item.options| > 0 && |info.attributes.variations| > 0
  }

  /** The price, stock and image that apply to an item, before the stock check:
      the product's (or the item's `unit_price`), unless the selected options pick
      a variation, whose non-zero price, stock and image take over. */
  function Choose(item: CartItem, info: CatalogueProduct): (r: Result<(real, int, Option<string>), CartError>)
    ensures info.attributes.BadAttributes? ==> r.Err?
    ensures r.Ok? && Selects(item, info) ==>
      var vs := info.attributes.variations;
      var i := FindVariation(vs, item.options);
      i < |vs| && Matches(vs[i], item.options)
      && r.value.0 == (if vs[i].price != 0.0 then vs[i].price else BasePrice(item, info))
      && r.value.1 == vs[i].stock
      && r.value.2 == (if vs[i].imageUrl.Some? then vs[i].imageUrl else info.imageUrl)
    ensures !info.attributes.BadAttributes? && !Selects(item, info) ==>
      r == Ok((BasePrice(item, info), info.stock, info.imageUrl))
    ensures r.Err? ==> r.error == BadAttributesData(item.productId.GetOr(0)) || r.error == VariationNotFound(item.productId.GetOr(0))
    ensures r.Err? && r.error.VariationNotFound? <==>
      info.attributes.Variations? && |item.options| > 0 && |info.attributes.variations| > 0
      && forall k :: 0 <= k < |info.attributes.variations| ==> !Matches(info.attributes.variations[k], item.options)
  {
    var basePrice := BasePrice(item, info);
    var id := item.productId.GetOr(0);
    match info.attributes
    case NoAttributes => Ok((basePrice, info.stock, info.imageUrl))
    case BadAttributes => Err(BadAttributesData(id))
    case Variations(vs) =>
      if |item.options| > 0 && |vs| > 0 then
        var i := FindVariation(vs, item.options);
        if i < |vs| then
          var v := vs[i];
          Ok((if v.price != 0.0 then v.price else basePrice, v.stock, if v.imageUrl.Some? then v.imageUrl else info.imageUrl))
        else Err(VariationNotFound(id))
      else Ok((basePrice, info.stock, info.imageUrl))
  }

  /** One item priced, or the error that aborts the whole breakdown. */
  function PriceItem(item: CartItem, ctx: Context): (r: Result<PricedItem, CartError>)
    requires Known(item, ctx)
    ensures r.Ok? ==> r.value.productId == item.productId.value && r.value.quantity == item.quantity
                      && r.value.total == r.value.unitPrice * item.quantity as real
    ensures r.Ok? ==> Choose(item, InfoOf(item, ctx)).Ok? && item.quantity <= Choose(item, InfoOf(item, ctx)).value.1
    ensures Choose(item, InfoOf(item, ctx)).Ok? && item.quantity > Choose(item, InfoOf(item, ctx)).value.1 ==>
              r == Err(InsufficientStock(item.productId.value, Choose(item, InfoOf(item, ctx)).value.1))
  {
    match Choose(item, InfoOf(item, ctx))
    case Err(e) => Err(e)
    case Ok(chosen) =>
      var (price, stock, image) := chosen;
      if item.quantity > stock then Err(InsufficientStock(item.productId.value, stock))
      else Ok(PricedItem(item.productId.value, item.quantity, price, price * item.quantity as real, image, item.options))
  }

  /** What the variation search decides for a line: its error is the item's,
      enough stock makes the line succeed, and the line carries the chosen
      price and image with the item's own options. */
  lemma PricedAsChosen(item: CartItem, ctx: Context)
    requires Known(item, ctx)
    ensures var c := Choose(item, InfoOf(item, ctx));
      (c.Err? ==> PriceItem(item, ctx) == Err(c.error))
      && (c.Ok? && item.quantity <= c.value.1 ==> PriceItem(item, ctx).Ok?)
      && (PriceItem(item, ctx).Ok? ==>
            PriceItem(item, ctx).value.unitPrice == c.value.0 && PriceItem(item, ctx).value.imageUrl == c.value.2
            && PriceItem(item, ctx).value.options == item.options)
  {
  }

  /** The freight of the store of an item's product, by that product's shipping options. */
  function ItemFreight(item: CartItem, ctx: Context): real
    requires Known(item, ctx)
  {
    var info := InfoOf(item, ctx);
    Freight(info.shipping, info.storeCity, ctx.buyerCity, ctx.buyerDistrict)
  }

  // ---------------------------------------------------------------------------
  // The loop, as a fold over the items
  // ---------------------------------------------------------------------------

  /** The loop's state: `cartByStore`, the order its keys were created in, `lojasUnicas` and `subTotalGeral`. */
  datatype CartAcc = CartAcc(byStore: map<int, StoreCart>, order: seq<int>, stores: set<int>, subTotal: real)

  /** `cartByStore[storeId] = {...}` with the freight decided now, `lojasUnicas.add(storeId)`. */
  function OpenStore(acc: CartAcc, s: int, freight: real): CartAcc {
    acc.(byStore := acc.byStore[s := StoreCart(s, [], 0.0, freight)], order := acc.order + [s], stores := acc.stores + {s})
  }

  /** The item pushed onto its store, its total added to the store's and the grand subtotal. */
  function AddItem(acc: CartAcc, s: int, p: PricedItem): CartAcc
    requires s in acc.byStore
  {
    var st := acc.byStore[s];
    acc.(byStore := acc.byStore[s := st.(items := st.items + [p], subtotal := st.subtotal + p.total)],
         subTotal := acc.subTotal + p.total)
  }

  /** One pass of the loop. */
  function Step(acc: CartAcc, item: CartItem, ctx: Context): Result<CartAcc, CartError> {
    if !Known(item, ctx) then Ok(acc)
    else
      match PriceItem(item, ctx)
      case Err(e) => Err(e)
      case Ok(p) =>
        var s := InfoOf(item, ctx).storeId;
        var withStore := if s in acc.byStore then acc else OpenStore(acc, s, ItemFreight(item, ctx));
        Ok(AddItem(withStore, s, p))
  }

  /** A pass over a found item that prices: its store opened if need be, then the line added. */
  lemma StepPriced(acc: CartAcc, item: CartItem, ctx: Context, p: PricedItem)
    requires Known(item, ctx) && PriceItem(item, ctx) == Ok(p)
    ensures var s := InfoOf(item, ctx).storeId;
      Step(acc, item, ctx) == Ok(AddItem(if s in acc.byStore then acc else OpenStore(acc, s, ItemFreight(item, ctx)), s, p))
  {
  }

  /** The state after the loop has run over `items`, or the error that stopped it. */
  function Fold(items: seq<CartItem>, ctx: Context): Result<CartAcc, CartError>
    decreases |items|
  {
    if items == [] then Ok(CartAcc(map[], [], {}, 0.0))
    else
      match Fold(items[..|items| - 1], ctx)
      case Err(e) => Err(e)
      case Ok(acc) => Step(acc, items[|items| - 1], ctx)
  }

  /** Σ `frete_cost` over `Object.values(cartByStore)`. */
  function FreightSum(order: seq<int>, byStore: map<int, StoreCart>): real
    requires forall i :: 0 <= i < |order| ==> order[i] in byStore
  {
    if order == [] then 0.0 else FreightSum(order[..|order| - 1], byStore) + byStore[order[|order| - 1]].freight
  }

  /** Σ `subtotal_products` over the stores. */
  function SubtotalSum(order: seq<int>, byStore: map<int, StoreCart>): real
    requires forall i :: 0 <= i < |order| ==> order[i] in byStore
  {
    if order == [] then 0.0 else SubtotalSum(order[..|order| - 1], byStore) + byStore[order[|order| - 1]].subtotal
  }

  /** The bookkeeping the loop keeps consistent: the dictionary's keys, their
      order and the set of stores agree, and the grand subtotal is the sum of
      the stores' subtotals. */
  predicate WellFormed(acc: CartAcc) {
    var ok :=
      (forall i :: 0 <= i < |acc.order| ==> acc.order[i] in acc.byStore)
      && (forall s :: s in acc.byStore ==> s in acc.order && acc.byStore[s].storeId == s)
      && (forall i, j :: 0 <= i < j < |acc.order| ==> acc.order[i] != acc.order[j])
      && acc.stores == acc.byStore.Keys;
    ok && acc.subTotal == SubtotalSum(acc.order, acc.byStore)
  }

  /** The summary built from the final state. */
  function Finish(acc: CartAcc): (r: CartSummary)
    requires WellFormed(acc)
    ensures r.subTotalGeral == acc.subTotal && r.numeroDeLojas == |acc.stores|
    ensures r.freteTotal == FreightSum(acc.order, acc.byStore)
    ensures r.valorTotal == r.subTotalGeral + r.freteTotal
    ensures |r.breakdown| == |acc.order|
    ensures forall i :: 0 <= i < |r.breakdown| ==>
      r.breakdown[i].store == acc.byStore[acc.order[i]]
      && r.breakdown[i].totalWithShipping == r.breakdown[i].store.subtotal + r.breakdown[i].store.freight
  {
    var frete := FreightSum(acc.order, acc.byStore);
    var breakdown := seq(|acc.order|, i requires 0 <= i < |acc.order| =>
      var st := acc.byStore[acc.order[i]]; StoreTotal(st, st.subtotal + st.freight));
    CartSummary(acc.subTotal + frete, frete, acc.subTotal, |acc.stores|, breakdown)
  }

  /** `calculateCartBreakdown`: all zeros when no item has a valid id, an error
      when the query finds none of the products, otherwise the priced cart. */
  function CartBreakdown(items: seq<CartItem>, ctx: Context): Result<CartSummary, CartError> {
    if forall i :: 0 <= i < |items| ==> !ValidId(items[i]) then Ok(CartSummary(0.0, 0.0, 0.0, 0, []))
    else if forall i :: 0 <= i < |items| ==> !Queried(items[i], ctx) then Err(NoProductsFound)
    else
      match Fold(items, ctx)
      case Err(e) => Err(e)
      case Ok(acc) => FoldWellFormed(items, ctx); Ok(Finish(acc))
  }

  // ---------------------------------------------------------------------------
  // What the fold keeps
  // ---------------------------------------------------------------------------

  lemma {:induction false} SubtotalSumUpdate(order: seq<int>, byStore: map<int, StoreCart>, s: int, st: StoreCart)
    requires forall i :: 0 <= i < |order| ==> order[i] in byStore
    requires forall i, j :: 0 <= i < j < |order| ==> order[i] != order[j]
    requires s in byStore
    ensures SubtotalSum(order, byStore[s := st])
         == SubtotalSum(order, byStore) + (if s in order then st.subtotal - byStore[s].subtotal else 0.0)
  {
    if order != [] {
      var init := order[..|order| - 1];
      SubtotalSumUpdate(init, byStore, s, st);
      assert s in order <==> s in init || s == order[|order| - 1];
      assert s == order[|order| - 1] ==> s !in init;
    }
  }

  lemma {:induction false} SubtotalSumOther(order: seq<int>, byStore: map<int, StoreCart>, s: int, st: StoreCart)
    requires forall i :: 0 <= i < |order| ==> order[i] in byStore
    requires s !in order
    ensures SubtotalSum(order, byStore[s := st]) == SubtotalSum(order, byStore)
  {
    if order != [] {
      SubtotalSumOther(order[..|order| - 1], byStore, s, st);
    }
  }

  lemma {:induction false} FreightSumUpdate(order: seq<int>, byStore: map<int, StoreCart>, s: int, st: StoreCart)
    requires forall i :: 0 <= i < |order| ==> order[i] in byStore
    requires s in byStore && st.freight == byStore[s].freight
    ensures FreightSum(order, byStore[s := st]) == FreightSum(order, byStore)
  {
    if order != [] {
      FreightSumUpdate(order[..|order| - 1], byStore, s, st);
    }
  }

  lemma {:induction false} FreightSumOther(order: seq<int>, byStore: map<int, StoreCart>, s: int, st: StoreCart)
    requires forall i :: 0 <= i < |order| ==> order[i] in byStore
    requires s !in order
    ensures FreightSum(order, byStore[s := st]) == FreightSum(order, byStore)
  {
    if order != [] {
      FreightSumOther(order[..|order| - 1], byStore, s, st);
    }
  }

  /** A pass that opens a new store keeps the bookkeeping consistent. */
  lemma OpenKeepsWellFormed(acc: CartAcc, s: int, freight: real)
    requires WellFormed(acc) && s !in acc.byStore
    ensures WellFormed(OpenStore(acc, s, freight))
  {
    var next := OpenStore(acc, s, freight);
    var e := StoreCart(s, [], 0.0, freight);
    assert s !in acc.order;
    assert next.order[..|next.order| - 1] == acc.order;
    SubtotalSumOther(acc.order, acc.byStore, s, e);
    assert SubtotalSum(next.order, next.byStore) == SubtotalSum(acc.order, next.byStore) + e.subtotal;
    forall i | 0 <= i < |next.order| ensures next.order[i] in next.byStore {
      if i < |acc.order| { assert next.order[i] == acc.order[i]; }
    }
    forall i, j | 0 <= i < j < |next.order| ensures next.order[i] != next.order[j] {
      assert next.order[i] == acc.order[i];
      if j < |acc.order| { assert next.order[j] == acc.order[j]; }
    }
  }

  /** A pass that adds a priced item to an open store keeps the bookkeeping consistent. */
  lemma AddKeepsWellFormed(acc: CartAcc, s: int, p: PricedItem)
    requires WellFormed(acc) && s in acc.byStore
    ensures WellFormed(AddItem(acc, s, p))
  {
    var st := acc.byStore[s];
    SubtotalSumUpdate(acc.order, acc.byStore, s, st.(items := st.items + [p], subtotal := st.subtotal + p.total));
  }

  lemma StepWellFormed(acc: CartAcc, item: CartItem, ctx: Context)
    requires WellFormed(acc)
    ensures Step(acc, item, ctx).Ok? ==> WellFormed(Step(acc, item, ctx).value)
  {
    if Known(item, ctx) && PriceItem(item, ctx).Ok? {
      var s := InfoOf(item, ctx).storeId;
      if s !in acc.byStore {
        OpenKeepsWellFormed(acc, s, ItemFreight(item, ctx));
        AddKeepsWellFormed(OpenStore(acc, s, ItemFreight(item, ctx)), s, PriceItem(item, ctx).value);
      } else {
        AddKeepsWellFormed(acc, s, PriceItem(item, ctx).value);
      }
    }
  }

  /** The dictionary, its key order and the store set agree, and the grand
      subtotal is the sum of the stores' subtotals. */
  lemma {:induction false} FoldWellFormed(items: seq<CartItem>, ctx: Context)
    ensures Fold(items, ctx).Ok? ==> WellFormed(Fold(items, ctx).value)
    decreases |items|
  {
    if items != [] {
      var init := items[..|items| - 1];
      FoldWellFormed(init, ctx);
      if Fold(init, ctx).Ok? {
        StepWellFormed(Fold(init, ctx).value, items[|items| - 1], ctx);
      }
    }
  }

  // ---------------------------------------------------------------------------
  // Stores and their freight
  // ---------------------------------------------------------------------------

  function StoreOf(item: CartItem, ctx: Context): int
    requires Known(item, ctx)
  {
    InfoOf(item, ctx).storeId
  }

  /** The stores of the items the query found. */
  function StoresOf(items: seq<CartItem>, ctx: Context): set<int>
    decreases |items|
  {
    if items == [] then {}
    else
      var last := items[|items| - 1];
      StoresOf(items[..|items| - 1], ctx) + (if Known(last, ctx) then {StoreOf(last, ctx)} else {})
  }

  /** The position of the first found item of store `s`, or `|items|`. */
  function FirstOfStore(items: seq<CartItem>, ctx: Context, s: int): (j: nat)
    ensures j <= |items| && (j < |items| ==> Known(items[j], ctx) && StoreOf(items[j], ctx) == s)
    ensures forall k :: 0 <= k < j ==> !(Known(items[k], ctx) && StoreOf(items[k], ctx) == s)
  {
    if items == [] then 0
    else if Known(items[0], ctx) && StoreOf(items[0], ctx) == s then 0
    else 1 + FirstOfStore(items[1..], ctx, s)
  }

  /** Every store in the dictionary is one of the found items' stores and back,
      and its freight is the one decided by the first item of that store. */
  predicate StoresAgree(items: seq<CartItem>, ctx: Context, acc: CartAcc) {
    var ok :=
      acc.byStore.Keys == StoresOf(items, ctx)
      && forall s :: s in acc.byStore ==>
           FirstOfStore(items, ctx, s) < |items|
           && acc.byStore[s].freight == ItemFreight(items[FirstOfStore(items, ctx, s)], ctx);
    ok
  }

  lemma FirstOfStoreAppend(items: seq<CartItem>, x: CartItem, ctx: Context, s: int)
    ensures var j := FirstOfStore(items, ctx, s);
      FirstOfStore(items + [x], ctx, s)
        == if j < |items| then j else if Known(x, ctx) && StoreOf(x, ctx) == s then |items| else |items| + 1
  {
    var ys := items + [x];
    assert forall i :: 0 <= i < |items| ==> ys[i] == items[i];
    assert ys[|items|] == x;
  }

  lemma StoresOfAppend(items: seq<CartItem>, x: CartItem, ctx: Context)
    ensures StoresOf(items + [x], ctx) == StoresOf(items, ctx) + (if Known(x, ctx) then {StoreOf(x, ctx)} else {})
  {
    assert (items + [x])[..|items|] == items;
  }

  /** A store that the found items so far do not reach has no first item among them. */
  lemma {:induction false} NotInStoresNoFirst(items: seq<CartItem>, ctx: Context, s: int)
    requires s !in StoresOf(items, ctx)
    ensures FirstOfStore(items, ctx, s) == |items|
    decreases |items|
  {
    if items != [] {
      var init := items[..|items| - 1];
      NotInStoresNoFirst(init, ctx, s);
      assert items == init + [items[|items| - 1]];
      FirstOfStoreAppend(init, items[|items| - 1], ctx, s);
    }
  }

  /** One pass adds at most the item's store, keeps every open store's freight
      and gives a newly opened store the item's freight. */
  lemma StepStores(acc: CartAcc, x: CartItem, ctx: Context)
    requires Step(acc, x, ctx).Ok?
    ensures var next := Step(acc, x, ctx).value;
      next.byStore.Keys == acc.byStore.Keys + (if Known(x, ctx) then {StoreOf(x, ctx)} else {})
      && (forall s :: s in acc.byStore ==> next.byStore[s].freight == acc.byStore[s].freight)
      && (Known(x, ctx) && StoreOf(x, ctx) !in acc.byStore ==>
            next.byStore[StoreOf(x, ctx)].freight == ItemFreight(x, ctx))
  {
  }

  lemma StepStoresAgree(items: seq<CartItem>, x: CartItem, ctx: Context, acc: CartAcc)
    requires StoresAgree(items, ctx, acc)
    requires Step(acc, x, ctx).Ok?
    ensures StoresAgree(items + [x], ctx, Step(acc, x, ctx).value)
  {
    var ys := items + [x];
    var next := Step(acc, x, ctx).value;
    StepStores(acc, x, ctx);
    StoresOfAppend(items, x, ctx);
    forall s | s in next.byStore
      ensures FirstOfStore(ys, ctx, s) < |ys| && next.byStore[s].freight == ItemFreight(ys[FirstOfStore(ys, ctx, s)], ctx)
    {
      FirstOfStoreAppend(items, x, ctx, s);
      if s in acc.byStore {
        assert ys[FirstOfStore(items, ctx, s)] == items[FirstOfStore(items, ctx, s)];
      } else {
        NotInStoresNoFirst(items, ctx, s);
        assert ys[|items|] == x;
      }
    }
  }

  /** The dictionary holds exactly the stores of the found items, and each store's
      freight is fixed by the first item of that store. */
  lemma {:induction false} FoldStoresAgree(items: seq<CartItem>, ctx: Context)
    ensures Fold(items, ctx).Ok? ==> StoresAgree(items, ctx, Fold(items, ctx).value)
    decreases |items|
  {
    if items != [] {
      var init := items[..|items| - 1];
      var x := items[|items| - 1];
      assert init + [x] == items;
      FoldStoresAgree(init, ctx);
      var whole := Fold(items, ctx);
      if whole.Ok? {
        var before := Fold(init, ctx);
        assert before.Ok? && whole == Step(before.value, x, ctx);
        StepStoresAgree(init, x, ctx, before.value);
      }
    }
  }

  // ---------------------------------------------------------------------------
  // The imperative loop
  // ---------------------------------------------------------------------------

  /** `calculateCartBreakdown`, loop by loop: the item loop fills `cartByStore`,
      `lojasUnicas` and `subTotalGeral`; the second loop sums the freight and
      sets each store's `total_with_shipping`. */
  method CalculateCartBreakdown(items: seq<CartItem>, ctx: Context) returns (r: Result<CartSummary, CartError>)
    ensures r == CartBreakdown(items, ctx)
  {
    if forall i :: 0 <= i < |items| ==> !ValidId(items[i]) {
      return Ok(CartSummary(0.0, 0.0, 0.0, 0, []));
    }
    if forall i :: 0 <= i < |items| ==> !Queried(items[i], ctx) {
      return Err(NoProductsFound);
    }
    var cartByStore: map<int, StoreCart> := map[];
    var order: seq<int> := [];
    var lojasUnicas: set<int> := {};
    var subTotalGeral := 0.0;
    var k := 0;
    while k < |items|
      invariant 0 <= k <= |items|
      invariant Fold(items[..k], ctx) == Ok(CartAcc(cartByStore, order, lojasUnicas, subTotalGeral))
    {
      FoldPrefix(items, ctx, k);
      var item := items[k];
      if Known(item, ctx) {
        var priced := PriceItem(item, ctx);
        if priced.Err? {
          FoldErrorSticks(items, ctx, k + 1);
          return Err(priced.error);
        }
        StepPriced(CartAcc(cartByStore, order, lojasUnicas, subTotalGeral), item, ctx, priced.value);
        cartByStore, order, lojasUnicas, subTotalGeral :=
          AddLine(cartByStore, order, lojasUnicas, subTotalGeral, InfoOf(item, ctx).storeId, ItemFreight(item, ctx), priced.value);
      }
      k := k + 1;
    }
    assert items[..k] == items;
    ghost var acc := CartAcc(cartByStore, order, lojasUnicas, subTotalGeral);
    FoldWellFormed(items, ctx);
    var freteTotal, breakdown := StoreTotals(order, cartByStore);
    ghost var summary := Finish(acc);
    assert breakdown == summary.breakdown by {
      assert forall j :: 0 <= j < |order| ==> breakdown[j] == summary.breakdown[j];
    }
    BreakdownOfFold(items, ctx, acc);
    assert freteTotal == summary.freteTotal && subTotalGeral == summary.subTotalGeral;
    assert |lojasUnicas| == summary.numeroDeLojas;
    assert summary == CartSummary(subTotalGeral + freteTotal, freteTotal, subTotalGeral, |lojasUnicas|, breakdown);
    r := Ok(CartSummary(subTotalGeral + freteTotal, freteTotal, subTotalGeral, |lojasUnicas|, breakdown));
  }

  /** The body of the item loop once a line is priced: the store's entry is
      created with its freight if it is new, then the line is pushed onto it and
      its total added to the store's subtotal and to `subTotalGeral`. */
  method AddLine(cartByStore: map<int, StoreCart>, order: seq<int>, lojasUnicas: set<int>, subTotalGeral: real,
                 storeId: int, freight: real, p: PricedItem)
    returns (cartByStore': map<int, StoreCart>, order': seq<int>, lojasUnicas': set<int>, subTotalGeral': real)
    ensures var acc := CartAcc(cartByStore, order, lojasUnicas, subTotalGeral);
      CartAcc(cartByStore', order', lojasUnicas', subTotalGeral')
        == AddItem(if storeId in cartByStore then acc else OpenStore(acc, storeId, freight), storeId, p)
  {
    cartByStore', order', lojasUnicas' := cartByStore, order, lojasUnicas;
    if storeId !in cartByStore' {
      cartByStore' := cartByStore'[storeId := StoreCart(storeId, [], 0.0, freight)];
      order' := order' + [storeId];
      lojasUnicas' := lojasUnicas' + {storeId};
    }
    var st := cartByStore'[storeId];
    cartByStore' := cartByStore'[storeId := st.(items := st.items + [p], subtotal := st.subtotal + p.total)];
    subTotalGeral' := subTotalGeral + p.total;
  }

  /** `Object.values(cartByStore).forEach(...)`: the freight total, and each
      store with its `total_with_shipping`. */
  method StoreTotals(order: seq<int>, byStore: map<int, StoreCart>) returns (freteTotal: real, breakdown: seq<StoreTotal>)
    requires forall i :: 0 <= i < |order| ==> order[i] in byStore
    ensures freteTotal == FreightSum(order, byStore)
    ensures |breakdown| == |order|
    ensures forall j :: 0 <= j < |order| ==>
      breakdown[j] == StoreTotal(byStore[order[j]], byStore[order[j]].subtotal + byStore[order[j]].freight)
  {
    freteTotal := 0.0;
    breakdown := [];
    var i := 0;
    while i < |order|
      invariant 0 <= i <= |order| && |breakdown| == i
      invariant freteTotal == FreightSum(order[..i], byStore)
      invariant forall j :: 0 <= j < i ==>
        breakdown[j] == StoreTotal(byStore[order[j]], byStore[order[j]].subtotal + byStore[order[j]].freight)
    {
      assert order[..i + 1][..i] == order[..i];
      var store := byStore[order[i]];
      freteTotal := freteTotal + store.freight;
      breakdown := breakdown + [StoreTotal(store, store.subtotal + store.freight)];
      i := i + 1;
    }
    assert order[..i] == order;
  }

  /** When the query finds some product, the answer is the summary of the fold's final state. */
  lemma BreakdownOfFold(items: seq<CartItem>, ctx: Context, acc: CartAcc)
    requires exists i :: 0 <= i < |items| && Queried(items[i], ctx)
    requires Fold(items, ctx) == Ok(acc)
    ensures WellFormed(acc) && CartBreakdown(items, ctx) == Ok(Finish(acc))
  {
    FoldWellFormed(items, ctx);
    var i :| 0 <= i < |items| && Queried(items[i], ctx);
    assert ValidId(items[i]);
  }

  /** The fold over one more item is one more step. */
  lemma FoldPrefix(items: seq<CartItem>, ctx: Context, k: nat)
    requires k < |items|
    ensures Fold(items[..k], ctx).Err? ==> Fold(items[..k + 1], ctx) == Fold(items[..k], ctx)
    ensures Fold(items[..k], ctx).Ok? ==> Fold(items[..k + 1], ctx) == Step(Fold(items[..k], ctx).value, items[k], ctx)
  {
    assert items[..k + 1][..k] == items[..k];
  }

  /** Once the loop has thrown, the remaining items cannot undo it. */
  lemma {:induction false} FoldErrorSticks(items: seq<CartItem>, ctx: Context, k: nat)
    requires k <= |items| && Fold(items[..k], ctx).Err?
    ensures Fold(items, ctx) == Fold(items[..k], ctx)
    decreases |items| - k
  {
    if k < |items| {
      assert items[..k + 1][..k] == items[..k];
      FoldErrorSticks(items, ctx, k + 1);
    } else {
      assert items[..k] == items;
    }
  }

  // ---------------------------------------------------------------------------
  // Properties of the breakdown
  // ---------------------------------------------------------------------------

  /** The totals of a successful breakdown: every store of a found item appears
      once, with the freight of its first item; the freight total is the sum of
      the stores' freight and the grand total is subtotal plus freight. */
  lemma BreakdownTotals(items: seq<CartItem>, ctx: Context)
    requires CartBreakdown(items, ctx).Ok? && exists i :: 0 <= i < |items| && ValidId(items[i])
    ensures var acc := Fold(items, ctx).value;
      var r := CartBreakdown(items, ctx).value;
      Fold(items, ctx).Ok? && WellFormed(acc)
      && r.numeroDeLojas == |StoresOf(items, ctx)|
      && r.valorTotal == r.subTotalGeral + r.freteTotal
      && r.subTotalGeral == SubtotalSum(acc.order, acc.byStore)
      && r.freteTotal == FreightSum(acc.order, acc.byStore)
      && forall s :: s in acc.byStore ==>
           FirstOfStore(items, ctx, s) < |items|
           && acc.byStore[s].freight == ItemFreight(items[FirstOfStore(items, ctx, s)], ctx)
  {
    FoldWellFormed(items, ctx);
    FoldStoresAgree(items, ctx);
  }

  // ---------------------------------------------------------------------------
  // Subtotals against the priced items
  // ---------------------------------------------------------------------------

  /** Σ `total` over priced lines. */
  function LinesTotal(ps: seq<PricedItem>): real {
    if ps == [] then 0.0 else LinesTotal(ps[..|ps| - 1]) + ps[|ps| - 1].total
  }

  lemma LinesTotalAppend(ps: seq<PricedItem>, p: PricedItem)
    ensures LinesTotal(ps + [p]) == LinesTotal(ps) + p.total
  {
    assert (ps + [p])[..|ps|] == ps;
  }

  /** The lines of the items the lookup finds and prices, in cart order. */
  function PricedLines(items: seq<CartItem>, ctx: Context): seq<PricedItem>
    decreases |items|
  {
    if items == [] then []
    else
      var x := items[|items| - 1];
      PricedLines(items[..|items| - 1], ctx) + (if Known(x, ctx) && PriceItem(x, ctx).Ok? then [PriceItem(x, ctx).value] else [])
  }

  /** The same lines restricted to the products of store `s`. */
  function StoreLines(items: seq<CartItem>, ctx: Context, s: int): seq<PricedItem>
    decreases |items|
  {
    if items == [] then []
    else
      var x := items[|items| - 1];
      StoreLines(items[..|items| - 1], ctx, s)
        + (if Known(x, ctx) && StoreOf(x, ctx) == s && PriceItem(x, ctx).Ok? then [PriceItem(x, ctx).value] else [])
  }

  /** The loop's subtotals are those of the given lines: the grand subtotal over
      `all`, each store's list and subtotal over `perStore(s)`, and a store not
      opened yet has no line. */
  ghost predicate SubtotalsMatch(acc: CartAcc, all: seq<PricedItem>, perStore: int -> seq<PricedItem>) {
    acc.subTotal == LinesTotal(all)
    && (forall s :: s in acc.byStore ==>
          acc.byStore[s].items == perStore(s) && acc.byStore[s].subtotal == LinesTotal(acc.byStore[s].items))
    && (forall s :: s !in acc.byStore ==> perStore(s) == [])
  }

  /** The loop's subtotals are those of the priced lines of `items`. */
  ghost predicate LinesAgree(items: seq<CartItem>, ctx: Context, acc: CartAcc) {
    SubtotalsMatch(acc, PricedLines(items, ctx), s => StoreLines(items, ctx, s))
  }

  lemma LinesAppend(items: seq<CartItem>, x: CartItem, ctx: Context)
    ensures PricedLines(items + [x], ctx)
         == PricedLines(items, ctx) + (if Known(x, ctx) && PriceItem(x, ctx).Ok? then [PriceItem(x, ctx).value] else [])
    ensures forall s ::
      StoreLines(items + [x], ctx, s)
        == StoreLines(items, ctx, s) + (if Known(x, ctx) && StoreOf(x, ctx) == s && PriceItem(x, ctx).Ok? then [PriceItem(x, ctx).value] else [])
  {
    assert (items + [x])[..|items|] == items;
  }

  /** The same lines, however the function that lists them is written. */
  lemma SameLinesMatch(acc: CartAcc, all: seq<PricedItem>, perStore: int -> seq<PricedItem>, perStore': int -> seq<PricedItem>)
    requires SubtotalsMatch(acc, all, perStore)
    requires forall s :: perStore'(s) == perStore(s)
    ensures SubtotalsMatch(acc, all, perStore')
  {
  }

  /** Opening a store with no line yet keeps the subtotals in step. */
  lemma OpenKeepsMatch(acc: CartAcc, all: seq<PricedItem>, perStore: int -> seq<PricedItem>, st: int, freight: real)
    requires SubtotalsMatch(acc, all, perStore) && st !in acc.byStore
    ensures SubtotalsMatch(OpenStore(acc, st, freight), all, perStore)
  {
    var next := OpenStore(acc, st, freight);
    assert perStore(st) == [];
    assert next.byStore[st].items == [] && next.byStore[st].subtotal == LinesTotal([]);
    forall s | s in next.byStore
      ensures next.byStore[s].items == perStore(s) && next.byStore[s].subtotal == LinesTotal(next.byStore[s].items)
    {
      if s != st {
        assert next.byStore[s] == acc.byStore[s];
      }
    }
  }

  /** A line added to an open store keeps the subtotals in step. */
  lemma AddKeepsMatch(acc: CartAcc, all: seq<PricedItem>, perStore: int -> seq<PricedItem>,
                      perStore': int -> seq<PricedItem>, st: int, p: PricedItem)
    requires SubtotalsMatch(acc, all, perStore) && st in acc.byStore
    requires forall s :: perStore'(s) == perStore(s) + (if s == st then [p] else [])
    ensures SubtotalsMatch(AddItem(acc, st, p), all + [p], perStore')
  {
    var before := acc.byStore[st];
    var after := before.(items := before.items + [p], subtotal := before.subtotal + p.total);
    var next := AddItem(acc, st, p);
    assert next.byStore == acc.byStore[st := after];
    assert next.subTotal == acc.subTotal + p.total;
    LinesTotalAppend(all, p);
    LinesTotalAppend(before.items, p);
    assert perStore'(st) == after.items;
    forall s | s in next.byStore
      ensures next.byStore[s].items == perStore'(s) && next.byStore[s].subtotal == LinesTotal(next.byStore[s].items)
    {
      if s != st {
        assert next.byStore[s] == acc.byStore[s] && perStore'(s) == perStore(s);
      }
    }
    forall s | s !in next.byStore ensures perStore'(s) == [] {
      assert s !in acc.byStore && perStore'(s) == perStore(s);
    }
  }

  lemma StepLinesAgree(items: seq<CartItem>, x: CartItem, ctx: Context, acc: CartAcc)
    requires LinesAgree(items, ctx, acc)
    requires Step(acc, x, ctx).Ok?
    ensures LinesAgree(items + [x], ctx, Step(acc, x, ctx).value)
  {
    var ys := items + [x];
    var before: int -> seq<PricedItem> := s => StoreLines(items, ctx, s);
    var after: int -> seq<PricedItem> := s => StoreLines(ys, ctx, s);
    LinesAppend(items, x, ctx);
    if Known(x, ctx) {
      var p := PriceItem(x, ctx).value;
      var st := StoreOf(x, ctx);
      var withStore := acc;
      if st !in acc.byStore {
        withStore := OpenStore(acc, st, ItemFreight(x, ctx));
        OpenKeepsMatch(acc, PricedLines(items, ctx), before, st, ItemFreight(x, ctx));
      }
      AddKeepsMatch(withStore, PricedLines(items, ctx), before, after, st, p);
      assert Step(acc, x, ctx).value == AddItem(withStore, st, p);
    } else {
      assert PricedLines(ys, ctx) == PricedLines(items, ctx);
      assert Step(acc, x, ctx).value == acc;
      SameLinesMatch(acc, PricedLines(items, ctx), before, after);
    }
  }

  lemma {:induction false} FoldLinesAgree(items: seq<CartItem>, ctx: Context)
    ensures Fold(items, ctx).Ok? ==> LinesAgree(items, ctx, Fold(items, ctx).value)
    decreases |items|
  {
    if items != [] {
      var init := items[..|items| - 1];
      var x := items[|items| - 1];
      assert init + [x] == items;
      FoldLinesAgree(init, ctx);
      var whole := Fold(items, ctx);
      if whole.Ok? {
        var before := Fold(init, ctx);
        assert before.Ok? && whole == Step(before.value, x, ctx);
        StepLinesAgree(init, x, ctx, before.value);
      }
    }
  }

  /** A successful loop priced every item the lookup found. */
  lemma {:induction false} FoldPricesAll(items: seq<CartItem>, ctx: Context)
    ensures Fold(items, ctx).Ok? ==> forall i :: 0 <= i < |items| && Known(items[i], ctx) ==> PriceItem(items[i], ctx).Ok?
    decreases |items|
  {
    if items != [] && Fold(items, ctx).Ok? {
      var init := items[..|items| - 1];
      FoldPricesAll(init, ctx);
      assert Fold(init, ctx).Ok?;
      forall i | 0 <= i < |items| && Known(items[i], ctx) ensures PriceItem(items[i], ctx).Ok? {
        if i < |init| {
          assert items[i] == init[i];
        }
      }
    }
  }

  /** On success every found item was priced; the grand subtotal is the sum of
      the priced lines' totals, and each store of the breakdown holds exactly
      the lines of its own products, in cart order, with their sum as subtotal. */
  lemma BreakdownLines(items: seq<CartItem>, ctx: Context)
    requires CartBreakdown(items, ctx).Ok? && exists i :: 0 <= i < |items| && ValidId(items[i])
    ensures var r := CartBreakdown(items, ctx).value;
      (forall i :: 0 <= i < |items| && Known(items[i], ctx) ==> PriceItem(items[i], ctx).Ok?)
      && r.subTotalGeral == LinesTotal(PricedLines(items, ctx))
      && forall j :: 0 <= j < |r.breakdown| ==>
           r.breakdown[j].store.items == StoreLines(items, ctx, r.breakdown[j].store.storeId)
           && r.breakdown[j].store.subtotal == LinesTotal(r.breakdown[j].store.items)
  {
    FoldWellFormed(items, ctx);
    FoldLinesAgree(items, ctx);
    FoldPricesAll(items, ctx);
    assert Fold(items, ctx).Ok?;
    var acc := Fold(items, ctx).value;
    assert CartBreakdown(items, ctx) == Ok(Finish(acc));
    var r := Finish(acc);
    forall j | 0 <= j < |r.breakdown|
      ensures r.breakdown[j].store.items == StoreLines(items, ctx, r.breakdown[j].store.storeId)
      ensures r.breakdown[j].store.subtotal == LinesTotal(r.breakdown[j].store.items)
    {
      assert r.breakdown[j].store == acc.byStore[acc.order[j]];
      assert acc.byStore[acc.order[j]].storeId == acc.order[j];
    }
  }

  /** Σ `total_with_shipping` over a breakdown. */
  function WithShippingSum(b: seq<StoreTotal>): real {
    if b == [] then 0.0 else WithShippingSum(b[..|b| - 1]) + b[|b| - 1].totalWithShipping
  }

  /** Store by store, the totals with shipping add up to the subtotals plus the freight. */
  lemma {:induction false} WithShippingSumSplits(order: seq<int>, byStore: map<int, StoreCart>, b: seq<StoreTotal>)
    requires forall i :: 0 <= i < |order| ==> order[i] in byStore
    requires |b| == |order|
    requires forall i :: 0 <= i < |b| ==>
      b[i].totalWithShipping == byStore[order[i]].subtotal + byStore[order[i]].freight
    ensures WithShippingSum(b) == SubtotalSum(order, byStore) + FreightSum(order, byStore)
    decreases |order|
  {
    if order != [] {
      var n := |order| - 1;
      WithShippingSumSplits(order[..n], byStore, b[..n]);
    }
  }

  /** The stores' totals with shipping add up to the grand total. */
  lemma BreakdownAddsUp(items: seq<CartItem>, ctx: Context)
    requires CartBreakdown(items, ctx).Ok?
    ensures WithShippingSum(CartBreakdown(items, ctx).value.breakdown) == CartBreakdown(items, ctx).value.valorTotal
  {
    if Fold(items, ctx).Ok? && !(forall i :: 0 <= i < |items| ==> !ValidId(items[i])) {
      var acc := Fold(items, ctx).value;
      FoldWellFormed(items, ctx);
      var r := Finish(acc);
      WithShippingSumSplits(acc.order, acc.byStore, r.breakdown);
    }
  }

  /** With no valid product id the answer is all zeros and an empty breakdown. */
  lemma EmptyCartZero(items: seq<CartItem>, ctx: Context)
    requires forall i :: 0 <= i < |items| ==> !ValidId(items[i])
    ensures CartBreakdown(items, ctx) == Ok(CartSummary(0.0, 0.0, 0.0, 0, []))
  {
  }

  /** The lookup finds an item exactly when the query found its parsed id and
      its raw key is that id's own rendering, `${id}`. */
  lemma KnownNeedsRendering(key: string, quantity: int, unitPrice: Option<real>, options: map<string, string>, ctx: Context)
    ensures var item := ItemOf(key, quantity, unitPrice, options);
      Known(item, ctx) <==> Queried(item, ctx) && key == NatToString(item.productId.value)
  {
    var item := ItemOf(key, quantity, unitPrice, options);
    if Queried(item, ctx) && key == NatToString(item.productId.value) {
      var n: nat := item.productId.value;
      assert item.lookupKey == Some(n);
    }
  }

  /** `"07"` names product 7 in the query but misses `productMap["7"]`: the
      item is skipped and the cart answers all zeros. */
  lemma PaddedKeySkipped(ctx: Context)
    requires 7 in ctx.catalogue
    ensures var item := ItemOf("07", 1, None, map[]);
      Queried(item, ctx) && !Known(item, ctx)
      && CartBreakdown([item], ctx) == Ok(CartSummary(0.0, 0.0, 0.0, 0, []))
  {
    var item := ItemOf("07", 1, None, map[]);
    assert IsDigits("07") && DigitsValue("07") == 7;
    assert item.productId == Some(7);
    assert KeyIndex("07").None?;
    assert [item][..0] == [];
    assert Fold([item], ctx) == Ok(CartAcc(map[], [], {}, 0.0));
  }

  /** An item whose product was not found changes nothing. */
  lemma UnknownItemSkipped(items: seq<CartItem>, x: CartItem, ctx: Context)
    requires !Known(x, ctx)
    ensures Fold(items + [x], ctx) == Fold(items, ctx)
  {
    assert (items + [x])[..|items|] == items;
  }
}
