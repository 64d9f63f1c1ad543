/** The checkout (`orderCreationRoutes.js`): `calculateDynamicTotal`, which
    prices the items again and charges each store's freight, and the item loop
    of `createOrderAndCodes`, which validates the items and takes them out of
    stock, all or nothing. */
module OrderCreation {
  import opened Base
  import opened Shipping

  /** The columns the total reads from a product and its store; a `NULL` price is 0. */
  datatype CheckoutProduct = CheckoutProduct(price: real, shipping: ShippingField, storeId: int, storeCity: int)

  /** One item of the request: `productId` is `parseInt(product_id)` (`None` for
      `NaN`); `quantity` is `parseInt(quantity || qty || 0)`; the two prices are
      the item's `unit_price` and `product_price` read by `parseFloat`, `None`
      when the raw value is falsy. A price sent as the text `"0"` or `"0.00"` is
      truthy, so it is `Some(0.0)`; a number 0 is falsy, so it is `None`. */
  datatype CheckoutItem = CheckoutItem(productId: Option<int>, quantity: int, unitPrice: Option<real>, productPrice: Option<real>)

  datatype Context = Context(catalogue: map<int, CheckoutProduct>, buyerCity: Option<int>, buyerDistrict: Option<int>)

  datatype Totals = Totals(valorTotal: real, freteTotal: real, subTotalProdutos: real, numeroDeLojas: nat)

  datatype TotalError = NoValidItems | NoProductsFound

  predicate ValidId(item: CheckoutItem) {
    item.productId.Some? && item.productId.value > 0
  }

  /** An item the loop counts: its product was found and its quantity is not 0. */
  predicate Counted(item: CheckoutItem, ctx: Context) {
    ValidId(item) && item.productId.value in ctx.catalogue && item.quantity != 0
  }

  function InfoOf(item: CheckoutItem, ctx: Context): CheckoutProduct
    requires Counted(item, ctx)
  {
    ctx.catalogue[item.productId.value]
  }

  function StoreOf(item: CheckoutItem, ctx: Context): int
    requires Counted(item, ctx)
  {
    InfoOf(item, ctx).storeId
  }

  /** `parseFloat(unit_price || product_price || price || 0)`: the first
      truthy raw value, read as a number. */
  function UnitPrice(item: CheckoutItem, info: CheckoutProduct): (r: real)
    ensures item.unitPrice.Some? ==> r == item.unitPrice.value
    ensures item.unitPrice.None? && item.productPrice.Some? ==> r == item.productPrice.value
    ensures item.unitPrice.None? && item.productPrice.None? ==> r == info.price
  {
    match (item.unitPrice, item.productPrice)
    case (Some(u), _) => u
    case (None, Some(p)) => p
    case (None, None) => info.price
  }

  /** A `unit_price` sent as the text `"0"` is kept: the item costs nothing,
      whatever its `product_price` or catalogue price say. */
  lemma ZeroTextPriceKept(item: CheckoutItem, info: CheckoutProduct)
    requires item.unitPrice == Some(0.0)
    ensures UnitPrice(item, info) == 0.0
  {
  }

  function LineTotal(item: CheckoutItem, ctx: Context): real
    requires Counted(item, ctx)
  {
    UnitPrice(item, InfoOf(item, ctx)) * item.quantity as real
  }

  function ItemFreight(item: CheckoutItem, ctx: Context): real
    requires Counted(item, ctx)
  {
    var info := InfoOf(item, ctx);
    Freight(info.shipping, info.storeCity, ctx.buyerCity, ctx.buyerDistrict)
  }

  // ---------------------------------------------------------------------------
  // The loop, as a fold
  // ---------------------------------------------------------------------------

  /** `subTotalProdutos`, `lojasUnicas`, `storeFreteCosts` and the order of its keys. */
  datatype TotalAcc = TotalAcc(subTotal: real, stores: set<int>, freight: map<int, real>, order: seq<int>)

  /** The item's subtotal and store recorded, before the freight check. */
  function Count(acc: TotalAcc, item: CheckoutItem, ctx: Context): TotalAcc
    requires Counted(item, ctx)
  {
    acc.(subTotal := acc.subTotal + LineTotal(item, ctx), stores := acc.stores + {StoreOf(item, ctx)})
  }

  /** `storeFreteCosts[storeId] = freteCost`, keeping the key order of the dictionary. */
  function Record(acc: TotalAcc, s: int, cost: real): TotalAcc {
    acc.(freight := acc.freight[s := cost], order := if s in acc.freight then acc.order else acc.order + [s])
  }

  /** One pass with the freight decided only when the store has none yet: the
      rule the cart applies, and the one the checkout evidently intends. */
  function Step(acc: TotalAcc, item: CheckoutItem, ctx: Context): TotalAcc {
    if !Counted(item, ctx) then acc
    else
      var counted := Count(acc, item, ctx);
      var s := StoreOf(item, ctx);
      if s in acc.freight then counted else Record(counted, s, ItemFreight(item, ctx))
  }

  /** One pass as written: `if (!storeFreteCosts[storeId])` also re-decides a
      recorded freight of 0, from the current item's product. */
  function StepAsWritten(acc: TotalAcc, item: CheckoutItem, ctx: Context): TotalAcc {
    if !Counted(item, ctx) then acc
    else
      var counted := Count(acc, item, ctx);
      var s := StoreOf(item, ctx);
      if s in acc.freight && acc.freight[s] != 0.0 then counted else Record(counted, s, ItemFreight(item, ctx))
  }

  const Start: TotalAcc := TotalAcc(0.0, {}, map[], [])

  function Fold(items: seq<CheckoutItem>, ctx: Context): TotalAcc
    decreases |items|
  {
    if items == [] then Start else Step(Fold(items[..|items| - 1], ctx), items[|items| - 1], ctx)
  }

  function FoldAsWritten(items: seq<CheckoutItem>, ctx: Context): TotalAcc
    decreases |items|
  {
    if items == [] then Start else StepAsWritten(FoldAsWritten(items[..|items| - 1], ctx), items[|items| - 1], ctx)
  }

  /** Σ `cost` over `Object.values(storeFreteCosts)`. */
  function FreightSum(order: seq<int>, freight: map<int, real>): real
    requires forall i :: 0 <= i < |order| ==> order[i] in freight
  {
    if order == [] then 0.0 else FreightSum(order[..|order| - 1], freight) + freight[order[|order| - 1]]
  }

  /** The dictionary's keys are exactly the stores counted, each once in the key order. */
  predicate WellFormed(acc: TotalAcc) {
    var ok :=
      (forall i :: 0 <= i < |acc.order| ==> acc.order[i] in acc.freight)
      && (forall s :: s in acc.freight ==> s in acc.order)
      && (forall i, j :: 0 <= i < j < |acc.order| ==> acc.order[i] != acc.order[j])
      && acc.stores == acc.freight.Keys;
    ok
  }

  function Summarise(acc: TotalAcc): (t: Totals)
    requires WellFormed(acc)
    ensures t.valorTotal == t.subTotalProdutos + t.freteTotal
    ensures t.subTotalProdutos == acc.subTotal && t.numeroDeLojas == |acc.stores|
    ensures t.freteTotal == FreightSum(acc.order, acc.freight)
  {
    var frete := FreightSum(acc.order, acc.freight);
    Totals(acc.subTotal + frete, frete, acc.subTotal, |acc.stores|)
  }

  /** `calculateDynamicTotal`, with the freight fixed at each store's first item. */
  function DynamicTotal(items: seq<CheckoutItem>, ctx: Context): Result<Totals, TotalError> {
    if forall i :: 0 <= i < |items| ==> !ValidId(items[i]) then Err(NoValidItems)
    else if forall i :: 0 <= i < |items| ==> !(ValidId(items[i]) && items[i].productId.value in ctx.catalogue) then Err(NoProductsFound)
    else
      FoldWellFormed(items, ctx);
      Ok(Summarise(Fold(items, ctx)))
  }

  // ---------------------------------------------------------------------------
  // What the fold keeps
  // ---------------------------------------------------------------------------

  lemma RecordKeepsWellFormed(acc: TotalAcc, s: int, cost: real)
    requires WellFormed(acc) && s !in acc.freight
    ensures WellFormed(Record(acc, s, cost).(stores := acc.stores + {s}))
  {
    var next := Record(acc, s, cost);
    assert s !in acc.order;
    forall i, j | 0 <= i < j < |next.order| ensures next.order[i] != next.order[j] {
      assert next.order[i] == acc.order[i];
      if j < |acc.order| { assert next.order[j] == acc.order[j]; }
    }
  }

  lemma {:induction false} FoldWellFormed(items: seq<CheckoutItem>, ctx: Context)
    ensures WellFormed(Fold(items, ctx))
    decreases |items|
  {
    if items != [] {
      var init := items[..|items| - 1];
      var item := items[|items| - 1];
      FoldWellFormed(init, ctx);
      var acc := Fold(init, ctx);
      if Counted(item, ctx) && StoreOf(item, ctx) !in acc.freight {
        RecordKeepsWellFormed(acc, StoreOf(item, ctx), ItemFreight(item, ctx));
      }
    }
  }

  /** Σ price × quantity over the counted items. */
  function ItemsSubtotal(items: seq<CheckoutItem>, ctx: Context): real
    decreases |items|
  {
    if items == [] then 0.0
    else
      var last := items[|items| - 1];
      ItemsSubtotal(items[..|items| - 1], ctx) + (if Counted(last, ctx) then LineTotal(last, ctx) else 0.0)
  }

  /** The stores of the counted items. */
  function StoresOf(items: seq<CheckoutItem>, ctx: Context): set<int>
    decreases |items|
  {
    if items == [] then {}
    else
      var last := items[|items| - 1];
      StoresOf(items[..|items| - 1], ctx) + (if Counted(last, ctx) then {StoreOf(last, ctx)} else {})
  }

  /** The position of the first counted item of store `s`, or `|items|`. */
  function FirstOfStore(items: seq<CheckoutItem>, ctx: Context, s: int): (j: nat)
    ensures j <= |items| && (j < |items| ==> Counted(items[j], ctx) && StoreOf(items[j], ctx) == s)
    ensures forall k :: 0 <= k < j ==> !(Counted(items[k], ctx) && StoreOf(items[k], ctx) == s)
  {
    if items == [] then 0
    else if Counted(items[0], ctx) && StoreOf(items[0], ctx) == s then 0
    else 1 + FirstOfStore(items[1..], ctx, s)
  }

  lemma FirstOfStoreAppend(items: seq<CheckoutItem>, x: CheckoutItem, ctx: Context, s: int)
    ensures var j := FirstOfStore(items, ctx, s);
      FirstOfStore(items + [x], ctx, s)
        == if j < |items| then j else if Counted(x, ctx) && StoreOf(x, ctx) == s then |items| else |items| + 1
  {
    var ys := items + [x];
    assert forall i :: 0 <= i < |items| ==> ys[i] == items[i];
    assert ys[|items|] == x;
  }

  /** What the corrected loop computes: the subtotal of the counted items, their
      stores, and for each store the freight of its first counted item. */
  predicate Agrees(items: seq<CheckoutItem>, ctx: Context, acc: TotalAcc) {
    var ok :=
      acc.subTotal == ItemsSubtotal(items, ctx)
      && acc.stores == StoresOf(items, ctx)
      && acc.freight.Keys == StoresOf(items, ctx)
      && forall s :: s in acc.freight ==>
           FirstOfStore(items, ctx, s) < |items|
           && acc.freight[s] == ItemFreight(items[FirstOfStore(items, ctx, s)], ctx);
    ok
  }

  lemma {:induction false} NotInStoresNoFirst(items: seq<CheckoutItem>, ctx: Context, s: int)
    requires s !in StoresOf(items, ctx)
    ensures FirstOfStore(items, ctx, s) == |items|
    decreases |items|
  {
    if items != [] {
      var init := items[..|items| - 1];
      NotInStoresNoFirst(init, ctx, s);
      assert items == init + [items[|items| - 1]];
      FirstOfStoreAppend(init, items[|items| - 1], ctx, s);
    }
  }

  lemma StepAgrees(items: seq<CheckoutItem>, x: CheckoutItem, ctx: Context, acc: TotalAcc)
    requires Agrees(items, ctx, acc)
    ensures Agrees(items + [x], ctx, Step(acc, x, ctx))
  {
    var ys := items + [x];
    var next := Step(acc, x, ctx);
    assert ys[..|items|] == items;
    forall s | s in next.freight
      ensures FirstOfStore(ys, ctx, s) < |ys| && next.freight[s] == ItemFreight(ys[FirstOfStore(ys, ctx, s)], ctx)
    {
      FirstOfStoreAppend(items, x, ctx, s);
      if s in acc.freight {
        assert ys[FirstOfStore(items, ctx, s)] == items[FirstOfStore(items, ctx, s)];
      } else {
        NotInStoresNoFirst(items, ctx, s);
        assert ys[|items|] == x;
      }
    }
  }

  /** The corrected loop charges every counted store once, at the freight of its
      first counted item, and sums price × quantity over the counted items. */
  lemma {:induction false} FoldAgrees(items: seq<CheckoutItem>, ctx: Context)
    ensures Agrees(items, ctx, Fold(items, ctx))
    decreases |items|
  {
    if items != [] {
      var init := items[..|items| - 1];
      FoldAgrees(init, ctx);
      assert items == init + [items[|items| - 1]];
      StepAgrees(init, items[|items| - 1], ctx, Fold(init, ctx));
    }
  }

  /** The totals: `valorTotal` is the subtotal plus the freight of the distinct
      stores, each charged the freight of its first counted item. */
  lemma DynamicTotalMeaning(items: seq<CheckoutItem>, ctx: Context)
    requires DynamicTotal(items, ctx).Ok?
    ensures var t := DynamicTotal(items, ctx).value;
      var acc := Fold(items, ctx);
      WellFormed(acc)
      && t.valorTotal == t.subTotalProdutos + t.freteTotal
      && t.subTotalProdutos == ItemsSubtotal(items, ctx)
      && t.numeroDeLojas == |StoresOf(items, ctx)|
      && t.freteTotal == FreightSum(acc.order, acc.freight)
      && forall s :: s in acc.freight ==>
           FirstOfStore(items, ctx, s) < |items| && acc.freight[s] == ItemFreight(items[FirstOfStore(items, ctx, s)], ctx)
  {
    FoldWellFormed(items, ctx);
    FoldAgrees(items, ctx);
  }

  /** An item with quantity 0 or an unknown product adds neither subtotal nor a store. */
  lemma SkippedItem(items: seq<CheckoutItem>, x: CheckoutItem, ctx: Context)
    requires !Counted(x, ctx)
    ensures Fold(items + [x], ctx) == Fold(items, ctx)
  {
    assert (items + [x])[..|items|] == items;
  }

  // ---------------------------------------------------------------------------
  // The freight check as written
  // ---------------------------------------------------------------------------

  /** As long as no store is charged a freight of 0, the check as written gives the intended totals. */
  lemma {:induction false} AsWrittenAgreesWithoutFreeFreight(items: seq<CheckoutItem>, ctx: Context)
    requires forall i :: 0 <= i < |items| && Counted(items[i], ctx) ==> ItemFreight(items[i], ctx) != 0.0
    ensures FoldAsWritten(items, ctx) == Fold(items, ctx)
    decreases |items|
  {
    if items != [] {
      var init := items[..|items| - 1];
      AsWrittenAgreesWithoutFreeFreight(init, ctx);
      FoldAgrees(init, ctx);
      var acc := Fold(init, ctx);
      var x := items[|items| - 1];
      if Counted(x, ctx) && StoreOf(x, ctx) in acc.freight {
        var j := FirstOfStore(init, ctx, StoreOf(x, ctx));
        assert init[j] == items[j];
      }
    }
  }

  /** A store whose first product ships free and whose second one does not: the
      check as written replaces the recorded 0 with the second product's 7.00,
      while the intended rule (and the cart) keep 0. */
  lemma FreeFreightRecomputed()
    ensures var ctx := Context(map[1 := CheckoutProduct(10.0, Options([ShippingOption(3, None, 0.0)]), 9, 3),
                                   2 := CheckoutProduct(20.0, Options([ShippingOption(3, None, 7.0)]), 9, 3)],
                               Some(3), None);
      var items := [CheckoutItem(Some(1), 1, None, None), CheckoutItem(Some(2), 1, None, None)];
      FoldAsWritten(items, ctx).freight[9] == 7.0 && Fold(items, ctx).freight[9] == 0.0
  {
    var ctx := Context(map[1 := CheckoutProduct(10.0, Options([ShippingOption(3, None, 0.0)]), 9, 3),
                           2 := CheckoutProduct(20.0, Options([ShippingOption(3, None, 7.0)]), 9, 3)],
                       Some(3), None);
    var items := [CheckoutItem(Some(1), 1, None, None), CheckoutItem(Some(2), 1, None, None)];
    assert items[..1] == [items[0]] && items[..1][..0] == [];
    assert FindCityRule([ShippingOption(3, None, 0.0)], 3) == 0;
    assert FindCityRule([ShippingOption(3, None, 7.0)], 3) == 0;
    assert ItemFreight(items[0], ctx) == 0.0;
    assert ItemFreight(items[1], ctx) == 7.0;
  }

  // ---------------------------------------------------------------------------
  // The imperative loop
  // ---------------------------------------------------------------------------

  /** `calculateDynamicTotal`: the loop updates `subTotalProdutos`,
      `lojasUnicas` and `storeFreteCosts`; then the freight is summed. */
  method CalculateDynamicTotal(items: seq<CheckoutItem>, ctx: Context) returns (r: Result<Totals, TotalError>)
    ensures r == DynamicTotal(items, ctx)
  {
    if forall i :: 0 <= i < |items| ==> !ValidId(items[i]) {
      return Err(NoValidItems);
    }
    if forall i :: 0 <= i < |items| ==> !(ValidId(items[i]) && items[i].productId.value in ctx.catalogue) {
      return Err(NoProductsFound);
    }
    var subTotalProdutos := 0.0;
    var lojasUnicas: set<int> := {};
    var storeFreteCosts: map<int, real> := map[];
    var order: seq<int> := [];
    var k := 0;
    while k < |items|
      invariant 0 <= k <= |items|
      invariant Fold(items[..k], ctx) == TotalAcc(subTotalProdutos, lojasUnicas, storeFreteCosts, order)
    {
      assert items[..k + 1][..k] == items[..k];
      var item := items[k];
      if Counted(item, ctx) {
        var storeId := StoreOf(item, ctx);
        subTotalProdutos := subTotalProdutos + UnitPrice(item, InfoOf(item, ctx)) * item.quantity as real;
        lojasUnicas := lojasUnicas + {storeId};
        if storeId !in storeFreteCosts {
          storeFreteCosts := storeFreteCosts[storeId := ItemFreight(item, ctx)];
          order := order + [storeId];
        }
      }
      k := k + 1;
    }
    assert items[..k] == items;
    FoldWellFormed(items, ctx);
    var freteTotal := 0.0;
    var i := 0;
    while i < |order|
      invariant 0 <= i <= |order|
      invariant freteTotal == FreightSum(order[..i], storeFreteCosts)
    {
      assert order[..i + 1][..i] == order[..i];
      freteTotal := freteTotal + storeFreteCosts[order[i]];
      i := i + 1;
    }
    assert order[..i] == order;
    r := Ok(Totals(subTotalProdutos + freteTotal, freteTotal, subTotalProdutos, |lojasUnicas|));
  }

  // ---------------------------------------------------------------------------
  // Stock
  // ---------------------------------------------------------------------------

  /** One item as `createOrderAndCodes` reads it: `parseInt(product_id)`,
      `parseInt(id)` and `parseInt(quantity || qty)`, `None` for `NaN`. */
  datatype OrderLine = OrderLine(productId: Option<int>, altId: Option<int>, quantity: Option<int>)

  datatype StockError = InvalidItem | InsufficientStock(productId: int)

  /** `parseInt(product_id) || parseInt(id)`: a `NaN` or 0 id falls back to `id`. */
  function LineProduct(line: OrderLine): Option<int> {
    if line.productId.Some? && line.productId.value != 0 then line.productId else line.altId
  }

  /** The item check: a product id that is neither `NaN` nor 0, and a quantity of at least 1. */
  predicate ValidLine(line: OrderLine) {
    LineProduct(line).Some? && LineProduct(line).value != 0 && line.quantity.Some? && line.quantity.value >= 1
  }

  /** One conditional decrement (`... WHERE id = ? AND stock_quantity >= ?`); a
      missing product or too little stock is the error that aborts the order. */
  function TakeLine(stock: map<int, int>, line: OrderLine): (r: Result<map<int, int>, StockError>)
    ensures r.Ok? <==> ValidLine(line) && LineProduct(line).value in stock && stock[LineProduct(line).value] >= line.quantity.value
    ensures !ValidLine(line) ==> r == Err(InvalidItem)
    ensures r.Ok? ==>
              r.value.Keys == stock.Keys
              && r.value[LineProduct(line).value] == stock[LineProduct(line).value] - line.quantity.value
              && forall id :: id in stock && id != LineProduct(line).value ==> r.value[id] == stock[id]
  {
    if !ValidLine(line) then Err(InvalidItem)
    else
      var id := LineProduct(line).value;
      if id in stock && stock[id] >= line.quantity.value then Ok(stock[id := stock[id] - line.quantity.value])
      else Err(InsufficientStock(id))
  }

  /** The item loop: every line in turn, stopping at the first error. */
  function TakeAll(stock: map<int, int>, lines: seq<OrderLine>): Result<map<int, int>, StockError>
    decreases |lines|
  {
    if lines == [] then Ok(stock)
    else
      match TakeAll(stock, lines[..|lines| - 1])
      case Err(e) => Err(e)
      case Ok(s) => TakeLine(s, lines[|lines| - 1])
  }

  /** The units of product `id` the lines ask for. */
  function Demand(lines: seq<OrderLine>, id: int): int
    decreases |lines|
  {
    if lines == [] then 0
    else
      var last := lines[|lines| - 1];
      Demand(lines[..|lines| - 1], id) + (if ValidLine(last) && LineProduct(last).value == id then last.quantity.value else 0)
  }

  /** When the whole order goes through, every line was valid, each product lost
      exactly the units asked for, and no stock that was non-negative became negative. */
  lemma {:induction false} TakeAllMeaning(stock: map<int, int>, lines: seq<OrderLine>)
    requires TakeAll(stock, lines).Ok?
    ensures forall i :: 0 <= i < |lines| ==> ValidLine(lines[i])
    ensures var after := TakeAll(stock, lines).value;
      after.Keys == stock.Keys
      && (forall id :: id in stock ==> after[id] == stock[id] - Demand(lines, id))
      && (forall id :: id in stock && stock[id] >= 0 ==> after[id] >= 0)
    decreases |lines|
  {
    if lines != [] {
      var init := lines[..|lines| - 1];
      TakeAllMeaning(stock, init);
      assert forall i :: 0 <= i < |init| ==> lines[i] == init[i];
    }
  }

  /** The order's stock: a product id to `stock_quantity` table. */
  class Inventory {
    var stock: map<int, int>

    constructor (initial: map<int, int>)
      ensures stock == initial
    {
      stock := initial;
    }

    /** The item loop of `createOrderAndCodes` inside the order's transaction:
        on success every line is taken out of stock; on the first error the
        transaction rolls back and the stock is as before. */
    method PlaceLines(lines: seq<OrderLine>) returns (r: Result<(), StockError>)
      modifies this
      ensures TakeAll(old(stock), lines).Ok? ==> r.Ok? && stock == TakeAll(old(stock), lines).value
      ensures TakeAll(old(stock), lines).Err? ==> r == Err(TakeAll(old(stock), lines).error) && stock == old(stock)
    {
      var working := stock;
      var k := 0;
      while k < |lines|
        invariant 0 <= k <= |lines|
        invariant TakeAll(stock, lines[..k]) == Ok(working)
      {
        assert lines[..k + 1][..k] == lines[..k];
        var line := lines[k];
        var productId := LineProduct(line);
        if productId.None? || productId.value == 0 || line.quantity.None? || line.quantity.value < 1 {
          TakeAllErrorSticks(stock, lines, k + 1);
          return Err(InvalidItem);
        }
        var id := productId.value;
        if id !in working || working[id] < line.quantity.value {
          TakeAllErrorSticks(stock, lines, k + 1);
          return Err(InsufficientStock(id));
        }
        working := working[id := working[id] - line.quantity.value];
        k := k + 1;
      }
      assert lines[..k] == lines;
      stock := working;
      r := Ok(());
    }
  }

  lemma {:induction false} TakeAllErrorSticks(stock: map<int, int>, lines: seq<OrderLine>, k: nat)
    requires k <= |lines| && TakeAll(stock, lines[..k]).Err?
    ensures TakeAll(stock, lines) == TakeAll(stock, lines[..k])
    decreases |lines| - k
  {
    if k < |lines| {
      assert lines[..k + 1][..k] == lines[..k];
      TakeAllErrorSticks(stock, lines, k + 1);
    } else {
      assert lines[..k] == lines;
    }
  }
}
