/** The order and delivery lifecycle (`deliveryRoutes.js`,
    `logisticsAndConfirmationRoutes.js`, and the payment step of
    `mercadoPagoRoutes.js`): an order goes Pending Payment → Processing →
    Delivering → Completed; a delivery row goes Requested → Accepted →
    Delivered_Confirmed; confirming a delivery releases the money to the
    seller's (and the delivery person's) `pending_balance`. */
module Delivery {
  import opened Base

  // ---------------------------------------------------------------------------
  // Data
  // ---------------------------------------------------------------------------

  datatype OrderStatus = PendingPayment | Processing | Delivering | Completed | OtherStatus(name: string)

  datatype Method = SellerDelivery | Contracted | Marketplace

  datatype DeliveryStatus = Requested | Accepted | PickedUp | InTransit | DeliveredConfirmed

  /** A row of `orders`; `deliveryMethod` is `None` until the seller picks one. */
  datatype Order = Order(
    buyerId: int, storeId: int, status: OrderStatus,
    deliveryMethod: Option<Method>, deliveryCode: string, totalAmount: real)

  /** A row of `stores`. */
  datatype Store = Store(sellerId: int, contractedPerson: Option<int>)

  /** The row of `deliveries` for an order. */
  datatype DeliveryRow = DeliveryRow(personId: Option<int>, status: DeliveryStatus, deliveryMethod: Method)

  datatype DeliveryError =
    | InvalidMethod       // 400: not one of the three methods
    | Forbidden           // 403
    | WrongStatus         // 400: the order is not in the status the step needs
    | NoContractedPerson  // 400: Contracted with no delivery person on the store
    | NotFound            // 404
    | Busy                // 400: the delivery person already has a delivery

  // ---------------------------------------------------------------------------
  // The status machines
  // ---------------------------------------------------------------------------

  /** The order status moves that the routes make. */
  predicate OrderStep(a: OrderStatus, b: OrderStatus) {
    (a == PendingPayment && b == Processing)
    || (a == Processing && b == Delivering)
    || (a == Delivering && b == Completed)
  }

  function OrderRank(s: OrderStatus): int {
    match s
    case PendingPayment => 0
    case Processing => 1
    case Delivering => 2
    case Completed => 3
    case OtherStatus(_) => -1
  }

  /** Every move goes exactly one place forward: no status is ever revisited
      and `Completed` is final. */
  lemma OrderStepForward(a: OrderStatus, b: OrderStatus)
    requires OrderStep(a, b)
    ensures OrderRank(b) == OrderRank(a) + 1 && 0 <= OrderRank(a) && a != Completed
  {
  }

  /** `['Seller', 'Contracted', 'Marketplace'].includes(method)`. */
  function ParseMethod(text: string): (m: Option<Method>)
    ensures m.Some? <==> text == "Seller" || text == "Contracted" || text == "Marketplace"
    ensures m == Some(SellerDelivery) <==> text == "Seller"
    ensures m == Some(Contracted) <==> text == "Contracted"
    ensures m == Some(Marketplace) <==> text == "Marketplace"
  {
    if text == "Seller" then Some(SellerDelivery)
    else if text == "Contracted" then Some(Contracted)
    else if text == "Marketplace" then Some(Marketplace)
    else None
  }

  /** The delivery row a non-Seller method starts with: accepted straight away
      when a person is already assigned, otherwise waiting to be accepted. */
  function InitialDelivery(m: Method, person: Option<int>): (d: DeliveryRow)
    ensures d.personId == person && d.deliveryMethod == m
    ensures d.status == Accepted <==> person.Some?
    ensures d.status == Requested <==> person.None?
  {
    DeliveryRow(person, if person.Some? then Accepted else Requested, m)
  }

  // ---------------------------------------------------------------------------
  // The payout split
  // ---------------------------------------------------------------------------

  const MarketplaceFeeRate: real := 0.05
  const DeliveryFee: real := 5.0
  /** The fee of `logisticsAndConfirmationRoutes.js`, a single-store setup. */
  const LogisticsFeeRate: real := 0.0

  datatype Payout =
    | NoPayout
    | SellerPayout(sellerCredit: real, fee: real)
    | SplitPayout(person: int, personCredit: real, sellerCredit: real, fee: real)

  /** The credits of `POST /delivery/confirm`: the seller's own or contracted
      delivery pays the seller all but 5%; a marketplace delivery with a person
      pays the person 5.00 and the seller the rest after the 5%; otherwise
      nothing is paid. */
  function ConfirmPayout(m: Option<Method>, person: Option<int>, total: real): (p: Payout)
    ensures m == Some(SellerDelivery) || m == Some(Contracted) ==>
      p == SellerPayout(total - total * MarketplaceFeeRate, total * MarketplaceFeeRate)
    ensures m == Some(Marketplace) && person.Some? ==> p.SplitPayout? && p.person == person.value
    ensures m.None? || (m == Some(Marketplace) && person.None?) ==> p == NoPayout
    ensures p.SellerPayout? ==> p.sellerCredit + p.fee == total
    ensures p.SplitPayout? ==>
      p.personCredit == DeliveryFee && p.fee == total * MarketplaceFeeRate
      && p.personCredit + p.sellerCredit + p.fee == total
  {
    if m == Some(SellerDelivery) || m == Some(Contracted) then
      SellerPayout(total - total * MarketplaceFeeRate, total * MarketplaceFeeRate)
    else if m == Some(Marketplace) && person.Some? then
      SplitPayout(person.value, DeliveryFee, total - total * MarketplaceFeeRate - DeliveryFee, total * MarketplaceFeeRate)
    else NoPayout
  }

  /** `UPDATE users SET pending_balance = pending_balance + ? WHERE id = ?`:
      an unknown user matches no row. */
  function Credit(balances: map<int, real>, userId: int, amount: real): (b: map<int, real>)
    ensures b.Keys == balances.Keys
    ensures userId in balances ==> b[userId] == balances[userId] + amount
    ensures forall u :: u in balances && u != userId ==> b[u] == balances[u]
  {
    if userId in balances then balances[userId := balances[userId] + amount] else balances
  }

  /** The payout applied in the route's order: the person first, then the seller. */
  function ApplyPayout(balances: map<int, real>, sellerId: int, p: Payout): (b: map<int, real>)
    ensures b.Keys == balances.Keys
    ensures forall u :: u in balances && u != sellerId && !(p.SplitPayout? && u == p.person) ==> b[u] == balances[u]
    ensures p.NoPayout? ==> b == balances
    ensures p.SellerPayout? && sellerId in balances ==> b[sellerId] == balances[sellerId] + p.sellerCredit
    ensures p.SplitPayout? && p.person in balances && p.person != sellerId ==>
              b[p.person] == balances[p.person] + p.personCredit
    ensures p.SplitPayout? && sellerId in balances ==>
              b[sellerId] == balances[sellerId] + (if p.person == sellerId then p.personCredit else 0.0) + p.sellerCredit
  {
    match p
    case NoPayout => balances
    case SellerPayout(s, _) => Credit(balances, sellerId, s)
    case SplitPayout(person, c, s, _) => Credit(Credit(balances, person, c), sellerId, s)
  }

  /** What a confirmation pays out, plus the marketplace's fee, is the order's
      total: with the seller and the person both known and different, their
      balances grow by exactly the total less the fee. */
  lemma PayoutConserves(balances: map<int, real>, sellerId: int, m: Option<Method>, person: Option<int>, total: real)
    requires sellerId in balances
    requires person.Some? ==> person.value in balances && person.value != sellerId
    requires m.Some? && (m.value == Marketplace ==> person.Some?)
    ensures var p := ConfirmPayout(m, person, total);
      var b := ApplyPayout(balances, sellerId, p);
      (b[sellerId] - balances[sellerId])
      + (if person.Some? then b[person.value] - balances[person.value] else 0.0)
      + total * MarketplaceFeeRate == total
  {
    var p := ConfirmPayout(m, person, total);
    if p.SplitPayout? {
      var b1 := Credit(balances, person.value, DeliveryFee);
      assert b1[sellerId] == balances[sellerId];
    }
  }

  // ---------------------------------------------------------------------------
  // The tables
  // ---------------------------------------------------------------------------

  /** `orders`, `stores`, `deliveries` (one row per order), the users'
      `pending_balance` and `is_available`. */
  class Logistics {
    var orders: map<int, Order>
    var stores: map<int, Store>
    var deliveries: map<int, DeliveryRow>
    var balances: map<int, real>
    var available: map<int, bool>

    constructor (orders: map<int, Order>, stores: map<int, Store>, deliveries: map<int, DeliveryRow>,
                 balances: map<int, real>, available: map<int, bool>)
      ensures this.orders == orders && this.stores == stores && this.deliveries == deliveries
      ensures this.balances == balances && this.available == available
    {
      this.orders := orders;
      this.stores := stores;
      this.deliveries := deliveries;
      this.balances := balances;
      this.available := available;
    }

    /** The order exists and its store belongs to `sellerId`. */
    predicate OwnedBy(orderId: int, sellerId: int)
      reads this
    {
      orderId in orders && orders[orderId].storeId in stores && stores[orders[orderId].storeId].sellerId == sellerId
    }

    /** `UPDATE users SET is_available = ? WHERE id = ?`. */
    function SetAvailable(userId: int, value: bool): (a: map<int, bool>)
      reads this
      ensures a.Keys == available.Keys
      ensures userId in available ==> a[userId] == value
      ensures forall u :: u in available && u != userId ==> a[u] == available[u]
    {
      if userId in available then available[userId := value] else available
    }

    /** Payment approved (`mercadoPagoRoutes.js`): an order still waiting for
        payment moves to Processing; any other order is left as it is. */
    method PaymentApproved(orderId: int) returns (updated: bool)
      modifies this
      ensures updated <==> orderId in old(orders) && old(orders)[orderId].status == PendingPayment
      ensures updated ==> orders == old(orders)[orderId := old(orders)[orderId].(status := Processing)]
      ensures updated ==> OrderStep(old(orders)[orderId].status, orders[orderId].status)
      ensures !updated ==> orders == old(orders)
      ensures stores == old(stores) && deliveries == old(deliveries)
      ensures balances == old(balances) && available == old(available)
    {
      if orderId in orders && orders[orderId].status == PendingPayment {
        orders := orders[orderId := orders[orderId].(status := Processing)];
        return true;
      }
      return false;
    }

    /** `PUT /delivery/orders/:orderId/delivery-method` by seller `sellerId`. */
    method SetDeliveryMethod(orderId: int, sellerId: int, methodText: string) returns (r: Result<(), DeliveryError>)
      modifies this
      ensures ParseMethod(methodText).None? ==> r == Err(InvalidMethod)
      ensures ParseMethod(methodText).Some? && !old(OwnedBy(orderId, sellerId)) ==> r == Err(Forbidden)
      ensures (ParseMethod(methodText).Some? && old(OwnedBy(orderId, sellerId))
               && old(orders)[orderId].status != Processing) ==> r == Err(WrongStatus)
      ensures r.Ok? <==>
        ParseMethod(methodText).Some? && old(OwnedBy(orderId, sellerId))
        && old(orders)[orderId].status == Processing
        && (ParseMethod(methodText) == Some(Contracted) ==> old(stores)[old(orders)[orderId].storeId].contractedPerson.Some?)
      ensures r.Err? ==> orders == old(orders) && deliveries == old(deliveries) && available == old(available)
      ensures r.Ok? ==>
        var m := ParseMethod(methodText).value;
        var person := if m == Contracted then old(stores)[old(orders)[orderId].storeId].contractedPerson else None;
        orders == old(orders)[orderId := old(orders)[orderId].(status := Delivering, deliveryMethod := Some(m))]
        && OrderStep(old(orders)[orderId].status, orders[orderId].status)
        && (m == SellerDelivery ==> deliveries == old(deliveries) && available == old(available))
        && (m != SellerDelivery ==> deliveries == old(deliveries)[orderId := InitialDelivery(m, person)])
        && (m == Marketplace ==> available == old(available))
        && (m == Contracted ==> available == old(SetAvailable(person.value, false)))
      ensures stores == old(stores) && balances == old(balances)
    {
      var parsed := ParseMethod(methodText);
      if parsed.None? {
        return Err(InvalidMethod);
      }
      var m := parsed.value;
      if !OwnedBy(orderId, sellerId) {
        return Err(Forbidden);
      }
      var order := orders[orderId];
      if order.status != Processing {
        return Err(WrongStatus);
      }
      var person: Option<int> := None;
      if m == Contracted {
        person := stores[order.storeId].contractedPerson;
        if person.None? {
          return Err(NoContractedPerson);
        }
      }
      orders := orders[orderId := order.(status := Delivering, deliveryMethod := Some(m))];
      if m != SellerDelivery {
        deliveries := deliveries[orderId := InitialDelivery(m, person)];
        if m == Contracted {
          available := SetAvailable(person.value, false);
        }
      }
      r := Ok(());
    }

    /** `PUT /delivery/orders/:orderId/dispatch` (`deliveryRoutes.js`): the
        seller's own order in Processing goes out for the seller's own delivery,
        with a fresh delivery row already accepted and nobody assigned. */
    method Dispatch(orderId: int, sellerId: int) returns (r: Result<(), DeliveryError>)
      modifies this
      ensures r.Ok? <==> old(OwnedBy(orderId, sellerId)) && old(orders)[orderId].status == Processing
      ensures r.Err? ==> r.error == NotFound && orders == old(orders) && deliveries == old(deliveries)
      ensures r.Ok? ==>
        orders == old(orders)[orderId := old(orders)[orderId].(status := Delivering, deliveryMethod := Some(SellerDelivery))]
        && OrderStep(old(orders)[orderId].status, orders[orderId].status)
        && deliveries == old(deliveries)[orderId := DeliveryRow(None, Accepted, SellerDelivery)]
      ensures stores == old(stores) && balances == old(balances) && available == old(available)
    {
      if !OwnedBy(orderId, sellerId) || orders[orderId].status != Processing {
        return Err(NotFound);
      }
      orders := orders[orderId := orders[orderId].(status := Delivering, deliveryMethod := Some(SellerDelivery))];
      deliveries := deliveries[orderId := DeliveryRow(None, Accepted, SellerDelivery)];
      r := Ok(());
    }

    /** `PUT /delivery/accept/:orderId` by delivery person `personId`: a busy
        person is refused; only a Requested delivery with nobody assigned can
        be taken, and the person is then busy. */
    method Accept(orderId: int, personId: int) returns (r: Result<(), DeliveryError>)
      modifies this
      ensures personId in old(available) && !old(available)[personId] ==> r == Err(Busy)
      ensures r.Ok? <==>
        !(personId in old(available) && !old(available)[personId])
        && orderId in old(deliveries) && old(deliveries)[orderId].status == Requested
        && old(deliveries)[orderId].personId.None?
      ensures r.Err? ==> deliveries == old(deliveries) && available == old(available)
      ensures r.Ok? ==>
        deliveries == old(deliveries)[orderId := old(deliveries)[orderId].(personId := Some(personId), status := Accepted)]
        && available == old(SetAvailable(personId, false))
      ensures orders == old(orders) && stores == old(stores) && balances == old(balances)
    {
      if personId in available && !available[personId] {
        return Err(Busy);
      }
      if orderId !in deliveries || deliveries[orderId].status != Requested || deliveries[orderId].personId.Some? {
        return Err(NotFound);
      }
      deliveries := deliveries[orderId := deliveries[orderId].(personId := Some(personId), status := Accepted)];
      available := SetAvailable(personId, false);
      r := Ok(());
    }

    /** The order a confirmation names: it exists, is on its way, its code
        matches and its store is known. */
    predicate Confirmable(orderId: int, code: string)
      reads this
    {
      orderId in orders && orders[orderId].deliveryCode == code
      && orders[orderId].status == Delivering && orders[orderId].storeId in stores
    }

    /** The delivery person assigned to an order, if any. */
    function AssignedPerson(orderId: int): (p: Option<int>)
      reads this
      ensures p.Some? <==> orderId in deliveries && deliveries[orderId].personId.Some?
    {
      if orderId in deliveries then deliveries[orderId].personId else None
    }

    /** Both confirmations end the same way: the order is Completed and its
        delivery row, when there is one, Delivered_Confirmed. */
    function CompletedOrders(orderId: int): (o: map<int, Order>)
      reads this
      requires orderId in orders
      ensures o.Keys == orders.Keys && o[orderId].status == Completed
    {
      orders[orderId := orders[orderId].(status := Completed)]
    }

    function ConfirmedDeliveries(orderId: int): (d: map<int, DeliveryRow>)
      reads this
      ensures d.Keys == deliveries.Keys
      ensures orderId in d ==> d[orderId].status == DeliveredConfirmed
    {
      if orderId in deliveries then deliveries[orderId := deliveries[orderId].(status := DeliveredConfirmed)] else deliveries
    }

    /** `POST /delivery/confirm` (`deliveryRoutes.js`) by user `userId`: the
        buyer or the assigned delivery person confirms with the delivery code;
        the balances get the payout split and a marketplace delivery person is
        free again. */
    method Confirm(orderId: int, code: string, userId: int) returns (r: Result<(), DeliveryError>)
      modifies this
      ensures !old(Confirmable(orderId, code)) ==> r == Err(NotFound)
      ensures r.Ok? <==>
        old(Confirmable(orderId, code))
        && (old(orders)[orderId].buyerId == userId || old(AssignedPerson(orderId)) == Some(userId))
      ensures r.Err? ==>
        orders == old(orders) && deliveries == old(deliveries)
        && balances == old(balances) && available == old(available)
      ensures r.Ok? ==>
        var order := old(orders)[orderId];
        var person := old(AssignedPerson(orderId));
        var payout := ConfirmPayout(order.deliveryMethod, person, order.totalAmount);
        orders == old(CompletedOrders(orderId))
        && OrderStep(order.status, orders[orderId].status)
        && deliveries == old(ConfirmedDeliveries(orderId))
        && balances == ApplyPayout(old(balances), old(stores)[order.storeId].sellerId, payout)
        && (payout.SplitPayout? ==> available == old(SetAvailable(payout.person, true)))
        && (!payout.SplitPayout? ==> available == old(available))
      ensures stores == old(stores)
    {
      if !Confirmable(orderId, code) {
        return Err(NotFound);
      }
      var order := orders[orderId];
      var person := AssignedPerson(orderId);
      if order.buyerId != userId && person != Some(userId) {
        return Err(Forbidden);
      }
      var payout := ConfirmPayout(order.deliveryMethod, person, order.totalAmount);
      balances := ApplyPayout(balances, stores[order.storeId].sellerId, payout);
      if payout.SplitPayout? {
        available := SetAvailable(payout.person, true);
      }
      orders := CompletedOrders(orderId);
      deliveries := ConfirmedDeliveries(orderId);
      r := Ok(());
    }

    /** `PUT /orders/:orderId/dispatch` (`logisticsAndConfirmationRoutes.js`):
        as `Dispatch`, but the delivery row is upserted, so a person already on
        it stays. */
    method LogisticsDispatch(orderId: int, sellerId: int) returns (r: Result<(), DeliveryError>)
      modifies this
      ensures r.Ok? <==> old(OwnedBy(orderId, sellerId)) && old(orders)[orderId].status == Processing
      ensures r.Err? ==> r.error == NotFound && orders == old(orders) && deliveries == old(deliveries)
      ensures r.Ok? ==>
        orders == old(orders)[orderId := old(orders)[orderId].(status := Delivering, deliveryMethod := Some(SellerDelivery))]
        && OrderStep(old(orders)[orderId].status, orders[orderId].status)
        && orderId in deliveries
        && deliveries[orderId].status == Accepted && deliveries[orderId].deliveryMethod == SellerDelivery
        && deliveries[orderId].personId == old(AssignedPerson(orderId))
        && (forall o :: o in old(deliveries) && o != orderId ==> o in deliveries && deliveries[o] == old(deliveries)[o])
        && deliveries.Keys == old(deliveries).Keys + {orderId}
      ensures stores == old(stores) && balances == old(balances) && available == old(available)
    {
      if !OwnedBy(orderId, sellerId) || orders[orderId].status != Processing {
        return Err(NotFound);
      }
      orders := orders[orderId := orders[orderId].(status := Delivering, deliveryMethod := Some(SellerDelivery))];
      if orderId in deliveries {
        deliveries := deliveries[orderId := deliveries[orderId].(status := Accepted, deliveryMethod := SellerDelivery)];
      } else {
        deliveries := deliveries[orderId := DeliveryRow(None, Accepted, SellerDelivery)];
      }
      r := Ok(());
    }

    /** `POST /confirm` (`logisticsAndConfirmationRoutes.js`): the buyer, or
        the seller of an own delivery, confirms with the delivery code; the
        seller is credited the whole total, the fee being 0. */
    method LogisticsConfirm(orderId: int, code: string, userId: int) returns (r: Result<(), DeliveryError>)
      modifies this
      ensures !old(Confirmable(orderId, code)) ==> r == Err(NotFound)
      ensures r.Ok? <==>
        old(Confirmable(orderId, code))
        && (old(orders)[orderId].buyerId == userId
            || (old(orders)[orderId].deliveryMethod == Some(SellerDelivery)
                && old(stores)[old(orders)[orderId].storeId].sellerId == userId))
      ensures r.Err? ==> orders == old(orders) && deliveries == old(deliveries) && balances == old(balances)
      ensures r.Ok? ==>
        var order := old(orders)[orderId];
        orders == old(CompletedOrders(orderId))
        && OrderStep(order.status, orders[orderId].status)
        && deliveries == old(ConfirmedDeliveries(orderId))
        && balances == Credit(old(balances), old(stores)[order.storeId].sellerId,
                              order.totalAmount - order.totalAmount * LogisticsFeeRate)
      ensures stores == old(stores) && available == old(available)
    {
      if !Confirmable(orderId, code) {
        return Err(NotFound);
      }
      var order := orders[orderId];
      var sellerId := stores[order.storeId].sellerId;
      var sellerSelfDelivery := order.deliveryMethod == Some(SellerDelivery) && sellerId == userId;
      if !sellerSelfDelivery && order.buyerId != userId {
        return Err(Forbidden);
      }
      balances := Credit(balances, sellerId, order.totalAmount - order.totalAmount * LogisticsFeeRate);
      orders := CompletedOrders(orderId);
      deliveries := ConfirmedDeliveries(orderId);
      r := Ok(());
    }
  }

  /** With a fee of 0 the seller is credited exactly the order's total. */
  lemma LogisticsSellerGetsTotal(balances: map<int, real>, sellerId: int, total: real)
    requires sellerId in balances
    ensures Credit(balances, sellerId, total - total * LogisticsFeeRate)[sellerId] == balances[sellerId] + total
  {
  }
}
