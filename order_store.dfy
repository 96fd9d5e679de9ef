/**
 * The order ledger (store/orderStore.ts): a list of orders that grows by
 * `createOrder` and whose entries only ever change status.
 * `Date.now()` is read twice by createOrder, once for the order number and
 * once for the id; both readings, and the ISO creation time, are parameters.
 */
module Orders {
  import opened Wrappers
  import opened Types
  import opened JsArray
  import opened Pricing
  import opened JsString

  /** The order createOrder builds, given the two clock readings and the ISO time. */
  function NewOrder(userId: string, items: seq<CartItem>, shippingAddress: Address,
                    numberClock: nat, idClock: nat, createdAt: string): Order
  {
    Order(
      id := DecimalString(idClock),
      userId := userId,
      items := items,
      totalAmount := GoodsTotal(items),
      shippingAddress := shippingAddress,
      status := Pending,
      createdAt := createdAt,
      orderNumber := "ORD-" + DecimalString(numberClock),
      paymentStatus := None)
  }

  /** `orders.find(order => order.id === orderId)`. */
  function FindOrder(orders: seq<Order>, orderId: string): (r: Option<Order>)
    ensures r.None? <==> forall i :: 0 <= i < |orders| ==> orders[i].id != orderId
    ensures r.Some? ==> exists i :: 0 <= i < |orders| && orders[i] == r.value && r.value.id == orderId
                                    && forall j :: 0 <= j < i ==> orders[j].id != orderId
  {
    Find(orders, (o: Order) => o.id == orderId)
  }

  /** `orders.filter(order => order.userId === userId)`. */
  function UserOrders(orders: seq<Order>, userId: string): (r: seq<Order>)
    ensures forall o :: o in r <==> o in orders && o.userId == userId
  {
    var mine := (o: Order) => o.userId == userId;
    FilterContents(orders, mine);
    Filter(orders, mine)
  }

  /** A user's orders are all of that user's orders, each once, in ledger order. */
  lemma UserOrdersContents(orders: seq<Order>, userId: string)
    ensures forall o :: multiset(UserOrders(orders, userId))[o] == if o.userId == userId then multiset(orders)[o] else 0
    ensures IsSubsequence(UserOrders(orders, userId), orders)
  {
    var mine := (o: Order) => o.userId == userId;
    FilterContents(orders, mine);
    FilterSubsequence(orders, mine);
  }

  lemma {:induction false} UserOrdersAppend(orders: seq<Order>, o: Order, userId: string)
    ensures UserOrders(orders + [o], userId) == UserOrders(orders, userId) + (if o.userId == userId then [o] else [])
  {
    assert (orders + [o])[..|orders|] == orders;
  }

  /** The `map` of updateOrderStatus. */
  function WithStatus(orders: seq<Order>, orderId: string, status: OrderStatus): (r: seq<Order>)
    ensures |r| == |orders|
    ensures forall i :: 0 <= i < |orders| ==> r[i].(status := orders[i].status) == orders[i]
    ensures forall i :: 0 <= i < |orders| ==> r[i].status == if orders[i].id == orderId then status else orders[i].status
  {
    seq(|orders|, i requires 0 <= i < |orders| =>
      if orders[i].id == orderId then orders[i].(status := status) else orders[i])
  }

  /** An id no order carries leaves the list as it was. */
  lemma WithStatusUnknownId(orders: seq<Order>, orderId: string, status: OrderStatus)
    requires forall i :: 0 <= i < |orders| ==> orders[i].id != orderId
    ensures WithStatus(orders, orderId, status) == orders
  {
  }

  /** Any status can be set from any status: there is no transition check. */
  lemma WithStatusReachesAny(orders: seq<Order>, k: nat, status: OrderStatus)
    requires k < |orders|
    ensures WithStatus(orders, orders[k].id, status)[k].status == status
  {
  }

  /** No status change alters an order's amount, items, owner or number. */
  lemma WithStatusKeepsAmounts(orders: seq<Order>, orderId: string, status: OrderStatus)
    ensures var r := WithStatus(orders, orderId, status);
      forall i :: 0 <= i < |orders| ==>
        && r[i].totalAmount == orders[i].totalAmount && r[i].items == orders[i].items
        && r[i].userId == orders[i].userId && r[i].id == orders[i].id
        && r[i].orderNumber == orders[i].orderNumber
  {
    var r := WithStatus(orders, orderId, status);
    forall i | 0 <= i < |orders|
      ensures r[i].totalAmount == orders[i].totalAmount && r[i].items == orders[i].items
      ensures r[i].userId == orders[i].userId && r[i].id == orders[i].id
      ensures r[i].orderNumber == orders[i].orderNumber
    {
      assert r[i].(status := orders[i].status) == orders[i];
    }
  }

  /**
   * The ids come from the clock and nothing checks them for freshness. When
   * every order already stored took its id from an earlier clock reading, an
   * id taken from a later reading is new.
   */
  lemma LaterClockGivesNewId(orders: seq<Order>, clocks: seq<nat>, now: nat)
    requires |clocks| == |orders|
    requires forall i :: 0 <= i < |orders| ==> orders[i].id == DecimalString(clocks[i]) && clocks[i] < now
    ensures forall i :: 0 <= i < |orders| ==> orders[i].id != DecimalString(now)
  {
    forall i | 0 <= i < |orders| ensures orders[i].id != DecimalString(now) {
      DecimalStringInjective(clocks[i], now);
    }
  }

  /**
   * Two orders created within one millisecond share their id, and getOrder
   * then only ever finds the first of them.
   */
  lemma SameMillisecondShadows(orders: seq<Order>, first: Order, second: Order)
    requires first.id == second.id
    requires forall i :: 0 <= i < |orders| ==> orders[i].id != first.id
    ensures FindOrder(orders + [first, second], second.id) == Some(first)
  {
    var all := orders + [first, second];
    assert all[|orders|] == first;
  }

  lemma SameClockSameId(u1: string, i1: seq<CartItem>, a1: Address, u2: string, i2: seq<CartItem>, a2: Address,
                        clock: nat, createdAt: string)
    ensures NewOrder(u1, i1, a1, clock, clock, createdAt).id == NewOrder(u2, i2, a2, clock, clock, createdAt).id
    ensures NewOrder(u1, i1, a1, clock, clock, createdAt).orderNumber == NewOrder(u2, i2, a2, clock, clock, createdAt).orderNumber
  {
  }

  /** The admin pages count an order's amount as revenue when `paymentStatus === 'paid'`. */
  predicate IsPaid(order: Order) {
    order.paymentStatus == Some("paid")
  }

  function Amount(order: Order): int {
    order.totalAmount
  }

  /** The amount an order contributes to revenue: its total when paid, nothing otherwise. */
  function PaidAmount(order: Order): int {
    if IsPaid(order) then order.totalAmount else 0
  }

  /** Orders made by createOrder carry no payment status, so none of them counts as revenue. */
  lemma NewOrderUnpaid(userId: string, items: seq<CartItem>, shippingAddress: Address,
                       numberClock: nat, idClock: nat, createdAt: string)
    ensures !IsPaid(NewOrder(userId, items, shippingAddress, numberClock, idClock, createdAt))
    ensures PaidAmount(NewOrder(userId, items, shippingAddress, numberClock, idClock, createdAt)) == 0
  {
  }

  /** The store: `orders` is the zustand state field; persistence is not modelled. */
  class OrderStore {
    var orders: seq<Order>

    constructor()
      ensures orders == []
    {
      orders := [];
    }

    method CreateOrder(userId: string, items: seq<CartItem>, shippingAddress: Address,
                       numberClock: nat, idClock: nat, createdAt: string) returns (order: Order)
      modifies this
      ensures order.totalAmount == GoodsTotal(items)
      ensures order.userId == userId && order.items == items && order.shippingAddress == shippingAddress
      ensures order.status == Pending && order.paymentStatus == None && order.createdAt == createdAt
      ensures order.id == DecimalString(idClock) && order.orderNumber == "ORD-" + DecimalString(numberClock)
      ensures order == NewOrder(userId, items, shippingAddress, numberClock, idClock, createdAt)
      ensures orders == old(orders) + [order]
    {
      order := NewOrder(userId, items, shippingAddress, numberClock, idClock, createdAt);
      orders := orders + [order];
    }

    function GetOrder(orderId: string): Option<Order>
      reads this
    {
      FindOrder(orders, orderId)
    }

    function GetUserOrders(userId: string): seq<Order>
      reads this
    {
      UserOrders(orders, userId)
    }

    method UpdateOrderStatus(orderId: string, status: OrderStatus)
      modifies this
      ensures orders == WithStatus(old(orders), orderId, status)
      ensures forall i :: 0 <= i < |orders| ==> orders[i].totalAmount == old(orders)[i].totalAmount
    {
      WithStatusKeepsAmounts(orders, orderId, status);
      orders := WithStatus(orders, orderId, status);
    }
  }
}
