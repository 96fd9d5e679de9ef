/**
 * The admin dashboard (app/admin/page.tsx): four figures computed from the
 * order ledger and the catalogue, shown only to an administrator.
 */
module AdminDashboard {
  import opened Wrappers
  import opened Types
  import opened JsArray
  import opened Orders
  import opened Auth

  datatype Stats = Stats(totalOrders: int, totalRevenue: int, totalProducts: int, pendingOrders: int)

  predicate IsPending(order: Order) {
    order.status == Pending
  }

  /** `orders.filter(paid).reduce((sum, o) => sum + o.totalAmount, 0)`. */
  function Revenue(orders: seq<Order>): int {
    Sum(Filter(orders, IsPaid), Amount)
  }

  /** Summing the paid orders is summing every order's paid amount. */
  lemma {:induction false} RevenueIsPaidAmounts(orders: seq<Order>)
    ensures Revenue(orders) == Sum(orders, PaidAmount)
  {
    if orders != [] {
      var init, last := orders[..|orders| - 1], orders[|orders| - 1];
      assert orders == init + [last];
      RevenueIsPaidAmounts(init);
      FilterSnoc(init, last, IsPaid);
      if IsPaid(last) {
        SumAppend(Filter(init, IsPaid), [last], Amount);
        SumSingleton(last, Amount);
      }
    }
  }

  /** While no order is marked paid, and no code here marks one, revenue is zero. */
  lemma {:induction false} RevenueZeroWhileUnpaid(orders: seq<Order>)
    requires forall i :: 0 <= i < |orders| ==> !IsPaid(orders[i])
    ensures Revenue(orders) == 0
  {
    RevenueIsPaidAmounts(orders);
    SumPointwise(orders, PaidAmount, (o: Order) => 0);
    ZeroSum(orders);
  }

  lemma {:induction false} ZeroSum(orders: seq<Order>)
    ensures Sum(orders, (o: Order) => 0) == 0
  {
    if orders != [] {
      ZeroSum(orders[..|orders| - 1]);
    }
  }

  /** `orders.filter(o => o.status === 'pending').length`. */
  function PendingCount(orders: seq<Order>): (n: int)
    ensures 0 <= n <= |orders|
    ensures n == 0 <==> forall i :: 0 <= i < |orders| ==> orders[i].status != Pending
  {
    var pending := Filter(orders, IsPending);
    FilterContents(orders, IsPending);
    assert pending != [] ==> pending[0] in orders && IsPending(pending[0]);
    assert forall i :: 0 <= i < |orders| && IsPending(orders[i]) ==> orders[i] in pending;
    |pending|
  }

  lemma PendingCountEmpty()
    ensures PendingCount([]) == 0
  {
  }

  /** One more order adds one to the pending figure exactly when it is pending. */
  lemma {:induction false} PendingCountSnoc(orders: seq<Order>, order: Order)
    ensures PendingCount(orders + [order]) == PendingCount(orders) + if order.status == Pending then 1 else 0
  {
    FilterSnoc(orders, order, IsPending);
  }

  /** A newly created order is pending, so it adds one to the pending figure. */
  lemma PendingCountAfterCreate(orders: seq<Order>, order: Order)
    requires order.status == Pending
    ensures PendingCount(orders + [order]) == PendingCount(orders) + 1
  {
    PendingCountSnoc(orders, order);
  }

  /** The figures, or None (the page renders nothing) for anyone but an administrator. */
  function Dashboard(isAuthenticated: bool, isAdmin: bool, orders: seq<Order>, products: seq<Product>): (r: Option<Stats>)
    ensures r.None? <==> !AdminView(isAuthenticated, isAdmin)
    ensures r.Some? ==> && r.value.totalOrders == |orders|
                        && r.value.totalProducts == |products|
                        && r.value.totalRevenue == Sum(orders, PaidAmount)
                        && r.value.pendingOrders == PendingCount(orders)
                        && 0 <= r.value.pendingOrders <= r.value.totalOrders
  {
    if !AdminView(isAuthenticated, isAdmin) then None
    else
      RevenueIsPaidAmounts(orders);
      Some(Stats(|orders|, Revenue(orders), |products|, PendingCount(orders)))
  }
}
