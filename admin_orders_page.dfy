/**
 * The admin order list (app/admin/orders/page.tsx): a status filter taken
 * from the URL, the status labels, and the per-order status select, which
 * hands the choice straight to the order store.
 */
module AdminOrdersPage {
  import opened Wrappers
  import opened Types
  import opened JsArray
  import opened Orders

  const AllStatuses: string := "all"

  /** `searchParams.get('status') || 'all'`: a missing or empty parameter means every status. */
  function InitialFilter(param: Option<string>): (f: string)
    ensures param.Some? && param.value != "" ==> f == param.value
    ensures param.None? || param.value == "" ==> f == AllStatuses
  {
    if param.Some? && param.value != "" then param.value else AllStatuses
  }

  function HasStatus(filterStatus: string): Order -> bool {
    (o: Order) => StatusName(o.status) == filterStatus
  }

  /** `filteredOrders`: every order for 'all', otherwise the orders whose status is spelled `filterStatus`. */
  function FilterOrders(orders: seq<Order>, filterStatus: string): (r: seq<Order>)
    ensures filterStatus == AllStatuses ==> r == orders
    ensures filterStatus != AllStatuses ==> forall o :: o in r <==> o in orders && StatusName(o.status) == filterStatus
    ensures IsSubsequence(r, orders)
  {
    SubsequenceReflexive(orders);
    FilterContents(orders, HasStatus(filterStatus));
    FilterSubsequence(orders, HasStatus(filterStatus));
    if filterStatus == AllStatuses then orders else Filter(orders, HasStatus(filterStatus))
  }

  /** A `status` parameter that names no status (say `?status=paid`) lists no order at all. */
  lemma UnknownFilterListsNothing(orders: seq<Order>, filterStatus: string)
    requires filterStatus != AllStatuses
    requires forall s: OrderStatus :: StatusName(s) != filterStatus
    ensures FilterOrders(orders, filterStatus) == []
  {
    FilterNone(orders, HasStatus(filterStatus));
  }

  function StatusCount(orders: seq<Order>, s: OrderStatus): int {
    |FilterOrders(orders, StatusName(s))|
  }

  lemma {:induction false} StatusCountSnoc(orders: seq<Order>, o: Order, s: OrderStatus)
    ensures StatusCount(orders + [o], s) == StatusCount(orders, s) + if o.status == s then 1 else 0
  {
    FilterSnoc(orders, o, HasStatus(StatusName(s)));
    StatusNameInjective(o.status, s);
  }

  /** The five status filters together list every order exactly once. */
  lemma {:induction false} StatusFiltersPartition(orders: seq<Order>)
    ensures StatusCount(orders, Pending) + StatusCount(orders, Confirmed) + StatusCount(orders, Shipping)
          + StatusCount(orders, Delivered) + StatusCount(orders, Cancelled) == |orders|
  {
    if orders != [] {
      var init, last := orders[..|orders| - 1], orders[|orders| - 1];
      assert orders == init + [last];
      StatusFiltersPartition(init);
      StatusCountSnoc(init, last, Pending);
      StatusCountSnoc(init, last, Confirmed);
      StatusCountSnoc(init, last, Shipping);
      StatusCountSnoc(init, last, Delivered);
      StatusCountSnoc(init, last, Cancelled);
    }
  }

  /** `getStatusLabel`: the Korean label of a status; any other value is shown as it is. */
  function StatusLabel(status: string): string {
    match status
    case "pending" => "대기중"
    case "confirmed" => "확인됨"
    case "shipping" => "배송중"
    case "delivered" => "배송완료"
    case "cancelled" => "취소됨"
    case _ => status
  }

  /** The five statuses get five different labels, none of them a status name. */
  lemma StatusLabelsDistinct(a: OrderStatus, b: OrderStatus)
    ensures StatusLabel(StatusName(a)) == StatusLabel(StatusName(b)) <==> a == b
    ensures forall c: OrderStatus :: StatusLabel(StatusName(a)) != StatusName(c)
  {
  }

  /** A value that is no status name is returned unchanged. */
  lemma StatusLabelUnknown(status: string)
    requires forall s: OrderStatus :: StatusName(s) != status
    ensures StatusLabel(status) == status
  {
    assert StatusName(Pending) != status && StatusName(Confirmed) != status && StatusName(Shipping) != status;
    assert StatusName(Delivered) != status && StatusName(Cancelled) != status;
  }

  /** `handleStatusChange`: the select's value goes straight to updateOrderStatus. */
  method HandleStatusChange(store: OrderStore, orderId: string, newStatus: OrderStatus)
    modifies store
    ensures store.orders == WithStatus(old(store.orders), orderId, newStatus)
  {
    store.UpdateOrderStatus(orderId, newStatus);
  }
}
