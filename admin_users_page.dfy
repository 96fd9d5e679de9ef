/**
 * The admin user list (app/admin/users/page.tsx). There is no user directory
 * to read, so the page derives one row per distinct `userId` in the order
 * ledger, in order of first appearance (a JavaScript `Map` keeps insertion
 * order), with a placeholder name and e-mail, the number of orders and the
 * amount of the paid ones.
 */
module AdminUsersPage {
  import opened Wrappers
  import opened Types
  import opened JsArray
  import opened Orders
  import opened Auth

  datatype UserRef = UserRef(id: string, name: string, email: string)

  datatype UserRow = UserRow(user: UserRef, orderCount: int, totalSpent: int)

  /** The user shown for an id: the id itself, a fixed name and an e-mail made from the id. */
  function Placeholder(userId: string): UserRef {
    UserRef(userId, "사용자", userId + "@example.com")
  }

  /** The user ids of `orders`, each once, in order of first appearance. */
  function DistinctUserIds(orders: seq<Order>): seq<string> {
    if orders == [] then []
    else
      var d := DistinctUserIds(orders[..|orders| - 1]);
      var u := orders[|orders| - 1].userId;
      if u in d then d else d + [u]
  }

  /** No id is listed twice, and the ids listed are exactly the ids the ledger's orders carry. */
  lemma {:induction false} DistinctUserIdsExact(orders: seq<Order>)
    ensures Distinct(DistinctUserIds(orders))
    ensures forall i :: 0 <= i < |orders| ==> orders[i].userId in DistinctUserIds(orders)
    ensures forall u :: u in DistinctUserIds(orders) ==> exists i :: 0 <= i < |orders| && orders[i].userId == u
  {
    if orders != [] {
      var init := orders[..|orders| - 1];
      DistinctUserIdsExact(init);
      assert forall i :: 0 <= i < |init| ==> init[i] == orders[i];
    }
  }

  /** Ids keep the position their first order gave them. */
  lemma {:induction false} DistinctUserIdsFirstAppearance(orders: seq<Order>, o: Order)
    ensures DistinctUserIds(orders + [o]) ==
      var d := DistinctUserIds(orders); if o.userId in d then d else d + [o.userId]
  {
    assert (orders + [o])[..|orders|] == orders;
  }

  /** The row a user gets: their orders counted, their paid orders summed. */
  function Row(orders: seq<Order>, userId: string): UserRow {
    var mine := UserOrders(orders, userId);
    UserRow(Placeholder(userId), |mine|, Sum(mine, PaidAmount))
  }

  /** The rows for a list of ids, in that order. */
  function RowsFor(orders: seq<Order>, ids: seq<string>): (rows: seq<UserRow>)
    ensures |rows| == |ids|
    ensures forall k :: 0 <= k < |ids| ==> rows[k] == Row(orders, ids[k])
  {
    if ids == [] then [] else RowsFor(orders, ids[..|ids| - 1]) + [Row(orders, ids[|ids| - 1])]
  }

  /** The list the page shows. */
  function UserRows(orders: seq<Order>): seq<UserRow> {
    RowsFor(orders, DistinctUserIds(orders))
  }

  lemma {:induction false} NoOrdersNoRows(orders: seq<Order>, userId: string)
    requires userId !in DistinctUserIds(orders)
    ensures UserOrders(orders, userId) == []
  {
    DistinctUserIdsExact(orders);
    FilterNone(orders, (o: Order) => o.userId == userId);
  }

  /** One more order changes its owner's row only: one more order, and its paid amount. */
  lemma {:induction false} RowSnoc(orders: seq<Order>, o: Order, userId: string)
    ensures Row(orders + [o], userId).user == Row(orders, userId).user
    ensures Row(orders + [o], userId).orderCount == Row(orders, userId).orderCount + if o.userId == userId then 1 else 0
    ensures Row(orders + [o], userId).totalSpent == Row(orders, userId).totalSpent + if o.userId == userId then PaidAmount(o) else 0
  {
    var m0 := UserOrders(orders, userId);
    UserOrdersAppend(orders, o, userId);
    if o.userId == userId {
      SumAppend(m0, [o], PaidAmount);
      SumSingleton(o, PaidAmount);
    }
  }

  function SpentBy(orders: seq<Order>, f: Order -> int): string -> int {
    (u: string) => Sum(UserOrders(orders, u), f)
  }

  lemma {:induction false} SpentBySnoc(orders: seq<Order>, o: Order, f: Order -> int, u: string)
    ensures SpentBy(orders + [o], f)(u) == SpentBy(orders, f)(u) + if u == o.userId then f(o) else 0
  {
    UserOrdersAppend(orders, o, u);
    if u == o.userId {
      SumAppend(UserOrders(orders, u), [o], f);
      SumSingleton(o, f);
    }
  }

  /** The step of the partition for an order whose owner already has a row. */
  lemma {:induction false} PartitionStepKnown(init: seq<Order>, o: Order, f: Order -> int)
    requires o.userId in DistinctUserIds(init)
    ensures Sum(DistinctUserIds(init), SpentBy(init + [o], f)) == Sum(DistinctUserIds(init), SpentBy(init, f)) + f(o)
  {
    var d := DistinctUserIds(init);
    var before, after := SpentBy(init, f), SpentBy(init + [o], f);
    forall u ensures after(u) == before(u) + (if u == o.userId then f(o) else 0) {
      SpentBySnoc(init, o, f, u);
    }
    DistinctUserIdsExact(init);
    SumBump(d, before, after, o.userId, f(o));
  }

  /** The step of the partition for an order whose owner gets a new row at the end. */
  lemma {:induction false} PartitionStepNew(init: seq<Order>, o: Order, f: Order -> int)
    requires o.userId !in DistinctUserIds(init)
    ensures Sum(DistinctUserIds(init) + [o.userId], SpentBy(init + [o], f)) == Sum(DistinctUserIds(init), SpentBy(init, f)) + f(o)
  {
    var d := DistinctUserIds(init);
    var before, after := SpentBy(init, f), SpentBy(init + [o], f);
    forall i | 0 <= i < |d| ensures before(d[i]) == after(d[i]) {
      SpentBySnoc(init, o, f, d[i]);
    }
    SumPointwise(d, before, after);
    NoOrdersNoRows(init, o.userId);
    SpentBySnoc(init, o, f, o.userId);
    SumAppend(d, [o.userId], after);
    SumSingleton(o.userId, after);
  }

  /**
   * Splitting the ledger by user loses and duplicates nothing: summed over the
   * distinct ids, any per-order amount adds up to its total over the ledger.
   */
  lemma {:induction false} PartitionByUser(orders: seq<Order>, f: Order -> int)
    ensures Sum(DistinctUserIds(orders), SpentBy(orders, f)) == Sum(orders, f)
  {
    if orders != [] {
      var init, o := orders[..|orders| - 1], orders[|orders| - 1];
      assert orders == init + [o];
      PartitionByUser(init, f);
      if o.userId in DistinctUserIds(init) {
        PartitionStepKnown(init, o, f);
      } else {
        PartitionStepNew(init, o, f);
      }
    }
  }

  function OrderCount(row: UserRow): int {
    row.orderCount
  }

  function TotalSpent(row: UserRow): int {
    row.totalSpent
  }

  function One(o: Order): int {
    1
  }

  lemma {:induction false} SumOneIsLength(s: seq<Order>)
    ensures Sum(s, One) == |s|
  {
    if s != [] {
      SumOneIsLength(s[..|s| - 1]);
    }
  }

  lemma {:induction false} RowsForSpent(orders: seq<Order>, ids: seq<string>)
    ensures Sum(RowsFor(orders, ids), TotalSpent) == Sum(ids, SpentBy(orders, PaidAmount))
  {
    if ids != [] {
      RowsForSpent(orders, ids[..|ids| - 1]);
    }
  }

  lemma {:induction false} RowsForCount(orders: seq<Order>, ids: seq<string>)
    ensures Sum(RowsFor(orders, ids), OrderCount) == Sum(ids, SpentBy(orders, One))
  {
    if ids != [] {
      RowsForCount(orders, ids[..|ids| - 1]);
      SumOneIsLength(UserOrders(orders, ids[|ids| - 1]));
    }
  }

  /** The rows' order counts add up to the number of orders in the ledger. */
  lemma RowsCountEveryOrder(orders: seq<Order>)
    ensures Sum(UserRows(orders), OrderCount) == |orders|
  {
    RowsForCount(orders, DistinctUserIds(orders));
    PartitionByUser(orders, One);
    SumOneIsLength(orders);
  }

  /** The rows' spending adds up to the paid amounts over the whole ledger. */
  lemma RowsSpendEveryPaidOrder(orders: seq<Order>)
    ensures Sum(UserRows(orders), TotalSpent) == Sum(orders, PaidAmount)
  {
    RowsForSpent(orders, DistinctUserIds(orders));
    PartitionByUser(orders, PaidAmount);
  }

  /** Counting one more order into a map that was right for the orders before it. */
  lemma MapStep(seen: seq<Order>, order: Order, m: map<string, UserRow>, userData: UserRow)
    requires forall u :: u in m ==> m[u] == Row(seen, u)
    requires order.userId in m
    requires userData.user == m[order.userId].user
    requires userData.orderCount == m[order.userId].orderCount + 1
    requires userData.totalSpent == m[order.userId].totalSpent + PaidAmount(order)
    ensures forall u :: u in m[order.userId := userData] ==> m[order.userId := userData][u] == Row(seen + [order], u)
  {
    forall u | u in m ensures m[order.userId := userData][u] == Row(seen + [order], u) {
      RowSnoc(seen, order, u);
      var before, after := Row(seen, u), Row(seen + [order], u);
      assert after.user == before.user;
      if u == order.userId {
        assert userData.orderCount == after.orderCount && userData.totalSpent == after.totalSpent;
      } else {
        assert before.orderCount == after.orderCount && before.totalSpent == after.totalSpent;
      }
    }
  }

  /**
   * The `forEach` over the orders filling the `Map`: the map itself, and its
   * keys in insertion order.
   */
  method BuildUserMap(orders: seq<Order>) returns (keys: seq<string>, userMap: map<string, UserRow>)
    ensures keys == DistinctUserIds(orders)
    ensures forall u :: u in userMap <==> u in keys
    ensures forall u :: u in userMap ==> userMap[u] == Row(orders, u)
  {
    keys := [];
    userMap := map[];
    ghost var seen: seq<Order> := [];
    var i := 0;
    while i < |orders|
      invariant 0 <= i <= |orders| && seen == orders[..i]
      invariant keys == DistinctUserIds(seen)
      invariant forall u :: u in userMap <==> u in keys
      invariant forall u :: u in userMap ==> userMap[u] == Row(seen, u)
    {
      var order := orders[i];
      DistinctUserIdsFirstAppearance(seen, order);
      if order.userId !in userMap {
        NoOrdersNoRows(seen, order.userId);
        userMap := userMap[order.userId := UserRow(Placeholder(order.userId), 0, 0)];
        keys := keys + [order.userId];
      }
      var userData := userMap[order.userId];
      userData := userData.(orderCount := userData.orderCount + 1);
      if order.paymentStatus == Some("paid") {
        userData := userData.(totalSpent := userData.totalSpent + order.totalAmount);
      }
      MapStep(seen, order, userMap, userData);
      userMap := userMap[order.userId := userData];
      PrefixSnoc(orders, i);
      seen := seen + [order];
      i := i + 1;
    }
    assert seen == orders;
  }

  /** The page's `users`: the map's values in insertion order, `Array.from(userMap.values())`. */
  method CollectUsers(orders: seq<Order>) returns (users: seq<UserRow>)
    ensures users == UserRows(orders)
  {
    var keys, userMap := BuildUserMap(orders);
    users := [];
    var j := 0;
    while j < |keys|
      invariant 0 <= j <= |keys|
      invariant users == RowsFor(orders, keys[..j])
    {
      assert keys[..j + 1][..j] == keys[..j];
      users := users + [userMap[keys[j]]];
      j := j + 1;
    }
    assert keys[..j] == keys;
  }

  /** The page: the rows for an administrator, nothing for anyone else. */
  method UsersPage(isAuthenticated: bool, isAdmin: bool, orders: seq<Order>) returns (users: Option<seq<UserRow>>)
    ensures users.None? <==> !AdminView(isAuthenticated, isAdmin)
    ensures users.Some? ==> users.value == UserRows(orders)
  {
    if !AdminView(isAuthenticated, isAdmin) {
      return None;
    }
    var rows := CollectUsers(orders);
    return Some(rows);
  }
}
