/** OrdersService.cs: the order query and the store of a checkout. */
module Orders {
  import opened Collections
  import opened Models
  import opened Db

  /** The role whose members see every order. */
  const AdminRole: string := "admin"

  /** x => x.UserId == userId */
  function OwnedBy(userId: string): Order -> bool {
    (o: Order) => o.userId == userId
  }

  /** GetOrdersByUserIdAndRoleAsync over the order table: everything for the
      literal role "admin", otherwise the requester's own orders, in table order. */
  function OrdersVisibleTo(orders: seq<Order>, userId: string, userRole: string): (r: seq<Order>)
    ensures userRole == AdminRole ==> r == orders
    ensures userRole != AdminRole ==> forall o :: o in r <==> o in orders && o.userId == userId
  {
    if userRole != AdminRole then Where(orders, OwnedBy(userId)) else orders
  }

  /** Whatever the role, the query returns orders of the table in the table's
      order, each as often as it is stored, and a non-admin sees exactly every
      order of their own. */
  lemma OrdersVisibleToOrder(orders: seq<Order>, userId: string, userRole: string, o: Order)
    ensures IsSubsequence(OrdersVisibleTo(orders, userId, userRole), orders)
    ensures multiset(OrdersVisibleTo(orders, userId, userRole))[o] ==
      if userRole == AdminRole || o.userId == userId then multiset(orders)[o] else 0
  {
    if userRole != AdminRole {
      WhereIsSubsequence(orders, OwnedBy(userId));
      WhereMultiplicity(orders, OwnedBy(userId), o);
    } else {
      IsSubsequenceRefl(orders);
    }
  }

  /** The order items StoreOrderAsync creates for the cart lines `items` of the
      order with id orderId: one per line, in line order, with the line's amount
      and game and the game's price at this moment, and consecutive identities
      from firstId. */
  function OrderItemsFor(games: seq<Game>, items: seq<CartLine>, orderId: int, firstId: int): (r: seq<OrderItem>)
    ensures |r| == |items|
    ensures forall k :: 0 <= k < |r| ==>
      r[k] == OrderItem(firstId + k, items[k].amount, PriceOf(games, items[k].gameId), items[k].gameId, orderId)
    decreases |items|
  {
    if items == [] then []
    else
      var last := items[|items| - 1];
      OrderItemsFor(games, items[..|items| - 1], orderId, firstId)
        + [OrderItem(firstId + |items| - 1, last.amount, PriceOf(games, last.gameId), last.gameId, orderId)]
  }

  /** One more cart line adds one order item at the end. */
  lemma StoreStep(games: seq<Game>, items: seq<CartLine>, k: nat, orderId: int, firstId: int)
    requires k < |items|
    ensures OrderItemsFor(games, items[..k + 1], orderId, firstId) ==
      OrderItemsFor(games, items[..k], orderId, firstId)
        + [OrderItem(firstId + k, items[k].amount, PriceOf(games, items[k].gameId), items[k].gameId, orderId)]
  {
    assert items[..k + 1][..k] == items[..k];
  }

  /** x => x.OrderId == orderId: an order's items (Order.OrderItems). */
  function OfOrder(orderId: int): OrderItem -> bool {
    (it: OrderItem) => it.orderId == orderId
  }

  /** When no stored item points at the new order yet, the order's items after
      the store are exactly those built from the cart lines. */
  lemma ItemsOfNewOrder(games: seq<Game>, stored: seq<OrderItem>, items: seq<CartLine>, orderId: int, firstId: int)
    requires forall it :: it in stored ==> it.orderId != orderId
    ensures Where(stored + OrderItemsFor(games, items, orderId, firstId), OfOrder(orderId)) ==
      OrderItemsFor(games, items, orderId, firstId)
  {
    var added := OrderItemsFor(games, items, orderId, firstId);
    WhereAppend(stored, added, OfOrder(orderId));
    WhereNone(stored, OfOrder(orderId));
    WhereAll(added, OfOrder(orderId));
  }

  lemma AppendOrderKeepsValid(orders: seq<Order>, items: seq<OrderItem>, nextOrderId: int, nextItemId: int, o: Order)
    requires OrderTablesValid(orders, items, nextOrderId, nextItemId) && o.id == nextOrderId
    ensures OrderTablesValid(orders + [o], items, nextOrderId + 1, nextItemId)
    ensures forall o' :: o' in orders ==> o'.id != o.id
  {
  }

  /** The items of an order already handed out keep the order tables valid. */
  lemma StoredItemsKeepValid(orders: seq<Order>, stored: seq<OrderItem>, games: seq<Game>, items: seq<CartLine>,
                             orderId: int, firstId: int, nextOrderId: int)
    requires OrderTablesValid(orders, stored, nextOrderId, firstId) && orderId < nextOrderId
    ensures OrderTablesValid(orders, stored + OrderItemsFor(games, items, orderId, firstId), nextOrderId, firstId + |items|)
  {
    var added := OrderItemsFor(games, items, orderId, firstId);
    forall it | it in stored + added ensures it.id < firstId + |items| && it.orderId < nextOrderId {
      if it !in stored {
        var k :| 0 <= k < |added| && added[k] == it;
      }
    }
  }

  /** The foreach loop of StoreOrderAsync: the order items staged for the cart
      lines, which the final save then writes to the table. */
  method BuildOrderItems(games: seq<Game>, items: seq<CartLine>, orderId: int, firstId: int)
    returns (added: seq<OrderItem>)
    ensures added == OrderItemsFor(games, items, orderId, firstId)
  {
    added := [];
    for k := 0 to |items|
      invariant added == OrderItemsFor(games, items[..k], orderId, firstId)
    {
      var item := items[k];
      StoreStep(games, items, k, orderId, firstId);
      added := added + [OrderItem(firstId + k, item.amount, PriceOf(games, item.gameId), item.gameId, orderId)];
    }
    assert items[..|items|] == items;
  }

  class OrdersService {
    const db: StoreDb

    constructor (db: StoreDb)
      ensures this.db == db
    {
      this.db := db;
    }

    /** GetOrdersByUserIdAndRoleAsync. */
    function GetOrdersByUserIdAndRole(userId: string, userRole: string): (r: seq<Order>)
      reads db
      ensures userRole == AdminRole ==> r == db.orders
      ensures forall o :: o in r ==> o in db.orders && (userRole == AdminRole || o.userId == userId)
      ensures userRole != AdminRole ==> forall o :: o in db.orders && o.userId == userId ==> o in r
    {
      OrdersVisibleTo(db.orders, userId, userRole)
    }

    /** StoreOrderAsync: append one order for the user, with the next order id,
        then one order item per cart line, with the price each game has now.
        Nothing already stored changes. */
    method StoreOrder(items: seq<CartLine>, userId: string, email: string) returns (order: Order)
      requires db.Valid()
      requires LinesReferenceGames(items, db.games)
      modifies db`orders, db`orderItems, db`nextOrderId, db`nextOrderItemId
      ensures db.Valid()
      ensures order == Order(old(db.nextOrderId), email, userId)
      ensures forall o :: o in old(db.orders) ==> o.id != order.id
      ensures db.orders == old(db.orders) + [order]
      ensures db.orderItems == old(db.orderItems) + OrderItemsFor(db.games, items, order.id, old(db.nextOrderItemId))
      ensures db.nextOrderId == old(db.nextOrderId) + 1
      ensures db.nextOrderItemId == old(db.nextOrderItemId) + |items|
    {
      order := Order(db.nextOrderId, email, userId);
      AppendOrderKeepsValid(db.orders, db.orderItems, db.nextOrderId, db.nextOrderItemId, order);
      db.SaveOrders(db.orders + [order], db.nextOrderId + 1);
      var added := BuildOrderItems(db.games, items, order.id, db.nextOrderItemId);
      StoredItemsKeepValid(db.orders, db.orderItems, db.games, items, order.id, db.nextOrderItemId, db.nextOrderId);
      db.SaveOrderItems(db.orderItems + added, db.nextOrderItemId + |items|);
    }
  }
}
