/** OrdersController.cs: the order list, the cart page, adding and removing a
    game, and checkout, as they act on the cart and order tables. The claims
    of the signed-in user (name identifier, role, e-mail) are parameters. */
module Checkout {
  import opened Collections
  import opened Models
  import opened Db
  import opened Cart
  import opened Orders
  import opened Games

  /** ShoppingCartVM: the cart's items and its total. */
  datatype ShoppingCartView = ShoppingCartView(items: seq<CartLine>, total: int)

  class OrdersController {
    const db: StoreDb
    const gameService: GameService
    const shoppingCart: ShoppingCart
    const ordersService: OrdersService

    constructor (gameService: GameService, shoppingCart: ShoppingCart, ordersService: OrdersService)
      requires gameService.db == shoppingCart.db == ordersService.db
      ensures this.gameService == gameService && this.shoppingCart == shoppingCart
      ensures this.ordersService == ordersService && db == shoppingCart.db
    {
      this.gameService, this.shoppingCart, this.ordersService := gameService, shoppingCart, ordersService;
      db := shoppingCart.db;
    }

    /** The three services share one database, which is valid, as is the cart. */
    ghost predicate Valid()
      reads this, shoppingCart, db
    {
      gameService.db == db && shoppingCart.db == db && ordersService.db == db && shoppingCart.Valid()
    }

    /** Index: the requester's orders, by their own id and role claim. */
    function Index(userId: string, userRole: string): (orders: seq<Order>)
      reads this, db
      requires ordersService.db == db
      ensures userRole == AdminRole ==> orders == db.orders
      ensures forall o :: o in orders ==> o in db.orders && (userRole == AdminRole || o.userId == userId)
      ensures userRole != AdminRole ==> forall o :: o in db.orders && o.userId == userId ==> o in orders
    {
      ordersService.GetOrdersByUserIdAndRole(userId, userRole)
    }

    /** ShoppingCart: the cart's items (memoised by GetCartItems and stored back
        into the memo) with the live total of the cart's stored lines. */
    method ShoppingCart() returns (view: ShoppingCartView)
      requires Valid()
      modifies shoppingCart`shoppingCartItems
      ensures Valid()
      ensures old(shoppingCart.shoppingCartItems).Some? ==> view.items == old(shoppingCart.shoppingCartItems).value
      ensures old(shoppingCart.shoppingCartItems).None? ==> view.items == CartLinesOf(db.cartLines, shoppingCart.shoppingCartId)
      ensures shoppingCart.shoppingCartItems == Some(view.items)
      ensures view.total == CartTotal(db.games, db.cartLines, shoppingCart.shoppingCartId)
    {
      var items := shoppingCart.GetCartItems();
      shoppingCart.shoppingCartItems := Some(items);
      view := ShoppingCartView(items, shoppingCart.GetCartTotal());
    }

    /** AddToShoppingCart(id): one more unit of the game in the cart, or no
        change at all when no game has the id. */
    method AddToShoppingCart(id: int)
      requires Valid()
      modifies db`cartLines, db`nextCartLineId
      ensures Valid()
      ensures FindGame(db.games, id).None? ==> unchanged(db`cartLines, db`nextCartLineId)
      ensures FindGame(db.games, id).Some? ==>
        && db.cartLines == AddLine(old(db.cartLines), shoppingCart.shoppingCartId, id, old(db.nextCartLineId))
        && db.nextCartLineId == NextLineId(old(db.cartLines), shoppingCart.shoppingCartId, id, old(db.nextCartLineId))
    {
      var item := gameService.GetGameById(id);
      if item.Some? {
        shoppingCart.AddItemToCart(item.value.game);
      }
    }

    /** RemoveFromShoppingCart(id): one unit fewer of the game in the cart, or
        no change at all when no game has the id. */
    method RemoveFromShoppingCart(id: int)
      requires Valid()
      modifies db`cartLines, db`nextCartLineId
      ensures Valid()
      ensures unchanged(db`nextCartLineId)
      ensures FindGame(db.games, id).None? ==> unchanged(db`cartLines)
      ensures FindGame(db.games, id).Some? ==>
        db.cartLines == RemoveLine(old(db.cartLines), shoppingCart.shoppingCartId, id)
    {
      var item := gameService.GetGameById(id);
      if item.Some? {
        shoppingCart.RemoveItemFromCart(item.value.game);
      }
    }

    /** CompleteOrder: store an order of the cart's items for the requester,
        then clear the cart. Afterwards the cart has no stored lines and its
        memo is the empty list. */
    method CompleteOrder(userId: string, userEmailAddress: string) returns (order: Order)
      requires Valid()
      modifies db`orders, db`orderItems, db`nextOrderId, db`nextOrderItemId
      modifies db`cartLines, db`nextCartLineId, shoppingCart`shoppingCartItems
      ensures Valid()
      ensures order == Order(old(db.nextOrderId), userEmailAddress, userId)
      ensures db.orders == old(db.orders) + [order]
      ensures var items := if old(shoppingCart.shoppingCartItems).Some? then old(shoppingCart.shoppingCartItems).value
                           else CartLinesOf(old(db.cartLines), shoppingCart.shoppingCartId);
        db.orderItems == old(db.orderItems) + OrderItemsFor(db.games, items, order.id, old(db.nextOrderItemId))
      ensures CartLinesOf(db.cartLines, shoppingCart.shoppingCartId) == []
      ensures db.cartLines == WithoutCart(old(db.cartLines), shoppingCart.shoppingCartId)
      ensures shoppingCart.shoppingCartItems == Some([])
    {
      var items := shoppingCart.GetCartItems();
      order := ordersService.StoreOrder(items, userId, userEmailAddress);
      shoppingCart.ClearShoppingCart();
      ClearEffect(db.games, old(db.cartLines), shoppingCart.shoppingCartId, shoppingCart.shoppingCartId);
    }
  }
}
