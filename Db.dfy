/** GameStoreAppDbContext.cs: the tables every service reads and writes. Each
    update is applied to its table at once (no change tracking, no transaction
    boundary), and the identity counters stand for the ids the database
    generates on insert. */
module Db {
  import opened Models

  class StoreDb {
    var games: seq<Game>
    var voiceActors: seq<VoiceActor>
    var publishers: seq<GamePublisher>
    var developers: seq<GameDeveloper>
    var platforms: seq<Platform>
    var ratings: seq<GameRating>
    var voiceActorGames: seq<JoinRow>
    var platformGames: seq<JoinRow>
    var cartLines: seq<CartLine>
    var orders: seq<Order>
    var orderItems: seq<OrderItem>

    // the next identity value of each table with a generated key
    var nextGameId: int
    var nextCartLineId: int
    var nextOrderId: int
    var nextOrderItemId: int

    /** A database with the given lookup tables (filled by the admin screens,
        which are not part of this model) and nothing else. */
    constructor (voiceActors: seq<VoiceActor>, publishers: seq<GamePublisher>,
                 developers: seq<GameDeveloper>, platforms: seq<Platform>, ratings: seq<GameRating>)
      ensures Valid()
      ensures this.voiceActors == voiceActors && this.publishers == publishers
      ensures this.developers == developers && this.platforms == platforms && this.ratings == ratings
      ensures games == [] && voiceActorGames == [] && platformGames == []
      ensures cartLines == [] && orders == [] && orderItems == []
      ensures nextGameId == 1 && nextCartLineId == 1 && nextOrderId == 1 && nextOrderItemId == 1
    {
      this.voiceActors, this.publishers, this.developers := voiceActors, publishers, developers;
      this.platforms, this.ratings := platforms, ratings;
      games, voiceActorGames, platformGames := [], [], [];
      cartLines, orders, orderItems := [], [], [];
      nextGameId, nextCartLineId, nextOrderId, nextOrderItemId := 1, 1, 1, 1;
    }

    /** SaveChanges for the cart-line table: write the staged table and counter. */
    method SaveCartLines(lines: seq<CartLine>, nextLineId: int)
      requires Valid() && CartTableValid(lines, games, nextLineId)
      modifies this`cartLines, this`nextCartLineId
      ensures Valid()
      ensures cartLines == lines && nextCartLineId == nextLineId
    {
      cartLines, nextCartLineId := lines, nextLineId;
    }

    /** SaveChanges for the games table. */
    method SaveGames(gs: seq<Game>, nextId: int)
      requires Valid()
      requires GameTableValid(gs, nextId) && LinesReferenceGames(cartLines, gs)
      requires RowsReferenceGames(voiceActorGames, gs) && RowsReferenceGames(platformGames, gs)
      modifies this`games, this`nextGameId
      ensures Valid()
      ensures games == gs && nextGameId == nextId
    {
      games, nextGameId := gs, nextId;
    }

    /** SaveChanges for the voice actor join table. */
    method SaveVoiceActorGames(rows: seq<JoinRow>)
      requires Valid() && RowsReferenceGames(rows, games)
      modifies this`voiceActorGames
      ensures Valid()
      ensures voiceActorGames == rows
    {
      voiceActorGames := rows;
    }

    /** SaveChanges for the platform join table. */
    method SavePlatformGames(rows: seq<JoinRow>)
      requires Valid() && RowsReferenceGames(rows, games)
      modifies this`platformGames
      ensures Valid()
      ensures platformGames == rows
    {
      platformGames := rows;
    }

    /** SaveChanges for the orders table. */
    method SaveOrders(os: seq<Order>, nextId: int)
      requires Valid() && OrderTablesValid(os, orderItems, nextId, nextOrderItemId)
      modifies this`orders, this`nextOrderId
      ensures Valid()
      ensures orders == os && nextOrderId == nextId
    {
      orders, nextOrderId := os, nextId;
    }

    /** SaveChanges for the order-items table. */
    method SaveOrderItems(items: seq<OrderItem>, nextId: int)
      requires Valid() && OrderTablesValid(orders, items, nextOrderId, nextId)
      modifies this`orderItems, this`nextOrderItemId
      ensures Valid()
      ensures orderItems == items && nextOrderItemId == nextId
    {
      orderItems, nextOrderItemId := items, nextId;
    }

    /** The invariant kept over the tables the core writes: the keys, foreign
        keys and identity counters the database supplies, plus the cart rules
        that only the application keeps (see CartTableValid). */
    ghost predicate Valid()
      reads this
    {
      && GameTableValid(games, nextGameId)
      && CartTableValid(cartLines, games, nextCartLineId)
      && RowsReferenceGames(voiceActorGames, games)
      && RowsReferenceGames(platformGames, games)
      && OrderTablesValid(orders, orderItems, nextOrderId, nextOrderItemId)
    }
  }

  /** Game.Id is a key, below the identity counter. */
  ghost predicate GameTableValid(games: seq<Game>, nextGameId: int) {
    GameIdsUnique(games) && forall g :: g in games ==> g.id < nextGameId
  }

  /** Every line naming a stored game and every id below the identity counter
      (kept by the database), plus at most one line per (cart, game) and
      amounts of at least one: rules the database does not enforce, since a
      line's only key is its id, and that the cart's add and remove keep. */
  ghost predicate CartTableValid(lines: seq<CartLine>, games: seq<Game>, nextLineId: int) {
    && CartKeysUnique(lines)
    && AmountsPositive(lines)
    && LinesReferenceGames(lines, games)
    && (forall l :: l in lines ==> l.id < nextLineId)
  }

  /** Order and order-item ids below their counters, and every item pointing at
      an order id already handed out. */
  ghost predicate OrderTablesValid(orders: seq<Order>, items: seq<OrderItem>, nextOrderId: int, nextItemId: int) {
    && (forall o :: o in orders ==> o.id < nextOrderId)
    && (forall it :: it in items ==> it.id < nextItemId && it.orderId < nextOrderId)
  }
}
