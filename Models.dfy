/** The records the store keeps in its tables (GameStoreApp/Models), and the
    lookups and key constraints over those tables that several services share. */
module Models {
  import opened Collections

  /** GameGenre.cs. */
  datatype GameGenre =
    | Sandbox | RTS | Shooter | MOBA | RPG | SimulationSport | ActionAdventure
    | Survival | Horror | Platformer | TurnStrategy | Party | GrandStrategy
    | SocialSimulation | Action | Racing | Simulation | Puzzle | Fighting

  /** Game.cs. The price is in minor currency units, so sums are exact; the
      release date is an abstract day count. The navigation lists to the join
      tables are not fields: the join rows live in their own tables. */
  datatype Game = Game(
    id: int,
    name: string,
    description: string,
    releaseDate: int,
    price: int,
    imageUrl: string,
    genre: GameGenre,
    ratingId: int,
    developerId: int,
    publisherId: int)

  /** ShoppingCartItem.cs: one line of a cart, pointing at its game by id. */
  datatype CartLine = CartLine(id: int, cartId: string, gameId: int, amount: int)

  /** Order.cs, without its navigations (the order's items are the rows of the
      order-item table that carry its id). */
  datatype Order = Order(id: int, email: string, userId: string)

  /** OrderItem.cs: the price is copied from the game when the order is stored. */
  datatype OrderItem = OrderItem(id: int, amount: int, price: int, gameId: int, orderId: int)

  /** VoiceActor_Game.cs and Platform_Game.cs have the same shape: a composite
      key of the other entity's id and the game's id. */
  datatype JoinRow = JoinRow(partId: int, gameId: int)

  datatype VoiceActor = VoiceActor(id: int, pictureUrl: string, fullName: string, bio: string)
  datatype GamePublisher = GamePublisher(id: int, logo: string, name: string, description: string)
  datatype GameDeveloper = GameDeveloper(id: int, logo: string, name: string, description: string)
  datatype GameRating = GameRating(id: int, logo: string, name: string, description: string)
  datatype Platform = Platform(
    id: int,
    name: string,
    description: string,
    releaseDate: int,
    price: int,
    platformDeveloper: string,
    imageUrl: string)

  /** NewGameVM.cs: the form a game is created or edited from. A missing id list
      (null in the form) is None. */
  datatype NewGameVM = NewGameVM(
    id: int,
    name: string,
    description: string,
    releaseDate: int,
    price: int,
    imageUrl: string,
    genre: GameGenre,
    voiceActorIds: Option<seq<int>>,
    platformIds: Option<seq<int>>,
    developerId: int,
    publisherId: int,
    ratingId: int)

  /** FirstOrDefault(x => x.Id == id) over the games table, as a position. */
  function FindGameIndex(games: seq<Game>, id: int): (r: Option<nat>)
    ensures r.Some? ==> r.value < |games| && games[r.value].id == id
    ensures r.Some? ==> forall j :: 0 <= j < r.value ==> games[j].id != id
    ensures r.None? <==> forall j :: 0 <= j < |games| ==> games[j].id != id
  {
    FirstIndex(games, (g: Game) => g.id == id)
  }

  /** FirstOrDefault(x => x.Id == id) over the games table: the first game with
      that id, or None (null). */
  function FindGame(games: seq<Game>, id: int): (r: Option<Game>)
    ensures r.Some? ==> r.value in games && r.value.id == id
    ensures r.None? <==> forall g :: g in games ==> g.id != id
  {
    match FindGameIndex(games, id)
    case None => None
    case Some(i) => Some(games[i])
  }

  /** The current catalogue price of a game, read through the foreign key of a
      cart line. A stored line always names a stored game (LinesReferenceGames);
      the 0 stands for the absent game that a valid table never has. */
  function PriceOf(games: seq<Game>, gameId: int): (r: int) {
    match FindGame(games, gameId)
    case Some(g) => g.price
    case None => 0
  }

  /** On a table with unique ids, the price read through an id is the price of
      the stored game carrying it. */
  lemma PriceOfStored(games: seq<Game>, g: Game)
    requires GameIdsUnique(games) && g in games
    ensures PriceOf(games, g.id) == g.price
  {
    var k :| 0 <= k < |games| && games[k] == g;
    var i := FindGameIndex(games, g.id).value;
    assert games[i].id == games[k].id;
  }

  /** Game.Id is the primary key of the games table. */
  ghost predicate GameIdsUnique(games: seq<Game>) {
    forall i, j :: 0 <= i < j < |games| ==> games[i].id != games[j].id
  }

  /** At most one line per (cart id, game id). */
  ghost predicate CartKeysUnique(lines: seq<CartLine>) {
    forall i, j :: 0 <= i < j < |lines| ==>
      lines[i].cartId != lines[j].cartId || lines[i].gameId != lines[j].gameId
  }

  /** Every stored line holds at least one unit. */
  ghost predicate AmountsPositive(lines: seq<CartLine>) {
    forall l :: l in lines ==> l.amount >= 1
  }

  /** The foreign key from ShoppingCartItem.Game onto the games table. */
  ghost predicate LinesReferenceGames(lines: seq<CartLine>, games: seq<Game>) {
    forall l :: l in lines ==> FindGame(games, l.gameId).Some?
  }

  /** The foreign key from VoiceActor_Game.Game and Platform_Game.Game onto
      the games table. */
  ghost predicate RowsReferenceGames(rows: seq<JoinRow>, games: seq<Game>) {
    forall r :: r in rows ==> FindGame(games, r.gameId).Some?
  }
}
