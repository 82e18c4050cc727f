# GameStoreApp core, modelled in Dafny

GameStoreApp is an ASP.NET Core MVC web shop for video games. It uses Entity
Framework Core over an SQL database. This project models the parts of it that
hold the store's logic:

- the session shopping cart (`ShoppingCart`): adding and removing one unit of a
  game, reading the cart's lines, its total, and clearing it;
- the order service (`OrdersService`): the order query by user and role, and
  storing a checkout as an order with one order item per cart line;
- the checkout controller (`OrdersController`): the cart page, add, remove,
  and complete order;
- the game service (`GameService`): creating and editing a game together with
  its voice-actor and platform join rows, reading a game by id, and the
  ordered lists of the create/edit form;
- the pager (`Pager`): the page count and the window of at most ten page links;
- the catalog actions `Index` (one page of nine games) and `Filter`
  (case-insensitive search over name and description) of `GameController`.

The database context is the class `Db.StoreDb`. Its fields are the tables, as
sequences in table order, and the identity counters. `StoreDb.Valid` is the
invariant the model keeps over those tables. Part of it comes from the
database: the `Id` keys, the foreign keys to `Game`, and identity counters
above every id handed out. The rest are application rules that only the cart
code keeps (`ShoppingCart.cs:55-74` and `ShoppingCart.cs:87-99`), since the
`ShoppingCartItem` table has `Id` as its only key:

- game ids are unique (database key);
- cart lines and join rows name stored games (database foreign keys);
- every identity value is below its counter (database identity);
- a cart holds at most one line per game, and every amount is at least 1
  (application rules, proved by `Cart.AddLinePreservesInvariant` and
  `Cart.RemoveLinePreservesInvariant`).

Each service method keeps `Valid` and states its new tables outright, as
functions of the old ones. The specification functions they use (`Cart.AddLine`,
`Cart.RemoveLine`, `Orders.OrderItemsFor`, `Games.UpdatedGames`,
`Games.JoinRowsFor`, `Pager.NewPager`, `Catalog.Index`, ...) carry the lemmas
that state what the application promises of them.

Modules: `Collections` (LINQ `Where`, `FirstOrDefault` and `OrderBy` on
sequences), `Int32` (C# `int` wrap-around), `Models` (entities and key lookups),
`Db`, `Cart`, `Orders`, `Games`, `Pager`, `Catalog`, `Checkout`.

Things that sit outside the model become parameters:

- the signed-in user's claims (name identifier, role, e-mail);
- the fresh GUID for a new cart id;
- the HTTP session, modelled as a string map.

## Model

| member | source | states |
|---|---|---|
| Int32.Wrap32 | GameStoreApp/Models/Pager.cs:61-62 | the result of an unchecked C# `int` operation: the value itself when it fits in 32 bits, otherwise that value moved by 2^32 into the int range |
| Models.FindGameIndex | GameStoreApp/Data/Services/GameService.cs:137 | `FirstOrDefault(x => x.Id == id)` on the games table: the first position holding the id, or None exactly when no game has it |
| Models.FindGame | GameStoreApp/Data/Services/GameService.cs:94-100 | the game found by id is stored and has that id; None exactly when no stored game has it |
| Db.StoreDb.constructor | GameStoreApp/Data/GameStoreAppDbContext.cs:10-13 | a valid context with the given lookup tables, empty games, cart, order and join tables, and every identity counter at 1 |
| Db.StoreDb.SaveCartLines | GameStoreApp/Data/Cart/ShoppingCart.cs:77-102 | SaveChanges of a staged cart table: it replaces the cart table and its counter, touches nothing else, and keeps the database valid |
| Db.StoreDb.SaveGames | GameStoreApp/Data/Services/GameService.cs:48-154 | SaveChanges of a staged games table: it replaces the games table and its counter, touches nothing else, and keeps the database valid |
| Db.StoreDb.SaveVoiceActorGames | GameStoreApp/Data/Services/GameService.cs:83-181 | SaveChanges of staged voice-actor rows that name stored games: it replaces that join table only |
| Db.StoreDb.SavePlatformGames | GameStoreApp/Data/Services/GameService.cs:83-196 | SaveChanges of staged platform rows that name stored games: it replaces that join table only |
| Db.StoreDb.SaveOrders | GameStoreApp/Data/Services/OrdersService.cs:64 | SaveChanges of the orders table with a valid staged table: it replaces the orders and their counter, and keeps the database valid |
| Db.StoreDb.SaveOrderItems | GameStoreApp/Data/Services/OrdersService.cs:82 | SaveChanges of the order-items table with a valid staged table: it replaces the items and their counter, and keeps the database valid |
| Collections.Where | GameStoreApp/Data/Services/OrdersService.cs:39 | LINQ `Where`: no longer than its input, and holding exactly the input's elements that satisfy the predicate (order and multiplicity: `Collections.WhereIsSubsequence`, `Collections.WhereMultiplicity`) |
| Collections.FirstIndex | GameStoreApp/Data/Cart/ShoppingCart.cs:55 | LINQ `FirstOrDefault` as a position: the first element satisfying the predicate, or None exactly when none does |
| Models.PriceOf | GameStoreApp/Data/Cart/ShoppingCart.cs:118 | `x.Game.Price` read through a line's game id; no contract of its own: stated by `Models.PriceOfStored` |
| Models.PriceOfStored | GameStoreApp/Data/Cart/ShoppingCart.cs:118 | on a table with unique game ids, the price read through a stored game's id is that game's price |
| Cart.AmountOf | GameStoreApp/Data/Cart/ShoppingCart.cs:55 | the map view of the cart table; on a table of positive amounts it is at least 1 exactly when the cart has a line for the game, and 0 otherwise (its behaviour under add and remove: `Cart.AddLineEffect`, `Cart.RemoveLineEffect`) |
| Cart.AddLine | GameStoreApp/Data/Cart/ShoppingCart.cs:55-74 | the cart table after one add; no contract of its own: what it does is stated by `Cart.AddLineEffect` and `Cart.AddLinePreservesInvariant` |
| Cart.NextLineId | GameStoreApp/Data/Cart/ShoppingCart.cs:58-67 | the identity counter after one add; no contract of its own: `Cart.AddLineEffect` states that the appended line takes the old counter, and `Cart.AddLinePreservesInvariant` that ids stay below the new one |
| Cart.RemoveLine | GameStoreApp/Data/Cart/ShoppingCart.cs:87-99 | the cart table after one removal; no contract of its own: what it does is stated by `Cart.RemoveLineEffect` and `Cart.RemoveLinePreservesInvariant` |
| Cart.AddTimes | GameStoreApp/Data/Cart/ShoppingCart.cs:55-74 | n adds of one game in a row; no contract of its own: stated by `Cart.AddTimesAccumulates` |
| Cart.CartLinesOf | GameStoreApp/Data/Cart/ShoppingCart.cs:111 | the cart's lines in table order; no contract of its own: `Collections.Where` states that they are exactly the table's lines carrying the cart id, and `Cart.ClearEffect` what the clear leaves of them |
| Cart.WithoutCart | GameStoreApp/Data/Cart/ShoppingCart.cs:126-128 | the table after RemoveRange of the cart's lines: exactly the lines of other carts (order and invariant: `Cart.ClearEffect`, `Cart.WithoutCartPreservesInvariant`) |
| Cart.CartTotal | GameStoreApp/Data/Cart/ShoppingCart.cs:118 | the sum of price times amount over the cart's lines; no contract of its own: stated by `Cart.CartTotalAfterAdd`, `Cart.CartTotalAfterRemove` and `Cart.ClearEffect` |
| Cart.FindLine | GameStoreApp/Data/Cart/ShoppingCart.cs:55 | the first line of the table for (cart, game), or None exactly when the cart has no line for the game |
| Cart.AddLineEffect | GameStoreApp/Data/Cart/ShoppingCart.cs:55-74 | adding a game with no line appends (next id, cart, game, 1); with a line, that line's amount rises by exactly one and every other line stays; the amount per (cart, game) rises by one for that key and for no other |
| Cart.RemoveLineEffect | GameStoreApp/Data/Cart/ShoppingCart.cs:87-99 | removing with no line changes nothing; an amount above 1 drops by exactly one; a line of amount 1 is deleted; no other key's amount changes |
| Cart.AddLinePreservesInvariant | GameStoreApp/Data/Cart/ShoppingCart.cs:55-74 | adding a stored game keeps the (cart, game) key unique, amounts positive, lines naming stored games, and ids below the counter |
| Cart.RemoveLinePreservesInvariant | GameStoreApp/Data/Cart/ShoppingCart.cs:87-99 | removal keeps that same cart-table invariant |
| Cart.AddLineKeysUnique | GameStoreApp/Data/Cart/ShoppingCart.cs:55-74 | an add never creates a second line for a (cart, game) key |
| Cart.DecrementKeepsValid | GameStoreApp/Data/Cart/ShoppingCart.cs:92-94 | lowering by one the amount of a line whose amount is above 1 leaves the cart table valid: keys still unique, amounts still at least 1, every line still naming a stored game, and ids still below the counter |
| Cart.DeleteKeepsValid | GameStoreApp/Data/Cart/ShoppingCart.cs:95-98 | deleting any one line leaves the cart table valid: keys still unique, amounts still at least 1, every line still naming a stored game, and ids still below the counter |
| Cart.AddTimesAccumulates | GameStoreApp/Data/Cart/ShoppingCart.cs:55-74 | n adds of one stored game to a valid table leave it valid (with the counter at most n higher) and raise the amount of the cart's one line for the game by n (a new line of n when there was none) |
| Cart.AddTimesValid | GameStoreApp/Data/Cart/ShoppingCart.cs:55-74 | n adds of one stored game leave the cart table valid, with every id below the old counter plus n |
| Cart.CartTotalAfterAdd | GameStoreApp/Data/Cart/ShoppingCart.cs:118 | adding a game raises the cart's total by the game's current price |
| Cart.CartTotalAfterRemove | GameStoreApp/Data/Cart/ShoppingCart.cs:118 | removing a game lowers the cart's total by the game's price when the cart holds the game, and leaves it unchanged otherwise |
| Cart.CartTotalAfterDecrement | GameStoreApp/Data/Cart/ShoppingCart.cs:92-94 | one unit fewer on a line lowers its cart's total by that game's price |
| Cart.CartTotalAfterDelete | GameStoreApp/Data/Cart/ShoppingCart.cs:95-98 | deleting a line of amount 1 lowers its cart's total by that game's price |
| Cart.ClearEffect | GameStoreApp/Data/Cart/ShoppingCart.cs:126-132 | after the clear, this cart has no lines and a total of 0; every other cart keeps its lines in order |
| Cart.WithoutCartPreservesInvariant | GameStoreApp/Data/Cart/ShoppingCart.cs:126-130 | RemoveRange of one cart's lines keeps the cart-table invariant and adds no line |
| Cart.StageAdd | GameStoreApp/Data/Cart/ShoppingCart.cs:55-74 | the tracked change of an add before SaveChanges is AddLine, and the counter moves as NextLineId says |
| Cart.StageRemove | GameStoreApp/Data/Cart/ShoppingCart.cs:87-99 | the tracked change of a removal before SaveChanges is RemoveLine |
| Cart.Session.constructor | GameStoreApp/Data/Cart/ShoppingCart.cs:34 | a session holding the given strings |
| Cart.ShoppingCart.constructor | GameStoreApp/Data/Cart/ShoppingCart.cs:20-24 | a cart on the given context, with the given cart id and nothing memoised |
| Cart.ShoppingCart.GetShoppingCart | GameStoreApp/Data/Cart/ShoppingCart.cs:31-46 | the cart id is the session's "CartId" when it has one, otherwise the fresh GUID; the session then holds that id; the new cart has no memo and is valid on a valid database |
| Cart.ShoppingCart.AddItemToCart | GameStoreApp/Data/Cart/ShoppingCart.cs:52-78 | the cart table becomes AddLine of the old one and the line counter NextLineId; the database stays valid |
| Cart.ShoppingCart.RemoveItemFromCart | GameStoreApp/Data/Cart/ShoppingCart.cs:84-103 | the cart table becomes RemoveLine of the old one, the counter is unchanged, and the database stays valid |
| Cart.ShoppingCart.GetCartItems | GameStoreApp/Data/Cart/ShoppingCart.cs:109-112 | the memoised list when there is one, otherwise this cart's stored lines in table order, which are then memoised |
| Cart.ShoppingCart.GetCartTotal | GameStoreApp/Data/Cart/ShoppingCart.cs:118 | a cart with no stored lines totals 0 (the add, remove and clear lemmas above state how the total moves) |
| Cart.ShoppingCart.ClearShoppingCart | GameStoreApp/Data/Cart/ShoppingCart.cs:124-133 | this cart's lines are deleted from the table, no other line changes, and the memo becomes the empty list |
| Orders.OrdersVisibleTo | GameStoreApp/Data/Services/OrdersService.cs:33-40 | the Admin role sees the whole order table; any other role sees exactly the orders whose user id is the requester's |
| Orders.OrdersVisibleToOrder | GameStoreApp/Data/Services/OrdersService.cs:36-40 | the query keeps table order, and each visible order appears as often as it does in the table |
| Orders.OrderItemsFor | GameStoreApp/Data/Services/OrdersService.cs:66-79 | one order item per cart line, in order, with consecutive ids from the counter, the line's amount and game, the game's current price, and the new order's id |
| Orders.StoreStep | GameStoreApp/Data/Services/OrdersService.cs:68-79 | one more cart line appends one more order item |
| Orders.ItemsOfNewOrder | GameStoreApp/Data/Services/OrdersService.cs:56-82 | the new order's items (Order.OrderItems) are exactly the items built from the cart lines |
| Orders.AppendOrderKeepsValid | GameStoreApp/Data/Services/OrdersService.cs:56-64 | an order with the next id is new to the table and keeps the order tables valid |
| Orders.StoredItemsKeepValid | GameStoreApp/Data/Services/OrdersService.cs:66-82 | the added items keep the order tables valid, with the item counter moved on by the number of lines |
| Orders.BuildOrderItems | GameStoreApp/Data/Services/OrdersService.cs:66-79 | the foreach loop stages exactly OrderItemsFor the cart lines |
| Orders.OrdersService.constructor | GameStoreApp/Data/Services/OrdersService.cs:18-21 | a service on the given context |
| Orders.OrdersService.GetOrdersByUserIdAndRole | GameStoreApp/Data/Services/OrdersService.cs:30-43 | Admin gets the whole table; anyone else gets stored orders of their own only, and all of them |
| Orders.OrdersService.StoreOrder | GameStoreApp/Data/Services/OrdersService.cs:53-83 | one order (next id, e-mail, user id) is appended; its items, OrderItemsFor the lines, follow the old items; both counters move on; the database stays valid |
| Games.GameFromVM | GameStoreApp/Data/Services/GameService.cs:33-44 | the game a form describes, under a given id; no contract of its own: `Games.ApplyVM` and `Games.GameService.AddNewGame` state where it is used |
| Games.UpdatedGames | GameStoreApp/Data/Services/GameService.cs:137-155 | the games table after the edit; no contract of its own: stated by `Games.UpdatedGamesShape` and `Games.UpdatedGamesEffect` |
| Games.SuppliedIds | GameStoreApp/Data/Services/GameService.cs:51 | a null id list supplies no ids; no contract of its own: `Games.GameService.AddNewGame` states that a null and an empty list both add no rows |
| Games.ApplyVM | GameStoreApp/Data/Services/GameService.cs:142-151 | after the field assignments the stored game is the game the form describes, under its own id |
| Games.JoinRowsFor | GameStoreApp/Data/Services/GameService.cs:51-80 | one join row (id, game) per supplied id, in list order |
| Games.JoinRowsStep | GameStoreApp/Data/Services/GameService.cs:54-63 | one more id appends one more row |
| Games.BuildJoinRows | GameStoreApp/Data/Services/GameService.cs:168-197 | a foreach loop stages exactly JoinRowsFor the ids |
| Games.StageJoinRows | GameStoreApp/Data/Services/GameService.cs:51-63 | the `ids?.Count() > 0` guard with its loop stages exactly JoinRowsFor the ids, so none for an empty list |
| Games.ReplaceRowsEffect | GameStoreApp/Data/Services/GameService.cs:157-197 | after RemoveRange and the re-add, the game's rows are exactly those built from the form, and every other game's rows are unchanged |
| Games.NewGameRowsEffect | GameStoreApp/Data/Services/GameService.cs:51-80 | a new game id has no rows yet; after the add it has exactly the rows built from the form, and other games' rows are unchanged |
| Games.UpdatedGamesShape | GameStoreApp/Data/Services/GameService.cs:137-155 | the update keeps the table length and every game's id, changes no other position, and changes nothing when no game has the id |
| Games.UpdatedGamesEffect | GameStoreApp/Data/Services/GameService.cs:137-155 | looked up by id after the update: the form's id finds the game the form describes when it was stored; every other id finds what it found before |
| Games.UpdatedGamesKeepsIds | GameStoreApp/Data/Services/GameService.cs:137-155 | every id that found a game before the update still finds one |
| Games.AppendKeepsIds | GameStoreApp/Data/Services/GameService.cs:47-48 | appending a game keeps every stored id and makes the new one findable |
| Games.ReferencesKept | GameStoreApp/Data/GameStoreAppDbContext.cs:22-30 | foreign keys onto the games table survive any change that keeps every stored id |
| Games.NewRowsReferenceGames | GameStoreApp/Data/GameStoreAppDbContext.cs:22-30 | rows built for a stored game satisfy the join tables' foreign key onto games |
| Games.UpdatedGamesValid | GameStoreApp/Data/Services/GameService.cs:137-155 | the update keeps game ids unique and below the counter |
| Games.AppendGameValid | GameStoreApp/Data/Services/GameService.cs:33-48 | a game under the next identity is new to the table and keeps it valid |
| Games.AppendGameKeepsTables | GameStoreApp/Data/Services/GameService.cs:33-48 | appending a game under the next identity keeps the games table valid and every foreign key onto it, and the new id finds the game |
| Games.UpdatedGamesKeepTables | GameStoreApp/Data/Services/GameService.cs:137-155 | the update keeps the games table valid and every foreign key onto it, and the form's id finds a game afterwards exactly when it did before |
| Games.GameService.constructor | GameStoreApp/Data/Services/GameService.cs:20-23 | a service on the given context |
| Games.GameService.AddNewGame | GameStoreApp/Data/Services/GameService.cs:30-84 | the game built from the form is appended under the next id, which was free; each join table gains exactly the rows for the supplied ids, and none for a missing or empty list; the database stays valid |
| Games.GameService.AddVoiceActorRows | GameStoreApp/Data/Services/GameService.cs:168-182 | for a stored game, the voice-actor join table gains exactly one row per supplied id, and the database stays valid |
| Games.GameService.AddPlatformRows | GameStoreApp/Data/Services/GameService.cs:184-197 | for a stored game, the platform join table gains exactly one row per supplied id, and the database stays valid |
| Games.GameService.RemoveGameRows | GameStoreApp/Data/Services/GameService.cs:157-165 | both join tables lose exactly the game's rows, and the database stays valid |
| Games.GameService.UpdateGameFields | GameStoreApp/Data/Services/GameService.cs:137-155 | the games table becomes UpdatedGames and the counter stays; the result says whether the form's id named a stored game |
| Games.GameService.GetGameById | GameStoreApp/Data/Services/GameService.cs:91-104 | a stored game with the id, with exactly its voice-actor and platform rows; None exactly when no game has the id |
| Games.GameService.GetNewGameDropDownValues | GameStoreApp/Data/Services/GameService.cs:110-127 | each of the five lookup lists is sorted by name (full name for voice actors) and is a permutation of its table |
| Games.GameService.UpdateGame | GameStoreApp/Data/Services/GameService.cs:134-201 | the games table becomes UpdatedGames; each join table loses the game's rows and gains the form's rows when the game is stored; for an unknown id with ids supplied, the save fails on the foreign key and the result is false |
| Pager.CeilDiv | GameStoreApp/Models/Pager.cs:55 | the exact ceiling of a quotient; no contract of its own: stated by `Pager.CeilDivBounds` and `Pager.CeilDivInt32` |
| Pager.Window | GameStoreApp/Models/Pager.cs:61-78 | the window of page links in exact arithmetic; no contract of its own: stated by `Pager.WindowBounds`, `Pager.WindowContainsPage` and `Pager.FirstWindow` |
| Pager.WindowAsWritten | GameStoreApp/Models/Pager.cs:61-78 | the window with every int step wrapped; no contract of its own: stated by `Pager.WindowAsWrittenBounds`, `Pager.WindowAsWrittenAgrees` and `Pager.WindowAsWrittenMissesPage` |
| Pager.CeilDivBounds | GameStoreApp/Models/Pager.cs:55 | Math.Ceiling of items / size is the least number of whole pages covering the items |
| Pager.CeilDivInt32 | GameStoreApp/Models/Pager.cs:55 | the page count fits in an int except for int.MinValue items on pages of size -1 |
| Pager.NewPager | GameStoreApp/Models/Pager.cs:52-88 | the constructor fails exactly on a page size of 0 or an overflowing page count; otherwise it stores the items, the page, the size and the ceiling page count |
| Pager.NewPagerAsWritten | GameStoreApp/Models/Pager.cs:52-88 | the constructor with every int step wrapped; it fails exactly when the exact one does |
| Pager.WindowBounds | GameStoreApp/Models/Pager.cs:61-78 | the window starts at 1 or later, ends at the last page or earlier, and spans at most ten links |
| Pager.WindowContainsPage | GameStoreApp/Models/Pager.cs:61-78 | every page of the list lies in its own window |
| Pager.FirstWindow | GameStoreApp/Models/Pager.cs:61-69 | the first five pages of a list of ten pages or more show links 1 to 10 |
| Pager.WindowAsWrittenBounds | GameStoreApp/Models/Pager.cs:61-78 | the wrapped window keeps its bounds for every int page |
| Pager.WindowAsWrittenAgrees | GameStoreApp/Models/Pager.cs:61-78 | where page - 5 and page + 4 fit in an int, the wrapped window is the exact one |
| Pager.WindowAsWrittenMissesPage | GameStoreApp/Models/Pager.cs:61-62 | for int.MaxValue pages on page int.MaxValue, page + 4 wraps and the page falls outside its own window, while the exact window holds it |
| Pager.NewPagerFields | GameStoreApp/Models/Pager.cs:52-88 | for every successful construction: the window bounds, the page inside its window, the first window, and the page count as the least covering count |
| Pager.NewPagerAsWrittenAgrees | GameStoreApp/Models/Pager.cs:52-88 | the as-written constructor equals the exact one where page - 5 and page + 4 fit in an int |
| Catalog.ClampPage | GameStoreApp/Controllers/GameController.cs:38-39 | the page is at least 1 and keeps any value of 1 or more |
| Catalog.Skip | GameStoreApp/Controllers/GameController.cs:51 | Enumerable.Skip: a count of 0 or less skips nothing; otherwise the suffix after count elements |
| Catalog.Take | GameStoreApp/Controllers/GameController.cs:51 | Enumerable.Take: the prefix of min(count, length) elements, none for a count of 0 or less |
| Catalog.Index | GameStoreApp/Controllers/GameController.cs:31-51 | the pager exists for the game count, the clamped page and size 9; the page shows the games from position (page - 1) * 9 on, at most nine, in catalog order |
| Catalog.IndexAsWritten | GameStoreApp/Controllers/GameController.cs:31-51 | the action with the int-wrapped skip shows at most nine games |
| Catalog.IndexPageInWindow | GameStoreApp/Controllers/GameController.cs:45 | the pager's links start at 1 or later, end at the last page or earlier, span at most ten, and hold the page shown when it is one of the catalog's pages |
| Catalog.IndexAsWrittenAgrees | GameStoreApp/Controllers/GameController.cs:48 | while (page - 1) * 9 fits in an int, the written action is the exact one |
| Catalog.IndexAsWrittenWraps | GameStoreApp/Controllers/GameController.cs:48-51 | on page 238609296 the skip wraps to -2147483641, and the written action shows the first games where the exact one shows none |
| Catalog.Contains | GameStoreApp/Controllers/GameController.cs:215 | `string.Contains` with `OrdinalIgnoreCase`, one start position after another; no contract of its own: stated by `Catalog.ContainsCorrect` |
| Catalog.MatchesSearch | GameStoreApp/Controllers/GameController.cs:215 | the predicate of the filter's `Where`; no contract of its own: stated by `Catalog.MatchesSearchCorrect` |
| Catalog.ContainsCorrect | GameStoreApp/Controllers/GameController.cs:215 | the position-by-position Contains(…, OrdinalIgnoreCase) finds a match exactly when the pattern occurs somewhere up to case |
| Catalog.MatchesSearchCorrect | GameStoreApp/Controllers/GameController.cs:215 | a game matches exactly when its name or its description contains the search up to case |
| Catalog.Filter | GameStoreApp/Controllers/GameController.cs:207-221 | a null or empty search returns the whole catalog; otherwise exactly the games whose name or description contains it up to case |
| Catalog.FilterOrder | GameStoreApp/Controllers/GameController.cs:215 | the filtered list keeps catalog order, and each matching game appears as often as in the catalog |
| Collections.SortBy | GameStoreApp/Data/Services/GameService.cs:116-124 | OrderBy on a string key: a sorted permutation of its input |
| Checkout.OrdersController.constructor | GameStoreApp/Controllers/OrdersController.cs:29-34 | a controller holding the three services |
| Checkout.OrdersController.Index | GameStoreApp/Controllers/OrdersController.cs:45-56 | the requester's orders by their own id and role claims: all orders for Admin, otherwise exactly their own |
| Checkout.OrdersController.ShoppingCart | GameStoreApp/Controllers/OrdersController.cs:67-82 | the view holds GetCartItems' list, which becomes the memo, and the live total of the cart's stored lines |
| Checkout.OrdersController.AddToShoppingCart | GameStoreApp/Controllers/OrdersController.cs:94-108 | an unknown id changes nothing; a stored game gets one more unit in the cart |
| Checkout.OrdersController.RemoveFromShoppingCart | GameStoreApp/Controllers/OrdersController.cs:120-133 | an unknown id changes nothing; a stored game loses one unit from the cart |
| Checkout.OrdersController.CompleteOrder | GameStoreApp/Controllers/OrdersController.cs:146-163 | one order for the requester is appended, with the items of the memo (or of the stored lines when nothing is memoised); afterwards the cart has no stored lines, other carts are untouched, and the memo is empty |

## Findings

| source | as written | input that shows it | evidently intended | confidence | as-written member | corrected member |
|---|---|---|---|---|---|---|
| GameStoreApp/Controllers/GameController.cs:48 | `int recSkip = (pg - 1) * pageSize;` is a 32-bit product that wraps | `Index(pg: 238609296)` on a non-empty catalog: the skip becomes -2147483641, Skip keeps everything, and page 238609296 shows the first games | the games from position (pg - 1) * 9 on, so nothing past the last page | not executed | Catalog.IndexAsWritten, Catalog.IndexAsWrittenWraps | Catalog.Index |
| GameStoreApp/Models/Pager.cs:62 | `endPage = currentPage + 4` wraps for pages above int.MaxValue - 4 | `new Pager(2147483647, 2147483647, 1)`: end page -2147483645 after the wrap, start page 2147483642, so the current page is outside its window | every page of the list lies between StartPage and EndPage | not executed | Pager.NewPagerAsWritten, Pager.WindowAsWrittenMissesPage | Pager.NewPager, Pager.WindowContainsPage |

## Left out

- Asynchrony, EF change tracking and transactions are not modelled. Each `SaveChanges` is one write of the staged tables, and concurrent requests are out of scope.
- Prices are `double` in the source. The model uses integers (minor units), so floating-point rounding in totals is not modelled.
- Release dates are `DateTime` in the source. The model keeps them as an opaque integer, because no core operation computes with them.
- Identity values are modelled as counters, one per table. SQL Server's identity gaps are not modelled.
- The memo `ShoppingCartItems` is a value snapshot. In the source it holds the same tracked entities as the context, so a later amount change would show through it; that aliasing is not modelled.
- Cart.ShoppingCart.AddItemToCart: requires the game to be stored. Every caller passes a game it has just read by id, and the effect of attaching an untracked game (EF would insert it) is not modelled.
- Models.PriceOf: falls back to 0 for a game id with no stored game. Under `StoreDb.Valid` no cart line reaches that case.
- Cart.ShoppingCart.GetCartTotal: its own contract states only the empty-cart total. The sum is `Cart.CartTotal`, whose behaviour under add, remove and clear is stated by `Cart.CartTotalAfterAdd`, `Cart.CartTotalAfterRemove` and `Cart.ClearEffect`.
- Games.GameService.UpdateGame: the exception that `SaveChangesAsync` throws on the foreign-key violation is modelled as the result `false`, with the removal of the game's rows kept and no rows added. Propagating the exception to the caller is not modelled.
- Database rejections other than the join rows' foreign key onto games are not modelled. These include a duplicate composite key (a form listing the same voice actor twice), join rows naming a missing voice actor or platform, and a game naming a missing rating, developer or publisher. The model stores such rows as given.
- `Include`/`ThenInclude` navigations are not modelled as object graphs. `GetGameByIdAsync` returns the game together with its join rows; the catalog's publisher, developer and rating includes change no result the model states.
- Collections.SortBy: orders by ordinal character codes. The source's `OrderBy` runs in the database under its collation, which is not modelled. Stability for equal names is not stated either.
- Case-insensitive search folds ASCII letters only. Unicode case mapping beyond Basic Latin is out of scope.
- A null `Name` or `Description` (a `NullReferenceException` in `Filter`) is not modelled: strings are never null here.
- `Math.Ceiling((decimal)totalItems / (decimal)pageSize)` is modelled as the exact ceiling. For 32-bit operands the decimal quotient gives the same ceiling.
- Views, `ViewBag`, redirects, model-state validation and the `[Authorize]` attributes are not modelled. The controller actions return the data they hand to their views.
- The account actions, the lookup-table services (voice actors, publishers, developers, ratings, platforms), the request-logging filter and the database seeding are not part of this model.
