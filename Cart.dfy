/** ShoppingCart.cs: a session's cart over the shared cart-line table.

    The line-table operations are first given as functions on the table
    (FindLine, AddLine, RemoveLine, CartLinesOf, WithoutCart, CartTotal) and
    proved correct against a map view of the table, AmountOf(cart, game); the
    ShoppingCart class then applies them to the database in place. */
module Cart {
  import opened Collections
  import opened Models
  import opened Db

  /** The session key the cart id is kept under. */
  const CartIdKey: string := "CartId"

  /** x => x.Game.Id == gameId && x.ShoppingCartId == cartId */
  function IsLineFor(cartId: string, gameId: int): CartLine -> bool {
    (l: CartLine) => l.gameId == gameId && l.cartId == cartId
  }

  /** x => x.ShoppingCartId == cartId */
  function InCart(cartId: string): CartLine -> bool {
    (l: CartLine) => l.cartId == cartId
  }

  function NotInCart(cartId: string): CartLine -> bool {
    (l: CartLine) => l.cartId != cartId
  }

  /** FirstOrDefault(IsLineFor(cartId, gameId)), as a position. */
  function FindLine(lines: seq<CartLine>, cartId: string, gameId: int): (r: Option<nat>)
    ensures r.Some? ==> r.value < |lines| && lines[r.value].cartId == cartId && lines[r.value].gameId == gameId
    ensures r.Some? ==> forall j :: 0 <= j < r.value ==> lines[j].cartId != cartId || lines[j].gameId != gameId
    ensures r.None? <==> forall j :: 0 <= j < |lines| ==> lines[j].cartId != cartId || lines[j].gameId != gameId
  {
    FirstIndex(lines, IsLineFor(cartId, gameId))
  }

  /** The map view of the table: how many units of a game a cart holds. */
  function AmountOf(lines: seq<CartLine>, cartId: string, gameId: int): (r: int)
    ensures AmountsPositive(lines) ==> (r >= 1 <==> FindLine(lines, cartId, gameId).Some?)
    ensures AmountsPositive(lines) ==> r >= 0
  {
    match FindLine(lines, cartId, gameId)
    case None => 0
    case Some(i) => lines[i].amount
  }

  /** AddItemToCart on the table: bump the amount of the cart's line for the
      game, or append a new line with amount 1 and the next identity. */
  function AddLine(lines: seq<CartLine>, cartId: string, gameId: int, newId: int): (r: seq<CartLine>) {
    match FindLine(lines, cartId, gameId)
    case None => lines + [CartLine(newId, cartId, gameId, 1)]
    case Some(i) => lines[i := lines[i].(amount := lines[i].amount + 1)]
  }

  /** The identity counter after AddLine: it moves only when a line is inserted. */
  function NextLineId(lines: seq<CartLine>, cartId: string, gameId: int, nextId: int): (r: int) {
    if FindLine(lines, cartId, gameId).None? then nextId + 1 else nextId
  }

  /** RemoveItemFromCart on the table: decrement an amount above 1, delete a
      line of amount 1 or less, and leave the table alone when there is no line. */
  function RemoveLine(lines: seq<CartLine>, cartId: string, gameId: int): (r: seq<CartLine>) {
    match FindLine(lines, cartId, gameId)
    case None => lines
    case Some(i) =>
      if lines[i].amount > 1 then lines[i := lines[i].(amount := lines[i].amount - 1)]
      else lines[..i] + lines[i + 1..]
  }

  /** Where(x => x.ShoppingCartId == cartId): the cart's lines in table order. */
  function CartLinesOf(lines: seq<CartLine>, cartId: string): (r: seq<CartLine>) {
    Where(lines, InCart(cartId))
  }

  /** The table after RemoveRange of the cart's lines. */
  function WithoutCart(lines: seq<CartLine>, cartId: string): (r: seq<CartLine>)
    ensures forall l :: l in r <==> l in lines && l.cartId != cartId
  {
    Where(lines, NotInCart(cartId))
  }

  /** Game.Price * Amount, at the game's current price. */
  function LineValue(games: seq<Game>, l: CartLine): int {
    PriceOf(games, l.gameId) * l.amount
  }

  function SumValues(games: seq<Game>, s: seq<CartLine>): int
    decreases |s|
  {
    if s == [] then 0 else LineValue(games, s[0]) + SumValues(games, s[1..])
  }

  /** GetCartTotal: Where(cart).Select(price * amount).Sum() over the table. */
  function CartTotal(games: seq<Game>, lines: seq<CartLine>, cartId: string): (r: int) {
    SumValues(games, CartLinesOf(lines, cartId))
  }

  // ----- locating lines -----

  /** Position-wise the same (cart, game) keys. */
  ghost predicate SameKeys(a: seq<CartLine>, b: seq<CartLine>) {
    |a| == |b| && forall j :: 0 <= j < |a| ==> a[j].cartId == b[j].cartId && a[j].gameId == b[j].gameId
  }

  /** The first line with the key is the one FindLine returns. */
  lemma FindLineAt(lines: seq<CartLine>, cartId: string, gameId: int, k: nat)
    requires k < |lines| && lines[k].cartId == cartId && lines[k].gameId == gameId
    requires forall j :: 0 <= j < k ==> lines[j].cartId != cartId || lines[j].gameId != gameId
    ensures FindLine(lines, cartId, gameId) == Some(k)
  {
  }

  /** FindLine only looks at the keys. */
  lemma FindLineSameKeys(a: seq<CartLine>, b: seq<CartLine>, cartId: string, gameId: int)
    requires SameKeys(a, b)
    ensures FindLine(a, cartId, gameId) == FindLine(b, cartId, gameId)
  {
    match FindLine(a, cartId, gameId)
    case None =>
      assert forall j :: 0 <= j < |b| ==> b[j].cartId != cartId || b[j].gameId != gameId;
    case Some(k) =>
      FindLineAt(b, cartId, gameId, k);
  }

  // ----- facts about the table operations -----

  /** AddLine appends exactly one line (cart, game, 1) when the cart has none
      for the game, and otherwise raises that line's amount by exactly one and
      keeps every other line; in the map view it adds one unit to (cartId,
      gameId) and nothing to any other key. */
  lemma AddLineEffect(lines: seq<CartLine>, cartId: string, gameId: int, newId: int, c2: string, g2: int)
    ensures FindLine(lines, cartId, gameId).None? ==>
      AddLine(lines, cartId, gameId, newId) == lines + [CartLine(newId, cartId, gameId, 1)]
    ensures FindLine(lines, cartId, gameId).Some? ==>
      var i, r := FindLine(lines, cartId, gameId).value, AddLine(lines, cartId, gameId, newId);
      |r| == |lines| && r[i].amount == lines[i].amount + 1 &&
      r[i].(amount := lines[i].amount) == lines[i] &&
      forall j :: 0 <= j < |lines| && j != i ==> r[j] == lines[j]
    ensures AmountOf(AddLine(lines, cartId, gameId, newId), c2, g2) ==
      AmountOf(lines, c2, g2) + (if c2 == cartId && g2 == gameId then 1 else 0)
  {
    var r := AddLine(lines, cartId, gameId, newId);
    match FindLine(lines, cartId, gameId)
    case None =>
      if c2 == cartId && g2 == gameId {
        FindLineAt(r, c2, g2, |lines|);
      } else {
        match FindLine(lines, c2, g2)
        case None =>
          assert forall j :: 0 <= j < |r| ==> r[j].cartId != c2 || r[j].gameId != g2;
        case Some(k) =>
          FindLineAt(r, c2, g2, k);
      }
    case Some(i) =>
      UpdateLineAmounts(lines, i, r[i], c2, g2);
      if FindLine(lines, c2, g2) == Some(i) {
        assert c2 == cartId && g2 == gameId;
      }
  }

  /** Rewriting line i with the same key moves the amount of that key only. */
  lemma UpdateLineAmounts(lines: seq<CartLine>, i: nat, x: CartLine, c2: string, g2: int)
    requires i < |lines| && x.cartId == lines[i].cartId && x.gameId == lines[i].gameId
    ensures FindLine(lines[i := x], c2, g2) == FindLine(lines, c2, g2)
    ensures AmountOf(lines[i := x], c2, g2) ==
      if FindLine(lines, c2, g2) == Some(i) then x.amount else AmountOf(lines, c2, g2)
  {
    assert SameKeys(lines[i := x], lines);
    FindLineSameKeys(lines[i := x], lines, c2, g2);
  }

  /** Deleting line i of a table with unique keys leaves its key with no line
      and every other key with its amount. */
  lemma DeleteLineAmounts(lines: seq<CartLine>, i: nat, c2: string, g2: int)
    requires i < |lines| && CartKeysUnique(lines)
    ensures AmountOf(lines[..i] + lines[i + 1..], c2, g2) ==
      if lines[i].cartId == c2 && lines[i].gameId == g2 then 0 else AmountOf(lines, c2, g2)
  {
    if lines[i].cartId == c2 && lines[i].gameId == g2 {
      DeleteOwnKey(lines, i);
    } else {
      DeleteOtherKey(lines, i, c2, g2);
    }
  }

  /** After the deletion no line has the deleted line's key. */
  lemma DeleteOwnKey(lines: seq<CartLine>, i: nat)
    requires i < |lines| && CartKeysUnique(lines)
    ensures FindLine(lines[..i] + lines[i + 1..], lines[i].cartId, lines[i].gameId).None?
  {
    var r := lines[..i] + lines[i + 1..];
    forall j | 0 <= j < |r| ensures r[j].cartId != lines[i].cartId || r[j].gameId != lines[i].gameId {
      if j < i { assert r[j] == lines[j]; } else { assert r[j] == lines[j + 1]; }
    }
  }

  /** Any other key keeps its amount. */
  lemma DeleteOtherKey(lines: seq<CartLine>, i: nat, c2: string, g2: int)
    requires i < |lines| && (lines[i].cartId != c2 || lines[i].gameId != g2)
    ensures AmountOf(lines[..i] + lines[i + 1..], c2, g2) == AmountOf(lines, c2, g2)
  {
    match FindLine(lines, c2, g2)
    case None =>
      DeleteKeepsAbsent(lines, i, c2, g2);
    case Some(k) =>
      DeleteKeepsFound(lines, i, k, c2, g2);
  }

  /** A key with no line still has none after a deletion. */
  lemma DeleteKeepsAbsent(lines: seq<CartLine>, i: nat, c2: string, g2: int)
    requires i < |lines| && FindLine(lines, c2, g2).None?
    ensures FindLine(lines[..i] + lines[i + 1..], c2, g2).None?
  {
    var r := lines[..i] + lines[i + 1..];
    forall j | 0 <= j < |r| ensures r[j].cartId != c2 || r[j].gameId != g2 {
      if j < i { assert r[j] == lines[j]; } else { assert r[j] == lines[j + 1]; }
    }
  }

  /** A key found at k != i is found at the same line after deleting line i,
      one place down when k is beyond i. */
  lemma DeleteKeepsFound(lines: seq<CartLine>, i: nat, k: nat, c2: string, g2: int)
    requires i < |lines| && FindLine(lines, c2, g2) == Some(k) && k != i
    ensures var r := lines[..i] + lines[i + 1..];
      var k' := if k < i then k else k - 1;
      k' < |r| && FindLine(r, c2, g2) == Some(k') && r[k'] == lines[k]
  {
    var r := lines[..i] + lines[i + 1..];
    var k' := if k < i then k else k - 1;
    assert r[k'] == lines[k];
    forall j | 0 <= j < k' ensures r[j].cartId != c2 || r[j].gameId != g2 {
      if j < i { assert r[j] == lines[j]; } else { assert r[j] == lines[j + 1]; }
    }
    FindLineAt(r, c2, g2, k');
  }

  /** RemoveLine, on a table with unique keys and positive amounts: with no line
      the table is unchanged; an amount above 1 drops by exactly one; a line of
      amount 1 disappears. In the map view one unit leaves (cartId, gameId), down
      to 0, and every other key keeps its amount. */
  lemma RemoveLineEffect(lines: seq<CartLine>, cartId: string, gameId: int, c2: string, g2: int)
    requires CartKeysUnique(lines) && AmountsPositive(lines)
    ensures FindLine(lines, cartId, gameId).None? ==> RemoveLine(lines, cartId, gameId) == lines
    ensures AmountOf(RemoveLine(lines, cartId, gameId), c2, g2) ==
      if c2 == cartId && g2 == gameId then
        (if AmountOf(lines, c2, g2) > 1 then AmountOf(lines, c2, g2) - 1 else 0)
      else AmountOf(lines, c2, g2)
  {
    match FindLine(lines, cartId, gameId)
    case None =>
    case Some(i) =>
      assert lines[i] in lines;
      if lines[i].amount > 1 {
        var x := lines[i].(amount := lines[i].amount - 1);
        assert RemoveLine(lines, cartId, gameId) == lines[i := x];
        UpdateLineAmounts(lines, i, x, c2, g2);
        if FindLine(lines, c2, g2) == Some(i) {
          assert c2 == cartId && g2 == gameId;
        }
      } else {
        assert RemoveLine(lines, cartId, gameId) == lines[..i] + lines[i + 1..];
        DeleteLineAmounts(lines, i, c2, g2);
      }
  }

  /** AddLine keeps the table's keys unique, its amounts positive, every line
      pointing at a stored game (given that the added game is stored) and every
      id below the counter. */
  lemma AddLinePreservesInvariant(lines: seq<CartLine>, games: seq<Game>, cartId: string, gameId: int,
                                  nextId: int)
    requires CartTableValid(lines, games, nextId)
    requires FindGame(games, gameId).Some?
    ensures CartTableValid(AddLine(lines, cartId, gameId, nextId), games, NextLineId(lines, cartId, gameId, nextId))
  {
    var r := AddLine(lines, cartId, gameId, nextId);
    AddLineKeysUnique(lines, cartId, gameId, nextId);
    match FindLine(lines, cartId, gameId)
    case None =>
      assert forall l :: l in r ==> l in lines || l == CartLine(nextId, cartId, gameId, 1);
    case Some(i) =>
      assert lines[i] in lines;
      UpdateMembers(lines, i, r[i]);
  }

  /** RemoveLine keeps the table's keys unique, its amounts positive, every line
      pointing at a stored game and every id below the counter. */
  lemma RemoveLinePreservesInvariant(lines: seq<CartLine>, games: seq<Game>, cartId: string, gameId: int,
                                     nextId: int)
    requires CartTableValid(lines, games, nextId)
    ensures CartTableValid(RemoveLine(lines, cartId, gameId), games, nextId)
  {
    match FindLine(lines, cartId, gameId)
    case None =>
    case Some(i) =>
      if lines[i].amount > 1 {
        DecrementKeepsValid(lines, games, i, nextId);
      } else {
        DeleteKeepsValid(lines, games, i, nextId);
      }
  }

  /** One unit fewer on a line of amount above 1 keeps the table valid. */
  lemma DecrementKeepsValid(lines: seq<CartLine>, games: seq<Game>, i: nat, nextId: int)
    requires CartTableValid(lines, games, nextId) && i < |lines| && lines[i].amount > 1
    ensures CartTableValid(lines[i := lines[i].(amount := lines[i].amount - 1)], games, nextId)
  {
    var r := lines[i := lines[i].(amount := lines[i].amount - 1)];
    assert lines[i] in lines;
    UpdateMembers(lines, i, r[i]);
    assert SameKeys(lines, r);
  }

  /** Deleting a line keeps the table valid. */
  lemma DeleteKeepsValid(lines: seq<CartLine>, games: seq<Game>, i: nat, nextId: int)
    requires CartTableValid(lines, games, nextId) && i < |lines|
    ensures CartTableValid(lines[..i] + lines[i + 1..], games, nextId)
  {
    DeleteKeepsKeysUnique(lines, i);
    DeleteMembers(lines, i);
  }

  /** Deleting a line keeps the (cart, game) keys unique. */
  lemma DeleteKeepsKeysUnique(lines: seq<CartLine>, i: nat)
    requires CartKeysUnique(lines) && i < |lines|
    ensures CartKeysUnique(lines[..i] + lines[i + 1..])
  {
    var r := lines[..i] + lines[i + 1..];
    forall a, b | 0 <= a < b < |r|
      ensures r[a].cartId != r[b].cartId || r[a].gameId != r[b].gameId
    {
      var a' := if a < i then a else a + 1;
      var b' := if b < i then b else b + 1;
      assert r[a] == lines[a'];
      assert r[b] == lines[b'];
    }
  }

  /** Adds n times the same game, threading the identity counter as
      AddItemToCart does. */
  function AddTimes(lines: seq<CartLine>, cartId: string, gameId: int, nextId: int, n: nat): (r: seq<CartLine>)
    decreases n
  {
    if n == 0 then lines
    else AddTimes(AddLine(lines, cartId, gameId, nextId), cartId, gameId,
                  NextLineId(lines, cartId, gameId, nextId), n - 1)
  }

  /** n adds of a game to a valid table keep it valid and raise the amount of
      the cart's single line for the game by n; from none, to a line of amount n. */
  lemma {:induction false} AddTimesAccumulates(lines: seq<CartLine>, games: seq<Game>, cartId: string,
                                               gameId: int, nextId: int, n: nat)
    requires CartTableValid(lines, games, nextId)
    requires FindGame(games, gameId).Some?
    ensures var r := AddTimes(lines, cartId, gameId, nextId, n);
      CartTableValid(r, games, nextId + n) && AmountOf(r, cartId, gameId) == AmountOf(lines, cartId, gameId) + n
    ensures AmountOf(lines, cartId, gameId) == 0 && n > 0 ==>
      var r := AddTimes(lines, cartId, gameId, nextId, n);
      FindLine(r, cartId, gameId).Some? && r[FindLine(r, cartId, gameId).value].amount == n
  {
    AddTimesAmount(lines, cartId, gameId, nextId, n);
    AddTimesValid(lines, games, cartId, gameId, nextId, n);
  }

  /** n adds raise the amount of (cartId, gameId) by n. */
  lemma {:induction false} AddTimesAmount(lines: seq<CartLine>, cartId: string, gameId: int, nextId: int, n: nat)
    ensures AmountOf(AddTimes(lines, cartId, gameId, nextId, n), cartId, gameId) == AmountOf(lines, cartId, gameId) + n
    decreases n
  {
    if n > 0 {
      var next, nextId' := AddLine(lines, cartId, gameId, nextId), NextLineId(lines, cartId, gameId, nextId);
      assert AddTimes(lines, cartId, gameId, nextId, n) == AddTimes(next, cartId, gameId, nextId', n - 1);
      AddTimesAmount(next, cartId, gameId, nextId', n - 1);
      AddLineAmount(lines, cartId, gameId, nextId);
    }
  }

  /** One add raises the amount of its own key by one. */
  lemma AddLineAmount(lines: seq<CartLine>, cartId: string, gameId: int, nextId: int)
    ensures AmountOf(AddLine(lines, cartId, gameId, nextId), cartId, gameId) == AmountOf(lines, cartId, gameId) + 1
  {
    AddLineEffect(lines, cartId, gameId, nextId, cartId, gameId);
  }

  /** An add keeps the (cart, game) keys unique. */
  lemma AddLineKeysUnique(lines: seq<CartLine>, cartId: string, gameId: int, nextId: int)
    requires CartKeysUnique(lines)
    ensures CartKeysUnique(AddLine(lines, cartId, gameId, nextId))
  {
    match FindLine(lines, cartId, gameId)
    case None =>
    case Some(i) =>
      assert SameKeys(lines, AddLine(lines, cartId, gameId, nextId));
  }

  /** n adds of a stored game keep the table valid; the counter moves at most
      once per add. */
  lemma {:induction false} AddTimesValid(lines: seq<CartLine>, games: seq<Game>, cartId: string, gameId: int,
                                         nextId: int, n: nat)
    requires CartTableValid(lines, games, nextId)
    requires FindGame(games, gameId).Some?
    ensures CartTableValid(AddTimes(lines, cartId, gameId, nextId, n), games, nextId + n)
    decreases n
  {
    if n > 0 {
      var next, nextId' := AddLine(lines, cartId, gameId, nextId), NextLineId(lines, cartId, gameId, nextId);
      AddLinePreservesInvariant(lines, games, cartId, gameId, nextId);
      AddTimesValid(next, games, cartId, gameId, nextId', n - 1);
      CounterRaised(AddTimes(next, cartId, gameId, nextId', n - 1), games, nextId' + (n - 1), nextId + n);
    }
  }

  /** A table valid under one counter is valid under any higher one. */
  lemma CounterRaised(lines: seq<CartLine>, games: seq<Game>, nextId: int, nextId': int)
    requires CartTableValid(lines, games, nextId) && nextId <= nextId'
    ensures CartTableValid(lines, games, nextId')
  {
  }

  lemma {:induction false} SumValuesAppend(games: seq<Game>, a: seq<CartLine>, b: seq<CartLine>)
    ensures SumValues(games, a + b) == SumValues(games, a) + SumValues(games, b)
    decreases |a|
  {
    if a == [] {
      assert a + b == b;
    } else {
      assert (a + b)[0] == a[0] && (a + b)[1..] == a[1..] + b;
      SumValuesAppend(games, a[1..], b);
    }
  }

  /** d more units of a line are worth d more times its game's price. */
  lemma LineValueStep(games: seq<Game>, l: CartLine, d: int)
    ensures LineValue(games, l.(amount := l.amount + d)) == LineValue(games, l) + d * PriceOf(games, l.gameId)
  {
    var p := PriceOf(games, l.gameId);
    assert p * (l.amount + d) == p * l.amount + d * p;
  }

  /** The total of a table cut around one line x of the cart. */
  lemma CartTotalAround(games: seq<Game>, a: seq<CartLine>, x: CartLine, b: seq<CartLine>)
    ensures CartTotal(games, a + [x] + b, x.cartId) ==
      CartTotal(games, a, x.cartId) + LineValue(games, x) + CartTotal(games, b, x.cartId)
  {
    WhereAround(a, x, b, InCart(x.cartId));
    WhereSingleton(x, InCart(x.cartId));
    var ca, cb := CartLinesOf(a, x.cartId), CartLinesOf(b, x.cartId);
    SumValuesAppend(games, ca + [x], cb);
    SumValuesAppend(games, ca, [x]);
  }

  /** Adding a game raises the cart's total by the game's current price. */
  lemma CartTotalAfterAdd(games: seq<Game>, lines: seq<CartLine>, cartId: string, gameId: int, newId: int)
    ensures CartTotal(games, AddLine(lines, cartId, gameId, newId), cartId) ==
      CartTotal(games, lines, cartId) + PriceOf(games, gameId)
  {
    match FindLine(lines, cartId, gameId)
    case None =>
      var nl := CartLine(newId, cartId, gameId, 1);
      WhereAppend(lines, [nl], InCart(cartId));
      WhereSingleton(nl, InCart(cartId));
      SumValuesAppend(games, CartLinesOf(lines, cartId), [nl]);
    case Some(i) =>
      var x := lines[i].(amount := lines[i].amount + 1);
      assert AddLine(lines, cartId, gameId, newId) == lines[i := x];
      LineValueStep(games, lines[i], 1);
      SplitAt(lines, i, x);
      CartTotalAround(games, lines[..i], x, lines[i + 1..]);
      CartTotalAround(games, lines[..i], lines[i], lines[i + 1..]);
  }

  /** The total of a table without one line x of the cart. */
  lemma CartTotalWithout(games: seq<Game>, a: seq<CartLine>, x: CartLine, b: seq<CartLine>)
    ensures CartTotal(games, a + b, x.cartId) == CartTotal(games, a + [x] + b, x.cartId) - LineValue(games, x)
  {
    CartTotalAround(games, a, x, b);
    WhereAround(a, x, b, InCart(x.cartId));
    SumValuesAppend(games, CartLinesOf(a, x.cartId), CartLinesOf(b, x.cartId));
  }

  /** Removing a game lowers the cart's total by the game's current price when
      the cart holds it, and leaves the total alone otherwise. */
  lemma CartTotalAfterRemove(games: seq<Game>, lines: seq<CartLine>, cartId: string, gameId: int)
    requires AmountsPositive(lines)
    ensures CartTotal(games, RemoveLine(lines, cartId, gameId), cartId) ==
      CartTotal(games, lines, cartId) - (if AmountOf(lines, cartId, gameId) > 0 then PriceOf(games, gameId) else 0)
  {
    match FindLine(lines, cartId, gameId)
    case None =>
    case Some(i) =>
      assert lines[i] in lines;
      if lines[i].amount > 1 {
        CartTotalAfterDecrement(games, lines, i);
      } else {
        CartTotalAfterDelete(games, lines, i);
      }
  }

  lemma CartTotalAfterDecrement(games: seq<Game>, lines: seq<CartLine>, i: nat)
    requires i < |lines|
    ensures CartTotal(games, lines[i := lines[i].(amount := lines[i].amount - 1)], lines[i].cartId) ==
      CartTotal(games, lines, lines[i].cartId) - PriceOf(games, lines[i].gameId)
  {
    var x := lines[i].(amount := lines[i].amount - 1);
    SplitAt(lines, i, x);
    LineValueStep(games, lines[i], -1);
    CartTotalAround(games, lines[..i], lines[i], lines[i + 1..]);
    CartTotalAround(games, lines[..i], x, lines[i + 1..]);
  }

  lemma CartTotalAfterDelete(games: seq<Game>, lines: seq<CartLine>, i: nat)
    requires i < |lines| && lines[i].amount == 1
    ensures CartTotal(games, lines[..i] + lines[i + 1..], lines[i].cartId) ==
      CartTotal(games, lines, lines[i].cartId) - PriceOf(games, lines[i].gameId)
  {
    SplitAt(lines, i, lines[i]);
    CartTotalWithout(games, lines[..i], lines[i], lines[i + 1..]);
  }

  /** WithoutCart removes exactly this cart's lines: none of them is left, every
      other cart keeps its lines in order, and this cart's total is then 0. */
  lemma ClearEffect(games: seq<Game>, lines: seq<CartLine>, cartId: string, other: string)
    ensures CartLinesOf(WithoutCart(lines, cartId), cartId) == []
    ensures CartTotal(games, WithoutCart(lines, cartId), cartId) == 0
    ensures other != cartId ==> CartLinesOf(WithoutCart(lines, cartId), other) == CartLinesOf(lines, other)
  {
    WhereNone(WithoutCart(lines, cartId), InCart(cartId));
    if other != cartId {
      WhereWhere(lines, NotInCart(cartId), InCart(other));
    }
  }

  /** The removal the clear performs keeps a table valid and adds no line. */
  lemma WithoutCartPreservesInvariant(lines: seq<CartLine>, games: seq<Game>, cartId: string, nextId: int)
    requires CartTableValid(lines, games, nextId)
    ensures CartTableValid(WithoutCart(lines, cartId), games, nextId)
    ensures forall l :: l in WithoutCart(lines, cartId) ==> l in lines
  {
    FilterKeepsKeysUnique(lines, NotInCart(cartId));
  }

  lemma {:induction false} FilterKeepsKeysUnique(lines: seq<CartLine>, p: CartLine -> bool)
    requires CartKeysUnique(lines)
    ensures CartKeysUnique(Where(lines, p))
    decreases |lines|
  {
    if lines != [] {
      var rest := lines[1..];
      assert CartKeysUnique(rest) by {
        forall a, b | 0 <= a < b < |rest|
          ensures rest[a].cartId != rest[b].cartId || rest[a].gameId != rest[b].gameId
        {
          assert rest[a] == lines[a + 1] && rest[b] == lines[b + 1];
        }
      }
      FilterKeepsKeysUnique(rest, p);
      if p(lines[0]) {
        var w := Where(rest, p);
        var r := [lines[0]] + w;
        forall a, b | 0 <= a < b < |r|
          ensures r[a].cartId != r[b].cartId || r[a].gameId != r[b].gameId
        {
          if a == 0 {
            assert r[b] in rest;
            var k :| 0 <= k < |rest| && rest[k] == r[b];
            assert lines[k + 1] == r[b];
          } else {
            assert r[a] == w[a - 1] && r[b] == w[b - 1];
          }
        }
      }
    }
  }

  /** The tracked change of AddItemToCart before it is saved: a found line gets
      one more unit, otherwise a new line of one unit takes the next identity. */
  method StageAdd(lines: seq<CartLine>, cartId: string, gameId: int, nextId: int)
    returns (staged: seq<CartLine>, stagedNextId: int)
    ensures staged == AddLine(lines, cartId, gameId, nextId)
    ensures stagedNextId == NextLineId(lines, cartId, gameId, nextId)
  {
    staged, stagedNextId := lines, nextId;
    match FindLine(lines, cartId, gameId) {
      case None =>
        staged, stagedNextId := staged + [CartLine(nextId, cartId, gameId, 1)], nextId + 1;
      case Some(i) =>
        staged := staged[i := staged[i].(amount := staged[i].amount + 1)];
    }
  }

  /** The tracked change of RemoveItemFromCart before it is saved. */
  method StageRemove(lines: seq<CartLine>, cartId: string, gameId: int) returns (staged: seq<CartLine>)
    ensures staged == RemoveLine(lines, cartId, gameId)
  {
    staged := lines;
    match FindLine(lines, cartId, gameId) {
      case None =>
      case Some(i) =>
        if staged[i].amount > 1 {
          staged := staged[i := staged[i].(amount := staged[i].amount - 1)];
        } else {
          staged := staged[..i] + staged[i + 1..];
        }
    }
  }

  /** The session of one browser, as a string map (ISession). */
  class Session {
    var strings: map<string, string>

    constructor (strings: map<string, string>)
      ensures this.strings == strings
    {
      this.strings := strings;
    }
  }

  class ShoppingCart {
    const db: StoreDb
    var shoppingCartId: string
    /** The per-request memo of GetCartItems; None is C#'s null. */
    var shoppingCartItems: Option<seq<CartLine>>

    constructor (db: StoreDb, cartId: string)
      ensures this.db == db && shoppingCartId == cartId && shoppingCartItems == None
    {
      this.db := db;
      shoppingCartId := cartId;
      shoppingCartItems := None;
    }

    /** The database is valid and a memoised list still names stored games. */
    ghost predicate Valid()
      reads this, db
    {
      db.Valid() && (shoppingCartItems.Some? ==> LinesReferenceGames(shoppingCartItems.value, db.games))
    }

    /** GetShoppingCart: reuse the session's cart id, or take the fresh one
        (Guid.NewGuid() in the source, a parameter here); write it back to the
        session and return a cart with that id and nothing memoised. */
    static method GetShoppingCart(session: Session, db: StoreDb, newGuid: string) returns (cart: ShoppingCart)
      modifies session
      ensures fresh(cart) && cart.db == db && cart.shoppingCartItems == None
      ensures CartIdKey in old(session.strings) ==> cart.shoppingCartId == old(session.strings)[CartIdKey]
      ensures CartIdKey !in old(session.strings) ==> cart.shoppingCartId == newGuid
      ensures session.strings == old(session.strings)[CartIdKey := cart.shoppingCartId]
      ensures db.Valid() ==> cart.Valid()
    {
      var cartId := if CartIdKey in session.strings then session.strings[CartIdKey] else newGuid;
      session.strings := session.strings[CartIdKey := cartId];
      cart := new ShoppingCart(db, cartId);
    }

    /** AddItemToCart: one more unit of the game in this cart. */
    method AddItemToCart(game: Game)
      requires Valid()
      requires FindGame(db.games, game.id).Some?
      modifies db`cartLines, db`nextCartLineId
      ensures Valid()
      ensures db.cartLines == AddLine(old(db.cartLines), shoppingCartId, game.id, old(db.nextCartLineId))
      ensures db.nextCartLineId == NextLineId(old(db.cartLines), shoppingCartId, game.id, old(db.nextCartLineId))
    {
      var lines, next := StageAdd(db.cartLines, shoppingCartId, game.id, db.nextCartLineId);
      AddLinePreservesInvariant(db.cartLines, db.games, shoppingCartId, game.id, db.nextCartLineId);
      db.SaveCartLines(lines, next);
    }

    /** RemoveItemFromCart: one unit fewer of the game in this cart, if any. */
    method RemoveItemFromCart(game: Game)
      requires Valid()
      modifies db`cartLines, db`nextCartLineId
      ensures Valid()
      ensures db.cartLines == RemoveLine(old(db.cartLines), shoppingCartId, game.id)
      ensures unchanged(db`nextCartLineId)
    {
      var lines := StageRemove(db.cartLines, shoppingCartId, game.id);
      RemoveLinePreservesInvariant(db.cartLines, db.games, shoppingCartId, game.id, db.nextCartLineId);
      db.SaveCartLines(lines, db.nextCartLineId);
    }

    /** GetCartItems: the memoised list if there is one; otherwise this cart's
        lines, which are then memoised. */
    method GetCartItems() returns (items: seq<CartLine>)
      requires Valid()
      modifies this`shoppingCartItems
      ensures Valid()
      ensures old(shoppingCartItems).Some? ==> items == old(shoppingCartItems).value
      ensures old(shoppingCartItems).None? ==> items == CartLinesOf(db.cartLines, shoppingCartId)
      ensures shoppingCartItems == Some(items)
    {
      match shoppingCartItems {
        case Some(cached) =>
          items := cached;
        case None =>
          items := CartLinesOf(db.cartLines, shoppingCartId);
          shoppingCartItems := Some(items);
      }
    }

    /** GetCartTotal: the sum over this cart's stored lines (not the memo) of the
        game's current price times the amount. */
    function GetCartTotal(): (total: int)
      reads this, db
      ensures CartLinesOf(db.cartLines, shoppingCartId) == [] ==> total == 0
    {
      CartTotal(db.games, db.cartLines, shoppingCartId)
    }

    /** ClearShoppingCartAsync: delete this cart's lines and memoise an empty list. */
    method ClearShoppingCart()
      requires Valid()
      modifies db`cartLines, db`nextCartLineId, this`shoppingCartItems
      ensures Valid()
      ensures db.cartLines == WithoutCart(old(db.cartLines), shoppingCartId)
      ensures unchanged(db`nextCartLineId)
      ensures shoppingCartItems == Some([])
    {
      WithoutCartPreservesInvariant(db.cartLines, db.games, shoppingCartId, db.nextCartLineId);
      db.SaveCartLines(WithoutCart(db.cartLines, shoppingCartId), db.nextCartLineId);
      shoppingCartItems := Some([]);
    }
  }
}
