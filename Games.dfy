/** GameService.cs: creating and editing a game together with its rows in the
    voice actor and platform join tables, the lookup of one game, and the
    sorted lookup lists of the create/edit form. */
module Games {
  import opened Collections
  import opened Models
  import opened Db

  // ----- the game record and the form -----

  /** The game AddNewGameAsync builds from the form: the nine scalar fields
      copied over, and the id the database assigns on insert (the form's own
      Id is not used). */
  function GameFromVM(data: NewGameVM, id: int): (g: Game) {
    Game(id, data.name, data.description, data.releaseDate, data.price, data.imageUrl, data.genre,
         data.ratingId, data.developerId, data.publisherId)
  }

  /** The assignments UpdateGameAsync makes to a stored game: every scalar field
      is overwritten from the form, so the result is the inserted game for the
      same form and id, whatever the game held before. */
  function ApplyVM(g: Game, data: NewGameVM): (r: Game)
    ensures r == GameFromVM(data, g.id)
  {
    g.(name := data.name, description := data.description, price := data.price, imageUrl := data.imageUrl,
       publisherId := data.publisherId, developerId := data.developerId, ratingId := data.ratingId,
       releaseDate := data.releaseDate, genre := data.genre)
  }

  /** The games table after UpdateGameAsync: the first game with the form's id
      (FirstOrDefault) takes the form's fields; without one the table stays. */
  function UpdatedGames(games: seq<Game>, data: NewGameVM): (r: seq<Game>) {
    match FindGameIndex(games, data.id)
    case None => games
    case Some(i) => games[i := ApplyVM(games[i], data)]
  }

  /** `ids?.Count() > 0`: a missing list and an empty one both supply nothing. */
  function SuppliedIds(ids: Option<seq<int>>): (r: seq<int>) {
    if ids.Some? then ids.value else []
  }

  // ----- join rows -----

  /** x => x.GameId == gameId */
  function ForGame(gameId: int): JoinRow -> bool {
    (r: JoinRow) => r.gameId == gameId
  }

  function NotForGame(gameId: int): JoinRow -> bool {
    (r: JoinRow) => r.gameId != gameId
  }

  /** The rows of a join table that belong to a game, in table order. */
  function RowsOf(rows: seq<JoinRow>, gameId: int): seq<JoinRow> {
    Where(rows, ForGame(gameId))
  }

  /** A join table after RemoveRange of a game's rows. */
  function WithoutGame(rows: seq<JoinRow>, gameId: int): seq<JoinRow> {
    Where(rows, NotForGame(gameId))
  }

  /** The rows the foreach loops add: one (id, gameId) per supplied id, in the
      order of the list. */
  function JoinRowsFor(gameId: int, ids: seq<int>): (r: seq<JoinRow>)
    ensures |r| == |ids|
    ensures forall k :: 0 <= k < |r| ==> r[k] == JoinRow(ids[k], gameId)
    decreases |ids|
  {
    if ids == [] then []
    else JoinRowsFor(gameId, ids[..|ids| - 1]) + [JoinRow(ids[|ids| - 1], gameId)]
  }

  /** One more id adds one row at the end. */
  lemma JoinRowsStep(gameId: int, ids: seq<int>, k: nat)
    requires k < |ids|
    ensures JoinRowsFor(gameId, ids[..k + 1]) == JoinRowsFor(gameId, ids[..k]) + [JoinRow(ids[k], gameId)]
  {
    assert ids[..k + 1][..k] == ids[..k];
  }

  /** A foreach loop of AddNewGameAsync or UpdateGameAsync: the rows it stages
      for the game, which the next save writes. */
  method BuildJoinRows(gameId: int, ids: seq<int>) returns (added: seq<JoinRow>)
    ensures added == JoinRowsFor(gameId, ids)
  {
    added := [];
    for k := 0 to |ids|
      invariant added == JoinRowsFor(gameId, ids[..k])
    {
      JoinRowsStep(gameId, ids, k);
      added := added + [JoinRow(ids[k], gameId)];
    }
    assert ids[..|ids|] == ids;
  }

  // ----- facts about the table operations -----

  /** Replacing a game's rows by those built from a list leaves the game with
      exactly those rows, in list order, and every other game with its rows. */
  lemma ReplaceRowsEffect(rows: seq<JoinRow>, gameId: int, ids: seq<int>, other: int)
    ensures RowsOf(WithoutGame(rows, gameId) + JoinRowsFor(gameId, ids), gameId) == JoinRowsFor(gameId, ids)
    ensures other != gameId ==>
      RowsOf(WithoutGame(rows, gameId) + JoinRowsFor(gameId, ids), other) == RowsOf(rows, other)
  {
    var kept, added := WithoutGame(rows, gameId), JoinRowsFor(gameId, ids);
    WhereAppend(kept, added, ForGame(gameId));
    WhereNone(kept, ForGame(gameId));
    WhereAll(added, ForGame(gameId));
    if other != gameId {
      WhereAppend(kept, added, ForGame(other));
      WhereWhere(rows, NotForGame(gameId), ForGame(other));
      WhereNone(added, ForGame(other));
    }
  }

  /** A table whose rows all name stored games has none for an id no stored
      game has; appending the rows of such an id gives it exactly those rows
      and leaves every other game with its rows. */
  lemma NewGameRowsEffect(rows: seq<JoinRow>, games: seq<Game>, gameId: int, ids: seq<int>, other: int)
    requires RowsReferenceGames(rows, games) && FindGame(games, gameId).None?
    ensures WithoutGame(rows, gameId) == rows
    ensures RowsOf(rows + JoinRowsFor(gameId, ids), gameId) == JoinRowsFor(gameId, ids)
    ensures other != gameId ==> RowsOf(rows + JoinRowsFor(gameId, ids), other) == RowsOf(rows, other)
  {
    WhereAll(rows, NotForGame(gameId));
    ReplaceRowsEffect(rows, gameId, ids, other);
  }

  /** UpdatedGames keeps the table's length and every position but the one of
      the first game with the form's id, and it keeps every id in place. */
  lemma UpdatedGamesShape(games: seq<Game>, data: NewGameVM)
    ensures |UpdatedGames(games, data)| == |games|
    ensures FindGame(games, data.id).None? ==> UpdatedGames(games, data) == games
    ensures FindGameIndex(games, data.id).Some? ==> forall j :: 0 <= j < |games| && j != FindGameIndex(games, data.id).value ==>
      UpdatedGames(games, data)[j] == games[j]
    ensures forall j :: 0 <= j < |games| ==> UpdatedGames(games, data)[j].id == games[j].id
  {
  }

  /** UpdatedGames, looked up by id: the game with the form's id, when stored,
      becomes the inserted game for this form; every other id finds what it
      found before. */
  lemma UpdatedGamesEffect(games: seq<Game>, data: NewGameVM, id: int)
    ensures FindGame(UpdatedGames(games, data), id) ==
      if id == data.id && FindGame(games, id).Some? then Some(GameFromVM(data, id)) else FindGame(games, id)
  {
    var r := UpdatedGames(games, data);
    UpdatedGamesShape(games, data);
    FindGameIndexSameIds(games, r, id);
  }

  /** FindGameIndex looks only at the ids, position by position. */
  lemma FindGameIndexSameIds(a: seq<Game>, b: seq<Game>, id: int)
    requires |a| == |b| && forall j :: 0 <= j < |a| ==> a[j].id == b[j].id
    ensures FindGameIndex(a, id) == FindGameIndex(b, id)
  {
    match FindGameIndex(a, id)
    case None =>
      assert forall j :: 0 <= j < |b| ==> b[j].id != id;
    case Some(k) =>
      assert FindGameIndex(b, id).Some?;
  }

  /** Every id that finds a game before finds one afterwards. */
  ghost predicate KeepsGameIds(games: seq<Game>, games': seq<Game>) {
    forall id :: FindGame(games, id).Some? ==> FindGame(games', id).Some?
  }

  lemma UpdatedGamesKeepsIds(games: seq<Game>, data: NewGameVM)
    ensures KeepsGameIds(games, UpdatedGames(games, data))
  {
    forall id | FindGame(games, id).Some? ensures FindGame(UpdatedGames(games, data), id).Some? {
      UpdatedGamesEffect(games, data, id);
    }
  }

  lemma AppendKeepsIds(games: seq<Game>, g: Game)
    ensures KeepsGameIds(games, games + [g])
    ensures FindGame(games + [g], g.id).Some?
  {
    forall id | FindGame(games, id).Some? ensures FindGame(games + [g], id).Some? {
      var h := FindGame(games, id).value;
      assert h in games + [g];
    }
    assert g in games + [g];
  }

  /** Foreign keys onto the games table survive a change that keeps every id. */
  lemma ReferencesKept(games: seq<Game>, games': seq<Game>, lines: seq<CartLine>, va: seq<JoinRow>, pg: seq<JoinRow>)
    requires KeepsGameIds(games, games')
    requires LinesReferenceGames(lines, games) && RowsReferenceGames(va, games) && RowsReferenceGames(pg, games)
    ensures LinesReferenceGames(lines, games') && RowsReferenceGames(va, games') && RowsReferenceGames(pg, games')
  {
  }

  /** The rows built for a stored game name a stored game. */
  lemma NewRowsReferenceGames(rows: seq<JoinRow>, games: seq<Game>, gameId: int, ids: seq<int>)
    requires RowsReferenceGames(rows, games) && FindGame(games, gameId).Some?
    ensures RowsReferenceGames(rows + JoinRowsFor(gameId, ids), games)
  {
    var added := JoinRowsFor(gameId, ids);
    forall r | r in rows + added ensures FindGame(games, r.gameId).Some? {
      if r !in rows {
        var k :| 0 <= k < |added| && added[k] == r;
      }
    }
  }

  /** GameTableValid, after UpdatedGames: the ids are position-wise the same. */
  lemma UpdatedGamesValid(games: seq<Game>, data: NewGameVM, nextId: int)
    requires GameTableValid(games, nextId)
    ensures GameTableValid(UpdatedGames(games, data), nextId)
  {
    var r := UpdatedGames(games, data);
    match FindGameIndex(games, data.id)
    case None =>
    case Some(i) =>
      assert forall j :: 0 <= j < |r| ==> r[j].id == games[j].id;
      forall g | g in r ensures g.id < nextId {
        var j :| 0 <= j < |r| && r[j] == g;
        assert games[j] in games;
      }
  }

  lemma AppendGameValid(games: seq<Game>, g: Game, nextId: int)
    requires GameTableValid(games, nextId) && g.id == nextId
    ensures GameTableValid(games + [g], nextId + 1)
    ensures FindGame(games, g.id).None?
  {
    var r := games + [g];
    forall i, j | 0 <= i < j < |r| ensures r[i].id != r[j].id {
      if j == |games| {
        assert games[i] in games;
      }
    }
  }

  /** `if (ids?.Count() > 0) foreach ...`: the rows staged for a supplied list,
      none for an empty one. */
  method StageJoinRows(gameId: int, ids: seq<int>) returns (rows: seq<JoinRow>)
    ensures rows == JoinRowsFor(gameId, ids)
  {
    rows := [];
    if |ids| > 0 {
      rows := BuildJoinRows(gameId, ids);
    }
  }

  /** A game appended under the next identity keeps the games table valid and
      every foreign key onto it, and is found by its id. */
  lemma AppendGameKeepsTables(games: seq<Game>, g: Game, nextId: int, lines: seq<CartLine>,
                              va: seq<JoinRow>, pg: seq<JoinRow>)
    requires GameTableValid(games, nextId) && g.id == nextId
    requires LinesReferenceGames(lines, games) && RowsReferenceGames(va, games) && RowsReferenceGames(pg, games)
    ensures FindGame(games, g.id).None? && FindGame(games + [g], g.id).Some?
    ensures GameTableValid(games + [g], nextId + 1)
    ensures LinesReferenceGames(lines, games + [g])
    ensures RowsReferenceGames(va, games + [g]) && RowsReferenceGames(pg, games + [g])
  {
    AppendGameValid(games, g, nextId);
    AppendKeepsIds(games, g);
    ReferencesKept(games, games + [g], lines, va, pg);
  }

  /** The update keeps the games table valid and every foreign key onto it,
      and the form's id finds a game afterwards exactly when it did before. */
  lemma UpdatedGamesKeepTables(games: seq<Game>, data: NewGameVM, nextId: int, lines: seq<CartLine>,
                               va: seq<JoinRow>, pg: seq<JoinRow>)
    requires GameTableValid(games, nextId)
    requires LinesReferenceGames(lines, games) && RowsReferenceGames(va, games) && RowsReferenceGames(pg, games)
    ensures var r := UpdatedGames(games, data);
      && GameTableValid(r, nextId)
      && LinesReferenceGames(lines, r) && RowsReferenceGames(va, r) && RowsReferenceGames(pg, r)
      && (FindGame(r, data.id).Some? <==> FindGame(games, data.id).Some?)
  {
    UpdatedGamesValid(games, data, nextId);
    UpdatedGamesKeepsIds(games, data);
    ReferencesKept(games, UpdatedGames(games, data), lines, va, pg);
    UpdatedGamesEffect(games, data, data.id);
  }

  // ----- the lookup lists -----

  /** NewGameDropdownVM: the lists the create/edit form chooses from. */
  datatype NewGameDropdown = NewGameDropdown(
    voiceActors: seq<VoiceActor>,
    publishers: seq<GamePublisher>,
    developers: seq<GameDeveloper>,
    platforms: seq<Platform>,
    ratings: seq<GameRating>)

  function FullNameOf(): VoiceActor -> string { (a: VoiceActor) => a.fullName }
  function PublisherNameOf(): GamePublisher -> string { (p: GamePublisher) => p.name }
  function DeveloperNameOf(): GameDeveloper -> string { (d: GameDeveloper) => d.name }
  function PlatformNameOf(): Platform -> string { (p: Platform) => p.name }
  function RatingNameOf(): GameRating -> string { (r: GameRating) => r.name }

  /** A game with the rows of its join tables (the Include/ThenInclude
      navigations of GetGameByIdAsync). */
  datatype GameDetails = GameDetails(game: Game, voiceActorRows: seq<JoinRow>, platformRows: seq<JoinRow>)

  class GameService {
    const db: StoreDb

    constructor (db: StoreDb)
      ensures this.db == db
    {
      this.db := db;
    }

    /** AddNewGameAsync: insert the game built from the form under the next
        identity, then one voice actor row and one platform row per supplied
        id, all naming the new game. */
    method AddNewGame(data: NewGameVM) returns (added: Game)
      requires db.Valid()
      modifies db`games, db`nextGameId, db`voiceActorGames, db`platformGames
      ensures db.Valid()
      ensures added == GameFromVM(data, old(db.nextGameId))
      ensures FindGame(old(db.games), added.id).None?
      ensures db.games == old(db.games) + [added] && db.nextGameId == old(db.nextGameId) + 1
      ensures db.voiceActorGames == old(db.voiceActorGames) + JoinRowsFor(added.id, SuppliedIds(data.voiceActorIds))
      ensures db.platformGames == old(db.platformGames) + JoinRowsFor(added.id, SuppliedIds(data.platformIds))
    {
      added := GameFromVM(data, db.nextGameId);
      AppendGameKeepsTables(db.games, added, db.nextGameId, db.cartLines, db.voiceActorGames, db.platformGames);
      db.SaveGames(db.games + [added], db.nextGameId + 1);
      AddVoiceActorRows(added.id, SuppliedIds(data.voiceActorIds));
      AddPlatformRows(added.id, SuppliedIds(data.platformIds));
    }

    /** The RemoveRange of a game's rows from both join tables, and its saves. */
    method RemoveGameRows(gameId: int)
      requires db.Valid()
      modifies db`voiceActorGames, db`platformGames
      ensures db.Valid()
      ensures db.voiceActorGames == WithoutGame(old(db.voiceActorGames), gameId)
      ensures db.platformGames == WithoutGame(old(db.platformGames), gameId)
    {
      db.SaveVoiceActorGames(WithoutGame(db.voiceActorGames, gameId));
      db.SavePlatformGames(WithoutGame(db.platformGames, gameId));
    }

    /** A foreach loop over VoiceActorIds and its save: one row per id, all
        naming the stored game. */
    method AddVoiceActorRows(gameId: int, ids: seq<int>)
      requires db.Valid() && FindGame(db.games, gameId).Some?
      modifies db`voiceActorGames
      ensures db.Valid()
      ensures db.voiceActorGames == old(db.voiceActorGames) + JoinRowsFor(gameId, ids)
    {
      var rows := StageJoinRows(gameId, ids);
      NewRowsReferenceGames(db.voiceActorGames, db.games, gameId, ids);
      db.SaveVoiceActorGames(db.voiceActorGames + rows);
    }

    /** A foreach loop over PlatformIds and its save: one row per id, all
        naming the stored game. */
    method AddPlatformRows(gameId: int, ids: seq<int>)
      requires db.Valid() && FindGame(db.games, gameId).Some?
      modifies db`platformGames
      ensures db.Valid()
      ensures db.platformGames == old(db.platformGames) + JoinRowsFor(gameId, ids)
    {
      var rows := StageJoinRows(gameId, ids);
      NewRowsReferenceGames(db.platformGames, db.games, gameId, ids);
      db.SavePlatformGames(db.platformGames + rows);
    }

    /** GetGameByIdAsync: the game with the id and its join rows, or None (null)
        when no game has that id. */
    function GetGameById(id: int): (r: Option<GameDetails>)
      reads db
      ensures r.Some? ==> r.value.game in db.games && r.value.game.id == id
      ensures r.None? <==> forall g :: g in db.games ==> g.id != id
      ensures r.Some? ==> forall row :: row in r.value.voiceActorRows <==> row in db.voiceActorGames && row.gameId == id
      ensures r.Some? ==> forall row :: row in r.value.platformRows <==> row in db.platformGames && row.gameId == id
    {
      match FindGame(db.games, id)
      case None => None
      case Some(g) => Some(GameDetails(g, RowsOf(db.voiceActorGames, id), RowsOf(db.platformGames, id)))
    }

    /** GetNewGameDropDownValues: each lookup table in full, ordered by name
        (voice actors by full name). */
    function GetNewGameDropDownValues(): (r: NewGameDropdown)
      reads db
      ensures SortedBy(r.voiceActors, FullNameOf()) && multiset(r.voiceActors) == multiset(db.voiceActors)
      ensures SortedBy(r.publishers, PublisherNameOf()) && multiset(r.publishers) == multiset(db.publishers)
      ensures SortedBy(r.developers, DeveloperNameOf()) && multiset(r.developers) == multiset(db.developers)
      ensures SortedBy(r.platforms, PlatformNameOf()) && multiset(r.platforms) == multiset(db.platforms)
      ensures SortedBy(r.ratings, RatingNameOf()) && multiset(r.ratings) == multiset(db.ratings)
    {
      NewGameDropdown(
        SortBy(db.voiceActors, FullNameOf()),
        SortBy(db.publishers, PublisherNameOf()),
        SortBy(db.developers, DeveloperNameOf()),
        SortBy(db.platforms, PlatformNameOf()),
        SortBy(db.ratings, RatingNameOf()))
    }

    /** The first part of UpdateGameAsync: the stored game with the form's id,
        if any, takes the form's fields and is saved. */
    method UpdateGameFields(data: NewGameVM) returns (stored: bool)
      requires db.Valid()
      modifies db`games, db`nextGameId
      ensures db.Valid()
      ensures stored <==> FindGame(old(db.games), data.id).Some?
      ensures db.games == UpdatedGames(old(db.games), data) && unchanged(db`nextGameId)
      ensures FindGame(db.games, data.id).Some? <==> stored
    {
      stored := false;
      match FindGameIndex(db.games, data.id) {
        case None =>
        case Some(i) =>
          stored := true;
          UpdatedGamesKeepTables(db.games, data, db.nextGameId, db.cartLines, db.voiceActorGames, db.platformGames);
          db.SaveGames(db.games[i := ApplyVM(db.games[i], data)], db.nextGameId);
      }
    }

    /** UpdateGameAsync: overwrite the stored game's fields, remove the game's
        rows from both join tables, then add one row per supplied id. When no
        game has the form's id the removal still happens, but a save of added
        rows breaks the foreign key onto the games table and fails (saved ==
        false); no rows are then added for it. */
    method UpdateGame(data: NewGameVM) returns (saved: bool)
      requires db.Valid()
      modifies db`games, db`nextGameId, db`voiceActorGames, db`platformGames
      ensures db.Valid()
      ensures db.games == UpdatedGames(old(db.games), data) && unchanged(db`nextGameId)
      ensures saved <==> (FindGame(old(db.games), data.id).Some? ||
        (SuppliedIds(data.voiceActorIds) == [] && SuppliedIds(data.platformIds) == []))
      ensures db.voiceActorGames == WithoutGame(old(db.voiceActorGames), data.id) +
        JoinRowsFor(data.id, if FindGame(old(db.games), data.id).Some? then SuppliedIds(data.voiceActorIds) else [])
      ensures db.platformGames == WithoutGame(old(db.platformGames), data.id) +
        JoinRowsFor(data.id, if FindGame(old(db.games), data.id).Some? then SuppliedIds(data.platformIds) else [])
    {
      var stored := UpdateGameFields(data);
      RemoveGameRows(data.id);
      saved := true;
      var voiceActorIds := SuppliedIds(data.voiceActorIds);
      if |voiceActorIds| > 0 {
        if !stored {
          saved := false;
          return;
        }
        AddVoiceActorRows(data.id, voiceActorIds);
      }
      var platformIds := SuppliedIds(data.platformIds);
      if |platformIds| > 0 {
        if !stored {
          saved := false;
          return;
        }
        AddPlatformRows(data.id, platformIds);
      }
    }
  }
}
