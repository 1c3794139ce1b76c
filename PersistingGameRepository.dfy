/** The game reader over the persistent store
    (src/MAZE.Persisting/GameRepository.cs): both reads fold the stored
    events into a new game, and one of them also passes on the stream's
    version. The store's answer is a parameter, since the store itself is
    a remote client. */
module PersistingGameRepository {
  import opened Wrappers
  import opened Models
  import opened Errors
  import opened Events

  /** What `GetGameAsync` answers when the store answered `stored`. */
  function ReadGame(stored: Result<seq<Event>, ReadGameError>): (r: Result<GameState, Fault<ReadGameError>>)
    ensures stored.Err? ==> r == Err(Returned(stored.error))
    ensures stored.Ok? && Replay(NewGame, stored.value).Ok? ==> r == Ok(Replay(NewGame, stored.value).value)
    ensures stored.Ok? && Replay(NewGame, stored.value).Err? ==> r == Err(Thrown(Replay(NewGame, stored.value).error))
  {
    match stored
    case Err(e) => Err(Returned(e))
    case Ok(events) =>
      match Replay(NewGame, events)
      case Err(f) => Err(Thrown(f))
      case Ok(s) => Ok(s)
  }

  /** What `GetGameAndVersionAsync` answers when the store answered `stored`. */
  function ReadGameAndVersion(stored: Result<(seq<Event>, int), ReadGameError>): (r: Result<(GameState, int), Fault<ReadGameError>>)
    ensures stored.Err? ==> r == Err(Returned(stored.error))
    ensures r.Ok? ==> stored.Ok? && r.value.1 == stored.value.1
  {
    match stored
    case Err(e) => Err(Returned(e))
    case Ok((events, version)) =>
      match Replay(NewGame, events)
      case Err(f) => Err(Thrown(f))
      case Ok(s) => Ok((s, version))
  }

  /** Both reads rebuild the same game from the same events; the versioned
      read only adds the store's version. */
  lemma ReadsAgree(events: seq<Event>, version: int)
    ensures ReadGame(Ok(events)).Ok? <==> ReadGameAndVersion(Ok((events, version))).Ok?
    ensures ReadGame(Ok(events)).Ok? ==>
              ReadGameAndVersion(Ok((events, version))).value == (ReadGame(Ok(events)).value, version)
    ensures ReadGame(Ok(events)).Err? ==>
              ReadGameAndVersion(Ok((events, version))).error == ReadGame(Ok(events)).error
  {
  }

  /** An empty history is a new game with only its id set. */
  lemma EmptyHistoryIsNewGame(version: int)
    ensures ReadGame(Ok([])) == Ok(NewGame)
    ensures ReadGameAndVersion(Ok(([], version))) == Ok((NewGame, version))
  {
  }

  /** The private `CreateGame`: `new Game(gameId)`, then every event applied
      in sequence order. */
  method CreateGame(gameId: string, events: seq<Event>) returns (r: Result<Game, Failure>)
    ensures Replay(NewGame, events).Err? ==> r == Err(Replay(NewGame, events).error)
    ensures Replay(NewGame, events).Ok? ==>
              r.Ok? && fresh(r.value) && r.value.id == gameId && r.value.State() == Replay(NewGame, events).value
  {
    var game := new Game(gameId);
    var i := 0;
    while i < |events|
      invariant i <= |events| && game.id == gameId
      invariant Replay(NewGame, events) == Replay(game.State(), events[i..])
    {
      ReplayUnfold(game.State(), events, i);
      var applied := ApplyToGame(events[i], game);
      if applied.Err? {
        return Err(applied.error);
      }
      i := i + 1;
    }
    assert events[i..] == [];
    r := Ok(game);
  }

  /** `GetGameAsync`: the store's error, or the game folded from its events. */
  method GetGame(gameId: string, stored: Result<seq<Event>, ReadGameError>) returns (r: Result<Game, Fault<ReadGameError>>)
    ensures ReadGame(stored).Err? ==> r == Err(ReadGame(stored).error)
    ensures ReadGame(stored).Ok? ==>
              r.Ok? && fresh(r.value) && r.value.id == gameId && r.value.State() == ReadGame(stored).value
  {
    if stored.Err? {
      return Err(Returned(stored.error));
    }
    var game := CreateGame(gameId, stored.value);
    if game.Err? {
      return Err(Thrown(game.error));
    }
    r := Ok(game.value);
  }

  /** `GetGameAndVersionAsync`: as `GetGame`, with the store's version
      passed through. */
  method GetGameAndVersion(gameId: string, stored: Result<(seq<Event>, int), ReadGameError>)
    returns (r: Result<(Game, int), Fault<ReadGameError>>)
    ensures ReadGameAndVersion(stored).Err? ==> r == Err(ReadGameAndVersion(stored).error)
    ensures ReadGameAndVersion(stored).Ok? ==>
              && r.Ok? && fresh(r.value.0) && r.value.0.id == gameId
              && r.value.0.State() == ReadGameAndVersion(stored).value.0
              && r.value.1 == ReadGameAndVersion(stored).value.1
  {
    if stored.Err? {
      return Err(Returned(stored.error));
    }
    var (events, version) := stored.value;
    var game := CreateGame(gameId, events);
    if game.Err? {
      return Err(Thrown(game.error));
    }
    r := Ok((game.value, version));
  }
}
