/** The in-memory game reader (src/MAZE/GameRepository.cs): hands out game
    numbers from a counter, and rebuilds a game by applying its stored
    events, in order, to a new game. */
module GameRepository {
  import opened Wrappers
  import opened Models
  import opened Errors
  import opened Counters
  import opened Events
  import opened EventRepository

  /** What `GetGame` answers for a store holding `events`. */
  function Read(events: map<string, seq<Event>>, id: string): (r: Result<GameState, Fault<ReadEventsError>>)
    ensures id !in events ==> r == Err(Returned(ReadEventsError.GameNotFound))
    ensures r.Err? && r.error.Returned? ==> id !in events
    ensures id in events && Replay(NewGame, events[id]).Ok? ==> r == Ok(Replay(NewGame, events[id]).value)
    ensures id in events && Replay(NewGame, events[id]).Err? ==> r == Err(Thrown(Replay(NewGame, events[id]).error))
  {
    match Lookup(events, id)
    case Err(e) => Err(Returned(e))
    case Ok(history) =>
      match Replay(NewGame, history)
      case Err(f) => Err(Thrown(f))
      case Ok(s) => Ok(s)
  }

  /** A game with no stored events reads back as a new game. */
  lemma EmptyHistoryReadsAsNewGame(events: map<string, seq<Event>>, id: string)
    requires id in events && events[id] == []
    ensures Read(events, id) == Ok(NewGame)
  {
  }

  /** Appending one event moves a readable game on by exactly that event:
      earlier events are not applied again. */
  lemma ReadAfterAdd(events: map<string, seq<Event>>, id: string, e: Event)
    requires Read(events, id).Ok?
    ensures Read(Added(events, id, e), id)
         == match Apply(e, Read(events, id).value)
            case Err(f) => Err(Thrown(f))
            case Ok(a) => Ok(a.state)
  {
    ReplayStep(NewGame, events[id], e);
  }

  class GameRepository {
    const eventRepository: EventRepository
    /** The source's counter is static; here each repository has its own. */
    var gameCounter: int32

    constructor (eventRepository: EventRepository)
      ensures this.eventRepository == eventRepository && gameCounter == 0
    {
      this.eventRepository := eventRepository;
      gameCounter := 0;
    }

    /** Hands out the counter's value and moves it on; stores nothing. */
    method CreateGame() returns (newGameId: int32)
      modifies this
      ensures newGameId == old(gameCounter)
      ensures gameCounter == Increment(old(gameCounter))
      ensures unchanged(eventRepository)
    {
      newGameId := gameCounter;
      gameCounter := Increment(gameCounter);
    }

    /** Looks the events up and applies each to `new Game(id)`; the store's
        error is passed on unchanged, and an event that throws ends the read. */
    method GetGame(id: string) returns (r: Result<Game, Fault<ReadEventsError>>)
      ensures Read(eventRepository.events, id).Err? ==> r == Err(Read(eventRepository.events, id).error)
      ensures Read(eventRepository.events, id).Ok? ==>
                r.Ok? && fresh(r.value) && r.value.id == id && r.value.State() == Read(eventRepository.events, id).value
    {
      var result := eventRepository.GetEvents(id);
      if result.Err? {
        return Err(Returned(result.error));
      }
      var events := result.value;
      var game := new Game(id);
      for i := 0 to |events|
        invariant game.id == id
        invariant Replay(NewGame, events) == Replay(game.State(), events[i..])
      {
        ReplayUnfold(game.State(), events, i);
        var applied := ApplyToGame(events[i], game);
        if applied.Err? {
          return Err(Thrown(applied.error));
        }
      }
      assert events[|events|..] == [];
      r := Ok(game);
    }
  }
}
