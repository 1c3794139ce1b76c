/** Game creation and the world read (src/MAZE/GameService.cs): a new game
    is a decimal string id from a counter plus one stored `GameCreated`
    event, and reading a game gives back the world that event carries. */
module GameService {
  import opened Wrappers
  import opened Models
  import opened Errors
  import opened Counters
  import opened Events
  import opened EventRepository

  /** The only store error there is becomes `NotFound`. */
  function ToReadGameError(e: ReadEventsError): (r: ReadGameError)
    ensures e == ReadEventsError.GameNotFound ==> r == ReadGameError.NotFound
  {
    match e
    case GameNotFound => ReadGameError.NotFound
  }

  /** The world `GetGame` reads for `id`: the one carried by the first
      stored event. `First` throws on an empty list, and the first event
      must be the `GameCreated` that carries a world. */
  function StoredWorld(events: map<string, seq<Event>>, id: string): (r: Result<World, Fault<ReadGameError>>)
    ensures id !in events <==> r == Err(Returned(ReadGameError.NotFound))
    ensures r.Ok? <==> id in events && events[id] != [] && events[id][0].GameCreated?
    ensures r.Ok? ==> r.value == events[id][0].world
  {
    match Lookup(events, id)
    case Err(e) => Err(Returned(ToReadGameError(e)))
    case Ok(stream) =>
      if stream == [] then Err(Thrown(NoFirstEvent))
      else if stream[0].GameCreated? then Ok(stream[0].world)
      else Err(Thrown(NotGameCreated))
  }

  /** The game `CreateGame` stored under a fresh id reads back with the
      world it was given. */
  lemma CreatedGameReadsBack(events: map<string, seq<Event>>, id: string, world: World)
    requires id !in events
    ensures StoredWorld(Added(events, id, GameCreated(world)), id) == Ok(world)
  {
  }

  /** Later appends never change the world a game reads back with, since
      they leave the first event in place. */
  lemma LaterEventsKeepTheWorld(m: map<string, seq<Event>>, m': map<string, seq<Event>>, id: string)
    requires Extends(m, m') && StreamsNonEmpty(m)
    ensures id in m ==> StoredWorld(m', id) == StoredWorld(m, id)
  {
    if id in m {
      assert m[id][0] == m'[id][0];
    }
  }

  class GameService {
    const eventRepository: EventRepository
    /** The source's counter is static; here each service has its own. */
    var gameCounter: int32

    constructor (eventRepository: EventRepository)
      ensures this.eventRepository == eventRepository && gameCounter == 0
    {
      this.eventRepository := eventRepository;
      gameCounter := 0;
    }

    /** Takes the counter's decimal string as the id, moves the counter on,
        and stores one `GameCreated(world)` under the id. */
    method CreateGame(world: World) returns (newGameId: string)
      modifies this, eventRepository
      ensures newGameId == DecimalString(old(gameCounter) as int)
      ensures gameCounter == Increment(old(gameCounter))
      ensures eventRepository.events == Added(old(eventRepository.events), newGameId, GameCreated(world))
      ensures old(eventRepository.Valid()) ==> eventRepository.Valid()
    {
      newGameId := DecimalString(gameCounter as int);
      gameCounter := Increment(gameCounter);
      eventRepository.AddEvent(newGameId, GameCreated(world));
    }

    /** `new Game(id, world)` with the stored world, or the read's error. */
    method GetGame(id: string) returns (r: Result<Game, Fault<ReadGameError>>)
      ensures StoredWorld(eventRepository.events, id).Err? ==> r == Err(StoredWorld(eventRepository.events, id).error)
      ensures StoredWorld(eventRepository.events, id).Ok? ==>
                && r.Ok? && fresh(r.value) && r.value.id == id
                && r.value.State() == GameState(StoredWorld(eventRepository.events, id).value, [], 0)
    {
      var result := eventRepository.GetEvents(id);
      if result.Err? {
        return Err(Returned(ToReadGameError(result.error)));
      }
      var gameEvents := result.value;
      if gameEvents == [] {
        return Err(Thrown(NoFirstEvent));
      }
      var gameCreatedEvent := gameEvents[0];
      if !gameCreatedEvent.GameCreated? {
        return Err(Thrown(NotGameCreated));
      }
      var game := new Game.WithWorld(id, gameCreatedEvent.world);
      r := Ok(game);
    }
  }
}
