/** The stored events and how they change a game (src/MAZE/Event.cs and
    src/MAZE/Events/): each event is applied to a game in place and reports
    the resources it touched; a game is rebuilt by applying its stored
    events in order. */
module Events {
  import opened Wrappers
  import opened Models
  import WorldLoadedEvent = WorldLoaded
  import CharacterMovedEvent = CharacterMoved
  import ObstacleRemovedEvent = ObstacleRemoved
  import PlayerJoinedEvent = PlayerJoined
  import PlayerLeftEvent = PlayerLeft
  import RandomSeedSetEvent = RandomSeedSet

  /** Every kind of event a game's stream can hold. `GameCreated` is stored
      by `MAZE.GameService` but has no way to apply itself to a game. */
  datatype Event =
    | WorldLoaded(payload: WorldLoadedEvent.Payload)
    | CharacterMoved(characterId: int, newLocationId: int)
    | ObstacleRemoved(obstacleId: int)
    | PlayerJoined(newPlayer: Player)
    | PlayerLeft(playerId: int)
    | RandomSeedSet(randomSeed: int)
    | GameCreated(world: World)

  /** `ApplyToGame`, as the function it computes, for every kind of event. */
  function Apply(e: Event, s: GameState): (r: Result<Applied, Failure>)
    ensures e.GameCreated? <==> r == Err(NotApplicable)
    // only the world events touch the world; only the roster events touch the players
    ensures r.Ok? && (e.PlayerJoined? || e.PlayerLeft? || e.RandomSeedSet?) ==> r.value.state.world == s.world
    ensures (r.Ok? && (e.WorldLoaded? || e.CharacterMoved? || e.ObstacleRemoved? || e.RandomSeedSet?))
              ==> r.value.state.players == s.players
    ensures r.Ok? && !e.RandomSeedSet? ==> r.value.state.randomSeed == s.randomSeed
  {
    match e
    case WorldLoaded(payload) => WorldLoadedEvent.Apply(payload, s)
    case CharacterMoved(characterId, newLocationId) =>
      var r := CharacterMovedEvent.Apply(characterId, newLocationId, s);
      assert r.Err? ==> r.error != NotApplicable;
      r
    case ObstacleRemoved(obstacleId) =>
      var r := ObstacleRemovedEvent.Apply(obstacleId, s);
      assert r.Err? ==> r.error != NotApplicable;
      r
    case PlayerJoined(newPlayer) => PlayerJoinedEvent.Apply(newPlayer, s)
    case PlayerLeft(playerId) => PlayerLeftEvent.Apply(playerId, s)
    case RandomSeedSet(randomSeed) => RandomSeedSetEvent.Apply(randomSeed, s)
    case GameCreated(_) => Err(NotApplicable)
  }

  /** `event.ApplyToGame(game)` on any kind of event. */
  method ApplyToGame(e: Event, game: Game) returns (r: Result<seq<Resource>, Failure>)
    modifies game
    ensures Performs(old(game.State()), Apply(e, old(game.State())), game.State(), r)
  {
    match e
    case WorldLoaded(payload) => r := WorldLoadedEvent.ApplyToGame(payload, game);
    case CharacterMoved(characterId, newLocationId) => r := CharacterMovedEvent.ApplyToGame(characterId, newLocationId, game);
    case ObstacleRemoved(obstacleId) => r := ObstacleRemovedEvent.ApplyToGame(obstacleId, game);
    case PlayerJoined(newPlayer) => r := PlayerJoinedEvent.ApplyToGame(newPlayer, game);
    case PlayerLeft(playerId) => r := PlayerLeftEvent.ApplyAndGetModifiedResources(playerId, game);
    case RandomSeedSet(randomSeed) => r := RandomSeedSetEvent.ApplyAndGetModifiedResources(randomSeed, game);
    case GameCreated(_) => r := Err(NotApplicable);
  }

  /** Events that leave the world alone. */
  predicate KeepsWorld(e: Event) {
    e.PlayerJoined? || e.PlayerLeft? || e.RandomSeedSet?
  }

  /** Events that leave the players alone. */
  predicate KeepsPlayers(e: Event) {
    e.WorldLoaded? || e.CharacterMoved? || e.ObstacleRemoved? || e.RandomSeedSet?
  }

  /** Applying `events` to `s`, each once and in order; the first failure
      ends the replay. A
      history of roster events leaves the world as it was, a history of
      world events leaves the players, and without a seed event the seed is
      kept. */
  function Replay(s: GameState, events: seq<Event>): (r: Result<GameState, Failure>)
    ensures events == [] ==> r == Ok(s)
    ensures r.Ok? && (forall i :: 0 <= i < |events| ==> KeepsWorld(events[i])) ==> r.value.world == s.world
    ensures r.Ok? && (forall i :: 0 <= i < |events| ==> KeepsPlayers(events[i])) ==> r.value.players == s.players
    ensures r.Ok? && (forall i :: 0 <= i < |events| ==> !events[i].RandomSeedSet?) ==> r.value.randomSeed == s.randomSeed
    decreases |events|
  {
    if events == [] then Ok(s)
    else
      assert forall i :: 1 <= i < |events| ==> events[1..][i - 1] == events[i];
      match Apply(events[0], s)
      case Err(e) => Err(e)
      case Ok(a) => Replay(a.state, events[1..])
  }

  /** The state of `new Game(id)`, which every rebuild starts from. */
  const NewGame := GameState(EmptyWorld, [], 0)

  /** Replaying a history in two parts is replaying it whole: the second
      part starts from the state the first part left. */
  lemma {:induction false} ReplayAppend(s: GameState, first: seq<Event>, second: seq<Event>)
    ensures Replay(s, first + second)
         == match Replay(s, first)
            case Err(e) => Err(e)
            case Ok(t) => Replay(t, second)
    decreases |first|
  {
    if first == [] {
      assert first + second == second;
    } else {
      assert (first + second)[0] == first[0];
      assert (first + second)[1..] == first[1..] + second;
      match Apply(first[0], s)
      case Err(_) =>
      case Ok(a) => ReplayAppend(a.state, first[1..], second);
    }
  }

  /** One more event extends a replay by one application. */
  lemma ReplayStep(s: GameState, events: seq<Event>, e: Event)
    ensures Replay(s, events + [e])
         == match Replay(s, events)
            case Err(err) => Err(err)
            case Ok(t) => match Apply(e, t) case Err(err) => Err(err) case Ok(a) => Ok(a.state)
  {
    ReplayAppend(s, events, [e]);
    match Replay(s, events)
    case Err(_) =>
    case Ok(t) =>
      assert [e][1..] == [];
  }

  /** A stored `GameCreated` makes every replay through it fail. */
  lemma GameCreatedCannotBeReplayed(s: GameState, events: seq<Event>, i: nat)
    requires i < |events| && events[i].GameCreated?
    ensures Replay(s, events).Err?
  {
    ReplayAppend(s, events[..i], events[i..]);
    assert events[..i] + events[i..] == events;
    match Replay(s, events[..i])
    case Err(_) =>
    case Ok(t) =>
      assert Apply(events[i..][0], t) == Err(NotApplicable);
  }

  /** The next step of a replay that has reached event `i`. */
  lemma ReplayUnfold(s: GameState, events: seq<Event>, i: nat)
    requires i < |events|
    ensures Replay(s, events[i..])
         == match Apply(events[i], s)
            case Err(e) => Err(e)
            case Ok(a) => Replay(a.state, events[i + 1..])
  {
    assert events[i..][0] == events[i];
    assert events[i..][1..] == events[i + 1..];
  }
}
