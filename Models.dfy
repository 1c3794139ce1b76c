/** The maze graph and the game aggregate: locations joined by directed, typed
    paths, obstacles that block paths, characters standing on locations, and
    the players who share control of them. */
module Models {
  import opened Wrappers
  import opened Enumerable

  datatype PathType = West | East | North | South | Portal

  datatype ObstacleType = ForceField | Lock | Stone | Ghost

  datatype CharacterClass = Mage | Rogue | Warrior | Cleric

  /** The ten actions that can be delegated to players. */
  datatype ActionName =
    | MoveWest | MoveEast | MoveNorth | MoveSouth | UsePortal
    | ClearObstacle | Teleport | Disarm | Smash | Heal

  datatype Location = Location(id: int, isDiscovered: bool)

  /** A directed path; a two-way corridor is two paths. */
  datatype Path = Path(id: int, from: int, to: int, pathType: PathType, isDiscovered: bool)

  datatype Obstacle = Obstacle(id: int, obstacleType: ObstacleType, blockedPathIds: seq<int>, isDiscovered: bool)

  datatype Character = Character(id: int, characterClass: CharacterClass, locationId: int)

  datatype Player = Player(id: int, name: string, actions: seq<ActionName>)

  /** `id` is unset until a world has been loaded into the game. */
  datatype World = World(
    id: Option<string>,
    locations: seq<Location>,
    paths: seq<Path>,
    obstacles: seq<Obstacle>,
    characters: seq<Character>)

  /** One entity touched by an event, reported for change notification. */
  datatype Resource =
    | PlayerResource(player: Player)
    | CharacterResource(character: Character)
    | LocationResource(location: Location)
    | ObstacleResource(obstacle: Obstacle)
    | PathResource(path: Path)

  /** The exceptions the engine throws: a `Single` lookup that matched zero or
      several entities, a `SingleOrDefault` that matched several, the two
      explicit guards, an event that cannot apply itself, and `First` on an
      empty stream or on a stream that does not open with `GameCreated`. */
  datatype Failure =
    | NoSingleLocation(locationId: int)
    | NoSingleCharacter(characterId: int)
    | NoSingleObstacle(obstacleId: int)
    | NoSinglePath(pathId: int)
    | NoSinglePlayer(playerId: int)
    | SeveralNextPaths(locationId: int)
    | LocationAlreadyDiscovered(locationId: int)
    | WorldAlreadyLoaded
    | NotApplicable
    | NoFirstEvent
    | NotGameCreated

  const EmptyWorld := World(None, [], [], [], [])

  /** The state of a game apart from its identifier. */
  datatype GameState = GameState(world: World, players: seq<Player>, randomSeed: int)

  /** What applying an event leaves: the new state and the resources it
      reports as touched, in the order it yields them. */
  datatype Applied = Applied(state: GameState, found: seq<Resource>)

  /** An in-place application from `s` to `s'` returning `r` did what `spec`
      says. A failing application throws in the source, which discards the
      game, so only its failure is described. */
  predicate Performs(s: GameState, spec: Result<Applied, Failure>, s': GameState, r: Result<seq<Resource>, Failure>) {
    if spec.Ok? then r == Ok(spec.value.found) && s' == spec.value.state
    else r == Err(spec.error)
  }

  /** The aggregate that events are applied to. */
  class Game {
    const id: string
    var world: World
    var players: seq<Player>
    var randomSeed: int

    /** `new Game(id)`: nothing loaded, nobody joined, seed unset (zero). */
    constructor (id: string)
      ensures this.id == id && State() == GameState(EmptyWorld, [], 0)
    {
      this.id := id;
      world := EmptyWorld;
      players := [];
      randomSeed := 0;
    }

    /** `new Game(id, world)`. */
    constructor WithWorld(id: string, world: World)
      ensures this.id == id && State() == GameState(world, [], 0)
    {
      this.id := id;
      this.world := world;
      players := [];
      randomSeed := 0;
    }

    function State(): GameState
      reads this
    {
      GameState(world, players, randomSeed)
    }
  }

  function LocationIndex(locations: seq<Location>, id: int): Option<nat> {
    SingleIndex(locations, (l: Location) => l.id == id)
  }

  function PathIndex(paths: seq<Path>, id: int): Option<nat> {
    SingleIndex(paths, (p: Path) => p.id == id)
  }

  /** Some obstacle lists `pathId` among the paths it blocks. */
  predicate IsBlocked(obstacles: seq<Obstacle>, pathId: int) {
    exists k :: 0 <= k < |obstacles| && pathId in obstacles[k].blockedPathIds
  }

  predicate UniqueLocationIds(locations: seq<Location>) {
    forall i, j :: 0 <= i < j < |locations| ==> locations[i].id != locations[j].id
  }

  predicate HasLocation(locations: seq<Location>, id: int) {
    exists i :: 0 <= i < |locations| && locations[i].id == id
  }

  /** Location ids are unique and every path endpoint names a location:
      then no `Single` lookup of a location reached along a path fails. */
  predicate WellFormed(w: World) {
    && UniqueLocationIds(w.locations)
    && forall k :: 0 <= k < |w.paths| ==>
         HasLocation(w.locations, w.paths[k].from) && HasLocation(w.locations, w.paths[k].to)
  }

  lemma LocationIndexUnique(locations: seq<Location>, i: nat)
    requires UniqueLocationIds(locations) && i < |locations|
    ensures LocationIndex(locations, locations[i].id) == Some(i)
  {
    var r := LocationIndex(locations, locations[i].id);
    if r.None? {
      var j :| 0 <= j < |locations| && j != i && locations[j].id == locations[i].id;
      assert false;
    }
  }
}
