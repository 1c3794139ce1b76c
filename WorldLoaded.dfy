/** The `WorldLoaded` event (src/MAZE/Events/WorldLoaded.cs): installs a
    world's id, locations, paths and obstacles into a game that has no world
    yet, and reports every installed entity. */
module WorldLoaded {
  import opened Wrappers
  import opened Models

  /** The event's payload. Events are values here, so the copies the
      constructor takes are implicit. */
  datatype Payload = Payload(id: string, locations: seq<Location>, paths: seq<Path>, obstacles: seq<Obstacle>)

  function LocationResources(ls: seq<Location>): seq<Resource> {
    seq(|ls|, i requires 0 <= i < |ls| => LocationResource(ls[i]))
  }

  function PathResources(ps: seq<Path>): seq<Resource> {
    seq(|ps|, i requires 0 <= i < |ps| => PathResource(ps[i]))
  }

  function ObstacleResources(os: seq<Obstacle>): seq<Resource> {
    seq(|os|, i requires 0 <= i < |os| => ObstacleResource(os[i]))
  }

  /** `ApplyToGame`, as the function it computes: fails when a world is
      already loaded; otherwise sets the world id, appends the three lists
      in order and reports locations, then paths, then obstacles. */
  function Apply(e: Payload, s: GameState): (r: Result<Applied, Failure>)
    ensures r.Err? <==> s.world.id.Some?
    ensures r.Err? ==> r.error == WorldAlreadyLoaded
    ensures r.Ok? ==>
      var w := r.value.state.world;
      && w.id == Some(e.id)
      && w.locations == s.world.locations + e.locations
      && w.paths == s.world.paths + e.paths
      && w.obstacles == s.world.obstacles + e.obstacles
      && w.characters == s.world.characters
      && r.value.state.players == s.players
      && r.value.state.randomSeed == s.randomSeed
    ensures r.Ok? ==> |r.value.found| == |e.locations| + |e.paths| + |e.obstacles|
    ensures r.Ok? ==>
      var f, nl, np := r.value.found, |e.locations|, |e.paths|;
      && (forall i :: 0 <= i < nl ==> f[i] == LocationResource(e.locations[i]))
      && (forall i :: 0 <= i < np ==> f[nl + i] == PathResource(e.paths[i]))
      && (forall i :: 0 <= i < |e.obstacles| ==> f[nl + np + i] == ObstacleResource(e.obstacles[i]))
  {
    if s.world.id.Some? then Err(WorldAlreadyLoaded)
    else
      var w := s.world.(
        id := Some(e.id),
        locations := s.world.locations + e.locations,
        paths := s.world.paths + e.paths,
        obstacles := s.world.obstacles + e.obstacles);
      Ok(Applied(s.(world := w), LocationResources(e.locations) + PathResources(e.paths) + ObstacleResources(e.obstacles)))
  }

  /** A world is loaded at most once: after one load, every later load fails. */
  lemma LoadsOnce(first: Payload, second: Payload, s: GameState)
    requires Apply(first, s).Ok?
    ensures Apply(second, Apply(first, s).value.state) == Err(WorldAlreadyLoaded)
  {
  }

  /** Loading into a fresh game yields exactly the event's world. */
  lemma LoadIntoFreshGame(e: Payload)
    ensures Apply(e, GameState(EmptyWorld, [], 0))
         == Ok(Applied(GameState(World(Some(e.id), e.locations, e.paths, e.obstacles, []), [], 0),
                       LocationResources(e.locations) + PathResources(e.paths) + ObstacleResources(e.obstacles)))
  {
    assert [] + e.locations == e.locations && [] + e.paths == e.paths && [] + e.obstacles == e.obstacles;
  }

  /** `ApplyToGame`: the guard, then `AddRange` and a `yield` loop for each
      of the three lists. */
  method ApplyToGame(e: Payload, game: Game) returns (r: Result<seq<Resource>, Failure>)
    modifies game
    ensures Performs(old(game.State()), Apply(e, old(game.State())), game.State(), r)
  {
    if game.world.id.Some? {
      return Err(WorldAlreadyLoaded);
    }
    game.world := game.world.(id := Some(e.id));
    var found: seq<Resource> := [];

    game.world := game.world.(locations := game.world.locations + e.locations);
    for i := 0 to |e.locations|
      invariant found == LocationResources(e.locations[..i])
    {
      found := found + [LocationResource(e.locations[i])];
    }
    assert e.locations[..|e.locations|] == e.locations;
    ghost var locationsFound := found;

    game.world := game.world.(paths := game.world.paths + e.paths);
    for i := 0 to |e.paths|
      invariant found == locationsFound + PathResources(e.paths[..i])
    {
      found := found + [PathResource(e.paths[i])];
    }
    assert e.paths[..|e.paths|] == e.paths;
    ghost var pathsFound := found;

    game.world := game.world.(obstacles := game.world.obstacles + e.obstacles);
    for i := 0 to |e.obstacles|
      invariant found == pathsFound + ObstacleResources(e.obstacles[..i])
    {
      found := found + [ObstacleResource(e.obstacles[i])];
    }
    assert e.obstacles[..|e.obstacles|] == e.obstacles;
    r := Ok(found);
  }
}
