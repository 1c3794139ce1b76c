/** The `CharacterMoved` event (src/MAZE/Events/CharacterMoved.cs): puts a
    character on a new location and, when that location is still hidden,
    discovers it. */
module CharacterMoved {
  import opened Wrappers
  import opened Enumerable
  import opened Models
  import opened Discovery
  import opened Explorer

  function CharacterIndex(characters: seq<Character>, id: int): Option<nat> {
    SingleIndex(characters, (c: Character) => c.id == id)
  }

  /** The world once character `c` stands on `locationId`. */
  function Relocated(w: World, c: nat, locationId: int): World
    requires c < |w.characters|
  {
    w.(characters := w.characters[c := w.characters[c].(locationId := locationId)])
  }

  /** A successful move from `s` to `a`: the character `characterId` is the
      only one that changed, and only its location; it is reported first;
      the destination is discovered; the rest of the report is exactly what
      discovery revealed, and nothing was revealed unless the destination was
      hidden, in which case it is fully explored. */
  ghost predicate Moved(s: GameState, characterId: int, newLocationId: int, a: Applied) {
    && CharacterIndex(s.world.characters, characterId).Some?
    && LocationIndex(s.world.locations, newLocationId).Some?
    && var c := CharacterIndex(s.world.characters, characterId).value;
    && var i := LocationIndex(s.world.locations, newLocationId).value;
    && var moved := Relocated(s.world, c, newLocationId);
    && a.state.players == s.players && a.state.randomSeed == s.randomSeed
    && a.state.world.characters == moved.characters
    && a.found != [] && a.found[0] == CharacterResource(moved.characters[c])
    && Accounts(moved, a.state.world, a.found[1..])
    && a.state.world.locations[i].isDiscovered
    && (s.world.locations[i].isDiscovered ==> a.state.world == moved && a.found == [a.found[0]])
    && (!s.world.locations[i].isDiscovered ==> Explored(moved, newLocationId, Outcome(a.state.world, a.found[1..])))
  }

  /** `ApplyToGame`, as the function it computes. */
  function Apply(characterId: int, newLocationId: int, s: GameState): (r: Result<Applied, Failure>)
    // both lookups must find exactly one entity
    ensures CharacterIndex(s.world.characters, characterId).None? ==> r == Err(NoSingleCharacter(characterId))
    ensures (CharacterIndex(s.world.characters, characterId).Some? && LocationIndex(s.world.locations, newLocationId).None?)
              ==> r == Err(NoSingleLocation(newLocationId))
    // discovery is only started on a hidden location
    ensures r.Err? ==> r.error == NoSingleCharacter(characterId) || r.error.NoSingleLocation?
    ensures (WellFormed(s.world) && CharacterIndex(s.world.characters, characterId).Some?
              && LocationIndex(s.world.locations, newLocationId).Some?) ==> r.Ok?
    ensures r.Ok? ==> Moved(s, characterId, newLocationId, r.value)
  {
    match CharacterIndex(s.world.characters, characterId)
    case None => Err(NoSingleCharacter(characterId))
    case Some(c) =>
      var w1 := Relocated(s.world, c, newLocationId);
      var moved := CharacterResource(w1.characters[c]);
      match LocationIndex(w1.locations, newLocationId)
      case None => Err(NoSingleLocation(newLocationId))
      case Some(i) =>
        if w1.locations[i].isDiscovered then
          GrowsRefl(w1);
          assert [moved][1..] == [];
          Ok(Applied(s.(world := w1), [moved]))
        else
          match Discover(newLocationId, w1)
          case Err(e) => Err(e)
          case Ok(o) =>
            assert ([moved] + o.found)[1..] == o.found;
            Ok(Applied(s.(world := o.world), [moved] + o.found))
  }

  /** Moving onto an already discovered location reports the character only
      and changes no discovery flag. */
  lemma OntoDiscoveredLocation(characterId: int, newLocationId: int, s: GameState, i: nat)
    requires LocationIndex(s.world.locations, newLocationId) == Some(i)
    requires s.world.locations[i].isDiscovered
    requires Apply(characterId, newLocationId, s).Ok?
    ensures |Apply(characterId, newLocationId, s).value.found| == 1
    ensures Apply(characterId, newLocationId, s).value.state.world.locations == s.world.locations
    ensures Apply(characterId, newLocationId, s).value.state.world.paths == s.world.paths
    ensures Apply(characterId, newLocationId, s).value.state.world.obstacles == s.world.obstacles
  {
  }

  /** `ApplyToGame`: move the character, report it, look the destination up
      and discover it if it is hidden. */
  method ApplyToGame(characterId: int, newLocationId: int, game: Game) returns (r: Result<seq<Resource>, Failure>)
    modifies game
    ensures Performs(old(game.State()), Apply(characterId, newLocationId, old(game.State())), game.State(), r)
  {
    var c := CharacterIndex(game.world.characters, characterId);
    if c.None? {
      return Err(NoSingleCharacter(characterId));
    }
    var characterToMove := game.world.characters[c.value].(locationId := newLocationId);
    game.world := game.world.(characters := game.world.characters[c.value := characterToMove]);
    var found := [CharacterResource(characterToMove)];
    var newLocation := LocationIndex(game.world.locations, newLocationId);
    if newLocation.None? {
      return Err(NoSingleLocation(newLocationId));
    }
    if !game.world.locations[newLocation.value].isDiscovered {
      var discovered := DiscoverInPlace(newLocationId, game);
      if discovered.Err? {
        return Err(discovered.error);
      }
      found := found + discovered.value;
    }
    r := Ok(found);
  }
}
