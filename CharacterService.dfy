/** The character endpoints' logic (src/MAZE.Api/CharacterService.cs):
    characters are read from the rebuilt game and shown with their
    available movements, and a move is checked against the game before one
    `CharacterMoved` event is stored. */
module CharacterService {
  import opened Wrappers
  import opened Enumerable
  import opened Models
  import opened Errors
  import opened Events
  import opened EventRepository
  import GameRepository
  import GameService
  import Contracts
  import AvailableMovementsFactory
  import CharacterMovedEvent = CharacterMoved

  /** The engine's character class as the client sees it. */
  function Convert(c: CharacterClass): (r: Contracts.CharacterClass)
    ensures ClassOfContract(r) == c
  {
    match c
    case Mage => Contracts.Mage
    case Rogue => Contracts.Rogue
    case Warrior => Contracts.Warrior
    case Cleric => Contracts.Cleric
  }

  /** The reverse pairing, client class back to engine class. */
  function ClassOfContract(c: Contracts.CharacterClass): CharacterClass {
    match c
    case Mage => Mage
    case Rogue => Rogue
    case Warrior => Warrior
    case Cleric => Cleric
  }

  /** The class conversion is one-to-one and reaches every client class. */
  lemma ConvertIsBijective(a: CharacterClass, b: CharacterClass, c: Contracts.CharacterClass)
    ensures Convert(a) == Convert(b) ==> a == b
    ensures exists d :: Convert(d) == c
  {
    match c
    case Mage => assert Convert(Mage) == c;
    case Rogue => assert Convert(Rogue) == c;
    case Warrior => assert Convert(Warrior) == c;
    case Cleric => assert Convert(Cleric) == c;
  }

  function ConvertToReadCharacterError(e: ReadGameError): (r: ReadCharacterError)
    ensures e == ReadGameError.NotFound ==> r == ReadCharacterError.GameNotFound
  {
    match e
    case NotFound => ReadCharacterError.GameNotFound
  }

  function ConvertToMoveCharacterError(e: ReadGameError): (r: MoveCharacterError)
    ensures e == ReadGameError.NotFound ==> r == MoveCharacterError.GameNotFound
  {
    match e
    case NotFound => MoveCharacterError.GameNotFound
  }

  /** A failed game read as the repository's caller sees it: a missing game
      goes through `NotFound`, an exception stays one. */
  function GameFault<E>(f: Fault<ReadEventsError>, convert: ReadGameError -> E): Fault<E> {
    match f
    case Returned(e) => Returned(convert(GameService.ToReadGameError(e)))
    case Thrown(failure) => Thrown(failure)
  }

  /** `CreateCharacter`: the client character keeps the id and location,
      converts the class, and lists the movements offered from there. */
  function CreateCharacter(c: Character, world: World): (r: Contracts.Character)
    ensures r.id == c.id && r.location == c.locationId && r.characterClass == Convert(c.characterClass)
    ensures r.availableMovements == AvailableMovementsFactory.GetAvailableMovements(c.locationId, world)
  {
    Contracts.Character(c.id, c.locationId, Convert(c.characterClass),
                        AvailableMovementsFactory.GetAvailableMovements(c.locationId, world))
  }

  /** `GetCharacters` on a readable game: every character, in world order. */
  function CharactersOf(world: World): (r: seq<Contracts.Character>)
    ensures |r| == |world.characters|
    ensures forall i :: 0 <= i < |r| ==> r[i] == CreateCharacter(world.characters[i], world)
  {
    seq(|world.characters|, i requires 0 <= i < |world.characters| => CreateCharacter(world.characters[i], world))
  }

  /** `GetCharacter` on a game read: the read's error, `CharacterNotFound`
      when no character has the id, the exception `SingleOrDefault` throws
      when several do, and otherwise that character. */
  function CharacterOf(read: Result<GameState, Fault<ReadEventsError>>, characterId: int)
    : (r: Result<Contracts.Character, Fault<ReadCharacterError>>)
    ensures read.Err? ==> r == Err(GameFault(read.error, ConvertToReadCharacterError))
    ensures (read.Ok? && forall c :: c in read.value.world.characters ==> c.id != characterId)
              ==> r == Err(Returned(ReadCharacterError.CharacterNotFound))
    ensures r.Ok? ==> read.Ok? && r.value.id == characterId
                      && exists c :: c in read.value.world.characters && r.value == CreateCharacter(c, read.value.world)
  {
    match read
    case Err(f) => Err(GameFault(f, ConvertToReadCharacterError))
    case Ok(s) =>
      match SingleOrDefaultIndex(s.world.characters, (c: Character) => c.id == characterId)
      case NoMatch => Err(Returned(ReadCharacterError.CharacterNotFound))
      case SeveralMatches => Err(Thrown(NoSingleCharacter(characterId)))
      case OneMatch(i) => Ok(CreateCharacter(s.world.characters[i], s.world))
  }

  /** The target is a location of the world that has been discovered. */
  predicate IsDiscoveredLocation(world: World, locationId: int) {
    exists l :: l in world.locations && l.id == locationId && l.isDiscovered
  }

  /** Some movement offered from `at` ends on `locationId`. */
  predicate IsAvailable(world: World, at: int, locationId: int) {
    exists m :: m in AvailableMovementsFactory.GetAvailableMovements(at, world) && m.location == locationId
  }

  /** The checks of `MoveCharacterAsync`, in the order it makes them: the
      game, the character, the target location, and then availability. */
  function MoveVerdict(read: Result<GameState, Fault<ReadEventsError>>, characterId: int, newLocationId: int)
    : (r: Result<(), Fault<MoveCharacterError>>)
    // a game that cannot be read fails first
    ensures read.Err? ==> r == Err(GameFault(read.error, ConvertToMoveCharacterError))
    // each later error means every earlier check passed
    ensures r == Err(Returned(MoveCharacterError.CharacterNotFound)) ==>
              read.Ok? && forall c :: c in read.value.world.characters ==> c.id != characterId
    ensures r == Err(Returned(MoveCharacterError.LocationNotFound)) ==>
              && read.Ok? && CharacterMovedEvent.CharacterIndex(read.value.world.characters, characterId).Some?
              && !IsDiscoveredLocation(read.value.world, newLocationId)
    ensures r == Err(Returned(MoveCharacterError.NotAnAvailableMovement)) ==>
              && read.Ok? && CharacterMovedEvent.CharacterIndex(read.value.world.characters, characterId).Some?
              && IsDiscoveredLocation(read.value.world, newLocationId)
              && !IsAvailable(read.value.world, read.value.world.characters[CharacterMovedEvent.CharacterIndex(read.value.world.characters, characterId).value].locationId, newLocationId)
    // a move is accepted exactly when every check passes
    ensures r.Ok? <==>
              && read.Ok? && CharacterMovedEvent.CharacterIndex(read.value.world.characters, characterId).Some?
              && IsDiscoveredLocation(read.value.world, newLocationId)
              && IsAvailable(read.value.world, read.value.world.characters[CharacterMovedEvent.CharacterIndex(read.value.world.characters, characterId).value].locationId, newLocationId)
  {
    match read
    case Err(f) => Err(GameFault(f, ConvertToMoveCharacterError))
    case Ok(s) =>
      match SingleOrDefaultIndex(s.world.characters, (c: Character) => c.id == characterId)
      case NoMatch => Err(Returned(MoveCharacterError.CharacterNotFound))
      case SeveralMatches => Err(Thrown(NoSingleCharacter(characterId)))
      case OneMatch(i) =>
        assert CharacterMovedEvent.CharacterIndex(s.world.characters, characterId) == Some(i);
        if !IsDiscoveredLocation(s.world, newLocationId) then Err(Returned(MoveCharacterError.LocationNotFound))
        else if !IsAvailable(s.world, s.world.characters[i].locationId, newLocationId) then
          Err(Returned(MoveCharacterError.NotAnAvailableMovement))
        else Ok(())
  }

  /** With the placeholder movement list, only locations 0 and 3 are ever
      accepted as targets. */
  lemma AcceptedTargetsAreZeroOrThree(read: Result<GameState, Fault<ReadEventsError>>, characterId: int, newLocationId: int)
    requires MoveVerdict(read, characterId, newLocationId).Ok?
    ensures newLocationId == 0 || newLocationId == 3
  {
    var w := read.value.world;
    var at := w.characters[CharacterMovedEvent.CharacterIndex(w.characters, characterId).value].locationId;
    var m :| m in AvailableMovementsFactory.GetAvailableMovements(at, w) && m.location == newLocationId;
  }

  class CharacterService {
    const gameRepository: GameRepository.GameRepository
    const eventRepository: EventRepository

    constructor (gameRepository: GameRepository.GameRepository, eventRepository: EventRepository)
      ensures this.gameRepository == gameRepository && this.eventRepository == eventRepository
    {
      this.gameRepository := gameRepository;
      this.eventRepository := eventRepository;
    }

    /** Every character of the game, shown with its movements. */
    method GetCharacters(gameId: string) returns (r: Result<seq<Contracts.Character>, Fault<ReadGameError>>)
      ensures var read := GameRepository.Read(gameRepository.eventRepository.events, gameId);
              && (read.Err? ==> r == Err(GameFault(read.error, x => x)))
              && (read.Ok? ==> r == Ok(CharactersOf(read.value.world)))
    {
      var result := gameRepository.GetGame(gameId);
      if result.Err? {
        return Err(GameFault(result.error, x => x));
      }
      r := Ok(CharactersOf(result.value.world));
    }

    /** One character of the game, or why there is none. */
    method GetCharacter(gameId: string, characterId: int) returns (r: Result<Contracts.Character, Fault<ReadCharacterError>>)
      ensures r == CharacterOf(GameRepository.Read(gameRepository.eventRepository.events, gameId), characterId)
    {
      var result := gameRepository.GetGame(gameId);
      if result.Err? {
        return Err(GameFault(result.error, ConvertToReadCharacterError));
      }
      var game := result.value;
      var character := SingleOrDefaultIndex(game.world.characters, (c: Character) => c.id == characterId);
      if character.NoMatch? {
        return Err(Returned(ReadCharacterError.CharacterNotFound));
      } else if character.SeveralMatches? {
        return Err(Thrown(NoSingleCharacter(characterId)));
      }
      r := Ok(CreateCharacter(game.world.characters[character.index], game.world));
    }

    /** `MoveCharacterAsync`: the checks, then exactly one `CharacterMoved`
        stored on success and nothing stored on any error. */
    method MoveCharacter(gameId: string, characterId: int, newLocationId: int)
      returns (r: Result<(), Fault<MoveCharacterError>>)
      modifies eventRepository
      ensures r == MoveVerdict(GameRepository.Read(old(gameRepository.eventRepository.events), gameId), characterId, newLocationId)
      ensures r.Ok? ==> eventRepository.events == Added(old(eventRepository.events), gameId, CharacterMoved(characterId, newLocationId))
      ensures r.Err? ==> eventRepository.events == old(eventRepository.events)
    {
      var result := gameRepository.GetGame(gameId);
      if result.Err? {
        return Err(GameFault(result.error, ConvertToMoveCharacterError));
      }
      var game := result.value;
      var character := SingleOrDefaultIndex(game.world.characters, (c: Character) => c.id == characterId);
      if character.NoMatch? {
        return Err(Returned(MoveCharacterError.CharacterNotFound));
      } else if character.SeveralMatches? {
        return Err(Thrown(NoSingleCharacter(characterId)));
      }
      if !IsDiscoveredLocation(game.world, newLocationId) {
        return Err(Returned(MoveCharacterError.LocationNotFound));
      }
      var availableMovements := AvailableMovementsFactory.GetAvailableMovements(game.world.characters[character.index].locationId, game.world);
      if forall m :: m in availableMovements ==> m.location != newLocationId {
        return Err(Returned(MoveCharacterError.NotAnAvailableMovement));
      }
      eventRepository.AddEvent(gameId, CharacterMoved(characterId, newLocationId));
      r := Ok(());
    }
  }
}
