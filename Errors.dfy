/** The typed errors returned (not thrown) across the engine and the API. */
module Errors {
  import Models

  /** The in-memory event store has no stream for the game. */
  datatype ReadEventsError = GameNotFound

  datatype ReadGameError = NotFound

  datatype ReadCharacterError = GameNotFound | CharacterNotFound

  datatype MoveCharacterError =
    | GameNotFound
    | CharacterNotFound
    | LocationNotFound
    | NoPathBetweenLocations
    | PathNotInAStraightLine
    | BlockedByObstacle
    | BlockedByCharacter
    | NotAnAvailableMovement

  /** How a read that rebuilds a game can fail: with the error value the
      store returned, or with the exception an engine step threw. */
  datatype Fault<E> = Returned(error: E) | Thrown(failure: Models.Failure)
}
