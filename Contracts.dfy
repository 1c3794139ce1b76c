/** The client-facing shapes the API returns. They mirror the engine's types
    but are separate types, so every mapping between the two is explicit. */
module Contracts {

  datatype PathType = West | East | North | South | Portal

  datatype ObstacleType = ForceField | Lock | Stone | Ghost

  datatype CharacterClass = Mage | Rogue | Warrior | Cleric

  datatype Location = Location(id: int)

  datatype Obstacle = Obstacle(id: int, obstacleType: ObstacleType, blockedPaths: seq<int>)

  /** A move to `location` along `numberOfPathsToTravel` paths of one type. */
  datatype Movement = Movement(location: int, numberOfPathsToTravel: int, pathType: PathType)

  datatype Character = Character(id: int, location: int, characterClass: CharacterClass, availableMovements: seq<Movement>)

  datatype ClearObstacle = ClearObstacle(obstacleId: int)
}

/** The fixed sample maze the API's path listing is served from: bare
    locations and paths without discovery flags. */
module ApiModels {
  import Contracts

  datatype Location = Location(id: int)

  datatype Path = Path(id: int, from: int, to: int, pathType: Contracts.PathType)
}
