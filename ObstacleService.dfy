/** The obstacle listing clients see: discovered obstacles only, converted
    to the client shapes (src/MAZE.Api/ObstacleService.cs). */
module ObstacleService {
  import opened Wrappers
  import Models
  import Contracts
  import opened Errors

  function ConvertType(t: Models.ObstacleType): (r: Contracts.ObstacleType)
    ensures TypeOfContract(r) == t
  {
    match t
    case ForceField => Contracts.ForceField
    case Lock => Contracts.Lock
    case Stone => Contracts.Stone
    case Ghost => Contracts.Ghost
  }

  /** The reverse pairing, client type back to engine type. */
  function TypeOfContract(t: Contracts.ObstacleType): Models.ObstacleType {
    match t
    case ForceField => Models.ForceField
    case Lock => Models.Lock
    case Stone => Models.Stone
    case Ghost => Models.Ghost
  }

  /** The type map is a bijection: each direction undoes the other. */
  lemma ConvertTypeIsBijective(t: Models.ObstacleType, c: Contracts.ObstacleType)
    ensures TypeOfContract(ConvertType(t)) == t
    ensures ConvertType(TypeOfContract(c)) == c
  {
  }

  /** The client shape keeps the id and the blocked path ids, and maps the
      type so that the engine type can be read back. */
  function Convert(o: Models.Obstacle): (r: Contracts.Obstacle)
    ensures r.id == o.id && r.blockedPaths == o.blockedPathIds
    ensures TypeOfContract(r.obstacleType) == o.obstacleType
  {
    Contracts.Obstacle(o.id, ConvertType(o.obstacleType), o.blockedPathIds)
  }

  /** The discovered obstacles, in world order, converted. */
  function VisibleObstacles(obstacles: seq<Models.Obstacle>): (r: seq<Contracts.Obstacle>)
    ensures |r| <= |obstacles|
    ensures forall i :: 0 <= i < |r| ==>
              exists k :: 0 <= k < |obstacles| && obstacles[k].isDiscovered && r[i] == Convert(obstacles[k])
    ensures forall k :: 0 <= k < |obstacles| && obstacles[k].isDiscovered ==> Convert(obstacles[k]) in r
  {
    if obstacles == [] then []
    else
      var rest := VisibleObstacles(obstacles[1..]);
      assert forall k :: 1 <= k < |obstacles| ==> obstacles[k] == obstacles[1..][k - 1];
      if obstacles[0].isDiscovered then [Convert(obstacles[0])] + rest else rest
  }

  /** `world` is the outcome of reading the game from the repository. */
  function GetObstacles(world: Result<Models.World, ReadGameError>): (r: Result<seq<Contracts.Obstacle>, ReadGameError>)
    ensures world.Err? ==> r == Err(world.error)
    ensures world.Ok? ==> r.Ok? && |r.value| <= |world.value.obstacles|
    ensures world.Ok? ==> r == Ok(VisibleObstacles(world.value.obstacles))
  {
    match world
    case Ok(w) => Ok(VisibleObstacles(w.obstacles))
    case Err(e) => Err(e)
  }

  /** World order is kept. */
  lemma {:induction false} VisibleObstaclesAppend(a: seq<Models.Obstacle>, b: seq<Models.Obstacle>)
    ensures VisibleObstacles(a + b) == VisibleObstacles(a) + VisibleObstacles(b)
  {
    if a == [] {
      assert a + b == b;
    } else {
      assert (a + b)[1..] == a[1..] + b;
      VisibleObstaclesAppend(a[1..], b);
    }
  }

  /** Each listed obstacle keeps the id and the blocked path ids of a
      discovered obstacle of the world, with its type mapped. */
  lemma ListedObstacleKeepsIdentity(obstacles: seq<Models.Obstacle>, i: nat)
    requires i < |VisibleObstacles(obstacles)|
    ensures exists k :: 0 <= k < |obstacles| && obstacles[k].isDiscovered
              && VisibleObstacles(obstacles)[i].id == obstacles[k].id
              && VisibleObstacles(obstacles)[i].blockedPaths == obstacles[k].blockedPathIds
              && TypeOfContract(VisibleObstacles(obstacles)[i].obstacleType) == obstacles[k].obstacleType
  {
    var k :| 0 <= k < |obstacles| && obstacles[k].isDiscovered && VisibleObstacles(obstacles)[i] == Convert(obstacles[k]);
    ConvertTypeIsBijective(obstacles[k].obstacleType, Contracts.ForceField);
  }
}
