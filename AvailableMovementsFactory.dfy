/** The placeholder movement list the API currently offers every character
    (src/MAZE.Api/AvailableMovementsFactory.cs). */
module AvailableMovementsFactory {
  import Models
  import Contracts

  /** Two fixed eastward movements, whatever the location and the world. */
  function GetAvailableMovements(atLocationId: int, world: Models.World): (r: seq<Contracts.Movement>)
    ensures |r| == 2
    ensures r[0] == Contracts.Movement(0, 1, Contracts.East)
    ensures r[1] == Contracts.Movement(3, 5, Contracts.East)
  {
    [Contracts.Movement(0, 1, Contracts.East), Contracts.Movement(3, 5, Contracts.East)]
  }

  /** Neither argument influences the answer. */
  lemma IndependentOfArguments(at: int, world: Models.World, at': int, world': Models.World)
    ensures GetAvailableMovements(at, world) == GetAvailableMovements(at', world')
  {
  }

  /** The only locations a movement can reach are 0 and 3. */
  lemma ReachableLocations(at: int, world: Models.World, target: int)
    ensures (exists i :: 0 <= i < 2 && GetAvailableMovements(at, world)[i].location == target) <==> target == 0 || target == 3
  {
    if target == 0 {
      assert GetAvailableMovements(at, world)[0].location == target;
    } else if target == 3 {
      assert GetAvailableMovements(at, world)[1].location == target;
    }
  }
}
