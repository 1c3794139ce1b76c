/** The sample maze's fifteen locations, all treated as discovered
    (src/MAZE.Api/LocationRepository.cs). */
module LocationRepository {
  import opened ApiModels
  import PathRepository

  /** Locations 0, 1, ..., 14. */
  function FixtureLocations(): (r: seq<Location>)
    ensures |r| == 15
    ensures forall i :: 0 <= i < |r| ==> r[i].id == i
  {
    seq(15, i => Location(i))
  }

  /** The counting loop that yields one location per id. */
  method GetDiscoveredLocations() returns (r: seq<Location>)
    ensures r == FixtureLocations()
  {
    r := [];
    var locationId := 0;
    while locationId < 15
      invariant 0 <= locationId <= 15
      invariant |r| == locationId
      invariant forall i :: 0 <= i < locationId ==> r[i] == Location(i)
    {
      r := r + [Location(locationId)];
      locationId := locationId + 1;
    }
  }

  /** Ids are distinct. */
  lemma IdsAreDistinct()
    ensures forall i, j :: 0 <= i < j < |FixtureLocations()| ==> FixtureLocations()[i].id != FixtureLocations()[j].id
  {
  }

  predicate IsFixtureLocation(id: int) {
    exists i :: 0 <= i < |FixtureLocations()| && FixtureLocations()[i].id == id
  }

  /** Both endpoints of every fixture path are fixture locations. */
  lemma PathEndpointsAreLocations()
    ensures forall k :: 0 <= k < |PathRepository.GetAll()| ==>
              IsFixtureLocation(PathRepository.GetAll()[k].from) && IsFixtureLocation(PathRepository.GetAll()[k].to)
  {
    PathRepository.EndpointsInRangeWithoutLoops();
    var all := PathRepository.GetAll();
    forall k | 0 <= k < |all|
      ensures IsFixtureLocation(all[k].from) && IsFixtureLocation(all[k].to)
    {
      assert FixtureLocations()[all[k].from].id == all[k].from;
      assert FixtureLocations()[all[k].to].id == all[k].to;
    }
  }
}
