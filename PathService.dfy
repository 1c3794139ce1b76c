/** The path listing clients see: every path with at least one endpoint among
    the discovered locations (src/MAZE.Api/PathService.cs). */
module PathService {
  import opened ApiModels
  import LocationRepository
  import PathRepository

  /** The set of ids of the discovered locations (`ToHashSet`). */
  function LocationIds(locations: seq<Location>): set<int> {
    set i | 0 <= i < |locations| :: locations[i].id
  }

  predicate TouchesAny(p: Path, ids: set<int>) {
    p.from in ids || p.to in ids
  }

  /** The paths touching `ids`, in input order. */
  function PathsTouching(paths: seq<Path>, ids: set<int>): (r: seq<Path>)
    ensures |r| <= |paths|
    ensures forall p :: p in r <==> p in paths && TouchesAny(p, ids)
  {
    if paths == [] then []
    else
      var rest := PathsTouching(paths[1..], ids);
      assert forall p :: p in paths <==> p == paths[0] || p in paths[1..];
      if TouchesAny(paths[0], ids) then [paths[0]] + rest else rest
  }

  /** The paths with an endpoint among `locations`. */
  function DiscoveredPaths(locations: seq<Location>, paths: seq<Path>): (r: seq<Path>)
    ensures forall p :: p in r <==> p in paths && (exists i :: 0 <= i < |locations| && (p.from == locations[i].id || p.to == locations[i].id))
  {
    PathsTouching(paths, LocationIds(locations))
  }

  /** What the service returns: the fixture paths filtered by the fixture
      locations. */
  function GetDiscoveredPaths(): (r: seq<Path>)
    ensures forall p :: p in r <==> p in PathRepository.GetAll() && TouchesAny(p, LocationIds(LocationRepository.FixtureLocations()))
  {
    DiscoveredPaths(LocationRepository.FixtureLocations(), PathRepository.GetAll())
  }

  /** Repository order is kept. */
  lemma {:induction false} PathsTouchingAppend(a: seq<Path>, b: seq<Path>, ids: set<int>)
    ensures PathsTouching(a + b, ids) == PathsTouching(a, ids) + PathsTouching(b, ids)
  {
    if a == [] {
      assert a + b == b;
    } else {
      assert (a + b)[1..] == a[1..] + b;
      PathsTouchingAppend(a[1..], b, ids);
    }
  }

  /** When every path touches a discovered location, all of them are kept. */
  lemma {:induction false} AllTouchingKeepsAll(paths: seq<Path>, ids: set<int>)
    requires forall k :: 0 <= k < |paths| ==> TouchesAny(paths[k], ids)
    ensures PathsTouching(paths, ids) == paths
  {
    if paths != [] {
      AllTouchingKeepsAll(paths[1..], ids);
    }
  }

  /** With the fixtures, all thirty paths are listed. */
  lemma FixturesListEveryPath()
    ensures GetDiscoveredPaths() == PathRepository.GetAll()
    ensures |GetDiscoveredPaths()| == 30
  {
    var all := PathRepository.GetAll();
    var ids := LocationIds(LocationRepository.FixtureLocations());
    PathRepository.EndpointsInRangeWithoutLoops();
    PathRepository.IdsArePositions();
    forall k | 0 <= k < |all| ensures TouchesAny(all[k], ids) {
      assert LocationRepository.FixtureLocations()[all[k].from].id == all[k].from;
    }
    AllTouchingKeepsAll(all, ids);
  }
}
