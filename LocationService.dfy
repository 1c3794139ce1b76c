/** The location listing clients see: the discovered locations of a game's
    world (src/MAZE.Api/LocationService.cs). */
module LocationService {
  import Models
  import Contracts

  /** The discovered locations, in world order, as client locations. */
  function GetDiscoveredLocations(world: Models.World): (r: seq<Contracts.Location>)
    ensures |r| <= |world.locations|
    ensures forall i :: 0 <= i < |r| ==> IsDiscoveredId(world.locations, r[i].id)
    ensures forall k :: 0 <= k < |world.locations| && world.locations[k].isDiscovered ==> Contracts.Location(world.locations[k].id) in r
  {
    DiscoveredAmong(world.locations)
  }

  /** Some discovered location of `locations` has id `id`. */
  ghost predicate IsDiscoveredId(locations: seq<Models.Location>, id: int) {
    exists k :: 0 <= k < |locations| && locations[k].isDiscovered && locations[k].id == id
  }

  /** Only discovered locations are listed, and every discovered location
      is. */
  function DiscoveredAmong(locations: seq<Models.Location>): (r: seq<Contracts.Location>)
    ensures |r| <= |locations|
    ensures forall i :: 0 <= i < |r| ==> IsDiscoveredId(locations, r[i].id)
    ensures forall k :: 0 <= k < |locations| && locations[k].isDiscovered ==> Contracts.Location(locations[k].id) in r
  {
    if locations == [] then []
    else
      var rest := DiscoveredAmong(locations[1..]);
      assert forall k :: 1 <= k < |locations| ==> locations[k] == locations[1..][k - 1];
      assert forall id :: IsDiscoveredId(locations[1..], id) ==> IsDiscoveredId(locations, id) by {
        forall id | IsDiscoveredId(locations[1..], id)
          ensures IsDiscoveredId(locations, id)
        {
          var k :| 0 <= k < |locations[1..]| && locations[1..][k].isDiscovered && locations[1..][k].id == id;
          assert locations[k + 1] == locations[1..][k];
        }
      }
      if locations[0].isDiscovered then [Contracts.Location(locations[0].id)] + rest else rest
  }

  /** World order is kept. */
  lemma {:induction false} DiscoveredAmongAppend(a: seq<Models.Location>, b: seq<Models.Location>)
    ensures DiscoveredAmong(a + b) == DiscoveredAmong(a) + DiscoveredAmong(b)
  {
    if a == [] {
      assert a + b == b;
    } else {
      assert (a + b)[1..] == a[1..] + b;
      DiscoveredAmongAppend(a[1..], b);
    }
  }

  /** When everything is discovered every location is listed, in order. */
  lemma {:induction false} AllDiscoveredListsAll(locations: seq<Models.Location>)
    requires forall k :: 0 <= k < |locations| ==> locations[k].isDiscovered
    ensures |DiscoveredAmong(locations)| == |locations|
    ensures forall k :: 0 <= k < |locations| ==> DiscoveredAmong(locations)[k].id == locations[k].id
  {
    if locations != [] {
      var rest := DiscoveredAmong(locations[1..]);
      AllDiscoveredListsAll(locations[1..]);
      assert DiscoveredAmong(locations) == [Contracts.Location(locations[0].id)] + rest;
      forall k | 1 <= k < |locations|
        ensures DiscoveredAmong(locations)[k].id == locations[k].id
      {
        assert DiscoveredAmong(locations)[k] == rest[k - 1];
        assert locations[1..][k - 1] == locations[k];
      }
    }
  }
}
