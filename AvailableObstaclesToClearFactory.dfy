/** Which obstacles of one type a character could clear from where it stands
    (src/MAZE.Api/AvailableObstaclesToClearFactory.cs). */
module AvailableObstaclesToClearFactory {
  import opened Models
  import Contracts

  /** `o` blocks some path that leaves `atLocationId`; paths that only
      arrive there do not count. */
  predicate BlocksPathFrom(o: Obstacle, atLocationId: int, paths: seq<Path>) {
    exists k :: 0 <= k < |paths| && paths[k].from == atLocationId && paths[k].id in o.blockedPathIds
  }

  predicate Clearable(o: Obstacle, obstacleType: ObstacleType, atLocationId: int, paths: seq<Path>) {
    o.obstacleType == obstacleType && BlocksPathFrom(o, atLocationId, paths)
  }

  /** `r` answers the query over `obstacles`: every answer is a clearable
      obstacle, every clearable obstacle is answered, and there are never
      more answers than obstacles. */
  ghost predicate Answers(obstacles: seq<Obstacle>, obstacleType: ObstacleType, atLocationId: int, paths: seq<Path>,
                          r: seq<Contracts.ClearObstacle>) {
    && |r| <= |obstacles|
    && (forall i :: 0 <= i < |r| ==>
          exists k :: 0 <= k < |obstacles| && r[i] == Contracts.ClearObstacle(obstacles[k].id)
                      && Clearable(obstacles[k], obstacleType, atLocationId, paths))
    && (forall k :: 0 <= k < |obstacles| && Clearable(obstacles[k], obstacleType, atLocationId, paths) ==>
          Contracts.ClearObstacle(obstacles[k].id) in r)
  }

  /** The clearable obstacles among `obstacles`, in their order. */
  function ObstaclesToClear(obstacles: seq<Obstacle>, obstacleType: ObstacleType, atLocationId: int, paths: seq<Path>)
    : (r: seq<Contracts.ClearObstacle>)
    ensures Answers(obstacles, obstacleType, atLocationId, paths, r)
  {
    if obstacles == [] then []
    else
      var rest := ObstaclesToClear(obstacles[1..], obstacleType, atLocationId, paths);
      assert forall k :: 1 <= k < |obstacles| ==> obstacles[k] == obstacles[1..][k - 1];
      if Clearable(obstacles[0], obstacleType, atLocationId, paths)
      then [Contracts.ClearObstacle(obstacles[0].id)] + rest
      else rest
  }

  /** Every answer names an obstacle of the world clearable from
      `atLocationId`, and every such obstacle is answered. */
  function GetAvailableObstaclesToClear(atLocationId: int, obstacleType: ObstacleType, world: World)
    : (r: seq<Contracts.ClearObstacle>)
    ensures Answers(world.obstacles, obstacleType, atLocationId, world.paths, r)
  {
    ObstaclesToClear(world.obstacles, obstacleType, atLocationId, world.paths)
  }

  /** Order is kept: the answer for a concatenation of obstacle lists is the
      concatenation of the answers. */
  lemma {:induction false} ObstaclesToClearAppend(a: seq<Obstacle>, b: seq<Obstacle>, obstacleType: ObstacleType,
                                                  atLocationId: int, paths: seq<Path>)
    ensures ObstaclesToClear(a + b, obstacleType, atLocationId, paths)
         == ObstaclesToClear(a, obstacleType, atLocationId, paths) + ObstaclesToClear(b, obstacleType, atLocationId, paths)
  {
    if a != [] {
      assert (a + b)[1..] == a[1..] + b;
      ObstaclesToClearAppend(a[1..], b, obstacleType, atLocationId, paths);
    } else {
      assert a + b == b;
    }
  }

  /** Same world up to discovery flags. */
  predicate SameButFlags(w: World, w': World) {
    && |w'.obstacles| == |w.obstacles| && |w'.paths| == |w.paths|
    && (forall k :: 0 <= k < |w.obstacles| ==>
          w'.obstacles[k] == w.obstacles[k].(isDiscovered := w'.obstacles[k].isDiscovered))
    && (forall k :: 0 <= k < |w.paths| ==>
          w'.paths[k] == w.paths[k].(isDiscovered := w'.paths[k].isDiscovered))
  }

  /** Discovery plays no part: hidden obstacles and hidden paths count too. */
  lemma {:induction false} IgnoresDiscovery(atLocationId: int, obstacleType: ObstacleType, w: World, w': World)
    requires SameButFlags(w, w')
    ensures GetAvailableObstaclesToClear(atLocationId, obstacleType, w)
         == GetAvailableObstaclesToClear(atLocationId, obstacleType, w')
  {
    IgnoresDiscoveryFrom(w.obstacles, w'.obstacles, obstacleType, atLocationId, w.paths, w'.paths);
  }

  lemma {:induction false} IgnoresDiscoveryFrom(obs: seq<Obstacle>, obs': seq<Obstacle>, obstacleType: ObstacleType,
                                                atLocationId: int, paths: seq<Path>, paths': seq<Path>)
    requires |obs'| == |obs| && |paths'| == |paths|
    requires forall k :: 0 <= k < |obs| ==> obs'[k] == obs[k].(isDiscovered := obs'[k].isDiscovered)
    requires forall k :: 0 <= k < |paths| ==> paths'[k] == paths[k].(isDiscovered := paths'[k].isDiscovered)
    ensures ObstaclesToClear(obs, obstacleType, atLocationId, paths)
         == ObstaclesToClear(obs', obstacleType, atLocationId, paths')
  {
    if obs != [] {
      assert Clearable(obs[0], obstacleType, atLocationId, paths)
         == Clearable(obs'[0], obstacleType, atLocationId, paths') by {
        if BlocksPathFrom(obs[0], atLocationId, paths) {
          var k :| 0 <= k < |paths| && paths[k].from == atLocationId && paths[k].id in obs[0].blockedPathIds;
          assert paths'[k].from == atLocationId && paths'[k].id in obs'[0].blockedPathIds;
        }
        if BlocksPathFrom(obs'[0], atLocationId, paths') {
          var k :| 0 <= k < |paths'| && paths'[k].from == atLocationId && paths'[k].id in obs'[0].blockedPathIds;
          assert paths[k].from == atLocationId && paths[k].id in obs[0].blockedPathIds;
        }
      }
      IgnoresDiscoveryFrom(obs[1..], obs'[1..], obstacleType, atLocationId, paths, paths');
    }
  }

  /** Each answer carries the id of an obstacle of the requested type that
      blocks a path leaving the location; every such obstacle is answered. */
  lemma ClearableIff(atLocationId: int, obstacleType: ObstacleType, world: World, k: nat)
    requires k < |world.obstacles|
    requires forall i :: 0 <= i < |world.obstacles| && i != k ==> world.obstacles[i].id != world.obstacles[k].id
    ensures Contracts.ClearObstacle(world.obstacles[k].id) in GetAvailableObstaclesToClear(atLocationId, obstacleType, world)
        <==> Clearable(world.obstacles[k], obstacleType, atLocationId, world.paths)
  {
    var r := GetAvailableObstaclesToClear(atLocationId, obstacleType, world);
    if Contracts.ClearObstacle(world.obstacles[k].id) in r {
      var i :| 0 <= i < |r| && r[i] == Contracts.ClearObstacle(world.obstacles[k].id);
      var j :| 0 <= j < |world.obstacles| && r[i] == Contracts.ClearObstacle(world.obstacles[j].id)
               && Clearable(world.obstacles[j], obstacleType, atLocationId, world.paths);
      assert j == k;
    }
  }
}
