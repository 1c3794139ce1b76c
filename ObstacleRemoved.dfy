/** The `ObstacleRemoved` event (src/MAZE/Events/ObstacleRemoved.cs): takes
    an obstacle out of the world and discovers whichever endpoints of the
    paths it blocked are still hidden. */
module ObstacleRemoved {
  import opened Wrappers
  import opened Enumerable
  import opened Models
  import opened Discovery
  import opened Explorer

  function ObstacleIndex(obstacles: seq<Obstacle>, id: int): Option<nat> {
    SingleIndex(obstacles, (o: Obstacle) => o.id == id)
  }

  /** The path `pathId` exists exactly once and both its endpoints are
      discovered. */
  predicate EndsDiscovered(w: World, pathId: int) {
    && PathIndex(w.paths, pathId).Some?
    && var p := w.paths[PathIndex(w.paths, pathId).value];
    && HasDiscovered(w, p.from) && HasDiscovered(w, p.to)
  }

  /** The two endpoints of path `pathId`, when exactly one path has that id. */
  function Ends(w: World, pathId: int): seq<int> {
    match PathIndex(w.paths, pathId)
    case None => []
    case Some(p) => [w.paths[p].from, w.paths[p].to]
  }

  /** The endpoints of the paths `ids[m..]`, in order. */
  function EndsOf(w: World, ids: seq<int>, m: nat): seq<int>
    requires m <= |ids|
    decreases |ids| - m
  {
    if m == |ids| then [] else Ends(w, ids[m]) + EndsOf(w, ids, m + 1)
  }

  lemma {:induction false} EndsOfStable(w: World, w': World, ids: seq<int>, m: nat)
    requires Grows(w, w') && m <= |ids|
    ensures EndsOf(w', ids, m) == EndsOf(w, ids, m)
    decreases |ids| - m
  {
    if m < |ids| {
      PathIndexStable(w, w', ids[m]);
      EndsOfStable(w, w', ids, m + 1);
    }
  }

  /** `if (!location.IsDiscovered) Explorer.Discover(location.Id, …)` for the
      location at index `i`. */
  function DiscoverHidden(w: World, id: int, i: nat): (r: Result<Outcome, Failure>)
    requires LocationIndex(w.locations, id) == Some(i)
    ensures r.Ok? ==> Accounts(w, r.value.world, r.value.found) && FlipsClosed(w, r.value.world)
    ensures r.Ok? ==> Reached(w, [id], r.value.found)
    ensures r.Ok? ==> r.value.world.locations[i].isDiscovered
    ensures r.Ok? && w.locations[i].isDiscovered ==> r.value == Outcome(w, [])
    // the re-check means `Discover` never meets a discovered location
    ensures r.Err? ==> r.error.NoSingleLocation?
    ensures WellFormed(w) ==> r.Ok?
  {
    if w.locations[i].isDiscovered then
      GrowsRefl(w);
      Ok(Outcome(w, []))
    else Discover(id, w)
  }

  /** One turn of the loop over the blocked path ids: look the path and its
      two endpoints up, then discover the origin and the destination if
      hidden, the destination being re-checked after the origin's discovery. */
  function UnblockPath(w: World, pathId: int): (r: Result<Outcome, Failure>)
    ensures r.Ok? ==> Accounts(w, r.value.world, r.value.found) && FlipsClosed(w, r.value.world)
    ensures r.Ok? ==> EndsDiscovered(r.value.world, pathId)
    ensures r.Ok? ==> Reached(w, Ends(w, pathId), r.value.found)
    ensures PathIndex(w.paths, pathId).None? ==> r == Err(NoSinglePath(pathId))
    ensures r.Err? ==> r.error == NoSinglePath(pathId) || r.error.NoSingleLocation?
    ensures WellFormed(w) && PathIndex(w.paths, pathId).Some? ==> r.Ok?
  {
    match PathIndex(w.paths, pathId)
    case None => Err(NoSinglePath(pathId))
    case Some(p) =>
      var path := w.paths[p];
      match LocationIndex(w.locations, path.from)
      case None =>
        NoIndexMeansNotWellFormed(w, path.from);
        Err(NoSingleLocation(path.from))
      case Some(f) =>
        match LocationIndex(w.locations, path.to)
        case None =>
          NoIndexMeansNotWellFormed(w, path.to);
          Err(NoSingleLocation(path.to))
        case Some(t) =>
          match DiscoverHidden(w, path.from, f)
          case Err(e) => Err(e)
          case Ok(first) =>
            LocationIndexStable(w, first.world, path.to);
            WellFormedStable(w, first.world);
            match DiscoverHidden(first.world, path.to, t)
            case Err(e) => Err(e)
            case Ok(second) =>
              UnblockPathConcludes(w, pathId, p, f, t, first, second);
              Ok(Outcome(second.world, first.found + second.found))
  }

  lemma UnblockPathConcludes(w: World, pathId: int, p: nat, f: nat, t: nat, first: Outcome, second: Outcome)
    requires PathIndex(w.paths, pathId) == Some(p)
    requires f < |w.locations| && t < |w.locations|
    requires w.locations[f].id == w.paths[p].from && w.locations[t].id == w.paths[p].to
    requires Accounts(w, first.world, first.found) && FlipsClosed(w, first.world)
    requires Accounts(first.world, second.world, second.found) && FlipsClosed(first.world, second.world)
    requires first.world.locations[f].isDiscovered && second.world.locations[t].isDiscovered
    requires Reached(w, [w.paths[p].from], first.found) && Reached(first.world, [w.paths[p].to], second.found)
    ensures Accounts(w, second.world, first.found + second.found) && FlipsClosed(w, second.world)
    ensures EndsDiscovered(second.world, pathId)
    ensures Reached(w, Ends(w, pathId), first.found + second.found)
  {
    ReachedStable(w, first.world, [w.paths[p].to], second.found);
    ReachedAppend(w, Ends(w, pathId), [w.paths[p].from], first.found, [w.paths[p].to], second.found);
    AccountsCompose(w, first.world, second.world, first.found, second.found);
    FlipsClosedCompose(w, first.world, second.world);
    Compose(w, first.world, second.world);
    PathIndexStable(w, second.world, pathId);
    assert second.world.locations[f].isDiscovered;
    assert HasDiscovered(second.world, second.world.paths[p].from);
    assert HasDiscovered(second.world, second.world.paths[p].to);
  }

  lemma EndsDiscoveredStable(w: World, w': World, pathId: int)
    requires Grows(w, w') && EndsDiscovered(w, pathId)
    ensures EndsDiscovered(w', pathId)
  {
    PathIndexStable(w, w', pathId);
    var p := w.paths[PathIndex(w.paths, pathId).value];
    HasDiscoveredStable(w, w', p.from);
    HasDiscoveredStable(w, w', p.to);
  }

  /** The loop over the blocked path ids, from position `m` on. */
  function Unblock(w: World, ids: seq<int>, m: nat): (r: Result<Outcome, Failure>)
    requires m <= |ids|
    ensures r.Ok? ==> Accounts(w, r.value.world, r.value.found) && FlipsClosed(w, r.value.world)
    ensures r.Ok? ==> forall n :: m <= n < |ids| ==> EndsDiscovered(r.value.world, ids[n])
    ensures r.Ok? ==> Reached(w, EndsOf(w, ids, m), r.value.found)
    ensures r.Err? ==> r.error.NoSinglePath? || r.error.NoSingleLocation?
    ensures (WellFormed(w) && forall n :: m <= n < |ids| ==> PathIndex(w.paths, ids[n]).Some?) ==> r.Ok?
    decreases |ids| - m
  {
    if m == |ids| then
      GrowsRefl(w);
      Ok(Outcome(w, []))
    else
      match UnblockPath(w, ids[m])
      case Err(e) => Err(e)
      case Ok(o) =>
        WellFormedStable(w, o.world);
        forall n | m < n < |ids| ensures PathIndex(o.world.paths, ids[n]) == PathIndex(w.paths, ids[n]) {
          PathIndexStable(w, o.world, ids[n]);
        }
        var rest := Unblock(o.world, ids, m + 1);
        if rest.Err? then rest
        else
          UnblockConcludes(w, ids, m, o, rest.value);
          Ok(Outcome(rest.value.world, o.found + rest.value.found))
  }

  lemma UnblockConcludes(w: World, ids: seq<int>, m: nat, o: Outcome, rest: Outcome)
    requires m < |ids|
    requires Accounts(w, o.world, o.found) && FlipsClosed(w, o.world)
    requires EndsDiscovered(o.world, ids[m]) && Reached(w, Ends(w, ids[m]), o.found)
    requires Accounts(o.world, rest.world, rest.found) && FlipsClosed(o.world, rest.world)
    requires forall n :: m + 1 <= n < |ids| ==> EndsDiscovered(rest.world, ids[n])
    requires Reached(o.world, EndsOf(o.world, ids, m + 1), rest.found)
    ensures Accounts(w, rest.world, o.found + rest.found) && FlipsClosed(w, rest.world)
    ensures forall n :: m <= n < |ids| ==> EndsDiscovered(rest.world, ids[n])
    ensures Reached(w, EndsOf(w, ids, m), o.found + rest.found)
  {
    AccountsCompose(w, o.world, rest.world, o.found, rest.found);
    FlipsClosedCompose(w, o.world, rest.world);
    EndsDiscoveredStable(o.world, rest.world, ids[m]);
    EndsOfStable(w, o.world, ids, m + 1);
    ReachedStable(w, o.world, EndsOf(w, ids, m + 1), rest.found);
    ReachedAppend(w, EndsOf(w, ids, m), Ends(w, ids[m]), o.found, EndsOf(w, ids, m + 1), rest.found);
  }

  /** The world once the obstacle at index `k` is gone; the others keep
      their order. */
  function Without(w: World, k: nat): World
    requires k < |w.obstacles|
  {
    w.(obstacles := w.obstacles[..k] + w.obstacles[k + 1..])
  }

  /** A successful removal from `s` to `a`: the obstacle `obstacleId` is
      gone and reported first, players and seed are untouched, every path it
      blocked has both endpoints discovered, and the rest of the report is
      exactly what was revealed, each revealed location fully explored and
      reached from an endpoint of a path the obstacle blocked. */
  ghost predicate Removed(s: GameState, obstacleId: int, a: Applied) {
    && ObstacleIndex(s.world.obstacles, obstacleId).Some?
    && var k := ObstacleIndex(s.world.obstacles, obstacleId).value;
    && var removed := s.world.obstacles[k];
    && a.state.players == s.players && a.state.randomSeed == s.randomSeed
    && a.found != [] && a.found[0] == ObstacleResource(removed)
    && Accounts(Without(s.world, k), a.state.world, a.found[1..])
    && FlipsClosed(Without(s.world, k), a.state.world)
    && Reached(Without(s.world, k), EndsOf(Without(s.world, k), removed.blockedPathIds, 0), a.found[1..])
    && forall n :: 0 <= n < |removed.blockedPathIds| ==> EndsDiscovered(a.state.world, removed.blockedPathIds[n])
  }

  /** `ApplyToGame`, as the function it computes. */
  function Apply(obstacleId: int, s: GameState): (r: Result<Applied, Failure>)
    ensures ObstacleIndex(s.world.obstacles, obstacleId).None? ==> r == Err(NoSingleObstacle(obstacleId))
    // every lookup must succeed; an already-discovered location is never rediscovered
    ensures r.Err? ==> r.error == NoSingleObstacle(obstacleId) || r.error.NoSinglePath? || r.error.NoSingleLocation?
    ensures (&& WellFormed(s.world)
             && ObstacleIndex(s.world.obstacles, obstacleId).Some?
             && var o := s.world.obstacles[ObstacleIndex(s.world.obstacles, obstacleId).value];
             forall n :: 0 <= n < |o.blockedPathIds| ==> PathIndex(s.world.paths, o.blockedPathIds[n]).Some?)
            ==> r.Ok?
    ensures r.Ok? ==> Removed(s, obstacleId, r.value)
  {
    match ObstacleIndex(s.world.obstacles, obstacleId)
    case None => Err(NoSingleObstacle(obstacleId))
    case Some(k) =>
      var removed := s.world.obstacles[k];
      var w1 := Without(s.world, k);
      match Unblock(w1, removed.blockedPathIds, 0)
      case Err(e) => Err(e)
      case Ok(o) =>
        assert ([ObstacleResource(removed)] + o.found)[1..] == o.found;
        Ok(Applied(s.(world := o.world), [ObstacleResource(removed)] + o.found))
  }

  /** Removing an obstacle reveals nothing already discovered and hides
      nothing: every flag of the remaining entities is at least as set as
      before. */
  lemma NoFlagIsCleared(obstacleId: int, s: GameState)
    requires Apply(obstacleId, s).Ok?
    ensures var k := ObstacleIndex(s.world.obstacles, obstacleId).value;
            var w := Apply(obstacleId, s).value.state.world;
            && |w.obstacles| == |s.world.obstacles| - 1
            && (forall i :: 0 <= i < |s.world.locations| && s.world.locations[i].isDiscovered ==> w.locations[i].isDiscovered)
            && (forall i :: 0 <= i < |s.world.paths| && s.world.paths[i].isDiscovered ==> w.paths[i].isDiscovered)
            && (forall i :: 0 <= i < k && s.world.obstacles[i].isDiscovered ==> w.obstacles[i].isDiscovered)
            && (forall i :: k < i < |s.world.obstacles| && s.world.obstacles[i].isDiscovered ==> w.obstacles[i - 1].isDiscovered)
  {
    var k := ObstacleIndex(s.world.obstacles, obstacleId).value;
    var a := Apply(obstacleId, s).value;
    assert Removed(s, obstacleId, a);
    WithoutGrows(s.world, k, a.state.world);
  }

  /** The flags kept by any growth of the world without obstacle `k`. */
  lemma WithoutGrows(w0: World, k: nat, w: World)
    requires k < |w0.obstacles|
    requires Grows(Without(w0, k), w)
    ensures && |w.obstacles| == |w0.obstacles| - 1
            && (forall i :: 0 <= i < |w0.locations| && w0.locations[i].isDiscovered ==> w.locations[i].isDiscovered)
            && (forall i :: 0 <= i < |w0.paths| && w0.paths[i].isDiscovered ==> w.paths[i].isDiscovered)
            && (forall i :: 0 <= i < k && w0.obstacles[i].isDiscovered ==> w.obstacles[i].isDiscovered)
            && (forall i :: k < i < |w0.obstacles| && w0.obstacles[i].isDiscovered ==> w.obstacles[i - 1].isDiscovered)
  {
    var w1 := Without(w0, k);
    forall i | 0 <= i < k && w0.obstacles[i].isDiscovered ensures w.obstacles[i].isDiscovered {
      assert w1.obstacles[i] == w0.obstacles[i];
    }
    forall i | k < i < |w0.obstacles| && w0.obstacles[i].isDiscovered ensures w.obstacles[i - 1].isDiscovered {
      assert w1.obstacles[i - 1] == w0.obstacles[i];
    }
  }

  // ---- the loops as the source runs them ----

  lemma UnblockStep(w: World, ids: seq<int>, m: nat)
    requires m < |ids|
    ensures UnblockPath(w, ids[m]).Err? ==> Unblock(w, ids, m) == Err(UnblockPath(w, ids[m]).error)
    ensures UnblockPath(w, ids[m]).Ok? ==>
              Unblock(w, ids, m)
              == After(UnblockPath(w, ids[m]).value.found, Unblock(UnblockPath(w, ids[m]).value.world, ids, m + 1))
  {
  }

  /** The hidden-location check and `Discover` call, on the game's world. */
  method DiscoverHiddenInPlace(game: Game, id: int, i: nat) returns (r: Result<seq<Resource>, Failure>)
    requires LocationIndex(game.world.locations, id) == Some(i)
    modifies game
    ensures Performed(old(game.world), DiscoverHidden(old(game.world), id, i), game.world, r)
    ensures game.players == old(game.players) && game.randomSeed == old(game.randomSeed)
  {
    if game.world.locations[i].isDiscovered {
      GrowsRefl(game.world);
      return Ok([]);
    }
    r := DiscoverInPlace(id, game);
  }

  /** One turn of the loop over the blocked path ids, on the game's world. */
  method UnblockPathInPlace(game: Game, pathId: int) returns (r: Result<seq<Resource>, Failure>)
    modifies game
    ensures Performed(old(game.world), UnblockPath(old(game.world), pathId), game.world, r)
    ensures game.players == old(game.players) && game.randomSeed == old(game.randomSeed)
  {
    ghost var w0 := game.world;
    GrowsRefl(w0);
    var p := PathIndex(game.world.paths, pathId);
    if p.None? {
      return Err(NoSinglePath(pathId));
    }
    var unblockedPath := game.world.paths[p.value];
    var fromLocation := LocationIndex(game.world.locations, unblockedPath.from);
    if fromLocation.None? {
      return Err(NoSingleLocation(unblockedPath.from));
    }
    var toLocation := LocationIndex(game.world.locations, unblockedPath.to);
    if toLocation.None? {
      return Err(NoSingleLocation(unblockedPath.to));
    }
    var first := DiscoverHiddenInPlace(game, unblockedPath.from, fromLocation.value);
    if first.Err? {
      return Err(first.error);
    }
    ghost var w1 := game.world;
    LocationIndexStable(w0, w1, unblockedPath.to);
    var second := DiscoverHiddenInPlace(game, unblockedPath.to, toLocation.value);
    if second.Err? {
      Compose(w0, w1, game.world);
      return Err(second.error);
    }
    r := Ok(first.value + second.value);
  }

  /** `ApplyToGame`: remove the obstacle, report it, then run the loop over
      the paths it blocked. */
  method ApplyToGame(obstacleId: int, game: Game) returns (r: Result<seq<Resource>, Failure>)
    modifies game
    ensures Performs(old(game.State()), Apply(obstacleId, old(game.State())), game.State(), r)
  {
    var k := ObstacleIndex(game.world.obstacles, obstacleId);
    if k.None? {
      return Err(NoSingleObstacle(obstacleId));
    }
    var obstacleToRemove := game.world.obstacles[k.value];
    game.world := Without(game.world, k.value);
    var ids := obstacleToRemove.blockedPathIds;
    ghost var w0 := game.world;
    ghost var total := Unblock(w0, ids, 0);
    var found := [ObstacleResource(obstacleToRemove)];
    var m := 0;
    assert total.Ok? ==> found + total.value.found == [ObstacleResource(obstacleToRemove)] + total.value.found;
    assert After(found, total) == After(found, Unblock(game.world, ids, m));
    while m < |ids|
      invariant m <= |ids|
      invariant After([ObstacleResource(obstacleToRemove)], total) == After(found, Unblock(game.world, ids, m))
      invariant game.players == old(game.players) && game.randomSeed == old(game.randomSeed)
      decreases |ids| - m
    {
      UnblockStep(game.world, ids, m);
      var more := UnblockPathInPlace(game, ids[m]);
      if more.Err? {
        return Err(more.error);
      }
      AfterAppend(found, more.value, Unblock(game.world, ids, m + 1));
      found := found + more.value;
      m := m + 1;
    }
    assert Unblock(game.world, ids, m) == Ok(Outcome(game.world, []));
    assert found + [] == found;
    return Ok(found);
  }
}
