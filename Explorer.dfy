/** Fog-of-war discovery (src/MAZE/Explorer.cs): discovering a location
    reveals it, every path touching it, every obstacle on such a path, and
    then, recursively, every undiscovered location one unblocked, non-portal
    step away.

    The specification is the function `Discover`, written in the shape of the
    source's loops (each helper handles the elements at and after an index);
    `DiscoverInPlace` is the imperative flood fill, proved to compute it. */
module Explorer {
  import opened Wrappers
  import opened Models
  import opened Discovery

  datatype Outcome = Outcome(world: World, found: seq<Resource>)

  predicate Touches(p: Path, l: int) {
    p.from == l || p.to == l
  }

  predicate Blocks(o: Obstacle, pathId: int) {
    pathId in o.blockedPathIds
  }

  /** The flood fill may step from `l` along `p`: `p` leaves `l`, is not a
      portal and no obstacle, discovered or not, blocks it. */
  predicate Leads(w: World, p: Path, l: int) {
    p.from == l && p.pathType != Portal && !IsBlocked(w.obstacles, p.id)
  }

  predicate HasDiscovered(w: World, id: int) {
    exists i :: 0 <= i < |w.locations| && w.locations[i].id == id && w.locations[i].isDiscovered
  }

  /** Every obstacle on path `pathId` is discovered. */
  predicate BlockersDiscovered(w: World, pathId: int) {
    forall j :: 0 <= j < |w.obstacles| && Blocks(w.obstacles[j], pathId) ==> w.obstacles[j].isDiscovered
  }

  /** Location `id` has been fully explored: the paths touching it are
      discovered and so is every location one step away. */
  predicate Closed(w: World, id: int) {
    && (forall k :: 0 <= k < |w.paths| && Touches(w.paths[k], id) ==> w.paths[k].isDiscovered)
    && (forall k :: 0 <= k < |w.paths| && Leads(w, w.paths[k], id) ==> HasDiscovered(w, w.paths[k].to))
  }

  /** Whatever was revealed between `w` and `w'` was revealed completely:
      flipped locations are closed and flipped paths have their obstacles
      discovered. */
  ghost predicate FlipsClosed(w: World, w': World) {
    && (forall i :: LocationFlipped(w, w', i) ==> Closed(w', w.locations[i].id))
    && (forall k :: PathFlipped(w, w', k) ==> BlockersDiscovered(w', w.paths[k].id))
  }

  // ---- the loop over the obstacles of one newly discovered path ----

  function RevealObstacles(w: World, pathId: int, j: nat): (r: Outcome)
    requires j <= |w.obstacles|
    ensures r.world.locations == w.locations && r.world.paths == w.paths
    decreases |w.obstacles| - j
  {
    if j == |w.obstacles| then Outcome(w, [])
    else if !w.obstacles[j].isDiscovered && Blocks(w.obstacles[j], pathId) then
      var w1 := FlipObstacle(w, j);
      var rest := RevealObstacles(w1, pathId, j + 1);
      Outcome(rest.world, [ObstacleResource(w1.obstacles[j])] + rest.found)
    else
      RevealObstacles(w, pathId, j + 1)
  }

  /** The obstacle loop from `j` on flags exactly the obstacles at `j` or
      later that block `pathId`, and reports what it flipped. */
  lemma {:induction false} RevealObstaclesSound(w: World, pathId: int, j: nat)
    requires j <= |w.obstacles|
    ensures Accounts(w, RevealObstacles(w, pathId, j).world, RevealObstacles(w, pathId, j).found)
    ensures forall i :: 0 <= i < |w.obstacles| ==>
              RevealObstacles(w, pathId, j).world.obstacles[i]
              == if j <= i && Blocks(w.obstacles[i], pathId) then w.obstacles[i].(isDiscovered := true) else w.obstacles[i]
    decreases |w.obstacles| - j
  {
    if j == |w.obstacles| {
      GrowsRefl(w);
    } else if !w.obstacles[j].isDiscovered && Blocks(w.obstacles[j], pathId) {
      var w1 := FlipObstacle(w, j);
      var rest := RevealObstacles(w1, pathId, j + 1);
      RevealObstaclesSound(w1, pathId, j + 1);
      FlipObstacleStep(w, j);
      AccountsCompose(w, w1, rest.world, [ObstacleResource(w1.obstacles[j])], rest.found);
    } else {
      RevealObstaclesSound(w, pathId, j + 1);
    }
  }

  // ---- the loop over the paths touching the location ----

  function RevealPaths(w: World, l: int, k: nat): (r: Outcome)
    requires k <= |w.paths|
    ensures r.world.locations == w.locations && |r.world.paths| == |w.paths|
    decreases |w.paths| - k
  {
    if k == |w.paths| then Outcome(w, [])
    else if !w.paths[k].isDiscovered && Touches(w.paths[k], l) then
      var w1 := FlipPath(w, k);
      var obstacles := RevealObstacles(w1, w.paths[k].id, 0);
      var rest := RevealPaths(obstacles.world, l, k + 1);
      Outcome(rest.world, [PathResource(w1.paths[k])] + obstacles.found + rest.found)
    else
      RevealPaths(w, l, k + 1)
  }

  /** The path loop from `k` on flags exactly the paths at `k` or later that
      touch `l`, reports what it flipped, and leaves every path it flipped
      with its blockers discovered. */
  lemma {:induction false} RevealPathsSound(w: World, l: int, k: nat)
    requires k <= |w.paths|
    ensures Accounts(w, RevealPaths(w, l, k).world, RevealPaths(w, l, k).found)
    ensures forall i :: 0 <= i < |w.paths| ==>
              RevealPaths(w, l, k).world.paths[i]
              == if k <= i && Touches(w.paths[i], l) then w.paths[i].(isDiscovered := true) else w.paths[i]
    ensures forall i :: PathFlipped(w, RevealPaths(w, l, k).world, i) ==>
              BlockersDiscovered(RevealPaths(w, l, k).world, w.paths[i].id)
    decreases |w.paths| - k
  {
    if k == |w.paths| {
      GrowsRefl(w);
    } else if !w.paths[k].isDiscovered && Touches(w.paths[k], l) {
      var w1 := FlipPath(w, k);
      var obstacles := RevealObstacles(w1, w.paths[k].id, 0);
      var rest := RevealPaths(obstacles.world, l, k + 1);
      RevealObstaclesSound(w1, w.paths[k].id, 0);
      RevealPathsSound(obstacles.world, l, k + 1);
      FlipPathStep(w, k);
      AccountsCompose(w, w1, obstacles.world, [PathResource(w1.paths[k])], obstacles.found);
      AccountsCompose(w, obstacles.world, rest.world, [PathResource(w1.paths[k])] + obstacles.found, rest.found);
      BlockersStable(obstacles.world, rest.world, w.paths[k].id);
    } else {
      RevealPathsSound(w, l, k + 1);
    }
  }

  // ---- the neighbours the flood fill recurses into ----

  /** Some path at or after `k` leads from `l` to `to`. */
  predicate LeadsFrom(w: World, l: int, k: nat, to: int) {
    exists j :: k <= j < |w.paths| && Leads(w, w.paths[j], l) && w.paths[j].to == to
  }

  /** The `To` of every path at or after `k` along which the fill may step
      from `l`, in path order. */
  function Neighbors(w: World, l: int, k: nat): (r: seq<int>)
    requires k <= |w.paths|
    ensures forall i :: 0 <= i < |r| ==> LeadsFrom(w, l, k, r[i])
    ensures forall j :: k <= j < |w.paths| && Leads(w, w.paths[j], l) ==> w.paths[j].to in r
    decreases |w.paths| - k
  {
    if k == |w.paths| then []
    else
      var rest := Neighbors(w, l, k + 1);
      LeadsFromEarlier(w, l, k, rest);
      if Leads(w, w.paths[k], l) then [w.paths[k].to] + rest else rest
  }

  lemma LeadsFromEarlier(w: World, l: int, k: nat, targets: seq<int>)
    requires k < |w.paths|
    requires forall i :: 0 <= i < |targets| ==> LeadsFrom(w, l, k + 1, targets[i])
    ensures forall i :: 0 <= i < |targets| ==> LeadsFrom(w, l, k, targets[i])
  {
    forall i | 0 <= i < |targets| ensures LeadsFrom(w, l, k, targets[i]) {
      var j :| k + 1 <= j < |w.paths| && Leads(w, w.paths[j], l) && w.paths[j].to == targets[i];
    }
  }

  // ---- where everything found comes from ----

  /** Location `to` is one step of the fill (`Leads`) from a location listed
      in `before`. */
  ghost predicate SteppedFrom(w: World, before: seq<Resource>, to: int) {
    exists i :: 0 <= i < |before| && before[i].LocationResource? && LeadsFrom(w, before[i].location.id, 0, to)
  }

  /** `p` touches a location listed in `found`. */
  ghost predicate TouchesListed(found: seq<Resource>, p: Path) {
    exists i :: 0 <= i < |found| && found[i].LocationResource? && Touches(p, found[i].location.id)
  }

  /** `o` blocks a path listed in `found`. */
  ghost predicate BlocksListed(found: seq<Resource>, o: Obstacle) {
    exists i :: 0 <= i < |found| && found[i].PathResource? && Blocks(o, found[i].path.id)
  }

  /** Everything in `found` was reached from `roots` in `w`: each location is
      a root or one step of the fill from a location listed before it, each
      path touches a listed location and each obstacle blocks a listed path.
      Since only hidden entities are listed, every location reached was
      reached along unblocked, non-portal paths through hidden locations. */
  ghost predicate Reached(w: World, roots: seq<int>, found: seq<Resource>) {
    && (forall j :: 0 <= j < |found| && found[j].LocationResource? ==>
          found[j].location.id in roots || SteppedFrom(w, found[..j], found[j].location.id))
    && (forall j :: 0 <= j < |found| && found[j].PathResource? ==> TouchesListed(found, found[j].path))
    && (forall j :: 0 <= j < |found| && found[j].ObstacleResource? ==> BlocksListed(found, found[j].obstacle))
  }

  /** What the path loop reports: paths touching `l`, and obstacles each
      blocking one of the paths it reports. */
  ghost predicate Around(l: int, found: seq<Resource>) {
    forall j :: 0 <= j < |found| ==>
      || (found[j].PathResource? && Touches(found[j].path, l))
      || (found[j].ObstacleResource? && BlocksListed(found, found[j].obstacle))
  }

  lemma {:induction false} RevealObstaclesAround(w: World, pathId: int, j: nat)
    requires j <= |w.obstacles|
    ensures forall x :: x in RevealObstacles(w, pathId, j).found ==> x.ObstacleResource? && Blocks(x.obstacle, pathId)
    decreases |w.obstacles| - j
  {
    if j < |w.obstacles| {
      if !w.obstacles[j].isDiscovered && Blocks(w.obstacles[j], pathId) {
        RevealObstaclesAround(FlipObstacle(w, j), pathId, j + 1);
      } else {
        RevealObstaclesAround(w, pathId, j + 1);
      }
    }
  }

  lemma {:induction false} RevealPathsAround(w: World, l: int, k: nat)
    requires k <= |w.paths|
    ensures Around(l, RevealPaths(w, l, k).found)
    decreases |w.paths| - k
  {
    if k < |w.paths| {
      if !w.paths[k].isDiscovered && Touches(w.paths[k], l) {
        var w1 := FlipPath(w, k);
        var obstacles := RevealObstacles(w1, w.paths[k].id, 0);
        var rest := RevealPaths(obstacles.world, l, k + 1);
        RevealObstaclesAround(w1, w.paths[k].id, 0);
        RevealPathsAround(obstacles.world, l, k + 1);
        var head := [PathResource(w1.paths[k])] + obstacles.found;
        var found := head + rest.found;
        forall j | 0 <= j < |found|
          ensures || (found[j].PathResource? && Touches(found[j].path, l))
                  || (found[j].ObstacleResource? && BlocksListed(found, found[j].obstacle))
        {
          if 0 < j < |head| {
            assert found[j] in obstacles.found;
            assert found[0].PathResource? && Blocks(found[j].obstacle, found[0].path.id);
          } else if |head| <= j {
            var j' := j - |head|;
            assert found[j] == rest.found[j'];
            if rest.found[j'].ObstacleResource? && BlocksListed(rest.found, rest.found[j'].obstacle) {
              var i :| 0 <= i < |rest.found| && rest.found[i].PathResource? && Blocks(rest.found[j'].obstacle, rest.found[i].path.id);
              assert found[|head| + i] == rest.found[i];
            }
          }
        }
      } else {
        RevealPathsAround(w, l, k + 1);
      }
    }
  }

  /** One step of the fill depends only on what `Grows` keeps. */
  lemma LeadsFromStable(w: World, w': World, l: int, to: int)
    requires Grows(w, w')
    ensures LeadsFrom(w', l, 0, to) ==> LeadsFrom(w, l, 0, to)
  {
    if LeadsFrom(w', l, 0, to) {
      var j :| 0 <= j < |w'.paths| && Leads(w', w'.paths[j], l) && w'.paths[j].to == to;
      BlockedStable(w, w', w.paths[j].id);
      assert Leads(w, w.paths[j], l);
    }
  }

  lemma ReachedStable(w: World, w': World, roots: seq<int>, found: seq<Resource>)
    requires Grows(w, w') && Reached(w', roots, found)
    ensures Reached(w, roots, found)
  {
    forall j | 0 <= j < |found| && found[j].LocationResource? && found[j].location.id !in roots
      ensures SteppedFrom(w, found[..j], found[j].location.id)
    {
      var i :| 0 <= i < j && found[i].LocationResource? && LeadsFrom(w', found[i].location.id, 0, found[j].location.id);
      LeadsFromStable(w, w', found[i].location.id, found[j].location.id);
      assert found[..j][i] == found[i];
    }
  }

  /** Two reports in a row: the second's roots must be roots of the whole
      or one step from a location the first lists. */
  lemma ReachedAppend(w: World, roots: seq<int>, a: seq<int>, f: seq<Resource>, b: seq<int>, g: seq<Resource>)
    requires Reached(w, a, f) && Reached(w, b, g)
    requires forall x :: x in a ==> x in roots
    requires forall x :: x in b ==> x in roots || SteppedFrom(w, f, x)
    ensures Reached(w, roots, f + g)
  {
    var t := f + g;
    forall j | 0 <= j < |t| && t[j].LocationResource?
      ensures t[j].location.id in roots || SteppedFrom(w, t[..j], t[j].location.id)
    {
      var x := t[j].location.id;
      if j < |f| {
        assert t[j] == f[j] && t[..j] == f[..j];
      } else {
        var j' := j - |f|;
        assert t[j] == g[j'];
        if x in b {
          if x !in roots {
            var i :| 0 <= i < |f| && f[i].LocationResource? && LeadsFrom(w, f[i].location.id, 0, x);
            assert t[..j][i] == f[i];
          }
        } else {
          var i :| 0 <= i < j' && g[i].LocationResource? && LeadsFrom(w, g[i].location.id, 0, x);
          assert t[..j][|f| + i] == g[i];
        }
      }
    }
    forall j | 0 <= j < |t| && t[j].PathResource? ensures TouchesListed(t, t[j].path) {
      if j < |f| {
        assert t[j] == f[j];
        var i :| 0 <= i < |f| && f[i].LocationResource? && Touches(f[j].path, f[i].location.id);
        assert t[i] == f[i];
      } else {
        var j' := j - |f|;
        assert t[j] == g[j'];
        var i :| 0 <= i < |g| && g[i].LocationResource? && Touches(g[j'].path, g[i].location.id);
        assert t[|f| + i] == g[i];
      }
    }
    forall j | 0 <= j < |t| && t[j].ObstacleResource? ensures BlocksListed(t, t[j].obstacle) {
      if j < |f| {
        assert t[j] == f[j];
        var i :| 0 <= i < |f| && f[i].PathResource? && Blocks(f[j].obstacle, f[i].path.id);
        assert t[i] == f[i];
      } else {
        var j' := j - |f|;
        assert t[j] == g[j'];
        var i :| 0 <= i < |g| && g[i].PathResource? && Blocks(g[j'].obstacle, g[i].path.id);
        assert t[|f| + i] == g[i];
      }
    }
  }

  /** One turn of the neighbour loop: look the id up (exactly one location
      must match) and discover it unless it has been discovered meanwhile. */
  function Visit(w: World, id: int): (r: Result<Outcome, Failure>)
    ensures r.Ok? ==> Accounts(w, r.value.world, r.value.found) && FlipsClosed(w, r.value.world)
    ensures r.Ok? ==> HasDiscovered(r.value.world, id) && Undiscovered(r.value.world) <= Undiscovered(w)
    ensures r.Ok? ==> Reached(w, [id], r.value.found)
    ensures r.Err? ==> r.error.NoSingleLocation?
    ensures WellFormed(w) && HasLocation(w.locations, id) ==> r.Ok?
    decreases Undiscovered(w), 0, 2
  {
    match LocationIndex(w.locations, id)
    case None =>
      NoIndexMeansNotWellFormed(w, id);
      Err(NoSingleLocation(id))
    case Some(i) =>
      if w.locations[i].isDiscovered then
        GrowsRefl(w);
        assert HasDiscovered(w, id);
        Ok(Outcome(w, []))
      else
        var r := Discover(id, w);
        if r.Ok? then
          assert HasDiscovered(r.value.world, id) by {
            var j := LocationIndex(w.locations, id).value;
            assert r.value.world.locations[j].id == id;
          }
          r
        else r
  }

  /** The loop over the neighbour ids at and after `m`. */
  function DiscoverNeighbors(w: World, ids: seq<int>, m: nat): (r: Result<Outcome, Failure>)
    requires m <= |ids|
    ensures r.Ok? ==> Accounts(w, r.value.world, r.value.found) && FlipsClosed(w, r.value.world)
    ensures r.Ok? ==> forall i :: m <= i < |ids| ==> HasDiscovered(r.value.world, ids[i])
    ensures r.Ok? ==> Reached(w, ids[m..], r.value.found)
    ensures r.Err? ==> r.error.NoSingleLocation?
    ensures WellFormed(w) && (forall i :: m <= i < |ids| ==> HasLocation(w.locations, ids[i])) ==> r.Ok?
    decreases Undiscovered(w), 1, |ids| - m
  {
    if m == |ids| then
      GrowsRefl(w);
      Ok(Outcome(w, []))
    else
      var first := Visit(w, ids[m]);
      if first.Err? then first
      else
        var w1 := first.value.world;
        WellFormedStable(w, w1);
        HasLocationStable(w, w1, ids);
        var rest := DiscoverNeighbors(w1, ids, m + 1);
        if rest.Err? then rest
        else
          AccountsCompose(w, w1, rest.value.world, first.value.found, rest.value.found);
          FlipsClosedCompose(w, w1, rest.value.world);
          HasDiscoveredStable(w1, rest.value.world, ids[m]);
          ReachedStable(w, w1, ids[m + 1..], rest.value.found);
          ReachedAppend(w, ids[m..], [ids[m]], first.value.found, ids[m + 1..], rest.value.found);
          Ok(Outcome(rest.value.world, first.value.found + rest.value.found))
  }

  /** What a successful `Discover(l)` on `w` promises: `l` names exactly one
      location, which was undiscovered and now is and comes first in the
      found list; flags only rose, the found list accounts for every flip;
      the number of undiscovered locations dropped; `l`, as well as
      everything revealed, is closed; and everything revealed was reached
      from `l`. */
  ghost predicate Explored(w: World, l: int, o: Outcome) {
    && LocationIndex(w.locations, l).Some?
    && var i := LocationIndex(w.locations, l).value;
    && !w.locations[i].isDiscovered
    && Accounts(w, o.world, o.found)
    && Undiscovered(o.world) < Undiscovered(w)
    && o.world.locations[i].isDiscovered
    && o.found != [] && o.found[0] == LocationResource(o.world.locations[i])
    && Closed(o.world, l)
    && FlipsClosed(w, o.world)
    && Reached(w, [l], o.found)
  }

  /** `Explorer.Discover`, as the function it computes. */
  function Discover(l: int, w: World): (r: Result<Outcome, Failure>)
    // the lookup must find exactly one location, and it must be undiscovered
    ensures LocationIndex(w.locations, l).None? ==> r == Err(NoSingleLocation(l))
    ensures (LocationIndex(w.locations, l).Some? && w.locations[LocationIndex(w.locations, l).value].isDiscovered)
              ==> r == Err(LocationAlreadyDiscovered(l))
    // recursion never meets an already-discovered location
    ensures r.Err? ==> r.error.NoSingleLocation? || r.error == LocationAlreadyDiscovered(l)
    ensures (WellFormed(w) && LocationIndex(w.locations, l).Some?
              && !w.locations[LocationIndex(w.locations, l).value].isDiscovered) ==> r.Ok?
    ensures r.Ok? ==> Explored(w, l, r.value)
    decreases Undiscovered(w), 0, 1
  {
    match LocationIndex(w.locations, l)
    case None => Err(NoSingleLocation(l))
    case Some(i) =>
      if w.locations[i].isDiscovered then Err(LocationAlreadyDiscovered(l))
      else Explore(w, l, i)
  }

  /** Discovery never crosses a portal or a blocked path: a hidden location
      other than `l` that no unblocked, non-portal path enters stays hidden. */
  lemma UnledStaysHidden(l: int, w: World, k: nat)
    requires Discover(l, w).Ok?
    requires k < |w.locations| && !w.locations[k].isDiscovered && w.locations[k].id != l
    requires forall j :: 0 <= j < |w.paths| && w.paths[j].to == w.locations[k].id ==>
               w.paths[j].pathType == Portal || IsBlocked(w.obstacles, w.paths[j].id)
    ensures !Discover(l, w).value.world.locations[k].isDiscovered
  {
    var o := Discover(l, w).value;
    if o.world.locations[k].isDiscovered {
      var x := LocationResource(o.world.locations[k]);
      assert Revealed(w, o.world, x) by {
        assert LocationFlipped(w, o.world, k);
      }
    }
  }

  /** `Discover` past its guards: flag location `i`, reveal its paths and
      discover its neighbours. */
  function Explore(w: World, l: int, i: nat): (r: Result<Outcome, Failure>)
    requires LocationIndex(w.locations, l) == Some(i) && !w.locations[i].isDiscovered
    ensures r.Err? ==> r.error.NoSingleLocation?
    ensures WellFormed(w) ==> r.Ok?
    ensures r.Ok? ==> Explored(w, l, r.value)
    decreases Undiscovered(w), 0, 0
  {
    var w1 := FlipLocation(w, i);
    var paths := RevealPaths(w1, l, 0);
    var ids := Neighbors(w, l, 0);
    ExploreSetup(w, l, i);
    var rest := DiscoverNeighbors(paths.world, ids, 0);
    if rest.Err? then Err(rest.error)
    else
      assert ids[0..] == ids;
      DiscoverConcludes(w, l, i, paths, rest.value);
      Ok(Outcome(rest.value.world, [LocationResource(w1.locations[i])] + paths.found + rest.value.found))
  }

  // ---- why the pieces fit together ----

  /** After the flip and the path reveal, fewer locations are hidden and a
      well-formed world still has every neighbour. */
  lemma ExploreSetup(w: World, l: int, i: nat)
    requires LocationIndex(w.locations, l) == Some(i) && !w.locations[i].isDiscovered
    ensures var paths := RevealPaths(FlipLocation(w, i), l, 0);
            && Undiscovered(paths.world) < Undiscovered(w)
            && (WellFormed(w) ==> WellFormed(paths.world))
            && (WellFormed(w) ==> forall m :: 0 <= m < |Neighbors(w, l, 0)| ==> HasLocation(paths.world.locations, Neighbors(w, l, 0)[m]))
  {
    var w1 := FlipLocation(w, i);
    FlipLocationStep(w, i);
    var paths := RevealPaths(w1, l, 0);
    RevealPathsSound(w1, l, 0);
    WellFormedStable(w, paths.world);
    NeighborsAreLocations(w, paths.world, l);
  }

  lemma BlockersStable(w: World, w': World, pathId: int)
    requires Grows(w, w') && BlockersDiscovered(w, pathId)
    ensures BlockersDiscovered(w', pathId)
  {
  }

  lemma HasDiscoveredStable(w: World, w': World, id: int)
    requires Grows(w, w') && HasDiscovered(w, id)
    ensures HasDiscovered(w', id)
  {
    var i :| 0 <= i < |w.locations| && w.locations[i].id == id && w.locations[i].isDiscovered;
    assert w'.locations[i].id == id && w'.locations[i].isDiscovered;
  }

  lemma BlockedStable(w: World, w': World, pathId: int)
    requires Grows(w, w')
    ensures IsBlocked(w'.obstacles, pathId) == IsBlocked(w.obstacles, pathId)
  {
    if IsBlocked(w.obstacles, pathId) {
      var k :| 0 <= k < |w.obstacles| && pathId in w.obstacles[k].blockedPathIds;
      assert pathId in w'.obstacles[k].blockedPathIds;
    }
    if IsBlocked(w'.obstacles, pathId) {
      var k :| 0 <= k < |w'.obstacles| && pathId in w'.obstacles[k].blockedPathIds;
      assert pathId in w.obstacles[k].blockedPathIds;
    }
  }

  lemma ClosedStable(w: World, w': World, id: int)
    requires Grows(w, w') && Closed(w, id)
    ensures Closed(w', id)
  {
    forall k | 0 <= k < |w'.paths| && Leads(w', w'.paths[k], id)
      ensures HasDiscovered(w', w'.paths[k].to)
    {
      BlockedStable(w, w', w.paths[k].id);
      assert Leads(w, w.paths[k], id);
      HasDiscoveredStable(w, w', w.paths[k].to);
    }
  }

  lemma FlipsClosedCompose(a: World, b: World, c: World)
    requires Grows(a, b) && Grows(b, c) && FlipsClosed(a, b) && FlipsClosed(b, c)
    ensures FlipsClosed(a, c)
  {
    forall i | LocationFlipped(a, c, i) ensures Closed(c, a.locations[i].id) {
      if b.locations[i].isDiscovered {
        assert LocationFlipped(a, b, i);
        ClosedStable(b, c, a.locations[i].id);
      } else {
        assert LocationFlipped(b, c, i);
      }
    }
    forall k | PathFlipped(a, c, k) ensures BlockersDiscovered(c, a.paths[k].id) {
      if b.paths[k].isDiscovered {
        assert PathFlipped(a, b, k);
        BlockersStable(b, c, a.paths[k].id);
      } else {
        assert PathFlipped(b, c, k);
      }
    }
  }

  lemma WellFormedStable(w: World, w': World)
    requires Grows(w, w')
    ensures WellFormed(w) ==> WellFormed(w')
  {
    if WellFormed(w) {
      forall k | 0 <= k < |w'.paths|
        ensures HasLocation(w'.locations, w'.paths[k].from) && HasLocation(w'.locations, w'.paths[k].to)
      {
        var i :| 0 <= i < |w.locations| && w.locations[i].id == w.paths[k].from;
        var j :| 0 <= j < |w.locations| && w.locations[j].id == w.paths[k].to;
        assert w'.locations[i].id == w'.paths[k].from && w'.locations[j].id == w'.paths[k].to;
      }
    }
  }

  lemma HasLocationStable(w: World, w': World, ids: seq<int>)
    requires Grows(w, w')
    ensures forall i :: 0 <= i < |ids| && HasLocation(w.locations, ids[i]) ==> HasLocation(w'.locations, ids[i])
  {
    forall i | 0 <= i < |ids| && HasLocation(w.locations, ids[i]) ensures HasLocation(w'.locations, ids[i]) {
      var j :| 0 <= j < |w.locations| && w.locations[j].id == ids[i];
      assert w'.locations[j].id == ids[i];
    }
  }

  lemma NoIndexMeansNotWellFormed(w: World, id: int)
    requires LocationIndex(w.locations, id).None?
    ensures !(UniqueLocationIds(w.locations) && HasLocation(w.locations, id))
  {
    if UniqueLocationIds(w.locations) && HasLocation(w.locations, id) {
      var i :| 0 <= i < |w.locations| && w.locations[i].id == id;
      LocationIndexUnique(w.locations, i);
    }
  }

  /** In a well-formed world every neighbour id names a location. */
  lemma NeighborsAreLocations(w: World, w': World, l: int)
    requires Grows(w, w')
    ensures WellFormed(w) ==> forall i :: 0 <= i < |Neighbors(w, l, 0)| ==> HasLocation(w'.locations, Neighbors(w, l, 0)[i])
  {
    var ids := Neighbors(w, l, 0);
    HasLocationStable(w, w', ids);
  }

  /** The three phases of `Discover` (flip the location, reveal its paths,
      discover its neighbours) together give `Explored`. */
  lemma DiscoverConcludes(w: World, l: int, i: nat, paths: Outcome, rest: Outcome)
    requires LocationIndex(w.locations, l) == Some(i) && !w.locations[i].isDiscovered
    requires paths == RevealPaths(FlipLocation(w, i), l, 0)
    requires Accounts(paths.world, rest.world, rest.found) && FlipsClosed(paths.world, rest.world)
    requires forall m :: 0 <= m < |Neighbors(w, l, 0)| ==> HasDiscovered(rest.world, Neighbors(w, l, 0)[m])
    requires Reached(paths.world, Neighbors(w, l, 0), rest.found)
    ensures Explored(w, l, Outcome(rest.world, [LocationResource(FlipLocation(w, i).locations[i])] + paths.found + rest.found))
  {
    var w1 := FlipLocation(w, i);
    RevealPathsSound(w1, l, 0);
    var w2 := paths.world;
    var w3 := rest.world;
    FlipLocationStep(w, i);
    AccountsCompose(w, w1, w2, [LocationResource(w1.locations[i])], paths.found);
    AccountsCompose(w, w2, w3, [LocationResource(w1.locations[i])] + paths.found, rest.found);
    Compose(w1, w2, w3);
    Compose(w, w1, w3);
    FlipsClosedCompose(w1, w2, w3);
    forall k | 0 <= k < |w3.paths| && Touches(w3.paths[k], l) ensures w3.paths[k].isDiscovered {
      assert w2.paths[k].isDiscovered;
    }
    forall k | 0 <= k < |w3.paths| && Leads(w3, w3.paths[k], l)
      ensures HasDiscovered(w3, w3.paths[k].to)
    {
      BlockedStable(w, w3, w.paths[k].id);
      assert Leads(w, w.paths[k], l);
      var ids := Neighbors(w, l, 0);
      var m :| 0 <= m < |ids| && ids[m] == w.paths[k].to;
    }
    assert Closed(w3, l);
    forall j | LocationFlipped(w, w3, j) ensures Closed(w3, w.locations[j].id) {
      if j != i {
        assert LocationFlipped(w1, w3, j);
      }
    }
    assert w3.locations[i] == w1.locations[i];
    ExploreReached(w, l, i, paths, rest.found);
  }

  /** Everything `Discover(l)` reports was reached from `l`: the location
      itself, the paths around it and their obstacles, and what the
      neighbours, each one step from `l`, report. */
  lemma ExploreReached(w: World, l: int, i: nat, paths: Outcome, found: seq<Resource>)
    requires LocationIndex(w.locations, l) == Some(i)
    requires paths == RevealPaths(FlipLocation(w, i), l, 0)
    requires Grows(w, paths.world)
    requires Reached(paths.world, Neighbors(w, l, 0), found)
    ensures Reached(w, [l], [LocationResource(FlipLocation(w, i).locations[i])] + paths.found + found)
  {
    var w1 := FlipLocation(w, i);
    var ids := Neighbors(w, l, 0);
    var head := [LocationResource(w1.locations[i])] + paths.found;
    RevealPathsAround(w1, l, 0);
    assert head[0].location.id == l;
    forall j | 0 < j < |head| ensures
      || (head[j].PathResource? && TouchesListed(head, head[j].path))
      || (head[j].ObstacleResource? && BlocksListed(head, head[j].obstacle))
    {
      assert head[j] == paths.found[j - 1];
      if head[j].ObstacleResource? && BlocksListed(paths.found, head[j].obstacle) {
        var k :| 0 <= k < |paths.found| && paths.found[k].PathResource? && Blocks(head[j].obstacle, paths.found[k].path.id);
        assert head[k + 1] == paths.found[k];
      }
    }
    assert Reached(w, [l], head);
    ReachedStable(w, paths.world, ids, found);
    forall x | x in ids ensures SteppedFrom(w, head, x) {
      var m :| 0 <= m < |ids| && ids[m] == x;
      assert LeadsFrom(w, head[0].location.id, 0, x);
    }
    ReachedAppend(w, [l], [l], head, ids, found);
  }

  lemma {:induction false} NeighborsStable(w: World, w': World, l: int, k: nat)
    requires Grows(w, w') && k <= |w.paths|
    ensures Neighbors(w', l, k) == Neighbors(w, l, k)
    decreases |w.paths| - k
  {
    if k < |w.paths| {
      BlockedStable(w, w', w.paths[k].id);
      assert Leads(w', w'.paths[k], l) == Leads(w, w.paths[k], l);
      NeighborsStable(w, w', l, k + 1);
    }
  }

  lemma Shrinks(w: World, w': World)
    requires Grows(w, w')
    ensures Undiscovered(w') <= Undiscovered(w)
  {
    GrowsRefl(w');
    Compose(w, w', w');
  }

  lemma NeighborsStep(w: World, ids: seq<int>, m: nat)
    requires m < |ids|
    ensures Visit(w, ids[m]).Err? ==> DiscoverNeighbors(w, ids, m) == Err(Visit(w, ids[m]).error)
    ensures Visit(w, ids[m]).Ok? ==>
              DiscoverNeighbors(w, ids, m)
              == After(Visit(w, ids[m]).value.found, DiscoverNeighbors(Visit(w, ids[m]).value.world, ids, m + 1))
  {
  }

  /** The neighbour loop's invariant survives a successful turn. */
  lemma NeighborsAdvance(total: Result<Outcome, Failure>, found: seq<Resource>, w: World, ids: seq<int>, m: nat,
                         w': World, more: seq<Resource>)
    requires m < |ids| && Visit(w, ids[m]) == Ok(Outcome(w', more))
    requires total == After(found, DiscoverNeighbors(w, ids, m))
    ensures total == After(found + more, DiscoverNeighbors(w', ids, m + 1))
  {
    NeighborsStep(w, ids, m);
    AfterAppend(found, more, DiscoverNeighbors(w', ids, m + 1));
  }

  lemma AfterAppend(a: seq<Resource>, b: seq<Resource>, r: Result<Outcome, Failure>)
    ensures After(a, After(b, r)) == After(a + b, r)
  {
    if r.Ok? {
      assert a + (b + r.value.found) == (a + b) + r.value.found;
    }
  }

  /** `acc` followed by what `r` found, when `r` succeeded. */
  function After(acc: seq<Resource>, r: Result<Outcome, Failure>): Result<Outcome, Failure> {
    if r.Ok? then Ok(Outcome(r.value.world, acc + r.value.found)) else r
  }

  /** A turn of the obstacle loop that skips obstacle `j`. */
  lemma RevealObstaclesSkip(w: World, pathId: int, j: nat)
    requires j < |w.obstacles| && !(!w.obstacles[j].isDiscovered && Blocks(w.obstacles[j], pathId))
    ensures RevealObstacles(w, pathId, j) == RevealObstacles(w, pathId, j + 1)
  {
  }

  /** A turn of the obstacle loop that flags obstacle `j`. */
  lemma RevealObstaclesTurn(w: World, pathId: int, j: nat)
    requires j < |w.obstacles| && !w.obstacles[j].isDiscovered && Blocks(w.obstacles[j], pathId)
    ensures RevealObstacles(w, pathId, j)
         == Outcome(RevealObstacles(FlipObstacle(w, j), pathId, j + 1).world,
                    [ObstacleResource(FlipObstacle(w, j).obstacles[j])] + RevealObstacles(FlipObstacle(w, j), pathId, j + 1).found)
  {
  }

  /** A turn of the path loop that skips path `k`. */
  lemma RevealPathsSkip(w: World, l: int, k: nat)
    requires k < |w.paths| && !(!w.paths[k].isDiscovered && Touches(w.paths[k], l))
    ensures RevealPaths(w, l, k) == RevealPaths(w, l, k + 1)
  {
  }

  /** A turn of the path loop that flags path `k`, where `revealed` is what
      the obstacle loop then does. */
  lemma RevealPathsTurn(w: World, l: int, k: nat, revealed: Outcome)
    requires k < |w.paths| && !w.paths[k].isDiscovered && Touches(w.paths[k], l)
    requires revealed == RevealObstacles(FlipPath(w, k), w.paths[k].id, 0)
    ensures RevealPaths(w, l, k)
         == Outcome(RevealPaths(revealed.world, l, k + 1).world,
                    [PathResource(FlipPath(w, k).paths[k])] + revealed.found + RevealPaths(revealed.world, l, k + 1).found)
  {
  }

  /** One turn of the obstacle loop: obstacle `j` is flagged when it is
      hidden and blocks `pathId`. */
  method RevealObstacleInPlace(game: Game, pathId: int, j: nat) returns (more: seq<Resource>)
    requires j < |game.world.obstacles|
    modifies game
    ensures |game.world.obstacles| == |old(game.world.obstacles)|
    ensures RevealObstacles(old(game.world), pathId, j)
         == Outcome(RevealObstacles(game.world, pathId, j + 1).world, more + RevealObstacles(game.world, pathId, j + 1).found)
    ensures game.players == old(game.players) && game.randomSeed == old(game.randomSeed)
  {
    ghost var w := game.world;
    var obstacle := game.world.obstacles[j];
    if !obstacle.isDiscovered && Blocks(obstacle, pathId) {
      obstacle := obstacle.(isDiscovered := true);
      game.world := game.world.(obstacles := game.world.obstacles[j := obstacle]);
      assert game.world == FlipObstacle(w, j) && obstacle == FlipObstacle(w, j).obstacles[j];
      RevealObstaclesTurn(w, pathId, j);
      more := [ObstacleResource(obstacle)];
    } else {
      RevealObstaclesSkip(w, pathId, j);
      more := [];
    }
  }

  /** The loop over the obstacles blocking a newly discovered path. */
  method RevealObstaclesInPlace(game: Game, pathId: int) returns (found: seq<Resource>)
    modifies game
    ensures Outcome(game.world, found) == RevealObstacles(old(game.world), pathId, 0)
    ensures game.players == old(game.players) && game.randomSeed == old(game.randomSeed)
  {
    ghost var total := RevealObstacles(game.world, pathId, 0);
    found := [];
    var j := 0;
    while j < |game.world.obstacles|
      invariant j <= |game.world.obstacles|
      invariant total == Outcome(RevealObstacles(game.world, pathId, j).world, found + RevealObstacles(game.world, pathId, j).found)
      invariant game.players == old(game.players) && game.randomSeed == old(game.randomSeed)
      decreases |game.world.obstacles| - j
    {
      var more := RevealObstacleInPlace(game, pathId, j);
      ghost var rest := RevealObstacles(game.world, pathId, j + 1);
      assert found + (more + rest.found) == (found + more) + rest.found;
      found := found + more;
      j := j + 1;
      assert rest == RevealObstacles(game.world, pathId, j);
    }
  }

  /** One turn of the path loop: path `k` is flagged, and the obstacles
      blocking it are revealed, when it is hidden and touches `l`. */
  method RevealPathInPlace(game: Game, l: int, k: nat) returns (more: seq<Resource>)
    requires k < |game.world.paths|
    modifies game
    ensures |game.world.paths| == |old(game.world.paths)|
    ensures RevealPaths(old(game.world), l, k)
         == Outcome(RevealPaths(game.world, l, k + 1).world, more + RevealPaths(game.world, l, k + 1).found)
    ensures game.players == old(game.players) && game.randomSeed == old(game.randomSeed)
  {
    ghost var w := game.world;
    var path := game.world.paths[k];
    if !path.isDiscovered && Touches(path, l) {
      path := path.(isDiscovered := true);
      game.world := game.world.(paths := game.world.paths[k := path]);
      assert game.world == FlipPath(w, k) && path == FlipPath(w, k).paths[k] && path.id == w.paths[k].id;
      ghost var revealed := RevealObstacles(FlipPath(w, k), w.paths[k].id, 0);
      var blockers := RevealObstaclesInPlace(game, path.id);
      assert game.world == revealed.world && blockers == revealed.found;
      RevealPathsTurn(w, l, k, revealed);
      ghost var rest := RevealPaths(game.world, l, k + 1);
      assert [PathResource(path)] + blockers + rest.found == ([PathResource(path)] + blockers) + rest.found;
      more := [PathResource(path)] + blockers;
    } else {
      RevealPathsSkip(w, l, k);
      more := [];
    }
  }

  /** The loop over the undiscovered paths touching location `l`. */
  method RevealPathsInPlace(game: Game, l: int) returns (found: seq<Resource>)
    modifies game
    ensures Outcome(game.world, found) == RevealPaths(old(game.world), l, 0)
    ensures game.players == old(game.players) && game.randomSeed == old(game.randomSeed)
  {
    ghost var total := RevealPaths(game.world, l, 0);
    found := [];
    var k := 0;
    while k < |game.world.paths|
      invariant k <= |game.world.paths|
      invariant total == Outcome(RevealPaths(game.world, l, k).world, found + RevealPaths(game.world, l, k).found)
      invariant game.players == old(game.players) && game.randomSeed == old(game.randomSeed)
      decreases |game.world.paths| - k
    {
      var more := RevealPathInPlace(game, l, k);
      ghost var rest := RevealPaths(game.world, l, k + 1);
      assert found + (more + rest.found) == (found + more) + rest.found;
      found := found + more;
      k := k + 1;
      assert rest == RevealPaths(game.world, l, k);
    }
  }

  /** A method run from world `w`, leaving world `w'` and returning `r`,
      did what `spec` says: on success it left the specified world and
      returned what was found; on failure it returned the same failure, and
      the flags it had already set stay set. */
  ghost predicate Performed(w: World, spec: Result<Outcome, Failure>, w': World, r: Result<seq<Resource>, Failure>) {
    if spec.Ok? then r == Ok(spec.value.found) && w' == spec.value.world
    else r == Err(spec.error) && Grows(w, w')
  }

  /** One turn of the neighbour loop. */
  method VisitInPlace(game: Game, id: int) returns (r: Result<seq<Resource>, Failure>)
    modifies game
    ensures Performed(old(game.world), Visit(old(game.world), id), game.world, r)
    ensures game.players == old(game.players) && game.randomSeed == old(game.randomSeed)
    decreases Undiscovered(game.world), 0, 1
  {
    var neighbor := LocationIndex(game.world.locations, id);
    if neighbor.None? {
      GrowsRefl(game.world);
      return Err(NoSingleLocation(id));
    }
    if game.world.locations[neighbor.value].isDiscovered {
      return Ok([]);
    }
    r := DiscoverInPlace(id, game);
  }

  /** The loop over the neighbour ids: each one still undiscovered when its
      turn comes is discovered, recursively. */
  method DiscoverNeighborsInPlace(game: Game, ids: seq<int>) returns (r: Result<seq<Resource>, Failure>)
    modifies game
    ensures Performed(old(game.world), DiscoverNeighbors(old(game.world), ids, 0), game.world, r)
    ensures game.players == old(game.players) && game.randomSeed == old(game.randomSeed)
    decreases Undiscovered(game.world), 1, 0
  {
    ghost var w0 := game.world;
    ghost var total := DiscoverNeighbors(w0, ids, 0);
    var found := [];
    var m := 0;
    GrowsRefl(w0);
    assert total.Ok? ==> [] + total.value.found == total.value.found;
    while m < |ids|
      invariant m <= |ids|
      invariant Grows(w0, game.world)
      invariant total == After(found, DiscoverNeighbors(game.world, ids, m))
      invariant game.players == old(game.players) && game.randomSeed == old(game.randomSeed)
      decreases |ids| - m
    {
      ghost var before := game.world;
      Shrinks(w0, before);
      NeighborsStep(before, ids, m);
      ghost var visit := Visit(before, ids[m]);
      var more := VisitInPlace(game, ids[m]);
      GrowsTransitive(w0, before, game.world);
      if more.Err? {
        return Err(more.error);
      }
      assert visit.Ok? && more.value == visit.value.found && game.world == visit.value.world;
      NeighborsAdvance(total, found, before, ids, m, game.world, more.value);
      assert total == After(found + more.value, DiscoverNeighbors(game.world, ids, m + 1));
      found := found + more.value;
      m := m + 1;
      assert total == After(found, DiscoverNeighbors(game.world, ids, m));
    }
    assert DiscoverNeighbors(game.world, ids, m) == Ok(Outcome(game.world, []));
    assert found + [] == found;
    return Ok(found);
  }

  /** The flood fill as the source runs it: flags are set on the game's world
      one at a time, in the order of the nested loops, and the recursion is
      on the neighbours still undiscovered when their turn comes. On a failed
      lookup the flags already set stay set, as they do when the source's
      exception escapes. */
  method DiscoverInPlace(l: int, game: Game) returns (r: Result<seq<Resource>, Failure>)
    modifies game
    ensures Performed(old(game.world), Discover(l, old(game.world)), game.world, r)
    ensures game.players == old(game.players) && game.randomSeed == old(game.randomSeed)
    decreases Undiscovered(game.world), 0, 0
  {
    ghost var w0 := game.world;
    var index := LocationIndex(game.world.locations, l);
    if index.None? {
      GrowsRefl(w0);
      return Err(NoSingleLocation(l));
    }
    var i := index.value;
    if game.world.locations[i].isDiscovered {
      GrowsRefl(w0);
      return Err(LocationAlreadyDiscovered(l));
    }
    var location := game.world.locations[i].(isDiscovered := true);
    game.world := game.world.(locations := game.world.locations[i := location]);
    FlipLocationStep(w0, i);
    ghost var w1 := game.world;
    var paths := RevealPathsInPlace(game, l);
    RevealPathsSound(w1, l, 0);
    ghost var w2 := game.world;
    var ids := Neighbors(game.world, l, 0);
    GrowsTransitive(w0, w1, w2);
    NeighborsStable(w0, w2, l, 0);
    var rest := DiscoverNeighborsInPlace(game, ids);
    if rest.Err? {
      GrowsTransitive(w0, w2, game.world);
      return Err(rest.error);
    }
    return Ok([LocationResource(location)] + paths + rest.value);
  }
}
