/** The moves a character at a location can make (src/MAZE/AvailablePathsFactory.cs):
    one single-path group per open portal leaving the location, then, for
    West, East, North and South in that order, one group per open path of
    that direction leaving the location, extended into the longest straight
    chain of open paths of the same direction.

    A path is open when it is discovered, no obstacle blocks it and no
    character stands at its destination. The chain loop stops only because
    the same-direction step relation has no cycle; the specification takes
    that as a ranking `rank` that every open step of a direction decreases. */
module AvailablePathsFactory {
  import opened Wrappers
  import opened Enumerable
  import opened Models

  predicate Occupied(characters: seq<Character>, locationId: int) {
    exists c :: 0 <= c < |characters| && characters[c].locationId == locationId
  }

  predicate Open(w: World, p: Path) {
    p.isDiscovered && !IsBlocked(w.obstacles, p.id) && !Occupied(w.characters, p.to)
  }

  /** `q` continues a ray of direction `d` that has reached location `at`. */
  predicate Step(w: World, d: PathType, at: int, q: Path) {
    q.from == at && q.pathType == d && Open(w, q)
  }

  /** No open path of direction `d` leaves `at`. */
  predicate NoStep(w: World, d: PathType, at: int) {
    forall j :: 0 <= j < |w.paths| ==> !Step(w, d, at, w.paths[j])
  }

  /** Every open step of a direction decreases `rank`: the chains of each
      direction are acyclic. */
  ghost predicate Ranked(w: World, rank: (PathType, int) -> nat) {
    forall j :: 0 <= j < |w.paths| && w.paths[j].pathType != Portal && Open(w, w.paths[j]) ==>
      rank(w.paths[j].pathType, w.paths[j].to) < rank(w.paths[j].pathType, w.paths[j].from)
  }

  /** No location has two open paths of the same direction leaving it, so
      `SingleOrDefault` never throws. */
  predicate UniqueSteps(w: World) {
    forall i, j :: 0 <= i < j < |w.paths| && w.paths[i].pathType != Portal && Open(w, w.paths[i]) ==>
      !Step(w, w.paths[i].pathType, w.paths[i].from, w.paths[j])
  }

  /** Two open paths of direction `d`, at different positions of the
      world's paths, leave `at`: `SingleOrDefault` throws there. */
  predicate Branches(w: World, d: PathType, at: int) {
    exists i, j :: 0 <= i < j < |w.paths| && Step(w, d, at, w.paths[i]) && Step(w, d, at, w.paths[j])
  }

  /** `c` follows open steps of direction `d`: each path after the first is
      a path of the world leaving the previous one's end. */
  ghost predicate Chain(w: World, d: PathType, c: seq<Path>) {
    |c| >= 1 && forall t :: 0 < t < |c| ==> c[t] in w.paths && Step(w, d, c[t - 1].to, c[t])
  }

  /** Following open steps of direction `d` from `p` reaches a location
      where the next path branches. */
  ghost predicate RayBranches(w: World, d: PathType, p: Path) {
    exists c: seq<Path> :: Chain(w, d, c) && c[0] == p && Branches(w, d, c[|c| - 1].to)
  }

  /** Some open, non-portal path leaving `at` starts a ray that branches:
      the only case in which `GetAvailablePaths` throws. */
  ghost predicate SomeRayBranches(w: World, at: int) {
    exists j :: && 0 <= j < |w.paths| && w.paths[j].from == at && Open(w, w.paths[j])
                && w.paths[j].pathType != Portal && RayBranches(w, w.paths[j].pathType, w.paths[j])
  }

  /** A finished directional group: it leaves `at`, every path is an open
      path of the world of direction `d`, each path starts where the previous
      one ends, and no open path of direction `d` leaves the last one's end. */
  predicate DirectionalGroup(w: World, at: int, d: PathType, g: seq<Path>) {
    && |g| >= 1 && g[0].from == at
    && (forall t :: 0 <= t < |g| ==> g[t] in w.paths && Open(w, g[t]) && g[t].pathType == d)
    && (forall t :: 0 <= t < |g| - 1 ==> g[t + 1].from == g[t].to)
    && NoStep(w, d, g[|g| - 1].to)
  }

  predicate PortalGroup(w: World, at: int, g: seq<Path>) {
    |g| == 1 && g[0] in w.paths && g[0].from == at && Open(w, g[0]) && g[0].pathType == Portal
  }

  /** A group a character at `at` may be offered. */
  predicate GroupAt(w: World, at: int, g: seq<Path>) {
    PortalGroup(w, at, g) || (g != [] && g[0].pathType != Portal && DirectionalGroup(w, at, g[0].pathType, g))
  }

  /** Some group starts with `p`. */
  predicate Heads(groups: seq<seq<Path>>, p: Path) {
    exists i :: 0 <= i < |groups| && groups[i] != [] && groups[i][0] == p
  }

  /** The open paths leaving `at`, from position `k` of the world's paths on,
      in path order. */
  function Starts(w: World, at: int, k: nat): (r: seq<Path>)
    requires k <= |w.paths|
    ensures forall i :: 0 <= i < |r| ==> r[i] in w.paths && r[i].from == at && Open(w, r[i])
    ensures forall j :: k <= j < |w.paths| && w.paths[j].from == at && Open(w, w.paths[j]) ==> w.paths[j] in r
    decreases |w.paths| - k
  {
    if k == |w.paths| then []
    else if w.paths[k].from == at && Open(w, w.paths[k]) then [w.paths[k]] + Starts(w, at, k + 1)
    else Starts(w, at, k + 1)
  }

  /** What `SingleOrDefault` finds for the ray of direction `d` at `at`. */
  function NextPath(w: World, d: PathType, at: int): (r: Result<Option<Path>, Failure>)
    requires d != Portal
    ensures r == Ok(None) ==> NoStep(w, d, at)
    ensures r.Ok? && r.value.Some? ==> r.value.value in w.paths && Step(w, d, at, r.value.value)
    ensures r.Err? ==> r == Err(SeveralNextPaths(at)) && !UniqueSteps(w)
    ensures r.Err? <==> Branches(w, d, at)
    ensures r.Ok? && r.value.Some? ==> forall j :: 0 <= j < |w.paths| && Step(w, d, at, w.paths[j]) ==> w.paths[j] == r.value.value
  {
    match SingleOrDefaultIndex(w.paths, (q: Path) => Step(w, d, at, q))
    case NoMatch => Ok(None)
    case OneMatch(j) => Ok(Some(w.paths[j]))
    case SeveralMatches =>
      var i, j :| 0 <= i < j < |w.paths| && Step(w, d, at, w.paths[i]) && Step(w, d, at, w.paths[j]);
      assert Step(w, w.paths[i].pathType, w.paths[i].from, w.paths[j]);
      Err(SeveralNextPaths(at))
  }

  /** The ray that starts with `p`: `p`, then the chain of single next paths. */
  function Ray(w: World, ghost rank: (PathType, int) -> nat, d: PathType, p: Path): (r: Result<seq<Path>, Failure>)
    requires d != Portal && Ranked(w, rank)
    requires p in w.paths && Open(w, p) && p.pathType == d
    ensures r.Ok? ==> DirectionalGroup(w, p.from, d, r.value) && r.value[0] == p
    ensures r.Err? ==> r.error.SeveralNextPaths? && !UniqueSteps(w)
    decreases rank(d, p.to)
  {
    match NextPath(w, d, p.to)
    case Err(e) => Err(e)
    case Ok(None) => Ok([p])
    case Ok(Some(q)) =>
      var rest := Ray(w, rank, d, q);
      if rest.Err? then rest
      else
        RayCons(w, d, p, rest.value);
        Ok([p] + rest.value)
  }

  /** A ray fails exactly when the chain of single next paths from its first
      path reaches a location where the next path branches. */
  lemma RayFailsExactly(w: World, rank: (PathType, int) -> nat, d: PathType, p: Path)
    requires d != Portal && Ranked(w, rank)
    requires p in w.paths && Open(w, p) && p.pathType == d
    ensures Ray(w, rank, d, p).Err? <==> RayBranches(w, d, p)
  {
    if Ray(w, rank, d, p).Err? {
      RayFailureBranches(w, rank, d, p);
    }
    if RayBranches(w, d, p) {
      var c: seq<Path> :| Chain(w, d, c) && c[0] == p && Branches(w, d, c[|c| - 1].to);
      BranchingFailsRay(w, rank, d, c);
    }
  }

  lemma {:induction false} RayFailureBranches(w: World, rank: (PathType, int) -> nat, d: PathType, p: Path)
    requires d != Portal && Ranked(w, rank)
    requires p in w.paths && Open(w, p) && p.pathType == d
    requires Ray(w, rank, d, p).Err?
    ensures RayBranches(w, d, p)
    decreases rank(d, p.to)
  {
    var next := NextPath(w, d, p.to);
    if next.Err? {
      assert Chain(w, d, [p]);
    } else {
      assert next.value.Some?;
      var q := next.value.value;
      RayFailureBranches(w, rank, d, q);
      RayBranchesCons(w, d, p, q);
    }
  }

  /** A branching ray behind one open step branches too. */
  lemma RayBranchesCons(w: World, d: PathType, p: Path, q: Path)
    requires q in w.paths && Step(w, d, p.to, q) && RayBranches(w, d, q)
    ensures RayBranches(w, d, p)
  {
    var c: seq<Path> :| Chain(w, d, c) && c[0] == q && Branches(w, d, c[|c| - 1].to);
    ChainCons(w, d, p, c);
    var c' := [p] + c;
    assert c'[0] == p && c'[|c'| - 1] == c[|c| - 1];
  }

  lemma {:induction false} BranchingFailsRay(w: World, rank: (PathType, int) -> nat, d: PathType, c: seq<Path>)
    requires d != Portal && Ranked(w, rank)
    requires Chain(w, d, c) && c[0] in w.paths && Open(w, c[0]) && c[0].pathType == d
    requires Branches(w, d, c[|c| - 1].to)
    ensures Ray(w, rank, d, c[0]).Err?
    decreases |c|
  {
    var next := NextPath(w, d, c[0].to);
    if |c| > 1 && next.Ok? {
      assert c[1] in w.paths && Step(w, d, c[0].to, c[1]);
      var k :| 0 <= k < |w.paths| && w.paths[k] == c[1];
      assert next.value.Some?;
      assert next.value.value == c[1];
      ChainTail(w, d, c);
      BranchingFailsRay(w, rank, d, c[1..]);
    }
  }

  lemma ChainCons(w: World, d: PathType, p: Path, c: seq<Path>)
    requires Chain(w, d, c) && c[0] in w.paths && Step(w, d, p.to, c[0])
    ensures Chain(w, d, [p] + c)
  {
    var c' := [p] + c;
    forall t | 0 < t < |c'| ensures c'[t] in w.paths && Step(w, d, c'[t - 1].to, c'[t]) {
      assert c'[t] == c[t - 1];
      if t > 1 {
        assert c'[t - 1] == c[t - 2];
      }
    }
  }

  lemma ChainTail(w: World, d: PathType, c: seq<Path>)
    requires Chain(w, d, c) && |c| > 1
    ensures Chain(w, d, c[1..]) && c[1..][0] == c[1] && c[1..][|c| - 2] == c[|c| - 1]
  {
    var c' := c[1..];
    forall t | 0 < t < |c'| ensures c'[t] in w.paths && Step(w, d, c'[t - 1].to, c'[t]) {
      assert c'[t] == c[t + 1] && c'[t - 1] == c[t];
    }
  }

  /** An open path of direction `d` in front of a ray that leaves its end
      makes a longer ray. */
  lemma RayCons(w: World, d: PathType, p: Path, rest: seq<Path>)
    requires p in w.paths && Open(w, p) && p.pathType == d
    requires DirectionalGroup(w, p.to, d, rest)
    ensures DirectionalGroup(w, p.from, d, [p] + rest) && ([p] + rest)[0] == p
  {
    assert forall t :: 0 <= t < |rest| ==> ([p] + rest)[t + 1] == rest[t];
  }

  /** Portals first, then West, East, North and South. */
  function TypeOrder(t: PathType): nat {
    match t
    case Portal => 0
    case West => 1
    case East => 2
    case North => 3
    case South => 4
  }

  /** One group per portal among `starts[k..]`, in order. */
  function PortalGroups(w: World, starts: seq<Path>, k: nat): (r: seq<seq<Path>>)
    requires k <= |starts|
    requires forall i :: 0 <= i < |starts| ==> Open(w, starts[i])
    ensures forall i :: 0 <= i < |r| ==> |r[i]| == 1 && r[i][0] in starts[k..] && r[i][0].pathType == Portal
    ensures forall j :: k <= j < |starts| && starts[j].pathType == Portal ==> Heads(r, starts[j])
    decreases |starts| - k
  {
    if k == |starts| then []
    else
      var rest := PortalGroups(w, starts, k + 1);
      HeadsAppend([[starts[k]]], rest);
      assert forall i :: 0 <= i < |rest| ==> rest[i][0] in starts[k..] by {
        assert forall x :: x in starts[k + 1..] ==> x in starts[k..];
      }
      if starts[k].pathType == Portal && !Occupied(w.characters, starts[k].to) then
        assert [[starts[k]]][0][0] == starts[k];
        assert Heads([[starts[k]]], starts[k]);
        [[starts[k]]] + rest
      else rest
  }

  lemma HeadsAppend(a: seq<seq<Path>>, b: seq<seq<Path>>)
    ensures forall p :: Heads(a + b, p) <==> Heads(a, p) || Heads(b, p)
  {
    forall p ensures Heads(a + b, p) <==> Heads(a, p) || Heads(b, p) {
      if Heads(a + b, p) {
        var i :| 0 <= i < |a + b| && (a + b)[i] != [] && (a + b)[i][0] == p;
        if i >= |a| {
          assert b[i - |a|] == (a + b)[i];
        }
      }
      if Heads(a, p) {
        var i :| 0 <= i < |a| && a[i] != [] && a[i][0] == p;
        assert (a + b)[i] == a[i];
      }
      if Heads(b, p) {
        var i :| 0 <= i < |b| && b[i] != [] && b[i][0] == p;
        assert (a + b)[|a| + i] == b[i];
      }
    }
  }

  /** Groups come in `TypeOrder` of their first paths. */
  predicate Ordered(groups: seq<seq<Path>>) {
    forall i, j :: 0 <= i < j < |groups| && groups[i] != [] && groups[j] != [] ==>
      TypeOrder(groups[i][0].pathType) <= TypeOrder(groups[j][0].pathType)
  }

  /** `r` followed by `tail`, when both succeeded. */
  function Then<T>(r: Result<seq<T>, Failure>, tail: Result<seq<T>, Failure>): Result<seq<T>, Failure> {
    if r.Err? then r else if tail.Err? then tail else Ok(r.value + tail.value)
  }

  /** A directional group of its first path's direction, leaving that path's
      origin. */
  predicate Shaped(w: World, g: seq<Path>) {
    g != [] && DirectionalGroup(w, g[0].from, g[0].pathType, g)
  }

  /** `groups` are rays of direction `d`, each starting with one of
      `starts[k..]`, and every path of direction `d` there starts one. */
  predicate RaysFrom(w: World, d: PathType, starts: seq<Path>, k: nat, groups: seq<seq<Path>>)
    requires k <= |starts|
  {
    && (forall i :: 0 <= i < |groups| ==> Shaped(w, groups[i]) && groups[i][0] in starts[k..] && groups[i][0].pathType == d)
    && (forall j :: k <= j < |starts| && starts[j].pathType == d ==> Heads(groups, starts[j]))
  }

  /** The rays of direction `d` that start with `starts[k..]`. */
  function Rays(w: World, ghost rank: (PathType, int) -> nat, d: PathType, starts: seq<Path>, k: nat)
    : Result<seq<seq<Path>>, Failure>
    requires d != Portal && Ranked(w, rank) && k <= |starts|
    requires forall i :: 0 <= i < |starts| ==> starts[i] in w.paths && Open(w, starts[i])
    decreases |starts| - k
  {
    if k == |starts| then Ok([])
    else
      var rest := Rays(w, rank, d, starts, k + 1);
      if starts[k].pathType == d then
        var ray := Ray(w, rank, d, starts[k]);
        if ray.Err? then Err(ray.error)
        else if rest.Err? then rest
        else Ok([ray.value] + rest.value)
      else rest
  }

  /** `Rays` yields the rays of the paths of direction `d`, and fails only
      where `SingleOrDefault` throws. */
  lemma RaysSound(w: World, rank: (PathType, int) -> nat, d: PathType, starts: seq<Path>, k: nat)
    requires d != Portal && Ranked(w, rank) && k <= |starts|
    requires forall i :: 0 <= i < |starts| ==> starts[i] in w.paths && Open(w, starts[i])
    ensures Rays(w, rank, d, starts, k).Ok? ==> RaysFrom(w, d, starts, k, Rays(w, rank, d, starts, k).value)
    ensures Rays(w, rank, d, starts, k).Err? ==> Rays(w, rank, d, starts, k).error.SeveralNextPaths? && !UniqueSteps(w)
    ensures UniqueSteps(w) ==> Rays(w, rank, d, starts, k).Ok?
  {
    RaysShaped(w, rank, d, starts, k);
    RaysFail(w, rank, d, starts, k);
  }

  lemma {:induction false} RaysShaped(w: World, rank: (PathType, int) -> nat, d: PathType, starts: seq<Path>, k: nat)
    requires d != Portal && Ranked(w, rank) && k <= |starts|
    requires forall i :: 0 <= i < |starts| ==> starts[i] in w.paths && Open(w, starts[i])
    ensures Rays(w, rank, d, starts, k).Ok? ==> RaysFrom(w, d, starts, k, Rays(w, rank, d, starts, k).value)
    decreases |starts| - k
  {
    if k < |starts| {
      var rest := Rays(w, rank, d, starts, k + 1);
      RaysShaped(w, rank, d, starts, k + 1);
      if starts[k].pathType == d {
        var ray := Ray(w, rank, d, starts[k]);
        if ray.Ok? && rest.Ok? {
          assert Rays(w, rank, d, starts, k) == Ok([ray.value] + rest.value);
          RaysCons(w, d, starts, k, ray.value, rest.value);
        }
      } else {
        assert Rays(w, rank, d, starts, k) == rest;
        RaysSkip(w, d, starts, k, rest);
      }
    }
  }

  lemma {:induction false} RaysFail(w: World, rank: (PathType, int) -> nat, d: PathType, starts: seq<Path>, k: nat)
    requires d != Portal && Ranked(w, rank) && k <= |starts|
    requires forall i :: 0 <= i < |starts| ==> starts[i] in w.paths && Open(w, starts[i])
    ensures Rays(w, rank, d, starts, k).Err? ==> Rays(w, rank, d, starts, k).error.SeveralNextPaths? && !UniqueSteps(w)
    ensures UniqueSteps(w) ==> Rays(w, rank, d, starts, k).Ok?
    decreases |starts| - k
  {
    if k < |starts| {
      RaysFail(w, rank, d, starts, k + 1);
    }
  }

  /** One of `starts[k..]` of direction `d` starts a ray that branches. */
  ghost predicate BranchingStart(w: World, d: PathType, starts: seq<Path>, k: nat) {
    exists j :: k <= j < |starts| && starts[j].pathType == d && RayBranches(w, d, starts[j])
  }

  lemma BranchingStartStep(w: World, d: PathType, starts: seq<Path>, k: nat)
    requires k < |starts|
    ensures BranchingStart(w, d, starts, k) <==>
              (starts[k].pathType == d && RayBranches(w, d, starts[k])) || BranchingStart(w, d, starts, k + 1)
  {
    if BranchingStart(w, d, starts, k) {
      var j :| k <= j < |starts| && starts[j].pathType == d && RayBranches(w, d, starts[j]);
      if j > k {
        assert BranchingStart(w, d, starts, k + 1);
      }
    }
  }

  /** `Rays` fails exactly when one of its rays branches. */
  lemma {:induction false} RaysFailExactly(w: World, rank: (PathType, int) -> nat, d: PathType, starts: seq<Path>, k: nat)
    requires d != Portal && Ranked(w, rank) && k <= |starts|
    requires forall i :: 0 <= i < |starts| ==> starts[i] in w.paths && Open(w, starts[i])
    ensures Rays(w, rank, d, starts, k).Err? <==> BranchingStart(w, d, starts, k)
    decreases |starts| - k
  {
    if k < |starts| {
      RaysFailExactly(w, rank, d, starts, k + 1);
      BranchingStartStep(w, d, starts, k);
      if starts[k].pathType == d {
        RayFailsExactly(w, rank, d, starts[k]);
      }
    }
  }

  /** One ray per start of direction `d`. */
  lemma {:induction false} RaysCount(w: World, rank: (PathType, int) -> nat, d: PathType, starts: seq<Path>, k: nat)
    requires d != Portal && Ranked(w, rank) && k <= |starts|
    requires forall i :: 0 <= i < |starts| ==> starts[i] in w.paths && Open(w, starts[i])
    ensures Rays(w, rank, d, starts, k).Ok? ==> |Rays(w, rank, d, starts, k).value| == CountType(starts, d, k)
    decreases |starts| - k
  {
    if k < |starts| {
      RaysCount(w, rank, d, starts, k + 1);
    }
  }

  lemma RaysCons(w: World, d: PathType, starts: seq<Path>, k: nat, ray: seq<Path>, rest: seq<seq<Path>>)
    requires k < |starts| && starts[k].pathType == d
    requires Shaped(w, ray) && ray[0] == starts[k]
    requires RaysFrom(w, d, starts, k + 1, rest)
    ensures RaysFrom(w, d, starts, k, [ray] + rest)
  {
    assert forall x :: x in starts[k + 1..] ==> x in starts[k..];
    HeadsAppend([ray], rest);
    assert [ray][0] == ray;
    assert Heads([ray], starts[k]);
  }

  lemma RaysSkip(w: World, d: PathType, starts: seq<Path>, k: nat, rest: Result<seq<seq<Path>>, Failure>)
    requires k < |starts| && starts[k].pathType != d
    requires rest.Ok? ==> RaysFrom(w, d, starts, k + 1, rest.value)
    ensures rest.Ok? ==> RaysFrom(w, d, starts, k, rest.value)
  {
    assert forall x :: x in starts[k + 1..] ==> x in starts[k..];
  }

  const Directions: seq<PathType> := [West, East, North, South]

  /** How many of `starts[k..]` have type `t`. */
  function CountType(starts: seq<Path>, t: PathType, k: nat): nat
    requires k <= |starts|
    decreases |starts| - k
  {
    if k == |starts| then 0 else (if starts[k].pathType == t then 1 else 0) + CountType(starts, t, k + 1)
  }

  /** How many of `starts` have one of the types `Directions[t..]`. */
  function DirectionalCount(starts: seq<Path>, t: nat): nat
    requires t <= |Directions|
    decreases |Directions| - t
  {
    if t == |Directions| then 0 else CountType(starts, Directions[t], 0) + DirectionalCount(starts, t + 1)
  }

  /** Every start has exactly one of the five types. */
  lemma {:induction false} TypesCount(starts: seq<Path>, k: nat)
    requires k <= |starts|
    ensures CountType(starts, Portal, k) + CountType(starts, West, k) + CountType(starts, East, k)
            + CountType(starts, North, k) + CountType(starts, South, k) == |starts| - k
    decreases |starts| - k
  {
    if k < |starts| {
      TypesCount(starts, k + 1);
    }
  }

  /** One portal group per portal start. */
  lemma {:induction false} PortalGroupsCount(w: World, starts: seq<Path>, k: nat)
    requires k <= |starts|
    requires forall i :: 0 <= i < |starts| ==> Open(w, starts[i])
    ensures |PortalGroups(w, starts, k)| == CountType(starts, Portal, k)
    decreases |starts| - k
  {
    if k < |starts| {
      PortalGroupsCount(w, starts, k + 1);
    }
  }

  /** `groups` are ordered rays, each starting with one of `starts` of a
      direction after `Directions[..t]`, and every such path starts one. */
  predicate GroupsFrom(w: World, starts: seq<Path>, t: nat, groups: seq<seq<Path>>) {
    && (forall i :: 0 <= i < |groups| ==> Shaped(w, groups[i]) && groups[i][0] in starts && t < TypeOrder(groups[i][0].pathType))
    && Ordered(groups)
    && (forall j :: 0 <= j < |starts| && t < TypeOrder(starts[j].pathType) ==> Heads(groups, starts[j]))
  }

  /** The directional groups for `Directions[t..]`. */
  function DirectionalGroups(w: World, ghost rank: (PathType, int) -> nat, starts: seq<Path>, t: nat)
    : Result<seq<seq<Path>>, Failure>
    requires Ranked(w, rank) && t <= |Directions|
    requires forall i :: 0 <= i < |starts| ==> starts[i] in w.paths && Open(w, starts[i])
    decreases |Directions| - t
  {
    if t == |Directions| then Ok([])
    else Then(Rays(w, rank, Directions[t], starts, 0), DirectionalGroups(w, rank, starts, t + 1))
  }

  /** The groups of the four directions, in order, and the only failure. */
  lemma {:induction false} DirectionalGroupsSound(w: World, rank: (PathType, int) -> nat, starts: seq<Path>, t: nat)
    requires Ranked(w, rank) && t <= |Directions|
    requires forall i :: 0 <= i < |starts| ==> starts[i] in w.paths && Open(w, starts[i])
    ensures DirectionalGroups(w, rank, starts, t).Ok? ==> GroupsFrom(w, starts, t, DirectionalGroups(w, rank, starts, t).value)
    ensures DirectionalGroups(w, rank, starts, t).Err? ==>
              DirectionalGroups(w, rank, starts, t).error.SeveralNextPaths? && !UniqueSteps(w)
    ensures UniqueSteps(w) ==> DirectionalGroups(w, rank, starts, t).Ok?
    decreases |Directions| - t
  {
    if t < |Directions| {
      var here := Rays(w, rank, Directions[t], starts, 0);
      var rest := DirectionalGroups(w, rank, starts, t + 1);
      RaysSound(w, rank, Directions[t], starts, 0);
      DirectionalGroupsSound(w, rank, starts, t + 1);
      if here.Ok? && rest.Ok? {
        GroupsCons(w, starts, t, here.value, rest.value);
      }
    }
  }

  /** The directional groups fail exactly when a ray of one of the
      directions `Directions[t..]` branches. */
  lemma {:induction false} DirectionalGroupsFailExactly(w: World, rank: (PathType, int) -> nat, starts: seq<Path>, t: nat)
    requires Ranked(w, rank) && t <= |Directions|
    requires forall i :: 0 <= i < |starts| ==> starts[i] in w.paths && Open(w, starts[i])
    ensures DirectionalGroups(w, rank, starts, t).Err? <==> BranchingAfter(w, starts, t)
    ensures DirectionalGroups(w, rank, starts, t).Ok? ==> |DirectionalGroups(w, rank, starts, t).value| == DirectionalCount(starts, t)
    decreases |Directions| - t
  {
    if t < |Directions| {
      var d := Directions[t];
      RaysFailExactly(w, rank, d, starts, 0);
      RaysCount(w, rank, d, starts, 0);
      DirectionalGroupsFailExactly(w, rank, starts, t + 1);
      BranchingAfterStep(w, starts, t);
    }
  }

  /** One of `starts` of a direction after `Directions[..t]` starts a ray
      that branches. */
  ghost predicate BranchingAfter(w: World, starts: seq<Path>, t: nat) {
    exists j :: 0 <= j < |starts| && t < TypeOrder(starts[j].pathType) && RayBranches(w, starts[j].pathType, starts[j])
  }

  lemma BranchingAfterStep(w: World, starts: seq<Path>, t: nat)
    requires t < |Directions|
    ensures BranchingAfter(w, starts, t) <==> BranchingStart(w, Directions[t], starts, 0) || BranchingAfter(w, starts, t + 1)
  {
    var d := Directions[t];
    assert TypeOrder(d) == t + 1;
    if BranchingAfter(w, starts, t) {
      var j :| 0 <= j < |starts| && t < TypeOrder(starts[j].pathType) && RayBranches(w, starts[j].pathType, starts[j]);
      if TypeOrder(starts[j].pathType) == t + 1 {
        assert starts[j].pathType == d;
        assert BranchingStart(w, d, starts, 0);
      } else {
        assert BranchingAfter(w, starts, t + 1);
      }
    }
    if BranchingStart(w, d, starts, 0) {
      var j :| 0 <= j < |starts| && starts[j].pathType == d && RayBranches(w, d, starts[j]);
      assert BranchingAfter(w, starts, t);
    }
  }

  lemma GroupsCons(w: World, starts: seq<Path>, t: nat, here: seq<seq<Path>>, rest: seq<seq<Path>>)
    requires t < |Directions|
    requires RaysFrom(w, Directions[t], starts, 0, here)
    requires GroupsFrom(w, starts, t + 1, rest)
    ensures GroupsFrom(w, starts, t, here + rest)
  {
    var d := Directions[t];
    assert TypeOrder(d) == t + 1;
    assert starts[0..] == starts;
    var g := here + rest;
    HeadsAppend(here, rest);
    assert forall i :: 0 <= i < |g| ==> g[i] == if i < |here| then here[i] else rest[i - |here|];
    forall j | 0 <= j < |starts| && t < TypeOrder(starts[j].pathType) ensures Heads(g, starts[j]) {
      if starts[j].pathType != d {
        assert t + 1 < TypeOrder(starts[j].pathType);
      }
    }
  }

  /** `AvailablePathsFactory.GetAvailablePaths`, as the function it computes:
      every group is a portal group or a maximal straight ray leaving `at`,
      portals come first and then the four directions in order, every open
      path leaving `at` starts a group, and the only failure is a location
      with two open next paths of one direction. */
  function AvailablePaths(at: int, w: World, ghost rank: (PathType, int) -> nat): (r: Result<seq<seq<Path>>, Failure>)
    requires Ranked(w, rank)
    ensures r.Ok? ==> forall i :: 0 <= i < |r.value| ==> GroupAt(w, at, r.value[i])
    ensures r.Ok? ==> Ordered(r.value)
    ensures r.Ok? ==> forall j :: 0 <= j < |w.paths| && w.paths[j].from == at && Open(w, w.paths[j]) ==>
                        Heads(r.value, w.paths[j])
    ensures r.Err? ==> r.error.SeveralNextPaths? && !UniqueSteps(w)
    ensures UniqueSteps(w) ==> r.Ok?
    ensures r.Err? <==> SomeRayBranches(w, at)
    ensures r.Ok? ==> |r.value| == |Starts(w, at, 0)|
  {
    var starts := Starts(w, at, 0);
    var portals := PortalGroups(w, starts, 0);
    var rays := DirectionalGroups(w, rank, starts, 0);
    DirectionalGroupsSound(w, rank, starts, 0);
    AvailablePathsFailExactly(w, rank, at, starts);
    if rays.Err? then rays
    else
      PortalsThenRays(w, at, starts, portals, rays.value);
      Ok(portals + rays.value)
  }

  /** The portal groups and rays leaving `at` fail exactly when some ray
      branches, and otherwise number one per open path leaving `at`. */
  lemma AvailablePathsFailExactly(w: World, rank: (PathType, int) -> nat, at: int, starts: seq<Path>)
    requires Ranked(w, rank) && starts == Starts(w, at, 0)
    ensures DirectionalGroups(w, rank, starts, 0).Err? <==> SomeRayBranches(w, at)
    ensures DirectionalGroups(w, rank, starts, 0).Ok? ==>
              |PortalGroups(w, starts, 0)| + |DirectionalGroups(w, rank, starts, 0).value| == |starts|
  {
    DirectionalGroupsFailExactly(w, rank, starts, 0);
    if SomeRayBranches(w, at) {
      BranchFromStart(w, at, starts);
    }
    if BranchingAfter(w, starts, 0) {
      StartBranches(w, at, starts);
    }
    DirectionalCountIsRest(starts);
    PortalGroupsCount(w, starts, 0);
  }

  lemma DirectionalCountIsRest(starts: seq<Path>)
    ensures CountType(starts, Portal, 0) + DirectionalCount(starts, 0) == |starts|
  {
    TypesCount(starts, 0);
    assert DirectionalCount(starts, 3) == CountType(starts, South, 0);
    assert DirectionalCount(starts, 1) == CountType(starts, East, 0) + CountType(starts, North, 0) + CountType(starts, South, 0);
  }

  /** A branching ray from `at` starts with one of the open paths leaving it. */
  lemma BranchFromStart(w: World, at: int, starts: seq<Path>)
    requires forall j :: 0 <= j < |w.paths| && w.paths[j].from == at && Open(w, w.paths[j]) ==> w.paths[j] in starts
    requires SomeRayBranches(w, at)
    ensures BranchingAfter(w, starts, 0)
  {
    var j :| && 0 <= j < |w.paths| && w.paths[j].from == at && Open(w, w.paths[j])
             && w.paths[j].pathType != Portal && RayBranches(w, w.paths[j].pathType, w.paths[j]);
    var i :| 0 <= i < |starts| && starts[i] == w.paths[j];
    OnlyPortalsComeFirst(starts[i].pathType);
  }

  lemma StartBranches(w: World, at: int, starts: seq<Path>)
    requires forall i :: 0 <= i < |starts| ==> starts[i] in w.paths && starts[i].from == at && Open(w, starts[i])
    requires BranchingAfter(w, starts, 0)
    ensures SomeRayBranches(w, at)
  {
    var i :| 0 <= i < |starts| && 0 < TypeOrder(starts[i].pathType) && RayBranches(w, starts[i].pathType, starts[i]);
    var p := starts[i];
    OnlyPortalsComeFirst(p.pathType);
    var j :| 0 <= j < |w.paths| && w.paths[j] == p;
    assert && w.paths[j].from == at && Open(w, w.paths[j])
           && w.paths[j].pathType != Portal && RayBranches(w, w.paths[j].pathType, w.paths[j]);
  }

  lemma OnlyPortalsComeFirst(t: PathType)
    ensures TypeOrder(t) == 0 <==> t == Portal
  {
  }

  lemma PortalsThenRays(w: World, at: int, starts: seq<Path>, portals: seq<seq<Path>>, rays: seq<seq<Path>>)
    requires forall i :: 0 <= i < |starts| ==> starts[i] in w.paths && starts[i].from == at && Open(w, starts[i])
    requires forall j :: 0 <= j < |w.paths| && w.paths[j].from == at && Open(w, w.paths[j]) ==> w.paths[j] in starts
    requires forall i :: 0 <= i < |portals| ==> |portals[i]| == 1 && portals[i][0] in starts && portals[i][0].pathType == Portal
    requires forall j :: 0 <= j < |starts| && starts[j].pathType == Portal ==> Heads(portals, starts[j])
    requires GroupsFrom(w, starts, 0, rays)
    ensures forall i :: 0 <= i < |portals + rays| ==> GroupAt(w, at, (portals + rays)[i])
    ensures Ordered(portals + rays)
    ensures forall j :: 0 <= j < |w.paths| && w.paths[j].from == at && Open(w, w.paths[j]) ==> Heads(portals + rays, w.paths[j])
  {
    PortalsThenRaysAreGroups(w, at, starts, portals, rays);
    PortalsThenRaysOrdered(portals, rays);
    PortalsThenRaysCover(w, at, starts, portals, rays);
  }

  lemma PortalsThenRaysAreGroups(w: World, at: int, starts: seq<Path>, portals: seq<seq<Path>>, rays: seq<seq<Path>>)
    requires forall i :: 0 <= i < |starts| ==> starts[i] in w.paths && starts[i].from == at && Open(w, starts[i])
    requires forall i :: 0 <= i < |portals| ==> |portals[i]| == 1 && portals[i][0] in starts && portals[i][0].pathType == Portal
    requires forall i :: 0 <= i < |rays| ==> Shaped(w, rays[i]) && rays[i][0] in starts && 0 < TypeOrder(rays[i][0].pathType)
    ensures forall i :: 0 <= i < |portals + rays| ==> GroupAt(w, at, (portals + rays)[i])
  {
    forall i | 0 <= i < |portals + rays| ensures GroupAt(w, at, (portals + rays)[i]) {
      if i < |portals| {
        assert (portals + rays)[i] == portals[i];
        assert PortalGroup(w, at, portals[i]);
      } else {
        var g := rays[i - |portals|];
        assert (portals + rays)[i] == g;
        assert g[0].from == at;
      }
    }
  }

  lemma PortalsThenRaysOrdered(portals: seq<seq<Path>>, rays: seq<seq<Path>>)
    requires forall i :: 0 <= i < |portals| ==> |portals[i]| == 1 && portals[i][0].pathType == Portal
    requires Ordered(rays)
    ensures Ordered(portals + rays)
  {
    var g: seq<seq<Path>> := portals + rays;
    forall i: nat, j: nat | 0 <= i < j < |g| && g[i] != [] && g[j] != []
      ensures TypeOrder(g[i][0].pathType) <= TypeOrder(g[j][0].pathType)
    {
      if j < |portals| {
        assert g[i] == portals[i] && g[j] == portals[j];
      } else if i < |portals| {
        assert g[i] == portals[i];
      } else {
        assert g[i] == rays[i - |portals|] && g[j] == rays[j - |portals|];
      }
    }
  }

  lemma PortalsThenRaysCover(w: World, at: int, starts: seq<Path>, portals: seq<seq<Path>>, rays: seq<seq<Path>>)
    requires forall j :: 0 <= j < |w.paths| && w.paths[j].from == at && Open(w, w.paths[j]) ==> w.paths[j] in starts
    requires forall j :: 0 <= j < |starts| && starts[j].pathType == Portal ==> Heads(portals, starts[j])
    requires forall j :: 0 <= j < |starts| && 0 < TypeOrder(starts[j].pathType) ==> Heads(rays, starts[j])
    ensures forall j :: 0 <= j < |w.paths| && w.paths[j].from == at && Open(w, w.paths[j]) ==> Heads(portals + rays, w.paths[j])
  {
    HeadsAppend(portals, rays);
    forall j | 0 <= j < |w.paths| && w.paths[j].from == at && Open(w, w.paths[j]) ensures Heads(portals + rays, w.paths[j]) {
      var k :| 0 <= k < |starts| && starts[k] == w.paths[j];
      if w.paths[j].pathType != Portal {
        assert 0 < TypeOrder(starts[k].pathType);
      }
    }
  }

  lemma ThenEmpty<T>(x: Result<seq<T>, Failure>)
    ensures Then(Ok([]), x) == x
  {
    if x.Ok? {
      assert [] + x.value == x.value;
    }
  }

  lemma ThenAssoc<T>(a: Result<seq<T>, Failure>, x: Result<seq<T>, Failure>, y: Result<seq<T>, Failure>)
    ensures Then(Then(a, x), y) == Then(a, Then(x, y))
  {
    if a.Ok? && x.Ok? && y.Ok? {
      assert a.value + (x.value + y.value) == (a.value + x.value) + y.value;
    }
  }

  /** A ray that goes on is its first path followed by the rest of the ray. */
  lemma RayStep(w: World, rank: (PathType, int) -> nat, d: PathType, p: Path)
    requires d != Portal && Ranked(w, rank)
    requires p in w.paths && Open(w, p) && p.pathType == d
    requires NextPath(w, d, p.to).Ok? && NextPath(w, d, p.to).value.Some?
    ensures Ray(w, rank, d, p) == Then(Ok([p]), Ray(w, rank, d, NextPath(w, d, p.to).value.value))
  {
  }

  /** The `while` loop that builds one ray: append the current path, then
      look for the single next one. */
  method BuildRay(w: World, ghost rank: (PathType, int) -> nat, d: PathType, initial: Path)
    returns (r: Result<seq<Path>, Failure>)
    requires d != Portal && Ranked(w, rank)
    requires initial in w.paths && Open(w, initial) && initial.pathType == d
    ensures r == Ray(w, rank, d, initial)
  {
    var paths: seq<Path> := [];
    var nextPath := initial;
    ThenEmpty(Ray(w, rank, d, initial));
    while true
      invariant nextPath in w.paths && Open(w, nextPath) && nextPath.pathType == d
      invariant Ray(w, rank, d, initial) == Then(Ok(paths), Ray(w, rank, d, nextPath))
      decreases rank(d, nextPath.to)
    {
      var next := NextPath(w, d, nextPath.to);
      if next.Err? {
        return Err(next.error);
      }
      if next.value.None? {
        return Ok(paths + [nextPath]);
      }
      RayStep(w, rank, d, nextPath);
      ThenAssoc(Ok(paths), Ok([nextPath]), Ray(w, rank, d, next.value.value));
      paths := paths + [nextPath];
      nextPath := next.value.value;
    }
  }

  /** The portal loop: one singleton group per portal among `starts`. */
  method CollectPortals(w: World, starts: seq<Path>) returns (groups: seq<seq<Path>>)
    requires forall i :: 0 <= i < |starts| ==> Open(w, starts[i])
    ensures groups == PortalGroups(w, starts, 0)
  {
    groups := [];
    for k := 0 to |starts|
      invariant groups + PortalGroups(w, starts, k) == PortalGroups(w, starts, 0)
    {
      if starts[k].pathType == Portal && !Occupied(w.characters, starts[k].to) {
        assert groups + PortalGroups(w, starts, k) == (groups + [[starts[k]]]) + PortalGroups(w, starts, k + 1);
        groups := groups + [[starts[k]]];
      }
    }
    assert groups + [] == groups;
  }

  /** The loop over the initial paths of one direction, appending each ray
      to `groups`. */
  method CollectRays(w: World, ghost rank: (PathType, int) -> nat, d: PathType, starts: seq<Path>, groups: seq<seq<Path>>)
    returns (r: Result<seq<seq<Path>>, Failure>)
    requires d != Portal && Ranked(w, rank)
    requires forall i :: 0 <= i < |starts| ==> starts[i] in w.paths && Open(w, starts[i])
    ensures r == Then(Ok(groups), Rays(w, rank, d, starts, 0))
  {
    var acc := groups;
    for k := 0 to |starts|
      invariant Then(Ok(acc), Rays(w, rank, d, starts, k)) == Then(Ok(groups), Rays(w, rank, d, starts, 0))
    {
      if starts[k].pathType == d {
        var paths := BuildRay(w, rank, d, starts[k]);
        if paths.Err? {
          return Err(paths.error);
        }
        ghost var rest := Rays(w, rank, d, starts, k + 1);
        assert Rays(w, rank, d, starts, k) == Then(Ok([paths.value]), rest);
        ThenAssoc(Ok(acc), Ok([paths.value]), rest);
        acc := acc + [paths.value];
      }
    }
    assert acc + [] == acc;
    r := Ok(acc);
  }

  lemma AvailablePathsUnfold(at: int, w: World, rank: (PathType, int) -> nat)
    requires Ranked(w, rank)
    ensures AvailablePaths(at, w, rank)
         == Then(Ok(PortalGroups(w, Starts(w, at, 0), 0)), DirectionalGroups(w, rank, Starts(w, at, 0), 0))
  {
  }

  /** The loop over `Directions`, appending each direction's rays to
      `groups`. */
  method CollectDirections(w: World, ghost rank: (PathType, int) -> nat, starts: seq<Path>, groups: seq<seq<Path>>)
    returns (r: Result<seq<seq<Path>>, Failure>)
    requires Ranked(w, rank)
    requires forall i :: 0 <= i < |starts| ==> starts[i] in w.paths && Open(w, starts[i])
    ensures r == Then(Ok(groups), DirectionalGroups(w, rank, starts, 0))
  {
    var acc := groups;
    for t := 0 to |Directions|
      invariant Then(Ok(acc), DirectionalGroups(w, rank, starts, t)) == Then(Ok(groups), DirectionalGroups(w, rank, starts, 0))
    {
      ghost var here := Rays(w, rank, Directions[t], starts, 0);
      ghost var rest := DirectionalGroups(w, rank, starts, t + 1);
      ThenAssoc(Ok(acc), here, rest);
      var next := CollectRays(w, rank, Directions[t], starts, acc);
      assert next == Then(Ok(acc), here);
      if next.Err? {
        return Err(next.error);
      }
      acc := next.value;
      assert Then(Ok(acc), rest) == Then(Ok(groups), DirectionalGroups(w, rank, starts, 0));
    }
    assert acc + [] == acc;
    r := Ok(acc);
  }

  /** `GetAvailablePaths` itself: the open paths leaving `at`, the portal
      groups, then the rays of each direction. */
  method GetAvailablePaths(at: int, w: World, ghost rank: (PathType, int) -> nat)
    returns (r: Result<seq<seq<Path>>, Failure>)
    requires Ranked(w, rank)
    ensures r == AvailablePaths(at, w, rank)
  {
    var starts := Starts(w, at, 0);
    var portals := CollectPortals(w, starts);
    AvailablePathsUnfold(at, w, rank);
    r := CollectDirections(w, rank, starts, portals);
  }
}
