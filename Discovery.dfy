/** Bookkeeping for fog-of-war discovery: how a world may change while it is
    explored (discovery flags go from false to true, nothing else changes),
    how many flags flipped, and which entities those flips reveal. */
module Discovery {
  import opened Models
  import opened Enumerable

  /** `w'` is `w` with some more discovery flags set. */
  predicate Grows(w: World, w': World) {
    && w'.id == w.id && w'.characters == w.characters
    && |w'.locations| == |w.locations| && |w'.paths| == |w.paths| && |w'.obstacles| == |w.obstacles|
    && (forall i :: 0 <= i < |w.locations| ==>
          w'.locations[i] == w.locations[i].(isDiscovered := w'.locations[i].isDiscovered)
          && (w.locations[i].isDiscovered ==> w'.locations[i].isDiscovered))
    && (forall i :: 0 <= i < |w.paths| ==>
          w'.paths[i] == w.paths[i].(isDiscovered := w'.paths[i].isDiscovered)
          && (w.paths[i].isDiscovered ==> w'.paths[i].isDiscovered))
    && (forall i :: 0 <= i < |w.obstacles| ==>
          w'.obstacles[i] == w.obstacles[i].(isDiscovered := w'.obstacles[i].isDiscovered)
          && (w.obstacles[i].isDiscovered ==> w'.obstacles[i].isDiscovered))
  }

  function LocationFlags(ls: seq<Location>): seq<bool> {
    seq(|ls|, i requires 0 <= i < |ls| => ls[i].isDiscovered)
  }

  function PathFlags(ps: seq<Path>): seq<bool> {
    seq(|ps|, i requires 0 <= i < |ps| => ps[i].isDiscovered)
  }

  function ObstacleFlags(os: seq<Obstacle>): seq<bool> {
    seq(|os|, i requires 0 <= i < |os| => os[i].isDiscovered)
  }

  function CountFalse(b: seq<bool>): nat {
    if b == [] then 0 else (if b[0] then 0 else 1) + CountFalse(b[1..])
  }

  /** Positions that are false in `a` and true in `b`. */
  function CountFlips(a: seq<bool>, b: seq<bool>): nat
    requires |a| == |b|
  {
    if a == [] then 0 else (if !a[0] && b[0] then 1 else 0) + CountFlips(a[1..], b[1..])
  }

  predicate Implies(a: seq<bool>, b: seq<bool>) {
    |a| == |b| && forall i :: 0 <= i < |a| ==> a[i] ==> b[i]
  }

  /** The number of undiscovered locations: the flood fill's termination measure. */
  function Undiscovered(w: World): nat {
    CountFalse(LocationFlags(w.locations))
  }

  /** The number of flags, of all three kinds, that flipped from `w` to `w'`. */
  function Flips(w: World, w': World): nat
    requires Grows(w, w')
  {
    CountFlips(LocationFlags(w.locations), LocationFlags(w'.locations))
    + CountFlips(PathFlags(w.paths), PathFlags(w'.paths))
    + CountFlips(ObstacleFlags(w.obstacles), ObstacleFlags(w'.obstacles))
  }

  predicate LocationFlipped(w: World, w': World, i: int) {
    0 <= i < |w.locations| && i < |w'.locations| && !w.locations[i].isDiscovered && w'.locations[i].isDiscovered
  }

  predicate PathFlipped(w: World, w': World, i: int) {
    0 <= i < |w.paths| && i < |w'.paths| && !w.paths[i].isDiscovered && w'.paths[i].isDiscovered
  }

  predicate ObstacleFlipped(w: World, w': World, i: int) {
    0 <= i < |w.obstacles| && i < |w'.obstacles| && !w.obstacles[i].isDiscovered && w'.obstacles[i].isDiscovered
  }

  /** `x` is an entity, as it is in `w'`, whose flag flipped since `w`. */
  ghost predicate Revealed(w: World, w': World, x: Resource) {
    match x
    case LocationResource(l) => exists i :: LocationFlipped(w, w', i) && w'.locations[i] == l
    case PathResource(p) => exists i :: PathFlipped(w, w', i) && w'.paths[i] == p
    case ObstacleResource(o) => exists i :: ObstacleFlipped(w, w', i) && w'.obstacles[i] == o
    case _ => false
  }

  /** `found` lists exactly the entities revealed from `w` to `w'`, each as
      often as there are flipped flags for it. */
  ghost predicate Accounts(w: World, w': World, found: seq<Resource>) {
    && Grows(w, w')
    && |found| == Flips(w, w')
    && forall x :: x in found <==> Revealed(w, w', x)
  }

  // ---- counting over flag vectors ----

  lemma {:induction false} CountFlipsNone(a: seq<bool>)
    ensures CountFlips(a, a) == 0
  {
    if a != [] {
      CountFlipsNone(a[1..]);
    }
  }

  lemma {:induction false} CountSetOne(a: seq<bool>, i: nat)
    requires i < |a| && !a[i]
    ensures CountFlips(a, a[i := true]) == 1
    ensures CountFalse(a[i := true]) + 1 == CountFalse(a)
  {
    if i == 0 {
      assert a[i := true][1..] == a[1..];
      CountFlipsNone(a[1..]);
    } else {
      assert a[i := true][1..] == a[1..][i - 1 := true];
      CountSetOne(a[1..], i - 1);
    }
  }

  lemma {:induction false} CountCompose(a: seq<bool>, b: seq<bool>, c: seq<bool>)
    requires Implies(a, b) && Implies(b, c)
    ensures CountFlips(a, c) == CountFlips(a, b) + CountFlips(b, c)
    ensures CountFalse(b) + CountFlips(a, b) == CountFalse(a)
  {
    if a != [] {
      CountCompose(a[1..], b[1..], c[1..]);
    }
  }

  // ---- growth steps ----

  lemma GrowsRefl(w: World)
    ensures Accounts(w, w, [])
  {
    CountFlipsNone(LocationFlags(w.locations));
    CountFlipsNone(PathFlags(w.paths));
    CountFlipsNone(ObstacleFlags(w.obstacles));
  }

  lemma FlagsOfGrowth(w: World, w': World)
    requires Grows(w, w')
    ensures Implies(LocationFlags(w.locations), LocationFlags(w'.locations))
    ensures Implies(PathFlags(w.paths), PathFlags(w'.paths))
    ensures Implies(ObstacleFlags(w.obstacles), ObstacleFlags(w'.obstacles))
  {
  }

  /** Growth composes: flips add up and the revealed entities are those
      revealed by either step. */
  lemma Compose(a: World, b: World, c: World)
    requires Grows(a, b) && Grows(b, c)
    ensures Grows(a, c)
    ensures Flips(a, c) == Flips(a, b) + Flips(b, c)
    ensures forall x :: Revealed(a, c, x) <==> Revealed(a, b, x) || Revealed(b, c, x)
    ensures Undiscovered(c) <= Undiscovered(b) <= Undiscovered(a)
  {
    FlagsOfGrowth(a, b);
    FlagsOfGrowth(b, c);
    CountCompose(LocationFlags(a.locations), LocationFlags(b.locations), LocationFlags(c.locations));
    CountCompose(PathFlags(a.paths), PathFlags(b.paths), PathFlags(c.paths));
    CountCompose(ObstacleFlags(a.obstacles), ObstacleFlags(b.obstacles), ObstacleFlags(c.obstacles));
    CountCompose(LocationFlags(b.locations), LocationFlags(c.locations), LocationFlags(c.locations));
    GrowsTransitive(a, b, c);
    forall x ensures Revealed(a, c, x) <==> Revealed(a, b, x) || Revealed(b, c, x) {
      RevealedCompose(a, b, c, x);
    }
  }

  lemma GrowsTransitive(a: World, b: World, c: World)
    requires Grows(a, b) && Grows(b, c)
    ensures Grows(a, c)
  {
  }

  /** An entity revealed over two steps was revealed by one of them. */
  lemma RevealedCompose(a: World, b: World, c: World, x: Resource)
    requires Grows(a, b) && Grows(b, c) && Grows(a, c)
    ensures Revealed(a, c, x) <==> Revealed(a, b, x) || Revealed(b, c, x)
  {
    match x
    case LocationResource(l) =>
      if Revealed(a, c, x) {
        var i :| LocationFlipped(a, c, i) && c.locations[i] == l;
        if b.locations[i].isDiscovered { assert LocationFlipped(a, b, i) && b.locations[i] == l; }
        else { assert LocationFlipped(b, c, i); }
      }
      if Revealed(a, b, x) {
        var i :| LocationFlipped(a, b, i) && b.locations[i] == l;
        assert LocationFlipped(a, c, i) && c.locations[i] == l;
      }
      if Revealed(b, c, x) {
        var i :| LocationFlipped(b, c, i) && c.locations[i] == l;
        assert LocationFlipped(a, c, i);
      }
    case PathResource(p) =>
      if Revealed(a, c, x) {
        var i :| PathFlipped(a, c, i) && c.paths[i] == p;
        if b.paths[i].isDiscovered { assert PathFlipped(a, b, i) && b.paths[i] == p; }
        else { assert PathFlipped(b, c, i); }
      }
      if Revealed(a, b, x) {
        var i :| PathFlipped(a, b, i) && b.paths[i] == p;
        assert PathFlipped(a, c, i) && c.paths[i] == p;
      }
      if Revealed(b, c, x) {
        var i :| PathFlipped(b, c, i) && c.paths[i] == p;
        assert PathFlipped(a, c, i);
      }
    case ObstacleResource(o) =>
      if Revealed(a, c, x) {
        var i :| ObstacleFlipped(a, c, i) && c.obstacles[i] == o;
        if b.obstacles[i].isDiscovered { assert ObstacleFlipped(a, b, i) && b.obstacles[i] == o; }
        else { assert ObstacleFlipped(b, c, i); }
      }
      if Revealed(a, b, x) {
        var i :| ObstacleFlipped(a, b, i) && b.obstacles[i] == o;
        assert ObstacleFlipped(a, c, i) && c.obstacles[i] == o;
      }
      if Revealed(b, c, x) {
        var i :| ObstacleFlipped(b, c, i) && c.obstacles[i] == o;
        assert ObstacleFlipped(a, c, i);
      }
    case _ =>
  }

  /** Appending what two successive steps found accounts for both steps. */
  lemma AccountsCompose(a: World, b: World, c: World, f: seq<Resource>, g: seq<Resource>)
    requires Accounts(a, b, f) && Accounts(b, c, g)
    ensures Accounts(a, c, f + g)
  {
    Compose(a, b, c);
  }

  /** Growth keeps ids, so a `Single` lookup by id finds the same index. */
  lemma LocationIndexStable(w: World, w': World, id: int)
    requires Grows(w, w')
    ensures LocationIndex(w'.locations, id) == LocationIndex(w.locations, id)
  {
    var p := (l: Location) => l.id == id;
    forall i | 0 <= i < |w.locations|
      ensures p(w'.locations[i]) == p(w.locations[i])
    {
      assert w'.locations[i].id == w.locations[i].id;
    }
    SingleIndexAgrees(w'.locations, p, w.locations, p);
  }

  lemma PathIndexStable(w: World, w': World, id: int)
    requires Grows(w, w')
    ensures PathIndex(w'.paths, id) == PathIndex(w.paths, id)
  {
    var p := (q: Path) => q.id == id;
    forall i | 0 <= i < |w.paths|
      ensures p(w'.paths[i]) == p(w.paths[i])
    {
      assert w'.paths[i].id == w.paths[i].id;
    }
    SingleIndexAgrees(w'.paths, p, w.paths, p);
  }

  function FlipLocation(w: World, i: nat): World
    requires i < |w.locations|
  {
    w.(locations := w.locations[i := w.locations[i].(isDiscovered := true)])
  }

  function FlipPath(w: World, i: nat): World
    requires i < |w.paths|
  {
    w.(paths := w.paths[i := w.paths[i].(isDiscovered := true)])
  }

  function FlipObstacle(w: World, i: nat): World
    requires i < |w.obstacles|
  {
    w.(obstacles := w.obstacles[i := w.obstacles[i].(isDiscovered := true)])
  }

  lemma FlipLocationStep(w: World, i: nat)
    requires i < |w.locations| && !w.locations[i].isDiscovered
    ensures Accounts(w, FlipLocation(w, i), [LocationResource(FlipLocation(w, i).locations[i])])
    ensures Undiscovered(FlipLocation(w, i)) < Undiscovered(w)
  {
    var w' := FlipLocation(w, i);
    assert LocationFlags(w'.locations) == LocationFlags(w.locations)[i := true];
    CountSetOne(LocationFlags(w.locations), i);
    CountFlipsNone(PathFlags(w.paths));
    CountFlipsNone(ObstacleFlags(w.obstacles));
    forall x ensures Revealed(w, w', x) <==> x == LocationResource(w'.locations[i]) {
      if x.LocationResource? && Revealed(w, w', x) {
        var j :| LocationFlipped(w, w', j) && w'.locations[j] == x.location;
        assert j == i;
      }
      assert LocationFlipped(w, w', i);
    }
  }

  lemma FlipPathStep(w: World, i: nat)
    requires i < |w.paths| && !w.paths[i].isDiscovered
    ensures Accounts(w, FlipPath(w, i), [PathResource(FlipPath(w, i).paths[i])])
  {
    var w' := FlipPath(w, i);
    assert PathFlags(w'.paths) == PathFlags(w.paths)[i := true];
    CountSetOne(PathFlags(w.paths), i);
    CountFlipsNone(LocationFlags(w.locations));
    CountFlipsNone(ObstacleFlags(w.obstacles));
    forall x ensures Revealed(w, w', x) <==> x == PathResource(w'.paths[i]) {
      if x.PathResource? && Revealed(w, w', x) {
        var j :| PathFlipped(w, w', j) && w'.paths[j] == x.path;
        assert j == i;
      }
      assert PathFlipped(w, w', i);
    }
  }

  lemma FlipObstacleStep(w: World, i: nat)
    requires i < |w.obstacles| && !w.obstacles[i].isDiscovered
    ensures Accounts(w, FlipObstacle(w, i), [ObstacleResource(FlipObstacle(w, i).obstacles[i])])
  {
    var w' := FlipObstacle(w, i);
    assert ObstacleFlags(w'.obstacles) == ObstacleFlags(w.obstacles)[i := true];
    CountSetOne(ObstacleFlags(w.obstacles), i);
    CountFlipsNone(LocationFlags(w.locations));
    CountFlipsNone(PathFlags(w.paths));
    forall x ensures Revealed(w, w', x) <==> x == ObstacleResource(w'.obstacles[i]) {
      if x.ObstacleResource? && Revealed(w, w', x) {
        var j :| ObstacleFlipped(w, w', j) && w'.obstacles[j] == x.obstacle;
        assert j == i;
      }
      assert ObstacleFlipped(w, w', i);
    }
  }
}
