/** The world loader (src/MAZE.Api/WorldSerializer.cs): a maze drawn as an
    image becomes a world. Locations are the location-coloured pixels at odd
    coordinates; the pixel between two locations that are one step apart
    (in one of eight directions) joins them by a path when it has a path
    colour, and a blocked-path colour also puts an obstacle on that path. */
module WorldSerializer {
  import opened Wrappers
  import opened Enumerable
  import opened Models

  /** The decoded image: its size and the ARGB colour of every pixel,
      `colour(x, y)`. Only pixels inside the size can be read. */
  datatype Image = Image(width: nat, height: nat, colour: (int, int) -> int)

  /** `Bitmap.GetPixel` throws outside the image. */
  datatype ReadFailure = PixelOutOfRange(x: int, y: int)

  /** The two kinds of event the loader yields. */
  datatype WorldEvent = WorldCreated(world: World) | CharacterAdded(character: Character)

  type Position = (int, int)

  /** `Color.FromArgb(a, r, g, b).ToArgb()`: the four bytes packed into a
      signed 32-bit `int`. */
  function Argb(a: nat, r: nat, g: nat, b: nat): int
    requires a < 256 && r < 256 && g < 256 && b < 256
  {
    var packed := a * 0x100_0000 + r * 0x1_0000 + g * 0x100 + b;
    if packed >= 0x8000_0000 then packed - 0x1_0000_0000 else packed
  }

  const LocationColour := Argb(255, 255, 255, 255)
  const WizardStartLocationColour := Argb(255, 128, 128, 255)
  const RogueStartLocationColour := Argb(255, 128, 255, 128)
  const WarriorStartLocationColour := Argb(255, 255, 128, 128)
  const ClericStartLocationColour := Argb(255, 255, 255, 128)
  const PathColour := Argb(255, 200, 200, 200)
  const WizardBlockedPathColour := Argb(255, 0, 0, 255)
  const RogueBlockedPathColour := Argb(255, 0, 255, 0)
  const WarriorBlockedPathColour := Argb(255, 255, 0, 0)
  const ClericBlockedPathColour := Argb(255, 255, 255, 0)

  /** White and the four start colours. */
  predicate IsLocationColour(c: int) {
    c == LocationColour || c == WizardStartLocationColour || c == RogueStartLocationColour
    || c == WarriorStartLocationColour || c == ClericStartLocationColour
  }

  /** The free path colour and the four blocked-path colours. */
  predicate IsPathColour(c: int) {
    c == PathColour || c == WizardBlockedPathColour || c == RogueBlockedPathColour
    || c == WarriorBlockedPathColour || c == ClericBlockedPathColour
  }

  /** The obstacle a blocked-path colour stands for. */
  function BlockedBy(c: int): Option<ObstacleType> {
    if c == WizardBlockedPathColour then Some(ForceField)
    else if c == RogueBlockedPathColour then Some(Lock)
    else if c == WarriorBlockedPathColour then Some(Stone)
    else if c == ClericBlockedPathColour then Some(Ghost)
    else None
  }

  /** The ten colours are pairwise different, so every pixel has exactly one
      meaning: a colour is a location colour, a path colour, or neither, and
      only the four blocked colours carry an obstacle. */
  lemma ColoursAreDistinct(c: int)
    ensures !(IsLocationColour(c) && IsPathColour(c))
    ensures BlockedBy(c).Some? ==> IsPathColour(c) && c != PathColour
    ensures IsPathColour(c) && c != PathColour ==> BlockedBy(c).Some?
  {
  }

  function ColourAt(img: Image, p: Position): int {
    img.colour(p.0, p.1)
  }

  function GetPixel(img: Image, x: int, y: int): Option<int> {
    if 0 <= x < img.width && 0 <= y < img.height then Some(img.colour(x, y)) else None
  }

  // ---------------------------------------------------------------- locations

  /** The location positions of row `y` from column `x` on, at every second
      column. */
  function RowCells(img: Image, y: int, x: nat): seq<Position>
    decreases img.width - x
  {
    if x >= img.width then []
    else (if IsLocationColour(img.colour(x, y)) then [(x, y)] else []) + RowCells(img, y, x + 2)
  }

  /** The location positions of the odd rows from `y` on, row by row. */
  function CellsFrom(img: Image, y: nat): seq<Position>
    decreases img.height - y
  {
    if y >= img.height then [] else RowCells(img, y, 1) + CellsFrom(img, y + 2)
  }

  /** Every location position, in the order the scan meets them; location
      `k` of the world is the one at position `k` of this list. */
  function LocationCells(img: Image): seq<Position> {
    CellsFrom(img, 1)
  }

  /** The dictionary from position to location, filled in scan order. */
  function Dictionary(cells: seq<Position>): map<Position, Location>
    decreases |cells|
  {
    if cells == [] then map[]
    else Dictionary(cells[..|cells| - 1])[cells[|cells| - 1] := Location(|cells| - 1, false)]
  }

  /** The characters created while scanning `cells`: one wizard on every
      wizard-start position, numbered in scan order. */
  function CharactersOf(img: Image, cells: seq<Position>): seq<Character>
    decreases |cells|
  {
    if cells == [] then []
    else
      var earlier := CharactersOf(img, cells[..|cells| - 1]);
      if ColourAt(img, cells[|cells| - 1]) == WizardStartLocationColour then
        earlier + [Character(|earlier|, Mage, |cells| - 1)]
      else earlier
  }

  /** `locations.Values`: the dictionary's locations in insertion order. */
  function LocationsOf(count: nat): (r: seq<Location>)
    ensures |r| == count && forall k :: 0 <= k < count ==> r[k] == Location(k, false)
  {
    seq(count, k requires 0 <= k < count => Location(k, false))
  }

  // -------------------------------------------------------------------- paths

  /** The eight `TryAddPath` calls, in the order they are made: an offset
      towards the neighbour and the type of the path that reaches it. */
  const Offsets: seq<(int, int, PathType)> := [
    (-1, 0, West), (1, 0, East), (0, -1, North), (0, 1, South),
    (-1, -1, Portal), (1, -1, Portal), (-1, 1, Portal), (1, 1, Portal)]

  /** The pixel between `p` and its neighbour in direction `o`. */
  function Between(p: Position, o: nat): Position
    requires o < |Offsets|
  {
    (p.0 + Offsets[o].0, p.1 + Offsets[o].1)
  }

  /** The position of the neighbour of `p` in direction `o`. */
  function Neighbour(p: Position, o: nat): Position
    requires o < |Offsets|
  {
    (p.0 + 2 * Offsets[o].0, p.1 + 2 * Offsets[o].1)
  }

  /** The paths and obstacles collected so far. */
  datatype Built = Built(paths: seq<Path>, obstacles: seq<Obstacle>)

  /** The obstacle a blocked colour puts on path `pathId`; obstacles are
      numbered in the order they are created. */
  function ObstaclesFor(c: int, pathId: int, obstacleId: int): seq<Obstacle> {
    match BlockedBy(c)
    case None => []
    case Some(t) => [Obstacle(obstacleId, t, [pathId], false)]
  }

  /** `TryAddPath` from the location `from` at `at`, in direction `o`: reads
      the pixel in between (which throws outside the image) and, when it has
      a path colour and a location sits one step further, adds the next path
      and, for a blocked colour, its obstacle. */
  function TryAddPath(img: Image, locations: map<Position, Location>, at: Position, from: int, o: nat, b: Built)
    : (r: Result<Built, ReadFailure>)
    requires o < |Offsets|
    ensures r.Err? <==> !Readable(img, Between(at, o))
    ensures r.Ok? ==> b.paths <= r.value.paths && b.obstacles <= r.value.obstacles && |r.value.paths| <= |b.paths| + 1
  {
    var between := Between(at, o);
    match GetPixel(img, between.0, between.1)
    case None => Err(PixelOutOfRange(between.0, between.1))
    case Some(c) =>
      var n := Neighbour(at, o);
      if IsPathColour(c) && n in locations then
        var pathId := |b.paths|;
        Ok(Built(b.paths + [Path(pathId, from, locations[n].id, Offsets[o].2, false)],
                 b.obstacles + ObstaclesFor(c, pathId, |b.obstacles|)))
      else Ok(b)
  }

  /** The calls for directions `o` onwards. */
  function TryAddPaths(img: Image, locations: map<Position, Location>, at: Position, from: int, o: nat, b: Built)
    : (r: Result<Built, ReadFailure>)
    ensures r.Ok? ==> b.paths <= r.value.paths && b.obstacles <= r.value.obstacles
    decreases |Offsets| - o
  {
    if o >= |Offsets| then Ok(b)
    else
      match TryAddPath(img, locations, at, from, o, b)
      case Err(e) => Err(e)
      case Ok(b') => TryAddPaths(img, locations, at, from, o + 1, b')
  }

  /** The `foreach` over the dictionary from its `k`-th entry on; entry `k`
      is location `k` at `cells[k]`. */
  function PathsFrom(img: Image, locations: map<Position, Location>, cells: seq<Position>, k: nat, b: Built)
    : (r: Result<Built, ReadFailure>)
    ensures r.Ok? ==> b.paths <= r.value.paths && b.obstacles <= r.value.obstacles
    decreases |cells| - k
  {
    if k >= |cells| then Ok(b)
    else
      match TryAddPaths(img, locations, cells[k], k, 0, b)
      case Err(e) => Err(e)
      case Ok(b') => PathsFrom(img, locations, cells, k + 1, b')
  }

  function CharacterEvents(characters: seq<Character>): (r: seq<WorldEvent>)
    ensures |r| == |characters| && forall i :: 0 <= i < |r| ==> r[i] == CharacterAdded(characters[i])
  {
    seq(|characters|, i requires 0 <= i < |characters| => CharacterAdded(characters[i]))
  }

  /** What `Deserialize` yields for an image: the world first, then one
      event per character. */
  function Deserialized(worldId: string, img: Image): (r: Result<seq<WorldEvent>, ReadFailure>)
    ensures r.Ok? ==> |r.value| >= 1 && r.value[0].WorldCreated? && r.value[0].world.id == Some(worldId)
    ensures r.Ok? ==> r.value[0].world.characters == [] && |r.value[0].world.locations| == |LocationCells(img)|
  {
    var cells := LocationCells(img);
    match PathsFrom(img, Dictionary(cells), cells, 0, Built([], []))
    case Err(e) => Err(e)
    case Ok(b) =>
      Ok([WorldCreated(World(Some(worldId), LocationsOf(|cells|), b.paths, b.obstacles, []))]
         + CharacterEvents(CharactersOf(img, cells)))
  }

  // ------------------------------------------------------------------ methods

  /** Scanning `cells` and then one more location at `p` extends each
      scanned structure by that location. */
  lemma ScannedOneMore(img: Image, cells: seq<Position>, p: Position)
    ensures Dictionary(cells + [p]) == Dictionary(cells)[p := Location(|cells|, false)]
    ensures CharactersOf(img, cells + [p])
         == CharactersOf(img, cells)
            + (if ColourAt(img, p) == WizardStartLocationColour
               then [Character(|CharactersOf(img, cells)|, Mage, |cells|)] else [])
  {
    assert (cells + [p])[..|cells|] == cells;
  }

  /** The dictionary and the characters are what scanning `order` builds. */
  ghost predicate Scanned(img: Image, order: seq<Position>, locations: map<Position, Location>, characters: seq<Character>) {
    locations == Dictionary(order) && characters == CharactersOf(img, order)
  }

  /** The inner loop: the odd columns of row `y`. */
  method ReadRow(img: Image, y: int, order: seq<Position>, locations: map<Position, Location>, characters: seq<Character>)
    returns (order': seq<Position>, locations': map<Position, Location>, characters': seq<Character>)
    requires 0 <= y < img.height
    requires Scanned(img, order, locations, characters)
    ensures order' == order + RowCells(img, y, 1)
    ensures Scanned(img, order', locations', characters')
  {
    order', locations', characters' := order, locations, characters;
    var locationCounter := |order|;
    var characterCounter := |characters|;
    var x := 1;
    while x < img.width
      invariant order' + RowCells(img, y, x) == order + RowCells(img, y, 1)
      invariant Scanned(img, order', locations', characters')
      invariant locationCounter == |order'| && characterCounter == |characters'|
      decreases img.width - x
    {
      var colour := GetPixel(img, x, y).value;
      if IsLocationColour(colour) {
        var location := Location(locationCounter, false);
        locationCounter := locationCounter + 1;
        ScannedOneMore(img, order', (x, y));
        locations' := locations'[(x, y) := location];
        if colour == WizardStartLocationColour {
          characters' := characters' + [Character(characterCounter, Mage, location.id)];
          characterCounter := characterCounter + 1;
        }
        assert order' + RowCells(img, y, x) == (order' + [(x, y)]) + RowCells(img, y, x + 2);
        order' := order' + [(x, y)];
      }
      x := x + 2;
    }
  }

  /** A scan that has covered the rows before `y` and then row `y` has
      covered the rows before `y + 2`. */
  lemma NextRow(img: Image, y: nat, before: seq<Position>)
    requires y < img.height
    ensures before + CellsFrom(img, y) == (before + RowCells(img, y, 1)) + CellsFrom(img, y + 2)
  {
    assert CellsFrom(img, y) == RowCells(img, y, 1) + CellsFrom(img, y + 2);
  }

  /** The first pair of loops: scans the odd rows and, in each, the odd
      columns; numbers each location and each wizard as it meets them. */
  method ReadLocations(img: Image) returns (order: seq<Position>, locations: map<Position, Location>, characters: seq<Character>)
    ensures order == LocationCells(img)
    ensures locations == Dictionary(order)
    ensures characters == CharactersOf(img, order)
  {
    order, locations, characters := [], map[], [];
    var y := 1;
    while y < img.height
      invariant y >= 1
      invariant order + CellsFrom(img, y) == LocationCells(img)
      invariant Scanned(img, order, locations, characters)
      decreases img.height - y
    {
      ghost var before := order;
      order, locations, characters := ReadRow(img, y, order, locations, characters);
      NextRow(img, y, before);
      y := y + 2;
    }
    assert order + CellsFrom(img, y) == order;
  }

  // ----------------------------------------------------- locations, proved

  /** `p` comes before `q` in the scan: an earlier row, or the same row and
      an earlier column. */
  predicate Before(p: Position, q: Position) {
    p.1 < q.1 || (p.1 == q.1 && p.0 < q.0)
  }

  predicate ScanOrdered(cells: seq<Position>) {
    forall i, j :: 0 <= i < j < |cells| ==> Before(cells[i], cells[j])
  }

  /** A position holds a location: odd coordinates inside the image and a
      location colour. */
  predicate IsLocationCell(img: Image, p: Position) {
    && 0 < p.0 < img.width && 0 < p.1 < img.height
    && p.0 % 2 == 1 && p.1 % 2 == 1
    && IsLocationColour(ColourAt(img, p))
  }

  lemma OrderedConcat(a: seq<Position>, b: seq<Position>)
    requires ScanOrdered(a) && ScanOrdered(b)
    requires forall p, q :: p in a && q in b ==> Before(p, q)
    ensures ScanOrdered(a + b)
  {
    forall i, j | 0 <= i < j < |a + b|
      ensures Before((a + b)[i], (a + b)[j])
    {
      if j < |a| {
      } else if i < |a| {
        assert (a + b)[i] in a && (a + b)[j] in b;
      } else {
        assert (a + b)[i] == b[i - |a|] && (a + b)[j] == b[j - |a|];
      }
    }
  }

  lemma {:induction false} RowCellsShape(img: Image, y: int, x: nat)
    requires x % 2 == 1
    ensures forall p :: p in RowCells(img, y, x) <==>
              p.1 == y && x <= p.0 < img.width && p.0 % 2 == 1 && IsLocationColour(ColourAt(img, p))
    ensures ScanOrdered(RowCells(img, y, x))
    decreases img.width - x
  {
    if x < img.width {
      RowCellsShape(img, y, x + 2);
      var head: seq<Position> := if IsLocationColour(img.colour(x, y)) then [(x, y)] else [];
      OrderedConcat(head, RowCells(img, y, x + 2));
      forall p
        ensures p in RowCells(img, y, x) <==>
                p.1 == y && x <= p.0 < img.width && p.0 % 2 == 1 && IsLocationColour(ColourAt(img, p))
      {
        assert p in RowCells(img, y, x) <==> p in head || p in RowCells(img, y, x + 2);
      }
    }
  }

  lemma {:induction false} CellsFromShape(img: Image, y: nat)
    requires y % 2 == 1
    ensures forall p :: p in CellsFrom(img, y) <==> IsLocationCell(img, p) && y <= p.1
    ensures ScanOrdered(CellsFrom(img, y))
    decreases img.height - y
  {
    if y < img.height {
      RowCellsShape(img, y, 1);
      CellsFromShape(img, y + 2);
      OrderedConcat(RowCells(img, y, 1), CellsFrom(img, y + 2));
      forall p
        ensures p in CellsFrom(img, y) <==> IsLocationCell(img, p) && y <= p.1
      {
        assert p in CellsFrom(img, y) <==> p in RowCells(img, y, 1) || p in CellsFrom(img, y + 2);
      }
    }
  }

  /** Locations exist exactly at the odd positions of the image whose colour
      is white or a start colour, and they are numbered in scan order: by
      row, then by column. */
  lemma LocationCellsAreLocationPixels(img: Image)
    ensures forall p :: p in LocationCells(img) <==> IsLocationCell(img, p)
    ensures ScanOrdered(LocationCells(img))
  {
    CellsFromShape(img, 1);
  }

  /** The entries of the image's dictionary. */
  ghost predicate Indexes(locations: map<Position, Location>, cells: seq<Position>) {
    && (forall p :: p in locations <==> p in cells)
    && (forall k :: 0 <= k < |cells| ==> cells[k] in locations && locations[cells[k]] == Location(k, false))
    && (forall p :: p in locations ==> locations[p].id < |cells| && cells[locations[p].id] == p)
  }

  /** The dictionary maps the position of location `k` to location `k`;
      this holds because `Add` never meets a position twice. */
  lemma {:induction false} DictionaryIndexes(cells: seq<Position>)
    requires ScanOrdered(cells)
    ensures Indexes(Dictionary(cells), cells)
    decreases |cells|
  {
    if cells != [] {
      var n := |cells| - 1;
      var prefix := cells[..n];
      assert ScanOrdered(prefix) by {
        forall i, j | 0 <= i < j < |prefix|
          ensures Before(prefix[i], prefix[j])
        {
          assert prefix[i] == cells[i] && prefix[j] == cells[j];
        }
      }
      DictionaryIndexes(prefix);
      var d, m := Dictionary(prefix), Dictionary(cells);
      assert m == d[cells[n] := Location(n, false)];
      forall k | 0 <= k < n
        ensures prefix[k] == cells[k] && cells[k] != cells[n]
      {
        assert Before(cells[k], cells[n]);
      }
      forall p
        ensures p in m <==> p in cells
      {
        assert p in cells <==> p in prefix || p == cells[n];
      }
      forall k | 0 <= k < |cells|
        ensures cells[k] in m && m[cells[k]] == Location(k, false)
      {
        if k < n {
          assert cells[k] == prefix[k];
        }
      }
      forall p | p in m
        ensures m[p].id < |cells| && cells[m[p].id] == p
      {
        if p != cells[n] {
          assert p in d && cells[d[p].id] == prefix[d[p].id];
        }
      }
    }
  }

  /** The characters are the wizards, numbered in scan order and standing
      on wizard-start locations; every wizard-start location has one. */
  lemma {:induction false} CharactersAreWizards(img: Image, cells: seq<Position>)
    ensures forall i :: 0 <= i < |CharactersOf(img, cells)| ==>
              && CharactersOf(img, cells)[i].id == i
              && CharactersOf(img, cells)[i].characterClass == Mage
              && 0 <= CharactersOf(img, cells)[i].locationId < |cells|
              && ColourAt(img, cells[CharactersOf(img, cells)[i].locationId]) == WizardStartLocationColour
    ensures forall i, j :: 0 <= i < j < |CharactersOf(img, cells)| ==>
              CharactersOf(img, cells)[i].locationId < CharactersOf(img, cells)[j].locationId
    ensures forall k :: 0 <= k < |cells| && ColourAt(img, cells[k]) == WizardStartLocationColour ==>
              exists i :: 0 <= i < |CharactersOf(img, cells)| && CharactersOf(img, cells)[i].locationId == k
    decreases |cells|
  {
    if cells != [] {
      var n := |cells| - 1;
      var prefix := cells[..n];
      CharactersAreWizards(img, prefix);
      var earlier := CharactersOf(img, prefix);
      var cs := CharactersOf(img, cells);
      assert forall k :: 0 <= k < n ==> prefix[k] == cells[k];
      assert forall i :: 0 <= i < |earlier| ==> cs[i] == earlier[i];
      forall k | 0 <= k < |cells| && ColourAt(img, cells[k]) == WizardStartLocationColour
        ensures exists i :: 0 <= i < |cs| && cs[i].locationId == k
      {
        if k == n {
          assert cs[|earlier|].locationId == n;
        } else {
          assert ColourAt(img, prefix[k]) == WizardStartLocationColour;
          var i :| 0 <= i < |earlier| && earlier[i].locationId == k;
          assert cs[i].locationId == k;
        }
      }
    }
  }

  // ------------------------------------------------------- paths, methods

  /** The second loop: every entry of the dictionary in insertion order,
      with the eight `TryAddPath` calls for each. */
  method ReadPaths(img: Image, order: seq<Position>, locations: map<Position, Location>)
    returns (r: Result<Built, ReadFailure>)
    requires ScanOrdered(order) && locations == Dictionary(order)
    ensures r == PathsFrom(img, locations, order, 0, Built([], []))
  {
    DictionaryIndexes(order);
    var built := Built([], []);
    for k := 0 to |order|
      invariant PathsFrom(img, locations, order, 0, Built([], [])) == PathsFrom(img, locations, order, k, built)
    {
      var locationInformation := locations[order[k]];
      var around := TryAddPaths(img, locations, order[k], locationInformation.id, 0, built);
      if around.Err? {
        return Err(around.error);
      }
      built := around.value;
    }
    r := Ok(built);
  }

  /** `locations.Values`, read in insertion order. */
  function Values(order: seq<Position>, locations: map<Position, Location>): (r: seq<Location>)
    requires forall k :: 0 <= k < |order| ==> order[k] in locations
    ensures Indexes(locations, order) ==> r == LocationsOf(|order|)
  {
    seq(|order|, k requires 0 <= k < |order| => locations[order[k]])
  }

  /** The events the loader yields, in order: the world, then each character. */
  method Announce(world: World, characters: seq<Character>) returns (events: seq<WorldEvent>)
    ensures events == [WorldCreated(world)] + CharacterEvents(characters)
  {
    events := [WorldCreated(world)];
    for i := 0 to |characters|
      invariant events == [WorldCreated(world)] + CharacterEvents(characters[..i])
    {
      assert characters[..i + 1] == characters[..i] + [characters[i]];
      events := events + [CharacterAdded(characters[i])];
    }
    assert characters[..|characters|] == characters;
  }

  /** `Deserialize`: both scans, then the world and, after it, one
      `CharacterAdded` per character in creation order. */
  method Deserialize(worldId: string, img: Image) returns (r: Result<seq<WorldEvent>, ReadFailure>)
    ensures r == Deserialized(worldId, img)
  {
    var order, locations, characters := ReadLocations(img);
    LocationCellsAreLocationPixels(img);
    DictionaryIndexes(order);
    var built := ReadPaths(img, order, locations);
    if built.Err? {
      return Err(built.error);
    }
    var world := World(Some(worldId), Values(order, locations), built.value.paths, built.value.obstacles, []);
    var events := Announce(world, characters);
    r := Ok(events);
  }

  // ---------------------------------------------------------- paths, proved

  predicate Readable(img: Image, p: Position) {
    0 <= p.0 < img.width && 0 <= p.1 < img.height
  }

  /** One of the eight pixels around `p` lies outside the image. */
  predicate ReadsOutside(img: Image, p: Position) {
    exists o :: 0 <= o < |Offsets| && !Readable(img, Between(p, o))
  }

  lemma {:induction false} TryAddPathsFails(img: Image, locations: map<Position, Location>, at: Position, from: int, o: nat, b: Built)
    requires o <= |Offsets|
    ensures TryAddPaths(img, locations, at, from, o, b).Err? <==>
            exists o' :: o <= o' < |Offsets| && !Readable(img, Between(at, o'))
    decreases |Offsets| - o
  {
    if o < |Offsets| {
      match TryAddPath(img, locations, at, from, o, b)
      case Err(_) =>
        assert !Readable(img, Between(at, o));
      case Ok(b') =>
        TryAddPathsFails(img, locations, at, from, o + 1, b');
        assert Readable(img, Between(at, o));
    }
  }

  lemma {:induction false} PathsFromFails(img: Image, locations: map<Position, Location>, cells: seq<Position>, k: nat, b: Built)
    ensures PathsFrom(img, locations, cells, k, b).Err? <==>
            exists k' :: k <= k' < |cells| && ReadsOutside(img, cells[k'])
    decreases |cells| - k
  {
    if k < |cells| {
      TryAddPathsFails(img, locations, cells[k], k, 0, b);
      match TryAddPaths(img, locations, cells[k], k, 0, b)
      case Err(_) =>
      case Ok(b') =>
        PathsFromFails(img, locations, cells, k + 1, b');
    }
  }

  /** For a location pixel, reading around it leaves the image exactly when
      it sits in the last column or the last row. */
  lemma ReadsOutsideOnFarEdge(img: Image, p: Position)
    requires 1 <= p.0 < img.width && 1 <= p.1 < img.height
    ensures ReadsOutside(img, p) <==> p.0 + 1 == img.width || p.1 + 1 == img.height
  {
    if p.0 + 1 == img.width {
      assert !Readable(img, Between(p, 1));
    } else if p.1 + 1 == img.height {
      assert !Readable(img, Between(p, 3));
    } else {
      forall o | 0 <= o < |Offsets|
        ensures Readable(img, Between(p, o))
      {
        assert -1 <= Offsets[o].0 <= 1 && -1 <= Offsets[o].1 <= 1;
      }
    }
  }

  /** `p` lies in the last column or the last row of the image. */
  predicate OnFarEdge(img: Image, p: Position) {
    p.0 + 1 == img.width || p.1 + 1 == img.height
  }

  lemma SomeReadOutsideIsOnFarEdge(img: Image, cells: seq<Position>)
    requires forall p :: p in cells ==> IsLocationCell(img, p)
    ensures (exists k :: 0 <= k < |cells| && ReadsOutside(img, cells[k])) <==>
            (exists p :: p in cells && OnFarEdge(img, p))
  {
    forall k | 0 <= k < |cells|
      ensures ReadsOutside(img, cells[k]) <==> OnFarEdge(img, cells[k])
    {
      assert IsLocationCell(img, cells[k]);
      ReadsOutsideOnFarEdge(img, cells[k]);
    }
    if exists p :: p in cells && OnFarEdge(img, p) {
      var p :| p in cells && OnFarEdge(img, p);
      var k :| 0 <= k < |cells| && cells[k] == p;
      assert ReadsOutside(img, cells[k]);
    }
  }

  /** `Deserialize` throws exactly when some location pixel lies in the
      last column or the last row, where `GetPixel` is asked for a pixel
      beyond the image; otherwise it yields its events. */
  lemma DeserializeFailsOnFarEdge(worldId: string, img: Image)
    ensures Deserialized(worldId, img).Err? <==> exists p :: p in LocationCells(img) && OnFarEdge(img, p)
  {
    var cells := LocationCells(img);
    LocationCellsAreLocationPixels(img);
    PathsFromFails(img, Dictionary(cells), cells, 0, Built([], []));
    SomeReadOutsideIsOnFarEdge(img, cells);
  }

  /** The pixel halfway between two positions. */
  function Midpoint(p: Position, q: Position): Position {
    ((p.0 + q.0) / 2, (p.1 + q.1) / 2)
  }

  /** Path `p` joins two locations one step apart in the direction of its
      type, across a pixel with a path colour. */
  ghost predicate Link(img: Image, cells: seq<Position>, p: Path) {
    && 0 <= p.from < |cells| && 0 <= p.to < |cells| && !p.isDiscovered
    && IsPathColour(ColourAt(img, Midpoint(cells[p.from], cells[p.to])))
    && exists o :: 0 <= o < |Offsets| && p.pathType == Offsets[o].2 && cells[p.to] == Neighbour(cells[p.from], o)
  }

  /** Obstacle `ob`, the `j`-th, blocks one path drawn in the blocked colour
      of its type. */
  ghost predicate ObstacleOn(img: Image, cells: seq<Position>, paths: seq<Path>, ob: Obstacle, j: int) {
    && ob.id == j && !ob.isDiscovered && |ob.blockedPathIds| == 1
    && 0 <= ob.blockedPathIds[0] < |paths|
    && 0 <= paths[ob.blockedPathIds[0]].from < |cells| && 0 <= paths[ob.blockedPathIds[0]].to < |cells|
    && BlockedBy(ColourAt(img, Midpoint(cells[paths[ob.blockedPathIds[0]].from], cells[paths[ob.blockedPathIds[0]].to])))
       == Some(ob.obstacleType)
  }

  /** The path whose pixel `p` is drawn on. */
  function PathPixel(cells: seq<Position>, p: Path): Position
    requires 0 <= p.from < |cells| && 0 <= p.to < |cells|
  {
    Midpoint(cells[p.from], cells[p.to])
  }

  ghost predicate PathsLinked(img: Image, cells: seq<Position>, paths: seq<Path>) {
    forall i :: 0 <= i < |paths| ==> paths[i].id == i && Link(img, cells, paths[i])
  }

  ghost predicate ObstaclesPlaced(img: Image, cells: seq<Position>, paths: seq<Path>, obstacles: seq<Obstacle>) {
    forall j :: 0 <= j < |obstacles| ==> ObstacleOn(img, cells, paths, obstacles[j], j)
  }

  /** Obstacles come in the order of their paths, so no path has two. */
  ghost predicate ObstaclesInPathOrder(obstacles: seq<Obstacle>) {
    forall j, j' :: 0 <= j < j' < |obstacles| && |obstacles[j].blockedPathIds| == 1 && |obstacles[j'].blockedPathIds| == 1 ==>
      obstacles[j].blockedPathIds[0] < obstacles[j'].blockedPathIds[0]
  }

  ghost predicate BlockedPathsCovered(img: Image, cells: seq<Position>, paths: seq<Path>, obstacles: seq<Obstacle>)
    requires PathsLinked(img, cells, paths)
  {
    forall i :: 0 <= i < |paths| && BlockedBy(ColourAt(img, PathPixel(cells, paths[i]))).Some? ==>
      exists j :: 0 <= j < |obstacles| && obstacles[j].blockedPathIds == [i]
  }

  /** Collected paths and obstacles as the loader promises them: paths are
      numbered in creation order and each is a `Link`; each obstacle blocks
      one path of its colour, no two block the same path, and every path of
      a blocked colour carries one. */
  ghost predicate Sound(img: Image, cells: seq<Position>, b: Built) {
    && PathsLinked(img, cells, b.paths)
    && ObstaclesPlaced(img, cells, b.paths, b.obstacles)
    && ObstaclesInPathOrder(b.obstacles)
    && BlockedPathsCovered(img, cells, b.paths, b.obstacles)
  }

  lemma ExtendPathsLinked(img: Image, cells: seq<Position>, paths: seq<Path>, p: Path)
    requires PathsLinked(img, cells, paths) && p.id == |paths| && Link(img, cells, p)
    ensures PathsLinked(img, cells, paths + [p])
  {
  }

  lemma ExtendObstaclesPlaced(img: Image, cells: seq<Position>, paths: seq<Path>, p: Path, obstacles: seq<Obstacle>)
    requires ObstaclesPlaced(img, cells, paths, obstacles) && Link(img, cells, p)
    ensures var obs := ObstaclesFor(ColourAt(img, PathPixel(cells, p)), |paths|, |obstacles|);
            ObstaclesPlaced(img, cells, paths + [p], obstacles + obs)
  {
    var paths' := paths + [p];
    var obs := ObstaclesFor(ColourAt(img, PathPixel(cells, p)), |paths|, |obstacles|);
    forall j | 0 <= j < |obstacles + obs|
      ensures ObstacleOn(img, cells, paths', (obstacles + obs)[j], j)
    {
      if j < |obstacles| {
        assert ObstacleOn(img, cells, paths, obstacles[j], j);
        assert paths'[obstacles[j].blockedPathIds[0]] == paths[obstacles[j].blockedPathIds[0]];
      } else {
        assert paths'[|paths|] == p;
      }
    }
  }

  lemma ExtendObstaclesInPathOrder(img: Image, cells: seq<Position>, paths: seq<Path>, c: int, obstacles: seq<Obstacle>)
    requires ObstaclesPlaced(img, cells, paths, obstacles) && ObstaclesInPathOrder(obstacles)
    ensures ObstaclesInPathOrder(obstacles + ObstaclesFor(c, |paths|, |obstacles|))
  {
    forall j | 0 <= j < |obstacles|
      ensures obstacles[j].blockedPathIds[0] < |paths|
    {
      assert ObstacleOn(img, cells, paths, obstacles[j], j);
    }
  }

  lemma ExtendBlockedPathsCovered(img: Image, cells: seq<Position>, paths: seq<Path>, p: Path, obstacles: seq<Obstacle>)
    requires PathsLinked(img, cells, paths) && p.id == |paths| && Link(img, cells, p)
    requires BlockedPathsCovered(img, cells, paths, obstacles)
    ensures PathsLinked(img, cells, paths + [p])
    ensures var obs := ObstaclesFor(ColourAt(img, PathPixel(cells, p)), |paths|, |obstacles|);
            BlockedPathsCovered(img, cells, paths + [p], obstacles + obs)
  {
    var paths' := paths + [p];
    var obs := ObstaclesFor(ColourAt(img, PathPixel(cells, p)), |paths|, |obstacles|);
    var obstacles' := obstacles + obs;
    forall k | 0 <= k < |paths'| && BlockedBy(ColourAt(img, PathPixel(cells, paths'[k]))).Some?
      ensures exists j :: 0 <= j < |obstacles'| && obstacles'[j].blockedPathIds == [k]
    {
      if k < |paths| {
        assert paths'[k] == paths[k];
        var j :| 0 <= j < |obstacles| && obstacles[j].blockedPathIds == [k];
        assert obstacles'[j] == obstacles[j];
      } else {
        assert obstacles'[|obstacles|].blockedPathIds == [k];
      }
    }
  }

  /** Adding one linked path, and the obstacle its colour calls for, keeps
      the collection sound. */
  lemma ExtendSound(img: Image, cells: seq<Position>, b: Built, p: Path)
    requires Sound(img, cells, b) && p.id == |b.paths| && Link(img, cells, p)
    ensures Sound(img, cells, Built(b.paths + [p], b.obstacles + ObstaclesFor(ColourAt(img, PathPixel(cells, p)), |b.paths|, |b.obstacles|)))
  {
    ExtendPathsLinked(img, cells, b.paths, p);
    ExtendObstaclesPlaced(img, cells, b.paths, p, b.obstacles);
    ExtendObstaclesInPathOrder(img, cells, b.paths, ColourAt(img, PathPixel(cells, p)), b.obstacles);
    ExtendBlockedPathsCovered(img, cells, b.paths, p, b.obstacles);
  }

  lemma TryAddPathSound(img: Image, locations: map<Position, Location>, cells: seq<Position>, from: nat, o: nat, b: Built)
    requires Indexes(locations, cells) && from < |cells| && o < |Offsets|
    requires Sound(img, cells, b)
    requires TryAddPath(img, locations, cells[from], from, o, b).Ok?
    ensures Sound(img, cells, TryAddPath(img, locations, cells[from], from, o, b).value)
  {
    var at := cells[from];
    var c := ColourAt(img, Between(at, o));
    var n := Neighbour(at, o);
    if IsPathColour(c) && n in locations {
      var p := Path(|b.paths|, from, locations[n].id, Offsets[o].2, false);
      assert cells[p.to] == n;
      assert PathPixel(cells, p) == Between(at, o);
      assert Link(img, cells, p);
      ExtendSound(img, cells, b, p);
    }
  }

  lemma {:induction false} TryAddPathsSound(img: Image, locations: map<Position, Location>, cells: seq<Position>, from: nat, o: nat, b: Built)
    requires Indexes(locations, cells) && from < |cells|
    requires Sound(img, cells, b)
    requires TryAddPaths(img, locations, cells[from], from, o, b).Ok?
    ensures Sound(img, cells, TryAddPaths(img, locations, cells[from], from, o, b).value)
    decreases |Offsets| - o
  {
    if o < |Offsets| {
      var b' := TryAddPath(img, locations, cells[from], from, o, b).value;
      TryAddPathSound(img, locations, cells, from, o, b);
      TryAddPathsSound(img, locations, cells, from, o + 1, b');
    }
  }

  lemma {:induction false} PathsFromSound(img: Image, locations: map<Position, Location>, cells: seq<Position>, k: nat, b: Built)
    requires Indexes(locations, cells)
    requires Sound(img, cells, b)
    requires PathsFrom(img, locations, cells, k, b).Ok?
    ensures Sound(img, cells, PathsFrom(img, locations, cells, k, b).value)
    decreases |cells| - k
  {
    if k < |cells| {
      var b' := TryAddPaths(img, locations, cells[k], k, 0, b).value;
      TryAddPathsSound(img, locations, cells, k, 0, b);
      PathsFromSound(img, locations, cells, k + 1, b');
    }
  }

  /** Location `k` and its neighbour in direction `o` are joined in the
      image: the pixel between has a path colour and a location sits one
      step further. */
  ghost predicate Joins(img: Image, cells: seq<Position>, k: nat, o: nat)
    requires k < |cells| && o < |Offsets|
  {
    IsPathColour(ColourAt(img, Between(cells[k], o))) && Neighbour(cells[k], o) in cells
  }

  /** Some path leads from location `k` to its neighbour in direction `o`,
      with that direction's type. */
  ghost predicate HasPath(cells: seq<Position>, paths: seq<Path>, k: nat, o: nat)
    requires k < |cells| && o < |Offsets|
  {
    exists i :: 0 <= i < |paths| && paths[i].from == k && 0 <= paths[i].to < |cells|
              && cells[paths[i].to] == Neighbour(cells[k], o) && paths[i].pathType == Offsets[o].2
  }

  /** Every direction in which the image joins locations `k` onwards has
      its path in `paths`. */
  ghost predicate CompleteFrom(img: Image, cells: seq<Position>, paths: seq<Path>, k: nat) {
    forall k', o :: k <= k' < |cells| && 0 <= o < |Offsets| && Joins(img, cells, k', o) ==> HasPath(cells, paths, k', o)
  }

  lemma HasPathGrows(cells: seq<Position>, paths: seq<Path>, paths': seq<Path>, k: nat, o: nat)
    requires k < |cells| && o < |Offsets| && paths <= paths'
    requires HasPath(cells, paths, k, o)
    ensures HasPath(cells, paths', k, o)
  {
    var i :| 0 <= i < |paths| && paths[i].from == k && 0 <= paths[i].to < |cells|
             && cells[paths[i].to] == Neighbour(cells[k], o) && paths[i].pathType == Offsets[o].2;
    assert paths'[i] == paths[i];
  }

  lemma TryAddPathComplete(img: Image, locations: map<Position, Location>, cells: seq<Position>, k: nat, o: nat, b: Built)
    requires Indexes(locations, cells) && k < |cells| && o < |Offsets|
    requires TryAddPath(img, locations, cells[k], k, o, b).Ok?
    ensures b.paths <= TryAddPath(img, locations, cells[k], k, o, b).value.paths
    ensures Joins(img, cells, k, o) ==> HasPath(cells, TryAddPath(img, locations, cells[k], k, o, b).value.paths, k, o)
  {
    var b' := TryAddPath(img, locations, cells[k], k, o, b).value;
    var n := Neighbour(cells[k], o);
    if Joins(img, cells, k, o) {
      var i := |b.paths|;
      assert b'.paths == b.paths + [Path(i, k, locations[n].id, Offsets[o].2, false)];
      assert cells[b'.paths[i].to] == n;
    }
  }

  lemma {:induction false} TryAddPathsComplete(img: Image, locations: map<Position, Location>, cells: seq<Position>, k: nat, o: nat, b: Built)
    requires Indexes(locations, cells) && k < |cells|
    requires TryAddPaths(img, locations, cells[k], k, o, b).Ok?
    ensures b.paths <= TryAddPaths(img, locations, cells[k], k, o, b).value.paths
    ensures forall o' :: o <= o' < |Offsets| && Joins(img, cells, k, o') ==>
              HasPath(cells, TryAddPaths(img, locations, cells[k], k, o, b).value.paths, k, o')
    decreases |Offsets| - o
  {
    if o < |Offsets| {
      var b1 := TryAddPath(img, locations, cells[k], k, o, b).value;
      var b' := TryAddPaths(img, locations, cells[k], k, o, b).value;
      TryAddPathComplete(img, locations, cells, k, o, b);
      TryAddPathsComplete(img, locations, cells, k, o + 1, b1);
      if Joins(img, cells, k, o) {
        HasPathGrows(cells, b1.paths, b'.paths, k, o);
      }
    }
  }

  lemma {:induction false} PathsFromComplete(img: Image, locations: map<Position, Location>, cells: seq<Position>, k: nat, b: Built)
    requires Indexes(locations, cells)
    requires PathsFrom(img, locations, cells, k, b).Ok?
    ensures b.paths <= PathsFrom(img, locations, cells, k, b).value.paths
    ensures CompleteFrom(img, cells, PathsFrom(img, locations, cells, k, b).value.paths, k)
    decreases |cells| - k
  {
    if k < |cells| {
      var b1 := TryAddPaths(img, locations, cells[k], k, 0, b).value;
      var b' := PathsFrom(img, locations, cells, k + 1, b1).value;
      assert PathsFrom(img, locations, cells, k, b).value == b';
      TryAddPathsComplete(img, locations, cells, k, 0, b);
      PathsFromComplete(img, locations, cells, k + 1, b1);
      forall k', o | k <= k' < |cells| && 0 <= o < |Offsets| && Joins(img, cells, k', o)
        ensures HasPath(cells, b'.paths, k', o)
      {
        if k' == k {
          HasPathGrows(cells, b1.paths, b'.paths, k, o);
        }
      }
    }
  }

  /** The loaded world comes first and carries the image's id and one
      location per location pixel, in scan order, and no characters; each
      character follows in its own event, in creation order. */
  lemma DeserializedEvents(worldId: string, img: Image)
    requires Deserialized(worldId, img).Ok?
    ensures var events := Deserialized(worldId, img).value;
            var characters := CharactersOf(img, LocationCells(img));
            && |events| == 1 + |characters|
            && events[0].WorldCreated?
            && events[0].world.id == Some(worldId)
            && events[0].world.locations == LocationsOf(|LocationCells(img)|)
            && events[0].world.characters == []
            && (forall i :: 1 <= i < |events| ==> events[i] == CharacterAdded(characters[i - 1]))
  {
  }

  /** The loaded world's paths and obstacles, in terms of the image: every
      path and obstacle is as `Sound` describes, and a path joins two
      locations in every direction the image joins them. */
  lemma DeserializedPaths(worldId: string, img: Image)
    requires Deserialized(worldId, img).Ok?
    ensures var w := Deserialized(worldId, img).value[0].world;
            var cells := LocationCells(img);
            && Sound(img, cells, Built(w.paths, w.obstacles))
            && CompleteFrom(img, cells, w.paths, 0)
  {
    var cells := LocationCells(img);
    LocationCellsAreLocationPixels(img);
    DictionaryIndexes(cells);
    assert Sound(img, cells, Built([], []));
    PathsFromSound(img, Dictionary(cells), cells, 0, Built([], []));
    PathsFromComplete(img, Dictionary(cells), cells, 0, Built([], []));
  }
}
