# MAZE game engine, modelled in Dafny

MAZE is a multiplayer maze game. A game is event-sourced: loading the world, moving characters, removing obstacles, players joining and leaving, and setting the random seed are all stored events. A game is rebuilt by applying its events to a new game, in order. On top of the engine sits an API. It answers read queries (discovered locations, paths and obstacles, the characters and their movements) and checks a move before storing it.

This project models that engine and those API helpers:

- **Fog-of-war discovery.** `Explorer.Discover` is a recursive flood fill that sets discovery flags.
- **Movement rays.** These are the groups of paths a character at a location may take.
- **The action-set table and its rotation over the roster.**
- **The six events.** Each applies itself to a game in place and reports the entities it touched.
- **The in-memory event store and the two game readers that replay it.**
- **Game creation.**
- **The read projections and the move check of the API.**
- **The world loader.** It turns a maze image into a world.

How pieces are modelled:

- Entities whose flags the source mutates are datatype values.
- The game the events mutate is a class `Game` (`Models.Game`).
- The event store is a class whose dictionary is a `map`.
- Each operation that changes state step by step is a `method` with its loops. Its contract ties the result and the new state to a specification function. The properties the source promises are proved about that function as lemmas.
- Each pure query is a function with a named result and a contract.

Failure conventions:

- A LINQ `Single` that finds no match or several matches is an `Err` result.
- So is a `SingleOrDefault` with several matches, a `First` on an empty list, an explicit `throw`, and a `GetPixel` outside the image.
- Readers report whether the store *returned* an error value or an engine step *threw*: `Errors.Fault` is `Returned(e)` or `Thrown(f)`.

## Model

| member | source | states |
|---|---|---|
| Enumerable.SingleIndex | src/MAZE/Explorer.cs:14 | `Single` by predicate: the index found is the only element satisfying it; `None` exactly when no element or more than one does |
| Enumerable.FirstIndex | src/MAZE/Explorer.cs:14 | the scan behind `Single`: the first index at or after `from` whose element satisfies the predicate, with no earlier match; `None` when nothing from there on matches |
| Enumerable.SingleOrDefaultIndex | src/MAZE/AvailablePathsFactory.cs:44-49 | `SingleOrDefault`: no match, the one match, or two distinct matching positions (where LINQ throws) |
| Enumerable.Distinct | src/MAZE.Api/ChangedResourcesResolver.cs:19 | `Distinct` has no duplicates, keeps exactly the elements of its input and is never longer |
| Enumerable.DistinctOfDistinct | src/MAZE.Api/ChangedResourcesResolver.cs:19 | on a repetition-free input `Distinct` is the identity |
| Enumerable.FirstOccurrence | src/MAZE.Api/ChangedResourcesResolver.cs:19 | the position where an element first occurs: it holds the element and no earlier position does |
| Enumerable.DistinctKeepsFirstOrder | src/MAZE.Api/ChangedResourcesResolver.cs:19 | `Distinct` lists the elements in the order of their first occurrence in the input |
| Enumerable.SingleIndexAgrees | src/MAZE/Explorer.cs:36 | two lists whose elements match at the same positions have the same `Single` answer |
| Models.Game.constructor | src/MAZE/GameRepository.cs:33 | `new Game(id)` has that id, an empty world with no id, no players and seed 0 |
| Models.Game.WithWorld | src/MAZE/Models/Game.cs:7-11 | `new Game(id, world)` has that id and world, and no players |
| Models.LocationIndexUnique | src/MAZE/Explorer.cs:14 | with unique location ids, `Single` by id finds each location at its own index |
| Discovery.Compose | src/MAZE/Explorer.cs:20-42 | discovery steps compose: flags only rise, flip counts add up, and what two steps reveal is what either of them revealed |
| Discovery.AccountsCompose | src/MAZE/Explorer.cs:21-40 | concatenating what two successive steps yielded accounts for every flip of both steps |
| Discovery.FlipLocationStep | src/MAZE/Explorer.cs:20-21 | flagging a hidden location yields exactly that location and lowers the number of hidden locations by one |
| Discovery.FlipPathStep | src/MAZE/Explorer.cs:24-25 | flagging a hidden path yields exactly that path |
| Discovery.FlipObstacleStep | src/MAZE/Explorer.cs:29-30 | flagging a hidden obstacle yields exactly that obstacle |
| Discovery.LocationIndexStable | src/MAZE/Explorer.cs:36 | the lookup of a location by id finds the same index after any discovery |
| Discovery.PathIndexStable | src/MAZE/Events/ObstacleRemoved.cs:26 | the lookup of a path by id finds the same index after any discovery |
| Explorer.Discover | src/MAZE/Explorer.cs:12-44 | no single location with the id gives `NoSingleLocation`; an already discovered one gives `LocationAlreadyDiscovered`; a well-formed world and a hidden location always succeed; on success `Explored` holds: the location is now discovered and yielded first, flags only rose, the yield lists every flipped entity once, fewer locations are hidden, and the location and everything revealed are closed (touching paths discovered, blockers of revealed paths discovered, unblocked non-portal neighbours discovered); and everything yielded was reached from the location: every other yielded location is the `To` of an unblocked non-portal path from a location yielded before it, every yielded path touches a yielded location, every yielded obstacle blocks a yielded path |
| Explorer.Explore | src/MAZE/Explorer.cs:20-43 | past the guards, the same promise as `Discover`; the only failure is a neighbour lookup that finds no single location |
| Explorer.ExploreSetup | src/MAZE/Explorer.cs:20-38 | after flagging the location and its paths there are fewer hidden locations (the recursion's measure), and a well-formed world keeps every neighbour id as a location |
| Explorer.DiscoverConcludes | src/MAZE/Explorer.cs:20-43 | flagging the location, revealing its paths and discovering its neighbours together give `Explored` |
| Explorer.RevealPaths | src/MAZE/Explorer.cs:22-32 | the path loop changes no location and keeps the number of paths |
| Explorer.RevealPathsSound | src/MAZE/Explorer.cs:22-32 | from index `k` on, exactly the hidden paths with `From` or `To` equal to the location are flagged; the yield accounts for every path and obstacle flipped; every flipped path has all its blockers discovered |
| Explorer.RevealObstacles | src/MAZE/Explorer.cs:26-31 | the obstacle loop changes no location and no path |
| Explorer.RevealObstaclesSound | src/MAZE/Explorer.cs:26-31 | from index `j` on, exactly the hidden obstacles listing the path among their blocked ids are flagged, and the yield lists them |
| Explorer.RevealObstaclesAround | src/MAZE/Explorer.cs:26-31 | every obstacle the obstacle loop yields blocks the path |
| Explorer.RevealPathsAround | src/MAZE/Explorer.cs:22-32 | every path the path loop yields touches the location, and every obstacle it yields blocks a path it yields |
| Explorer.LeadsFromStable | src/MAZE/Explorer.cs:34 | a step the fill may take after some discovery it could take before: discovery neither unblocks nor re-types a path |
| Explorer.ReachedStable | src/MAZE/Explorer.cs:34-42 | what was reached by steps of a later world was reached by steps of the earlier one |
| Explorer.ReachedAppend | src/MAZE/Explorer.cs:34-43 | two yields in a row are reached from the first one's roots when the second one's roots are roots too or one step from a location the first yielded |
| Explorer.ExploreReached | src/MAZE/Explorer.cs:20-43 | the location, its paths and obstacles, and what its neighbours yielded are together reached from the location |
| Explorer.Neighbors | src/MAZE/Explorer.cs:34 | every listed id is the `To` of a non-portal, unblocked path leaving the location, and every such path's `To` is listed |
| Explorer.NeighborsStable | src/MAZE/Explorer.cs:34 | the neighbour list does not depend on discovery flags, so computing it lazily after the flips gives the same ids |
| Explorer.Visit | src/MAZE/Explorer.cs:36-42 | afterwards the neighbour is discovered, flags only rose, the yield accounts for every flip, everything revealed is closed, everything yielded was reached from the neighbour, and no more locations are hidden; the only failure is a missing or ambiguous location, which a well-formed world with that location rules out |
| Explorer.DiscoverNeighbors | src/MAZE/Explorer.cs:34-43 | afterwards every neighbour is discovered, the yield accounts for every flip and was reached from the neighbour ids, and a well-formed world never fails |
| Explorer.RevealObstaclesInPlace | src/MAZE/Explorer.cs:26-31 | the obstacle loop on the game's world leaves the world and yield of `RevealObstacles`; players and seed unchanged |
| Explorer.RevealObstacleInPlace | src/MAZE/Explorer.cs:27-30 | one turn of the obstacle loop; the rest of the loop then finishes what `RevealObstacles` specifies |
| Explorer.RevealPathsInPlace | src/MAZE/Explorer.cs:22-32 | the path loop on the game's world leaves the world and yield of `RevealPaths`; players and seed unchanged |
| Explorer.RevealPathInPlace | src/MAZE/Explorer.cs:23-31 | one turn of the path loop, including the nested obstacle loop |
| Explorer.VisitInPlace | src/MAZE/Explorer.cs:36-42 | one turn of the neighbour loop, as `Visit` specifies |
| Explorer.DiscoverNeighborsInPlace | src/MAZE/Explorer.cs:34-43 | the neighbour loop does what `DiscoverNeighbors` specifies; on failure the flags already set stay set |
| Explorer.DiscoverInPlace | src/MAZE/Explorer.cs:12-44 | the flood fill, mutating the game's world, does what `Discover` specifies; on failure the flags already set stay set |
| Explorer.UnledStaysHidden | src/MAZE/Explorer.cs:34-42 | a hidden location other than the start that only portals or blocked paths enter is still hidden after discovery |
| AvailablePathsFactory.Starts | src/MAZE/AvailablePathsFactory.cs:12-15 | only paths of the world, leaving the location, discovered, unblocked and with no character at their destination; and every such path |
| AvailablePathsFactory.NextPath | src/MAZE/AvailablePathsFactory.cs:44-49 | no next path means no open same-direction path leaves the end; a found one is such a path and the only one; failure exactly when two open same-direction paths leave the end, where `SingleOrDefault` throws |
| AvailablePathsFactory.Ray | src/MAZE/AvailablePathsFactory.cs:39-50 | a ray starts with its initial path, each path is open and of the direction, each starts where the previous ends, and no open same-direction path leaves its end (maximal) |
| AvailablePathsFactory.RayStep | src/MAZE/AvailablePathsFactory.cs:41-50 | a ray that goes on is its first path followed by the ray from the next path |
| AvailablePathsFactory.RayFailsExactly | src/MAZE/AvailablePathsFactory.cs:39-50 | a ray fails exactly when a chain of open same-direction paths from its first path ends where two open same-direction paths leave |
| AvailablePathsFactory.PortalGroups | src/MAZE/AvailablePathsFactory.cs:18-24 | one singleton group per open portal leaving the location, and every such portal has one |
| AvailablePathsFactory.RaysSound | src/MAZE/AvailablePathsFactory.cs:37-56 | the rays of one direction are maximal rays, one per open path of that direction leaving the location; the only failure is the `SingleOrDefault` one, and it cannot happen when no location has two open same-direction paths |
| AvailablePathsFactory.RaysFailExactly | src/MAZE/AvailablePathsFactory.cs:37-56 | the rays of one direction fail exactly when the ray from one of its open initial paths fails |
| AvailablePathsFactory.RaysCount | src/MAZE/AvailablePathsFactory.cs:37-56 | one ray per initial path of the direction |
| AvailablePathsFactory.TypesCount | src/MAZE/AvailablePathsFactory.cs:12-57 | every initial path has one of the five path types |
| AvailablePathsFactory.PortalGroupsCount | src/MAZE/AvailablePathsFactory.cs:18-24 | one portal group per initial portal |
| AvailablePathsFactory.DirectionalGroupsSound | src/MAZE/AvailablePathsFactory.cs:27-57 | the groups of West, East, North and South, in that order, each a maximal ray, every open directional path leaving the location starts one, with the same failure condition |
| AvailablePathsFactory.DirectionalGroupsFailExactly | src/MAZE/AvailablePathsFactory.cs:27-57 | the directional groups fail exactly when a ray of one of the remaining directions fails, and otherwise number one per initial path of those directions |
| AvailablePathsFactory.AvailablePaths | src/MAZE/AvailablePathsFactory.cs:10-58 | every group is a portal singleton or a non-empty maximal ray leaving the location, built from open paths; portals first, then West, East, North, South; every open path leaving the location starts a group and there is exactly one group per such path; failure exactly when a ray from an open directional path leaving the location reaches a location where two open paths of its direction leave, which is where `SingleOrDefault` throws |
| AvailablePathsFactory.PortalsThenRays | src/MAZE/AvailablePathsFactory.cs:17-57 | portal groups followed by the directional groups are groups of the location, ordered, and cover every open path leaving it |
| AvailablePathsFactory.AvailablePathsFailExactly | src/MAZE/AvailablePathsFactory.cs:10-58 | the groups fail exactly when some ray from the location branches, and otherwise are as many as the open paths leaving it |
| AvailablePathsFactory.BuildRay | src/MAZE/AvailablePathsFactory.cs:39-50 | the `while` loop builds exactly `Ray` |
| AvailablePathsFactory.CollectPortals | src/MAZE/AvailablePathsFactory.cs:18-24 | the portal loop yields exactly `PortalGroups` |
| AvailablePathsFactory.CollectRays | src/MAZE/AvailablePathsFactory.cs:37-56 | the loop over one direction's initial paths appends exactly that direction's rays |
| AvailablePathsFactory.CollectDirections | src/MAZE/AvailablePathsFactory.cs:35-57 | the loop over the four directions appends exactly their groups |
| AvailablePathsFactory.GetAvailablePaths | src/MAZE/AvailablePathsFactory.cs:10-58 | the method computes `AvailablePaths` |
| AvailableObstaclesToClearFactory.ObstaclesToClear | src/MAZE.Api/AvailableObstaclesToClearFactory.cs:13-19 | every answer is the id of an obstacle of the type that blocks a path whose `From` is the location, every such obstacle is answered, never more answers than obstacles |
| AvailableObstaclesToClearFactory.GetAvailableObstaclesToClear | src/MAZE.Api/AvailableObstaclesToClearFactory.cs:13-19 | over the world's obstacles: every answer is an obstacle of the type blocking a path leaving the location, every such obstacle is answered, never more answers than obstacles |
| AvailableObstaclesToClearFactory.ObstaclesToClearAppend | src/MAZE.Api/AvailableObstaclesToClearFactory.cs:17-19 | obstacle order is kept |
| AvailableObstaclesToClearFactory.IgnoresDiscovery | src/MAZE.Api/AvailableObstaclesToClearFactory.cs:13-19 | worlds differing only in discovery flags get the same answer |
| AvailableObstaclesToClearFactory.ClearableIff | src/MAZE.Api/AvailableObstaclesToClearFactory.cs:18-19 | with unique obstacle ids, an obstacle's id is answered exactly when it has the type and blocks a path leaving the location |
| ActionSetsFactory.GetActionSets | src/MAZE/ActionSetsFactory.cs:8-237 | n sets for 1 ≤ n ≤ 8, none otherwise |
| ActionSetsFactory.UnionIsVocabulary | src/MAZE/ActionSetsFactory.cs:12-235 | for every supported count each of the ten actions is in some set |
| ActionSetsFactory.SetsAreNonEmptyAndRepeatFree | src/MAZE/ActionSetsFactory.cs:12-235 | every set is non-empty and repeats no action |
| ActionSetsFactory.SmallTablesArePartitions | src/MAZE/ActionSetsFactory.cs:12-92 | up to four players no action is in two sets |
| ActionSetsFactory.FivePlayersShareMoveWest | src/MAZE/ActionSetsFactory.cs:94-121 | for five players `MoveWest` is in the first and the fourth set |
| ActionSetsFactory.MoveActionsPerSet | src/MAZE/ActionSetsFactory.cs:69-235 | from four players on every set holds exactly one Move action |
| ActionSetsFactory.ThreePlayersSecondSetHasTwoMoves | src/MAZE/ActionSetsFactory.cs:54-60 | with three players the second set holds two Move actions |
| ActionSetAssigner.TruncatedRemainder | src/MAZE/ActionSetAssigner.cs:14 | C# `%`: the remainder has the sign of the dividend and is smaller than the divisor in magnitude |
| ActionSetAssigner.TruncatedDivision | src/MAZE/ActionSetAssigner.cs:14 | C#'s division identity `(a / n) * n + a % n == a` holds for the truncating pair |
| ActionSetAssigner.StartOffset | src/MAZE/ActionSetAssigner.cs:14-18 | the rotation offset is the truncated remainder for a non-negative seed, and 0 for a negative one, since `Skip` and `Take` treat a negative count as 0 |
| ActionSetAssigner.Rotated | src/MAZE/ActionSetAssigner.cs:16-19 | `Skip(off).Concat(Take(off))` has the same length and holds at position j the player at `Position(j)` |
| ActionSetAssigner.Slot | src/MAZE/ActionSetAssigner.cs:16-19 | the rotated position of a player is the inverse of `Position` |
| ActionSetAssigner.Assign | src/MAZE/ActionSetAssigner.cs:9-28 | the loop leaves exactly `Assigned`: set j replaces the actions of the player at rotated position j; everyone else is unchanged |
| ActionSetAssigner.SetGoesToRotatedPlayer | src/MAZE/ActionSetAssigner.cs:21-27 | the i-th set goes to the i-th player of the rotated roster and replaces that player's actions entirely |
| ActionSetAssigner.OrderIsKept | src/MAZE/ActionSetAssigner.cs:16-27 | the list keeps its length and, position by position, the same player id and name |
| ActionSetAssigner.UnassignedKeepActions | src/MAZE/ActionSetAssigner.cs:21-27 | players beyond the number of sets in the rotated roster keep their actions |
| ActionSetAssigner.NegativeSeedDoesNotRotate | src/MAZE/ActionSetAssigner.cs:14-19 | a negative seed assigns set j to player j |
| ActionSetAssigner.SlotsAreDistinct | src/MAZE/ActionSetAssigner.cs:16-19 | the rotation is a permutation: different players have different rotated positions |
| WorldLoaded.Apply | src/MAZE/Events/WorldLoaded.cs:28-54 | fails with `WorldAlreadyLoaded` exactly when the world has an id; otherwise sets the id, appends locations, paths and obstacles in order, leaves characters, players and seed, and yields all locations, then all paths, then all obstacles |
| WorldLoaded.LoadsOnce | src/MAZE/Events/WorldLoaded.cs:30-33 | after one load every later load fails |
| WorldLoaded.LoadIntoFreshGame | src/MAZE/Events/WorldLoaded.cs:35-53 | loading into a new game gives exactly the event's world |
| WorldLoaded.ApplyToGame | src/MAZE/Events/WorldLoaded.cs:28-54 | the in-place guard, `AddRange`s and `yield` loops do what `Apply` specifies |
| CharacterMoved.Apply | src/MAZE/Events/CharacterMoved.cs:22-38 | no single character gives `NoSingleCharacter`, no single destination gives `NoSingleLocation`; otherwise (always, in a well-formed world) only that character's location changes, it is yielded first, the destination is discovered, and the rest of the yield is exactly what discovery revealed, all of it closed and reached along unblocked non-portal paths from the destination |
| CharacterMoved.OntoDiscoveredLocation | src/MAZE/Events/CharacterMoved.cs:28 | moving onto a discovered location yields only the character and changes no location, path or obstacle |
| CharacterMoved.ApplyToGame | src/MAZE/Events/CharacterMoved.cs:22-38 | the in-place move and discovery do what `Apply` specifies |
| ObstacleRemoved.DiscoverHidden | src/MAZE/Events/ObstacleRemoved.cs:30-50 | the re-check means `Discover` never meets a discovered location; afterwards the location is discovered, and what was yielded was reached from it |
| ObstacleRemoved.UnblockPath | src/MAZE/Events/ObstacleRemoved.cs:26-50 | a missing path gives `NoSinglePath`; a well-formed world succeeds; afterwards both endpoints are discovered, the yield accounts for every flip and was reached from the endpoints |
| ObstacleRemoved.Unblock | src/MAZE/Events/ObstacleRemoved.cs:24-51 | afterwards both endpoints of every blocked path are discovered, and what was yielded was reached from those endpoints; failures are only missing paths or locations |
| ObstacleRemoved.EndsOfStable | src/MAZE/Events/ObstacleRemoved.cs:24-28 | discovery does not change the endpoints of the blocked paths |
| ObstacleRemoved.UnblockPathConcludes | src/MAZE/Events/ObstacleRemoved.cs:26-50 | discovering from both endpoints in turn accounts for every flip, keeps what was flipped closed, and is reached from the endpoints |
| ObstacleRemoved.UnblockConcludes | src/MAZE/Events/ObstacleRemoved.cs:24-51 | one blocked path, then the rest: every endpoint discovered, every flip accounted for, and reached from the endpoints |
| ObstacleRemoved.Apply | src/MAZE/Events/ObstacleRemoved.cs:18-52 | no single obstacle gives `NoSingleObstacle`; otherwise the obstacle is removed with the others kept in order, yielded first, both endpoints of every path it blocked end up discovered, and the rest of the yield is exactly what was revealed, all of it reached along unblocked non-portal paths from those endpoints |
| ObstacleRemoved.NoFlagIsCleared | src/MAZE/Events/ObstacleRemoved.cs:24-51 | no location, path or remaining obstacle goes from discovered to hidden, and one obstacle fewer remains |
| ObstacleRemoved.ApplyToGame | src/MAZE/Events/ObstacleRemoved.cs:18-52 | the in-place removal and the loop over the blocked path ids do what `Apply` specifies |
| ObstacleRemoved.UnblockPathInPlace | src/MAZE/Events/ObstacleRemoved.cs:26-50 | one turn of the unblocking loop, as `UnblockPath` specifies |
| ObstacleRemoved.DiscoverHiddenInPlace | src/MAZE/Events/ObstacleRemoved.cs:30-39 | the re-check and `Discover` call, as `DiscoverHidden` specifies |
| PlayerJoined.Apply | src/MAZE/Events/PlayerJoined.cs:14-17 | never fails; the player is appended, the count grows by one, earlier players and their order are unchanged, nothing else changes, nothing is reported |
| PlayerJoined.DuplicateIdsAreAccepted | src/MAZE/Events/PlayerJoined.cs:16 | there is no id check: a player with an id already present is added as well |
| PlayerJoined.ApplyToGame | src/MAZE/Events/PlayerJoined.cs:14-17 | `Players.Add` does what `Apply` specifies |
| PlayerLeft.Apply | src/MAZE/Events/PlayerLeft.cs:18-31 | fails exactly when no single player has the id; otherwise that player is removed, the others stay in order, the actions are those the assigner deals for the new count and the seed when anyone remains, the world is untouched, and only the removed player is yielded |
| PlayerLeft.EveryActionIsHeld | src/MAZE/Events/PlayerLeft.cs:24-28 | when one to eight players remain, each of the ten actions is held by one of them |
| PlayerLeft.ApplyAndGetModifiedResources | src/MAZE/Events/PlayerLeft.cs:18-31 | the in-place removal and reassignment do what `Apply` specifies |
| RandomSeedSet.Apply | src/MAZE/Events/RandomSeedSet.cs:16-21 | the seed becomes the event's, nothing else changes, nothing is reported |
| RandomSeedSet.LastWriteWins | src/MAZE/Events/RandomSeedSet.cs:18 | no guard: a second application overwrites the first |
| RandomSeedSet.ApplyAndGetModifiedResources | src/MAZE/Events/RandomSeedSet.cs:16-21 | the assignment does what `Apply` specifies |
| Events.Apply | src/MAZE/Event.cs:9 | every event kind applies as its own `Apply`; `GameCreated` cannot be applied; only world events touch the world, only roster events the players, only `RandomSeedSet` the seed |
| Events.ApplyToGame | src/MAZE/Event.cs:9 | the in-place application of any kind does what `Apply` specifies |
| Events.Replay | src/MAZE/GameRepository.cs:35-38 | no events leave the state; a history of roster and seed events keeps the world, one of world and seed events keeps the players, and one without seed events keeps the seed |
| Events.ReplayAppend | src/MAZE/GameRepository.cs:35-38 | replaying a history in two parts is replaying it whole |
| Events.ReplayStep | src/MAZE/GameRepository.cs:35-38 | one more stored event extends a replay by exactly one application |
| Events.GameCreatedCannotBeReplayed | src/MAZE/GameRepository.cs:35-38 | a stored `GameCreated` makes the replay through it fail |
| EventRepository.Lookup | src/MAZE/EventRepository.cs:11-19 | `GameNotFound` exactly for an unknown game; otherwise the stored list |
| EventRepository.Added | src/MAZE/EventRepository.cs:21-29 | the key set gains the game; an absent game gets a list of just the event; a present one gets the event at its end; other games are unchanged |
| EventRepository.AddedExtends | src/MAZE/EventRepository.cs:21-29 | an append removes and reorders nothing and makes the store strictly larger |
| EventRepository.ExtendsTransitive | src/MAZE/EventRepository.cs:9-30 | any history of appends only extends the store |
| EventRepository.AddedKeepsStreamsNonEmpty | src/MAZE/EventRepository.cs:23-28 | every stored list is non-empty after an append, and the game becomes readable |
| EventRepository.OtherGamesUnaffected | src/MAZE/EventRepository.cs:21-29 | reading another game after an append gives the same answer as before |
| EventRepository.EventRepository.GetEvents | src/MAZE/EventRepository.cs:11-19 | returns `Lookup` of the dictionary |
| EventRepository.EventRepository.AddEvent | src/MAZE/EventRepository.cs:21-29 | the dictionary becomes `Added`, which extends the old one |
| EventRepository.EventRepository.constructor | src/MAZE/EventRepository.cs:9 | a new store is empty |
| Counters.Increment | src/MAZE/GameRepository.cs:21 | `counter++` on a 32-bit `int` adds one modulo 2^32 |
| Counters.IssuedInOrder | src/MAZE/GameRepository.cs:18-24 | until the counter wraps, call k hands out k |
| Counters.IssuedWraps | src/MAZE/GameRepository.cs:21 | after 2^31 calls the counter has wrapped to `int.MinValue` |
| Counters.DecimalString | src/MAZE/GameService.cs:23 | `ToString` starts with a minus sign exactly for negative numbers |
| Counters.NatString | src/MAZE/GameService.cs:23 | the digits of a natural number: only digits, no leading zero |
| Counters.ParseDecimalString | src/MAZE/GameService.cs:23 | the number can be read back from its decimal string |
| Counters.DecimalStringInjective | src/MAZE/GameService.cs:23 | different numbers give different strings |
| Counters.IssuedIdsAreDistinct | src/MAZE/GameService.cs:12-24 | until the counter wraps, the string ids handed out are pairwise distinct and read back as the call number |
| GameRepository.Read | src/MAZE/GameRepository.cs:26-43 | an unknown game returns the store's `GameNotFound` unchanged, and no other error is returned; otherwise the game is the replay of its events from a new game, and a replay that fails is `Thrown` with its failure |
| GameRepository.EmptyHistoryReadsAsNewGame | src/MAZE/GameRepository.cs:33-40 | no events read back as a new game |
| GameRepository.ReadAfterAdd | src/MAZE/GameRepository.cs:35-38 | appending an event moves a readable game on by exactly that event |
| GameRepository.GameRepository.CreateGame | src/MAZE/GameRepository.cs:18-24 | returns the counter's value, moves the counter on with wrap-around, stores no event |
| GameRepository.GameRepository.GetGame | src/MAZE/GameRepository.cs:26-43 | returns `Read`'s error, or a fresh game with the requested id whose state is `Read`'s |
| PersistingGameRepository.ReadGame | src/MAZE.Persisting/GameRepository.cs:31-38 | the store's error is passed on; otherwise the replay from a new game, or the exception it throws |
| PersistingGameRepository.ReadGameAndVersion | src/MAZE.Persisting/GameRepository.cs:18-29 | the store's error is passed on; a success carries the store's version unchanged |
| PersistingGameRepository.ReadsAgree | src/MAZE.Persisting/GameRepository.cs:18-38 | both reads fold the same events into the same game, or fail alike |
| PersistingGameRepository.EmptyHistoryIsNewGame | src/MAZE.Persisting/GameRepository.cs:42-49 | an empty history is a new game, with the version alongside |
| PersistingGameRepository.CreateGame | src/MAZE.Persisting/GameRepository.cs:40-50 | the fold from `new Game(gameId)` applies the events in order and yields the replay |
| PersistingGameRepository.GetGame | src/MAZE.Persisting/GameRepository.cs:31-38 | returns `ReadGame`: its error, or a fresh game with the id and the replayed state |
| PersistingGameRepository.GetGameAndVersion | src/MAZE.Persisting/GameRepository.cs:18-29 | returns `ReadGameAndVersion`: its error, or a fresh game with the id and state, and the version |
| GameService.ToReadGameError | src/MAZE/GameService.cs:46-50 | `GameNotFound` maps to `NotFound` |
| GameService.StoredWorld | src/MAZE/GameService.cs:33-52 | an unknown game is `NotFound`; success exactly when the first stored event is a `GameCreated`, and then its world |
| GameService.CreatedGameReadsBack | src/MAZE/GameService.cs:21-42 | a game created under a fresh id reads back with the world it was given |
| GameService.LaterEventsKeepTheWorld | src/MAZE/GameService.cs:40-42 | later appends never change the world a game reads back with |
| GameService.GameService.CreateGame | src/MAZE/GameService.cs:21-31 | the id is the counter's decimal string, the counter moves on, and exactly one `GameCreated(world)` is appended under the id |
| GameService.GameService.GetGame | src/MAZE/GameService.cs:33-52 | returns `StoredWorld`'s error, or a fresh game with the id and that world |
| CharacterService.ConvertIsBijective | src/MAZE.Api/CharacterService.cs:94-104 | the class conversion is one-to-one and onto |
| CharacterService.Convert | src/MAZE.Api/CharacterService.cs:94-104 | the client class maps back to the engine class it came from |
| CharacterService.ConvertToReadCharacterError | src/MAZE.Api/CharacterService.cs:106-113 | `NotFound` maps to `ReadCharacterError.GameNotFound` |
| CharacterService.ConvertToMoveCharacterError | src/MAZE.Api/CharacterService.cs:115-122 | `NotFound` maps to `MoveCharacterError.GameNotFound` |
| CharacterService.CreateCharacter | src/MAZE.Api/CharacterService.cs:124-128 | the client character keeps id and location, converts the class, and lists the movements offered from its location |
| CharacterService.CharactersOf | src/MAZE.Api/CharacterService.cs:35 | one client character per world character, in order |
| CharacterService.CharacterOf | src/MAZE.Api/CharacterService.cs:42-58 | a failed read is converted; no character with the id gives `CharacterNotFound`; a success is a character of the world with that id |
| CharacterService.MoveVerdict | src/MAZE.Api/CharacterService.cs:60-92 | the checks run in order: game, character, discovered target, availability; each error implies the earlier checks passed; success exactly when all pass |
| CharacterService.AcceptedTargetsAreZeroOrThree | src/MAZE.Api/CharacterService.cs:78-83 | with the placeholder movements only targets 0 and 3 are ever accepted |
| CharacterService.CharacterService.GetCharacters | src/MAZE.Api/CharacterService.cs:29-40 | the read's error, or every character of the game |
| CharacterService.CharacterService.GetCharacter | src/MAZE.Api/CharacterService.cs:42-58 | returns `CharacterOf` of the read |
| CharacterService.CharacterService.MoveCharacter | src/MAZE.Api/CharacterService.cs:60-92 | returns `MoveVerdict`; on success exactly one `CharacterMoved(characterId, newLocationId)` is appended, on every error the store is unchanged |
| AvailableMovementsFactory.GetAvailableMovements | src/MAZE.Api/AvailableMovementsFactory.cs:9-13 | always two movements: location 0, 1 path, East; then location 3, 5 paths, East |
| AvailableMovementsFactory.IndependentOfArguments | src/MAZE.Api/AvailableMovementsFactory.cs:9-13 | the answer depends on neither argument |
| AvailableMovementsFactory.ReachableLocations | src/MAZE.Api/AvailableMovementsFactory.cs:11-12 | a movement reaches exactly locations 0 and 3 |
| ObstacleService.ConvertTypeIsBijective | src/MAZE.Api/ObstacleService.cs:39-48 | the type map and its reverse undo each other |
| ObstacleService.ConvertType | src/MAZE.Api/ObstacleService.cs:39-48 | the client type maps back to the engine type it came from |
| ObstacleService.Convert | src/MAZE.Api/ObstacleService.cs:34-37 | the client obstacle keeps the id and the blocked path ids, and its type maps back to the engine type |
| ObstacleService.VisibleObstacles | src/MAZE.Api/ObstacleService.cs:25-27 | only discovered obstacles, converted, every discovered one included, never longer than the input |
| ObstacleService.VisibleObstaclesAppend | src/MAZE.Api/ObstacleService.cs:25-27 | world order is kept |
| ObstacleService.ListedObstacleKeepsIdentity | src/MAZE.Api/ObstacleService.cs:34-37 | each listed obstacle keeps the id and blocked path ids of a discovered obstacle, with its type mapped |
| ObstacleService.GetObstacles | src/MAZE.Api/ObstacleService.cs:19-32 | a failed game read is passed on; otherwise the discovered obstacles, in order, converted |
| LocationService.DiscoveredAmong | src/MAZE.Api/LocationService.cs:19-27 | never longer than the input, every entry has the id of a discovered location, and every discovered location is listed |
| LocationService.GetDiscoveredLocations | src/MAZE.Api/LocationService.cs:17-22 | the same over the world's locations |
| LocationService.DiscoveredAmongAppend | src/MAZE.Api/LocationService.cs:19-21 | world order is kept |
| LocationService.AllDiscoveredListsAll | src/MAZE.Api/LocationService.cs:19-27 | when every location is discovered, all are listed with their ids, in order |
| PathService.PathsTouching | src/MAZE.Api/PathService.cs:24-26 | exactly the paths with an endpoint among the discovered ids, never more than the input |
| PathService.DiscoveredPaths | src/MAZE.Api/PathService.cs:20-26 | exactly the paths with an endpoint among the locations' ids |
| PathService.GetDiscoveredPaths | src/MAZE.Api/PathService.cs:18-27 | exactly the repository paths that touch a fixture location |
| PathService.PathsTouchingAppend | src/MAZE.Api/PathService.cs:24-26 | repository order is kept |
| PathService.AllTouchingKeepsAll | src/MAZE.Api/PathService.cs:24-26 | when every path touches a discovered location, the listing is the input |
| PathService.FixturesListEveryPath | src/MAZE.Api/PathService.cs:18-27 | with the fixtures all thirty paths are listed |
| PathRepository.IdsArePositions | src/MAZE.Api/PathRepository.cs:10-42 | thirty paths, each id equal to its position |
| PathRepository.GetAll | src/MAZE.Api/PathRepository.cs:8-43 | thirty paths |
| PathRepository.EndpointsInRangeWithoutLoops | src/MAZE.Api/PathRepository.cs:12-41 | every endpoint is in 0..14 and no path is a loop |
| PathRepository.OnlyPortalsAre23And29 | src/MAZE.Api/PathRepository.cs:35-41 | the only portals are path 23 (11 to 14) and path 29 (14 to 11) |
| PathRepository.AtMostOnePathPerOriginAndType | src/MAZE.Api/PathRepository.cs:12-41 | no two paths leave one location with the same type, so `SingleOrDefault` in a ray never throws |
| PathRepository.Path11HasNoReverse | src/MAZE.Api/PathRepository.cs:23 | path 11 goes from 5 to 9 and no path goes from 9 to 5 |
| LocationRepository.FixtureLocations | src/MAZE.Api/LocationRepository.cs:8-14 | fifteen locations, the k-th with id k |
| LocationRepository.GetDiscoveredLocations | src/MAZE.Api/LocationRepository.cs:8-14 | the counting loop yields exactly the fixture locations |
| LocationRepository.IdsAreDistinct | src/MAZE.Api/LocationRepository.cs:10-12 | the ids are pairwise distinct |
| LocationRepository.PathEndpointsAreLocations | src/MAZE.Api/LocationRepository.cs:10-13 | every endpoint of every fixture path is a fixture location |
| ChangedResourcesResolver.GetResourceNames | src/MAZE.Api/ChangedResourcesResolver.cs:10-20 | no duplicates, only the five category names, exactly the categories present in the input, empty for empty input |
| ChangedResourcesResolver.CategoriesOfPrefixKept | src/MAZE.Api/ChangedResourcesResolver.cs:12-19 | adding resources never loses a category |
| ChangedResourcesResolver.ResourceName | src/MAZE.Api/ChangedResourcesResolver.cs:12-18 | each resource maps to one of the five category names |
| GameEventService.PotentiallyChangedResources | src/MAZE.Api/GameEventService.cs:22-24 | always contains "characters", keeps the input as a prefix, grows by at most one and adds nothing but "characters" |
| GameEventService.UnchangedWhenCharactersPresent | src/MAZE.Api/GameEventService.cs:22-23 | an input containing "characters" is returned as is |
| GameEventService.CharactersAppendedOtherwise | src/MAZE.Api/GameEventService.cs:24 | otherwise "characters" is appended at the end |
| GameEventService.Idempotent | src/MAZE.Api/GameEventService.cs:22-24 | applying the rule twice is applying it once |
| WorldSerializer.ColoursAreDistinct | src/MAZE.Api/WorldSerializer.cs:14-23 | the ten colours are distinct: no colour is both a location and a path colour, and exactly the four blocked colours carry an obstacle |
| WorldSerializer.ReadLocations | src/MAZE.Api/WorldSerializer.cs:41-62 | the nested scan visits exactly `LocationCells`, fills the dictionary in that order and creates the characters of `CharactersOf` |
| WorldSerializer.ReadRow | src/MAZE.Api/WorldSerializer.cs:43-61 | the inner loop adds the location cells of one row, in column order |
| WorldSerializer.LocationCellsAreLocationPixels | src/MAZE.Api/WorldSerializer.cs:41-53 | locations sit exactly at the odd positions inside the image with white or a start colour, numbered row by row, then column by column |
| WorldSerializer.DictionaryIndexes | src/MAZE.Api/WorldSerializer.cs:52-53 | the dictionary maps the position of location k to location k; `Add` never meets a position twice |
| WorldSerializer.CharactersAreWizards | src/MAZE.Api/WorldSerializer.cs:55-59 | characters are numbered 0, 1, … in scan order, are wizards, stand on wizard-start locations, and every wizard-start location has one |
| WorldSerializer.LocationsOf | src/MAZE.Api/WorldSerializer.cs:52-114 | `locations.Values` is locations 0, 1, …, all undiscovered |
| WorldSerializer.ReadPaths | src/MAZE.Api/WorldSerializer.cs:65-111 | the loop over the dictionary with eight `TryAddPath` calls each computes `PathsFrom` |
| WorldSerializer.TryAddPath | src/MAZE.Api/WorldSerializer.cs:67-100 | throws exactly when the pixel between the location and the cell two steps on is outside the image; otherwise adds at most one path and keeps the earlier paths and obstacles as a prefix |
| WorldSerializer.TryAddPaths | src/MAZE.Api/WorldSerializer.cs:102-110 | the eight calls keep the earlier paths and obstacles as a prefix |
| WorldSerializer.PathsFrom | src/MAZE.Api/WorldSerializer.cs:65-111 | the loop over the locations keeps the earlier paths and obstacles as a prefix |
| WorldSerializer.PathsFromSound | src/MAZE.Api/WorldSerializer.cs:65-111 | every path is numbered in creation order and joins two locations one step apart in its type's direction across a path-coloured pixel; each obstacle blocks one path drawn in its colour; no path has two obstacles; every blocked-colour path has one |
| WorldSerializer.PathsFromComplete | src/MAZE.Api/WorldSerializer.cs:67-79 | a path exists in every direction in which the image joins two locations |
| WorldSerializer.TryAddPathsFails | src/MAZE.Api/WorldSerializer.cs:70-110 | the eight calls throw exactly when one of the pixels read is outside the image |
| WorldSerializer.DeserializeFailsOnFarEdge | src/MAZE.Api/WorldSerializer.cs:38-111 | `Deserialize` throws exactly when some location lies in the last column or the last row, because `GetPixel` is then asked for a pixel beyond the image |
| WorldSerializer.DeserializedEvents | src/MAZE.Api/WorldSerializer.cs:114-120 | one `WorldCreated` first, with the id and one location per location pixel in scan order and no characters; then one `CharacterAdded` per character in creation order |
| WorldSerializer.DeserializedPaths | src/MAZE.Api/WorldSerializer.cs:65-114 | the world's paths and obstacles are sound and complete as stated for `PathsFromSound` and `PathsFromComplete` |
| WorldSerializer.Deserialized | src/MAZE.Api/WorldSerializer.cs:114-120 | a success starts with a `WorldCreated` whose world has the id, no characters and one location per location pixel |
| WorldSerializer.Announce | src/MAZE.Api/WorldSerializer.cs:114-120 | the world event, then the character events |
| WorldSerializer.Deserialize | src/MAZE.Api/WorldSerializer.cs:25-121 | the method computes `Deserialized` |

## Left out

- The HTTP controllers, `Startup`, `Program`, the SignalR hubs, `EventService` and the `SendAsync` call of `GameEventService` are host plumbing and network I/O. The `NotifyWorldUpdatedAsync` call at the end of a move is therefore not modelled.
- `TokenFactory` is not modelled. It signs tokens with a cryptographic library.
- `src/MAZE.Persisting/EventRepository.cs` is not part of this model. It is a remote store client. The store's answer is a parameter of `PersistingGameRepository.GetGame` and `PersistingGameRepository.GetGameAndVersion`, and optimistic-concurrency appends are not modelled.
- The `Bitmap` decode is not modelled. The image is a width, a height and a colour function, and `GetPixel` outside it is an `Err`.
- Asynchrony (`async`/`Task`) is dropped. Every operation runs to completion in one step.
- The lazy iterators (`yield return`) are modelled as eager: every caller enumerates them fully. In particular, `GameRepository.GameRepository.GetGame` applies every event, whereas in the C# source the enumerable returned by an iterator-based `ApplyToGame` is discarded without being enumerated.
- Object identity and aliasing are not modelled. Entities are values, and `GetEvents` returns a copy of the stored list, not a live view of it.
- A LINQ `Single`, `First` or `SingleOrDefault` that would throw, an explicit `throw`, and a cast that would fail are all `Err` results. After an event fails, only the failure is described, not what the partly mutated game holds, because the exception discards the game.
- AvailablePathsFactory.AvailablePaths: termination of the ray loop is taken from a ranking precondition (`Ranked`): the same-direction step relation has no cycle anywhere in the world. The source checks nothing. Its loop fails to terminate only on a same-direction cycle that a ray from the location reaches, so `Ranked` also excludes worlds with cycles elsewhere, which the source handles.
- PlayerJoined.Apply: the source method is `void`, so the model reports no resources.
- Events.Apply: `GameCreated` has no `ApplyToGame` in the source. Applying it here fails with `NotApplicable`.
- GameRepository.GameRepository.CreateGame and GameService.GameService.CreateGame: the C# counters are `static` and shared between instances; here each instance has its own counter.
- GameRepository.GameRepository.CreateGame returns the numeric counter, while the readers take game ids as strings (the two files come from revisions with different `GameId` types); the stores are keyed by string.
- GameService.StoredWorld: `First()` on an empty list and a first event that is not a `GameCreated` are `Thrown(NoFirstEvent)` and `Thrown(NotGameCreated)`.
- LocationService.GetDiscoveredLocations: takes the world of the read game, since the source calls `.World` directly on the read's result, whose error case it never handles.
- ObstacleService.GetObstacles takes the outcome of the game read as a parameter; the repository it reads from is not part of that function.
- WorldSerializer.LocationsOf: `Dictionary.Values` is assumed to enumerate in insertion order, which .NET does not promise but does for a dictionary that is only added to.
- WorldSerializer.PathsFromSound: the loader's `Obstacle(type, pathId)` has no id of its own; the model numbers obstacles 0, 1, … in creation order. The wizard start colour creates a `Mage`, the engine's name for that class.
- WorldSerializer.Deserialize: the `CharacterAdded` events carry the characters, but the world installed by `WorldCreated` has no characters, as in the source.
- World ids are `Option<string>`: `None` stands for the source's `null` id before a world is loaded.
