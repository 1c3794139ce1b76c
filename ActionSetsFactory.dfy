/** The hand-tuned table that splits the action vocabulary among 1 to 8
    players (src/MAZE/ActionSetsFactory.cs). */
module ActionSetsFactory {
  import opened Models
  import opened Enumerable

  /** The whole vocabulary, in declaration order. */
  const AllActions: seq<ActionName> :=
    [MoveWest, MoveEast, MoveNorth, MoveSouth, UsePortal, ClearObstacle, Teleport, Disarm, Smash, Heal]

  /** The table itself; any count outside 1..8 yields no sets at all. */
  function GetActionSets(numberOfPlayers: int): (r: seq<seq<ActionName>>)
    ensures |r| == if 1 <= numberOfPlayers <= 8 then numberOfPlayers else 0
  {
    match numberOfPlayers
    case 1 => [AllActions]
    case 2 => [[MoveWest, MoveSouth, UsePortal, ClearObstacle, Smash],
               [MoveEast, MoveNorth, Teleport, Disarm, Heal]]
    case 3 => [[MoveWest, Teleport, Disarm],
               [MoveEast, MoveNorth, Smash, Heal],
               [MoveSouth, UsePortal, ClearObstacle]]
    case 4 => [[MoveWest, Teleport, Disarm],
               [MoveEast, Smash],
               [MoveNorth, ClearObstacle, Heal],
               [MoveSouth, UsePortal]]
    case 5 => [[MoveWest, Teleport],
               [MoveEast, Smash],
               [MoveNorth, ClearObstacle, Heal],
               [MoveWest, Disarm],
               [MoveSouth, UsePortal]]
    case 6 => [[MoveWest, Teleport],
               [MoveEast, Smash],
               [MoveNorth, Heal],
               [MoveWest, Disarm],
               [MoveEast, ClearObstacle],
               [MoveSouth, UsePortal]]
    case 7 => [[MoveWest, Teleport],
               [MoveEast, Smash],
               [MoveNorth, Heal],
               [MoveWest, Disarm],
               [MoveEast, ClearObstacle],
               [MoveNorth, Teleport],
               [MoveSouth, UsePortal]]
    case 8 => [[MoveWest, Teleport],
               [MoveEast, Smash],
               [MoveNorth, Heal],
               [MoveSouth, UsePortal],
               [MoveWest, Disarm],
               [MoveEast, ClearObstacle],
               [MoveNorth, Teleport],
               [MoveSouth, Smash]]
    case _ => []
  }

  predicate IsMove(a: ActionName) {
    a == MoveWest || a == MoveEast || a == MoveNorth || a == MoveSouth
  }

  /** Number of the four Move actions in one set. */
  function MoveCount(s: seq<ActionName>): nat {
    if s == [] then 0 else (if IsMove(s[0]) then 1 else 0) + MoveCount(s[1..])
  }

  /** Some set of the list holds `a`. */
  predicate Covers(sets: seq<seq<ActionName>>, a: ActionName) {
    exists i :: 0 <= i < |sets| && a in sets[i]
  }

  /** For every supported count the sets together hold all ten actions. */
  lemma UnionIsVocabulary(n: int, a: ActionName)
    requires 1 <= n <= 8
    ensures Covers(GetActionSets(n), a)
  {
    var sets := GetActionSets(n);
    var i: nat :|
      i < |sets| && a in sets[i] by {
      match n
      case 1 => assert a in sets[0];
      case 2 => assert a in sets[0] || a in sets[1];
      case 3 => assert a in sets[0] || a in sets[1] || a in sets[2];
      case 4 => assert a in sets[0] || a in sets[1] || a in sets[2] || a in sets[3];
      case 5 => assert a in sets[0] || a in sets[1] || a in sets[2] || a in sets[3] || a in sets[4];
      case 6 => assert a in sets[0] || a in sets[1] || a in sets[2] || a in sets[3] || a in sets[4] || a in sets[5];
      case 7 => assert a in sets[0] || a in sets[1] || a in sets[2] || a in sets[3] || a in sets[4] || a in sets[6];
      case 8 => assert a in sets[0] || a in sets[1] || a in sets[2] || a in sets[3] || a in sets[4] || a in sets[5];
    }
  }

  /** Every set is non-empty and repeats no action. */
  lemma SetsAreNonEmptyAndRepeatFree(n: int, i: nat)
    requires i < |GetActionSets(n)|
    ensures GetActionSets(n)[i] != [] && NoDuplicates(GetActionSets(n)[i])
  {
  }

  /** Up to four players no action is handed to two players. */
  lemma SmallTablesArePartitions(n: int, i: nat, j: nat, a: ActionName)
    requires 1 <= n <= 4 && i < j < |GetActionSets(n)|
    ensures !(a in GetActionSets(n)[i] && a in GetActionSets(n)[j])
  {
  }

  /** From five players on the table shares actions on purpose; for five
      players MoveWest goes to the first and the fourth set. */
  lemma FivePlayersShareMoveWest()
    ensures MoveWest in GetActionSets(5)[0] && MoveWest in GetActionSets(5)[3]
  {
  }

  /** From four players on each set moves in exactly one direction; with
      three players the second set moves both East and North. */
  lemma MoveActionsPerSet(n: int, i: nat)
    requires 4 <= n <= 8 && i < |GetActionSets(n)|
    ensures MoveCount(GetActionSets(n)[i]) == 1
  {
    var s := GetActionSets(n)[i];
    assert 2 <= |s| <= 3 && IsMove(s[0]) && forall k :: 1 <= k < |s| ==> !IsMove(s[k]);
    MoveCountOfShortSet(s);
  }

  /** MoveCount unfolded on sets of two or three actions. */
  lemma MoveCountOfShortSet(s: seq<ActionName>)
    requires 2 <= |s| <= 3
    ensures MoveCount(s) == (if IsMove(s[0]) then 1 else 0) + (if IsMove(s[1]) then 1 else 0)
                            + (if |s| == 3 && IsMove(s[2]) then 1 else 0)
  {
    assert s[1..][1..] == s[2..];
    if |s| == 3 {
      assert s[2..][1..] == [];
    }
  }

  lemma ThreePlayersSecondSetHasTwoMoves()
    ensures MoveCount(GetActionSets(3)[1]) == 2
  {
    var s := GetActionSets(3)[1];
    assert s == [MoveEast, MoveNorth, Smash, Heal];
    assert s[1..][1..][1..] == [Heal];
  }
}
