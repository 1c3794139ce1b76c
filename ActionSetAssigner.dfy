/** Handing action sets to players (src/MAZE/ActionSetAssigner.cs): the
    roster is rotated to start at `randomSeed % players.Count`, and the i-th
    set replaces the actions of the i-th player of the rotated roster. The
    players list itself keeps its order; only the chosen players' actions
    change. */
module ActionSetAssigner {
  import opened Models

  /** C#'s `/` on `int`: the quotient is rounded toward zero. */
  function TruncatedQuotient(a: int, n: int): int
    requires n > 0
  {
    if a >= 0 then a / n else -((-a) / n)
  }

  /** C#'s `%` on `int`: the remainder takes the sign of the dividend. */
  function TruncatedRemainder(a: int, n: int): (r: int)
    requires n > 0
    ensures a >= 0 ==> 0 <= r < n
    ensures a < 0 ==> -n < r <= 0
  {
    if a >= 0 then a % n else -((-a) % n)
  }

  /** C#'s division identity: `(a / n) * n + a % n == a`. */
  lemma TruncatedDivision(a: int, n: int)
    requires n > 0
    ensures TruncatedQuotient(a, n) * n + TruncatedRemainder(a, n) == a
  {
    if a < 0 {
      var q, m := (-a) / n, (-a) % n;
      assert q * n + m == -a;
      assert (-q) * n == -(q * n);
    }
  }

  /** `Skip` and `Take` treat a negative count as zero, so a negative
      remainder means no rotation. */
  function StartOffset(randomSeed: int, count: int): (r: nat)
    requires count > 0
    ensures r < count
    ensures randomSeed < 0 ==> r == 0
    ensures randomSeed >= 0 ==> r == TruncatedRemainder(randomSeed, count)
  {
    var offset := TruncatedRemainder(randomSeed, count);
    if offset < 0 then 0 else offset
  }

  /** The position in `players` of rotated position `j`: `offset + j`,
      wrapped once. */
  function Position(j: nat, offset: nat, count: nat): (r: nat)
    requires j < count && offset < count
    ensures r < count
  {
    if offset + j < count then offset + j else offset + j - count
  }

  /** The rotated position of the player at position `i`; the inverse of
      `Position`. */
  function Slot(i: nat, offset: nat, count: nat): (r: nat)
    requires i < count && offset < count
    ensures r < count && Position(r, offset, count) == i
  {
    if i >= offset then i - offset else i + count - offset
  }

  /** `players.Skip(offset).Concat(players.Take(offset))`. */
  function Rotated<T>(players: seq<T>, offset: nat): (r: seq<T>)
    requires offset < |players|
    ensures |r| == |players|
    ensures forall j :: 0 <= j < |r| ==> r[j] == players[Position(j, offset, |players|)]
  {
    players[offset..] + players[..offset]
  }

  /** What `Assign` leaves in the players list, player by player: the
      player at rotated position `j` gets set `j` when there is one, and
      keeps its actions otherwise. */
  function Assigned(actionSets: seq<seq<ActionName>>, players: seq<Player>, randomSeed: int): seq<Player>
    requires |players| > 0
  {
    var offset := StartOffset(randomSeed, |players|);
    seq(|players|, i requires 0 <= i < |players| =>
      var j := Slot(i, offset, |players|);
      if j < |actionSets| then players[i].(actions := actionSets[j]) else players[i])
  }

  /** The `foreach` loop over the sets: the player object reached through
      the rotated list is the one at `Position(j, offset, count)` of
      `players`, and it is that object whose actions are replaced. */
  method Assign(actionSets: seq<seq<ActionName>>, players: seq<Player>, randomSeed: int)
    returns (updated: seq<Player>)
    requires |players| > 0
    requires |actionSets| <= |players|
    ensures updated == Assigned(actionSets, players, randomSeed)
  {
    var startOffset := StartOffset(randomSeed, |players|);
    updated := players;
    var playerIndexToAssignTo := 0;
    while playerIndexToAssignTo < |actionSets|
      invariant 0 <= playerIndexToAssignTo <= |actionSets|
      invariant |updated| == |players|
      invariant forall i :: 0 <= i < |players| ==>
        var j := Slot(i, startOffset, |players|);
        updated[i] == if j < playerIndexToAssignTo then players[i].(actions := actionSets[j]) else players[i]
    {
      var index := Position(playerIndexToAssignTo, startOffset, |players|);
      assert Slot(index, startOffset, |players|) == playerIndexToAssignTo by {
        SlotOfPosition(playerIndexToAssignTo, startOffset, |players|);
      }
      forall i | 0 <= i < |players| && i != index
        ensures Slot(i, startOffset, |players|) != playerIndexToAssignTo
      {
      }
      updated := updated[index := updated[index].(actions := actionSets[playerIndexToAssignTo])];
      playerIndexToAssignTo := playerIndexToAssignTo + 1;
    }
  }

  /** Rotated position `j` holds the player whose slot is `j`. */
  lemma SlotOfPosition(j: nat, offset: nat, count: nat)
    requires j < count && offset < count
    ensures Slot(Position(j, offset, count), offset, count) == j
  {
  }

  /** The roster is a permutation of positions: slots of different players
      differ. */
  lemma SlotsAreDistinct(i: nat, k: nat, offset: nat, count: nat)
    requires i < count && k < count && offset < count && i != k
    ensures Slot(i, offset, count) != Slot(k, offset, count)
  {
  }

  /** The rotated roster at position `j` is the player with slot `j`, so
      `Assigned` is what the source's rotated list hands out. */
  lemma RotatedAgreesWithSlot(players: seq<Player>, randomSeed: int, j: nat)
    requires |players| > 0 && j < |players|
    ensures var offset := StartOffset(randomSeed, |players|);
            Slot(Position(j, offset, |players|), offset, |players|) == j
            && Rotated(players, offset)[j] == players[Position(j, offset, |players|)]
  {
    SlotOfPosition(j, StartOffset(randomSeed, |players|), |players|);
  }

  /** The i-th set goes to the i-th player of the rotated roster, and
      replaces that player's actions entirely. */
  lemma SetGoesToRotatedPlayer(actionSets: seq<seq<ActionName>>, players: seq<Player>, randomSeed: int, j: nat)
    requires |players| > 0 && j < |actionSets| && j < |players|
    ensures var offset := StartOffset(randomSeed, |players|);
            var i := Position(j, offset, |players|);
            Assigned(actionSets, players, randomSeed)[i] == Rotated(players, offset)[j].(actions := actionSets[j])
  {
    RotatedAgreesWithSlot(players, randomSeed, j);
  }

  /** The list keeps its length and order: every position holds the same
      player (id and name), with possibly new actions. */
  lemma OrderIsKept(actionSets: seq<seq<ActionName>>, players: seq<Player>, randomSeed: int, i: nat)
    requires |players| > 0 && i < |players|
    ensures |Assigned(actionSets, players, randomSeed)| == |players|
    ensures Assigned(actionSets, players, randomSeed)[i].id == players[i].id
    ensures Assigned(actionSets, players, randomSeed)[i].name == players[i].name
  {
  }

  /** Players beyond the number of sets in the rotated roster keep their
      actions. */
  lemma UnassignedKeepActions(actionSets: seq<seq<ActionName>>, players: seq<Player>, randomSeed: int, j: nat)
    requires |players| > 0 && |actionSets| <= j < |players|
    ensures var i := Position(j, StartOffset(randomSeed, |players|), |players|);
            Assigned(actionSets, players, randomSeed)[i] == players[i]
  {
    RotatedAgreesWithSlot(players, randomSeed, j);
  }

  /** A negative seed gives the unrotated roster: set `j` goes to player `j`. */
  lemma NegativeSeedDoesNotRotate(actionSets: seq<seq<ActionName>>, players: seq<Player>, randomSeed: int, j: nat)
    requires randomSeed < 0 && j < |actionSets| && j < |players|
    ensures Assigned(actionSets, players, randomSeed)[j] == players[j].(actions := actionSets[j])
  {
  }
}
