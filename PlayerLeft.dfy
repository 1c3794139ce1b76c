/** The `PlayerLeft` event (src/MAZE/Events/PlayerLeft.cs): the player is
    taken off the roster and, if anyone remains, the actions are dealt out
    again from the table for the new player count. */
module PlayerLeft {
  import opened Wrappers
  import opened Enumerable
  import opened Models
  import opened ActionSetsFactory
  import opened ActionSetAssigner

  function PlayerIndex(players: seq<Player>, id: int): Option<nat> {
    SingleIndex(players, (p: Player) => p.id == id)
  }

  /** The roster once the player at index `k` is gone. */
  function Without(players: seq<Player>, k: nat): seq<Player>
    requires k < |players|
  {
    players[..k] + players[k + 1..]
  }

  /** `ApplyAndGetModifiedResources`, as the function it computes. */
  function Apply(playerId: int, s: GameState): (r: Result<Applied, Failure>)
    ensures r.Err? <==> PlayerIndex(s.players, playerId).None?
    ensures r.Err? ==> r.error == NoSinglePlayer(playerId)
    ensures r.Ok? ==>
      var k := PlayerIndex(s.players, playerId).value;
      var rest := Without(s.players, k);
      && r.value.found == [PlayerResource(s.players[k])]
      && r.value.state.world == s.world && r.value.state.randomSeed == s.randomSeed
      // the others stay, in order, with possibly new actions
      && |r.value.state.players| == |s.players| - 1
      && (forall i :: 0 <= i < |rest| ==>
            r.value.state.players[i].id == rest[i].id && r.value.state.players[i].name == rest[i].name)
      // the actions are those the assigner deals for the new count and the seed
      && (|rest| > 0 ==> r.value.state.players == Assigned(GetActionSets(|rest|), rest, s.randomSeed))
  {
    match PlayerIndex(s.players, playerId)
    case None => Err(NoSinglePlayer(playerId))
    case Some(k) =>
      var rest := Without(s.players, k);
      var players := if |rest| > 0 then Assigned(GetActionSets(|rest|), rest, s.randomSeed) else rest;
      Ok(Applied(s.(players := players), [PlayerResource(s.players[k])]))
  }

  /** When one to eight players remain, every one of the ten actions is held
      by some remaining player again. */
  lemma EveryActionIsHeld(playerId: int, s: GameState, a: ActionName)
    requires Apply(playerId, s).Ok?
    requires 1 <= |Apply(playerId, s).value.state.players| <= 8
    ensures exists i :: 0 <= i < |Apply(playerId, s).value.state.players| && a in Apply(playerId, s).value.state.players[i].actions
  {
    var k := PlayerIndex(s.players, playerId).value;
    var rest := Without(s.players, k);
    var sets := GetActionSets(|rest|);
    UnionIsVocabulary(|rest|, a);
    var j :| 0 <= j < |sets| && a in sets[j];
    SetGoesToRotatedPlayer(sets, rest, s.randomSeed, j);
    var i := Position(j, StartOffset(s.randomSeed, |rest|), |rest|);
    assert a in Apply(playerId, s).value.state.players[i].actions;
  }

  method ApplyAndGetModifiedResources(playerId: int, game: Game) returns (r: Result<seq<Resource>, Failure>)
    modifies game
    ensures Performs(old(game.State()), Apply(playerId, old(game.State())), game.State(), r)
  {
    var k := PlayerIndex(game.players, playerId);
    if k.None? {
      return Err(NoSinglePlayer(playerId));
    }
    var playerToRemove := game.players[k.value];
    game.players := Without(game.players, k.value);
    if |game.players| > 0 {
      var actionSets := GetActionSets(|game.players|);
      game.players := Assign(actionSets, game.players, game.randomSeed);
    }
    r := Ok([PlayerResource(playerToRemove)]);
  }
}
