/** The `PlayerJoined` event (src/MAZE/Events/PlayerJoined.cs): the new
    player is added at the end of the roster, with no check of its id and no
    cap on the number of players. */
module PlayerJoined {
  import opened Wrappers
  import opened Models

  /** `ApplyToGame`, as the function it computes. The source's method is
      `void`, so nothing is reported. */
  function Apply(newPlayer: Player, s: GameState): (r: Result<Applied, Failure>)
    ensures r.Ok? && r.value.found == []
    ensures |r.value.state.players| == |s.players| + 1
    ensures r.value.state.players[..|s.players|] == s.players
    ensures r.value.state.players[|s.players|] == newPlayer
    ensures r.value.state.world == s.world && r.value.state.randomSeed == s.randomSeed
  {
    Ok(Applied(s.(players := s.players + [newPlayer]), []))
  }

  /** Joining never fails, even when a player with the same id is present. */
  lemma DuplicateIdsAreAccepted(newPlayer: Player, s: GameState, i: nat)
    requires i < |s.players| && s.players[i].id == newPlayer.id
    ensures Apply(newPlayer, s).Ok?
    ensures Apply(newPlayer, s).value.state.players[i].id == Apply(newPlayer, s).value.state.players[|s.players|].id
  {
    assert Apply(newPlayer, s).value.state.players[..|s.players|][i] == s.players[i];
  }

  method ApplyToGame(newPlayer: Player, game: Game) returns (r: Result<seq<Resource>, Failure>)
    modifies game
    ensures Performs(old(game.State()), Apply(newPlayer, old(game.State())), game.State(), r)
  {
    game.players := game.players + [newPlayer];
    r := Ok([]);
  }
}
