/** The `RandomSeedSet` event (src/MAZE/Events/RandomSeedSet.cs): records
    the seed that later action reassignments rotate by. */
module RandomSeedSet {
  import opened Wrappers
  import opened Models

  /** `ApplyAndGetModifiedResources`, as the function it computes. */
  function Apply(randomSeed: int, s: GameState): (r: Result<Applied, Failure>)
    ensures r.Ok? && r.value.found == []
    ensures r.value.state.randomSeed == randomSeed
    ensures r.value.state.world == s.world && r.value.state.players == s.players
  {
    Ok(Applied(s.(randomSeed := randomSeed), []))
  }

  /** There is no already-set guard: the last seed applied wins. */
  lemma LastWriteWins(first: int, second: int, s: GameState)
    ensures Apply(second, Apply(first, s).value.state) == Apply(second, s)
  {
  }

  method ApplyAndGetModifiedResources(randomSeed: int, game: Game) returns (r: Result<seq<Resource>, Failure>)
    modifies game
    ensures Performs(old(game.State()), Apply(randomSeed, old(game.State())), game.State(), r)
  {
    game.randomSeed := randomSeed;
    r := Ok([]);
  }
}
