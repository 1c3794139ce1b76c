/** The category list sent to clients after a world update: characters are
    always included, because their available actions depend on the whole
    world (src/MAZE.Api/GameEventService.cs). */
module GameEventService {

  function PotentiallyChangedResources(changedResources: seq<string>): (r: seq<string>)
    ensures "characters" in r
    ensures |changedResources| <= |r| <= |changedResources| + 1
    ensures r[..|changedResources|] == changedResources
    ensures forall name :: name in r ==> name in changedResources || name == "characters"
  {
    if "characters" in changedResources then changedResources else changedResources + ["characters"]
  }

  /** Already containing "characters" means nothing is added. */
  lemma UnchangedWhenCharactersPresent(changedResources: seq<string>)
    requires "characters" in changedResources
    ensures PotentiallyChangedResources(changedResources) == changedResources
  {
  }

  /** Otherwise "characters" is added at the end. */
  lemma CharactersAppendedOtherwise(changedResources: seq<string>)
    requires "characters" !in changedResources
    ensures PotentiallyChangedResources(changedResources) == changedResources + ["characters"]
  {
  }

  /** Adding the category twice has no further effect. */
  lemma Idempotent(changedResources: seq<string>)
    ensures PotentiallyChangedResources(PotentiallyChangedResources(changedResources))
         == PotentiallyChangedResources(changedResources)
  {
  }
}
