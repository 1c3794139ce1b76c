/** Which resource categories a list of touched entities amounts to, for
    change notification (src/MAZE.Api/ChangedResourcesResolver.cs). */
module ChangedResourcesResolver {
  import opened Models
  import opened Enumerable

  const Categories: set<string> := {"players", "characters", "locations", "obstacles", "paths"}

  function ResourceName(x: Resource): (r: string)
    ensures r in Categories
  {
    match x
    case PlayerResource(_) => "players"
    case CharacterResource(_) => "characters"
    case LocationResource(_) => "locations"
    case ObstacleResource(_) => "obstacles"
    case PathResource(_) => "paths"
  }

  /** The category of every resource, each category once, in order of first
      appearance. */
  function GetResourceNames(changedResources: seq<Resource>): (r: seq<string>)
    ensures NoDuplicates(r)
    ensures forall i :: 0 <= i < |r| ==> r[i] in Categories
    ensures forall name :: name in r <==> exists k :: 0 <= k < |changedResources| && ResourceName(changedResources[k]) == name
    ensures changedResources == [] ==> r == []
  {
    var names := seq(|changedResources|, k requires 0 <= k < |changedResources| => ResourceName(changedResources[k]));
    var r := Distinct(names);
    assert forall name :: name in names <==> exists k :: 0 <= k < |changedResources| && ResourceName(changedResources[k]) == name by {
      forall name ensures name in names ==> exists k :: 0 <= k < |changedResources| && ResourceName(changedResources[k]) == name {
        if name in names {
          var k :| 0 <= k < |names| && names[k] == name;
          assert ResourceName(changedResources[k]) == name;
        }
      }
      forall k | 0 <= k < |changedResources| ensures ResourceName(changedResources[k]) in names {
        assert names[k] == ResourceName(changedResources[k]);
      }
    }
    assert forall name :: name in r <==> name in names by {
      forall name ensures name in r <==> name in names {
        if name in r {
          var i :| 0 <= i < |r| && r[i] == name;
        }
        if name in names {
          var i :| 0 <= i < |names| && names[i] == name;
        }
      }
    }
    r
  }

  /** Resolving more resources never loses a category of the first ones. */
  lemma CategoriesOfPrefixKept(a: seq<Resource>, b: seq<Resource>, name: string)
    requires name in GetResourceNames(a)
    ensures name in GetResourceNames(a + b)
  {
    var k :| 0 <= k < |a| && ResourceName(a[k]) == name;
    assert (a + b)[k] == a[k];
  }
}
