/** The sample maze's thirty directed paths between locations 0..14
    (src/MAZE.Api/PathRepository.cs). */
module PathRepository {
  import opened ApiModels
  import Contracts

  function GetAll(): (r: seq<Path>)
    ensures |r| == 30
  {
    [ Path(0, 0, 4, Contracts.South),
      Path(1, 1, 2, Contracts.East),
      Path(2, 1, 5, Contracts.South),
      Path(3, 2, 1, Contracts.West),
      Path(4, 2, 3, Contracts.East),
      Path(5, 3, 2, Contracts.West),
      Path(6, 3, 7, Contracts.South),
      Path(7, 4, 0, Contracts.North),
      Path(8, 4, 8, Contracts.South),
      Path(9, 5, 1, Contracts.North),
      Path(10, 5, 6, Contracts.East),
      Path(11, 5, 9, Contracts.South),
      Path(12, 6, 5, Contracts.West),
      Path(13, 6, 10, Contracts.South),
      Path(14, 7, 3, Contracts.North),
      Path(15, 7, 11, Contracts.South),
      Path(16, 8, 4, Contracts.North),
      Path(17, 8, 9, Contracts.East),
      Path(18, 9, 8, Contracts.West),
      Path(19, 9, 10, Contracts.East),
      Path(20, 10, 9, Contracts.West),
      Path(21, 10, 6, Contracts.North),
      Path(22, 11, 7, Contracts.North),
      Path(23, 11, 14, Contracts.Portal),
      Path(24, 12, 8, Contracts.North),
      Path(25, 12, 13, Contracts.East),
      Path(26, 13, 12, Contracts.West),
      Path(27, 13, 14, Contracts.East),
      Path(28, 14, 13, Contracts.West),
      Path(29, 14, 11, Contracts.Portal) ]
  }

  /** Thirty paths, each id equal to its position. */
  lemma IdsArePositions()
    ensures |GetAll()| == 30
    ensures forall k :: 0 <= k < |GetAll()| ==> GetAll()[k].id == k
  {
  }

  /** Every endpoint is one of the locations 0..14, and no path is a loop. */
  lemma EndpointsInRangeWithoutLoops()
    ensures forall k :: 0 <= k < |GetAll()| ==>
              0 <= GetAll()[k].from < 15 && 0 <= GetAll()[k].to < 15 && GetAll()[k].from != GetAll()[k].to
  {
  }

  /** The only portals are 11 to 14 (path 23) and back (path 29). */
  lemma OnlyPortalsAre23And29()
    ensures forall k :: 0 <= k < |GetAll()| ==> (GetAll()[k].pathType == Contracts.Portal <==> k == 23 || k == 29)
    ensures GetAll()[23].from == 11 && GetAll()[23].to == 14
    ensures GetAll()[29].from == 14 && GetAll()[29].to == 11
  {
  }

  /** No two paths leave one location with the same type, so a ray never
      has more than one way to go on. */
  lemma AtMostOnePathPerOriginAndType()
    ensures forall i, j :: 0 <= i < j < |GetAll()| ==>
              GetAll()[i].from != GetAll()[j].from || GetAll()[i].pathType != GetAll()[j].pathType
  {
    var all := GetAll();
    assert forall k :: 0 <= k < |all| - 1 ==> Key(all[k]) < Key(all[k + 1]);
    KeysIncreasing(all);
  }

  /** Orders paths by origin, then by type. */
  function Key(p: Path): int {
    5 * p.from + match p.pathType
      case West => 0
      case North => 1
      case East => 2
      case South => 3
      case Portal => 4
  }

  lemma {:induction false} KeysIncreasing(s: seq<Path>)
    requires forall k :: 0 <= k < |s| - 1 ==> Key(s[k]) < Key(s[k + 1])
    ensures forall i, j :: 0 <= i < j < |s| ==> Key(s[i]) < Key(s[j])
  {
    if |s| > 1 {
      var t := s[1..];
      KeysIncreasing(t);
      forall i, j | 0 <= i < j < |s| ensures Key(s[i]) < Key(s[j]) {
        if i == 0 {
          if j > 1 {
            assert Key(t[0]) < Key(t[j - 1]);
          }
        } else {
          assert Key(t[i - 1]) < Key(t[j - 1]);
        }
      }
    }
  }

  /** The graph is not symmetric: nothing leads back from 9 to 5 along path 11. */
  lemma Path11HasNoReverse()
    ensures GetAll()[11].from == 5 && GetAll()[11].to == 9
    ensures forall k :: 0 <= k < |GetAll()| ==> !(GetAll()[k].from == 9 && GetAll()[k].to == 5)
  {
  }
}
