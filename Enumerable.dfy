/** The few LINQ operators whose behaviour the engine depends on: `First`,
    `Single` / `SingleOrDefault` (which fail unless exactly one element
    matches) and `Distinct` (which keeps first occurrences, in order). */
module Enumerable {
  import opened Wrappers

  /** No element occurs twice. */
  predicate NoDuplicates<T(==)>(s: seq<T>) {
    forall i, j :: 0 <= i < j < |s| ==> s[i] != s[j]
  }

  /** The first index at or after `from` whose element satisfies `p`. */
  function FirstIndex<T>(s: seq<T>, p: T -> bool, from: nat): (r: Option<nat>)
    requires from <= |s|
    ensures r.Some? ==> from <= r.value < |s| && p(s[r.value])
    ensures r.Some? ==> forall j :: from <= j < r.value ==> !p(s[j])
    ensures r.None? ==> forall j :: from <= j < |s| ==> !p(s[j])
    decreases |s| - from
  {
    if from == |s| then None
    else if p(s[from]) then Some(from)
    else FirstIndex(s, p, from + 1)
  }

  /** `Single`: the index of the one element satisfying `p`; `None` when no
      element or more than one element does (where LINQ throws). */
  function SingleIndex<T>(s: seq<T>, p: T -> bool): (r: Option<nat>)
    ensures r.Some? ==> r.value < |s| && p(s[r.value])
    ensures r.Some? ==> forall j :: 0 <= j < |s| && j != r.value ==> !p(s[j])
    ensures r.None? ==> forall i :: 0 <= i < |s| && p(s[i]) ==>
                          exists j :: 0 <= j < |s| && j != i && p(s[j])
  {
    var first := FirstIndex(s, p, 0);
    if first.None? then None
    else
      var second := FirstIndex(s, p, first.value + 1);
      if second.Some? then
        assert forall i :: 0 <= i < |s| && p(s[i]) && i != first.value ==> first.value != i && p(s[first.value]);
        assert p(s[second.value]) && second.value != first.value;
        None
      else first
  }

  /** Two sequences whose elements satisfy their predicates at the same
      positions have the same first match. */
  lemma {:induction false} FirstIndexAgrees<T, U>(s: seq<T>, p: T -> bool, s': seq<U>, p': U -> bool, from: nat)
    requires |s| == |s'| && from <= |s|
    requires forall i :: 0 <= i < |s| ==> p(s[i]) == p'(s'[i])
    ensures FirstIndex(s, p, from) == FirstIndex(s', p', from)
    decreases |s| - from
  {
    if from < |s| && !p(s[from]) {
      FirstIndexAgrees(s, p, s', p', from + 1);
    }
  }

  /** The same for `Single`. */
  lemma SingleIndexAgrees<T, U>(s: seq<T>, p: T -> bool, s': seq<U>, p': U -> bool)
    requires |s| == |s'|
    requires forall i :: 0 <= i < |s| ==> p(s[i]) == p'(s'[i])
    ensures SingleIndex(s, p) == SingleIndex(s', p')
  {
    FirstIndexAgrees(s, p, s', p', 0);
    var first := FirstIndex(s, p, 0);
    if first.Some? {
      FirstIndexAgrees(s, p, s', p', first.value + 1);
    }
  }

  datatype Match = NoMatch | OneMatch(index: nat) | SeveralMatches

  /** `SingleOrDefault`: no element, the one element, or (where LINQ throws)
      several elements satisfying `p`. */
  function SingleOrDefaultIndex<T>(s: seq<T>, p: T -> bool): (r: Match)
    ensures r.NoMatch? ==> forall j :: 0 <= j < |s| ==> !p(s[j])
    ensures r.OneMatch? ==> r.index < |s| && p(s[r.index])
    ensures r.OneMatch? ==> forall j :: 0 <= j < |s| && j != r.index ==> !p(s[j])
    ensures r.SeveralMatches? ==> exists i, j :: 0 <= i < j < |s| && p(s[i]) && p(s[j])
  {
    var first := FirstIndex(s, p, 0);
    if first.None? then NoMatch
    else
      var second := FirstIndex(s, p, first.value + 1);
      if second.Some? then
        assert p(s[first.value]) && p(s[second.value]);
        SeveralMatches
      else OneMatch(first.value)
  }

  /** `Distinct`: the first occurrence of every element, in input order. */
  function Distinct<T(==)>(s: seq<T>): (r: seq<T>)
    ensures NoDuplicates(r)
    ensures forall i :: 0 <= i < |r| ==> r[i] in s
    ensures forall i :: 0 <= i < |s| ==> s[i] in r
    ensures |r| <= |s|
  {
    if |s| == 0 then []
    else
      var d := Distinct(s[..|s| - 1]);
      assert forall i :: 0 <= i < |s| - 1 ==> s[i] == s[..|s| - 1][i];
      if s[|s| - 1] in d then d else d + [s[|s| - 1]]
  }

  /** Where `x` first occurs in `s`. */
  function FirstOccurrence<T(==)>(s: seq<T>, x: T): (k: nat)
    requires x in s
    ensures k < |s| && s[k] == x && x !in s[..k]
  {
    if s[0] == x then 0 else FirstOccurrence(s[1..], x) + 1
  }

  /** A first occurrence does not move when elements are appended. */
  lemma {:induction false} FirstOccurrenceAppend<T>(p: seq<T>, x: T, y: T)
    requires y in p
    ensures FirstOccurrence(p + [x], y) == FirstOccurrence(p, y)
  {
    var k := FirstOccurrence(p, y);
    var k' := FirstOccurrence(p + [x], y);
    assert forall m :: 0 <= m < k ==> p[..k][m] == (p + [x])[m] && (p + [x])[m] != y;
    assert forall m :: 0 <= m < k' ==> (p + [x])[..k'][m] == (p + [x])[m] && (p + [x])[m] != y;
    assert (p + [x])[k] == y;
  }

  /** `Distinct` lists the elements in the order of their first occurrence. */
  lemma {:induction false} DistinctKeepsFirstOrder<T>(s: seq<T>, i: nat, j: nat)
    requires i < j < |Distinct(s)|
    ensures FirstOccurrence(s, Distinct(s)[i]) < FirstOccurrence(s, Distinct(s)[j])
    decreases |s|
  {
    var p := s[..|s| - 1];
    var x := s[|s| - 1];
    var d := Distinct(p);
    assert s == p + [x];
    if j < |d| {
      DistinctKeepsFirstOrder(p, i, j);
      FirstOccurrenceAppend(p, x, d[i]);
      FirstOccurrenceAppend(p, x, d[j]);
    } else {
      assert x !in p;
      FirstOccurrenceAppend(p, x, d[i]);
      assert FirstOccurrence(s, x) == |p| by {
        assert forall m :: 0 <= m < |p| ==> s[m] == p[m];
      }
    }
  }

  /** On an input without repetitions `Distinct` changes nothing. */
  lemma {:induction false} DistinctOfDistinct<T>(s: seq<T>)
    requires NoDuplicates(s)
    ensures Distinct(s) == s
  {
    if |s| > 0 {
      var init := s[..|s| - 1];
      assert NoDuplicates(init);
      DistinctOfDistinct(init);
      assert s[|s| - 1] !in init;
      assert s == init + [s[|s| - 1]];
    }
  }
}
