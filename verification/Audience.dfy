/** The audience check shared by the notice batch and the bulk price dialog. */
module Audience {
  import opened Collections

  function Elements<T(!new)>(xs: seq<T>): (s: set<T>)
    ensures forall x :: x in s <==> x in xs
  {
    set x | x in xs
  }

  /** As many values as selected, as many different values as selected, and every value selected. */
  predicate ExactAudience(values: seq<string>, ids: seq<string>) {
    |values| == |ids| && |Elements(values)| == |ids| && forall v :: v in values ==> v in ids
  }

  lemma {:induction false} CountElements<T(!new)>(xs: seq<T>)
    ensures |Elements(xs)| <= |xs|
    ensures |Elements(xs)| == |xs| <==> Distinct(xs)
  {
    if xs == [] {
      assert Elements(xs) == {};
    } else {
      var rest := xs[1..];
      CountElements(rest);
      assert xs == [xs[0]] + rest;
      if xs[0] in rest {
        assert Elements(xs) == Elements(rest);
        var i :| 0 <= i < |rest| && rest[i] == xs[0];
        assert xs[0] == xs[i + 1];
      } else {
        assert Elements(xs) == {xs[0]} + Elements(rest);
        if Distinct(rest) {
          assert Distinct(xs);
        } else {
          var i, j :| 0 <= i < j < |rest| && rest[i] == rest[j];
          assert xs[i + 1] == xs[j + 1];
        }
      }
    }
  }

  lemma {:induction false} DistinctCounts<T(!new)>(xs: seq<T>, x: T)
    requires Distinct(xs)
    ensures multiset(xs)[x] == if x in xs then 1 else 0
  {
    if xs != [] {
      assert xs == [xs[0]] + xs[1..];
      DistinctCounts(xs[1..], x);
    }
  }

  lemma SubsetSameSize<T(!new)>(a: set<T>, b: set<T>)
    requires a <= b && |a| >= |b|
    ensures a == b
  {
    assert |b - a| == |b| - |a|;
  }

  lemma ExactIsPermutation(values: seq<string>, ids: seq<string>)
    requires ExactAudience(values, ids)
    ensures multiset(values) == multiset(ids) && Distinct(ids)
  {
    CountElements(values);
    CountElements(ids);
    SubsetSameSize(Elements(values), Elements(ids));
    forall x
      ensures multiset(values)[x] == multiset(ids)[x]
    {
      DistinctCounts(values, x);
      DistinctCounts(ids, x);
      assert x in Elements(values) <==> x in Elements(ids);
    }
  }

  lemma PermutationIsExact(values: seq<string>, ids: seq<string>)
    requires multiset(values) == multiset(ids) && Distinct(ids)
    ensures ExactAudience(values, ids)
  {
    CountElements(ids);
    assert |values| == |multiset(values)| == |multiset(ids)| == |ids|;
    forall x
      ensures x in values <==> x in ids
    {
      assert x in values <==> x in multiset(values);
      assert x in ids <==> x in multiset(ids);
    }
    assert Elements(values) == Elements(ids);
  }

  /** Pigeonhole: the check holds exactly when the values are a permutation of a selection without repeats. */
  lemma ExactAudienceIff(values: seq<string>, ids: seq<string>)
    ensures ExactAudience(values, ids) <==> multiset(values) == multiset(ids) && Distinct(ids)
  {
    if ExactAudience(values, ids) {
      ExactIsPermutation(values, ids);
    }
    if multiset(values) == multiset(ids) && Distinct(ids) {
      PermutationIsExact(values, ids);
    }
  }
}
