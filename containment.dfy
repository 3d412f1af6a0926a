/**
 * The array extension `ensureAllElementsAreContainedIn`: a left-to-right
 * scan of one array that stops at the first element absent from another.
 */
module Containment {
  import opened Wrappers

  /** Every element of `xs` occurs somewhere in `other`. */
  ghost predicate AllContained<X>(xs: seq<X>, other: seq<X>) {
    forall i :: 0 <= i < |xs| ==> xs[i] in other
  }

  /** Position `i` holds the first element of `xs`, in order, that `other` lacks. */
  ghost predicate FirstMissingAt<X>(xs: seq<X>, other: seq<X>, i: int) {
    && 0 <= i < |xs|
    && xs[i] !in other
    && forall j :: 0 <= j < i ==> xs[j] in other
  }

  /** The first element of `xs` that is not contained in `other`, if any. */
  function FirstNotContained<X(==)>(xs: seq<X>, other: seq<X>): (r: Option<X>)
    ensures r.None? <==> AllContained(xs, other)
    ensures r.Some? ==> exists i :: FirstMissingAt(xs, other, i) && xs[i] == r.value
  {
    if |xs| == 0 then None
    else if xs[0] !in other then Some(xs[0])
    else
      var rest := FirstNotContained(xs[1..], other);
      assert forall i :: FirstMissingAt(xs[1..], other, i) ==> FirstMissingAt(xs, other, i + 1);
      rest
  }

  /** At most one position can be the first missing one. */
  lemma FirstMissingUnique<X>(xs: seq<X>, other: seq<X>, i: int, j: int)
    requires FirstMissingAt(xs, other, i) && FirstMissingAt(xs, other, j)
    ensures i == j
  {
  }

  /**
   * The scan throws `errorGenerator(e)` for the first element `e` of `xs`
   * missing from `other`, and returns normally when there is none (in
   * particular when `xs` is empty). Neither sequence is changed.
   */
  method EnsureAllElementsAreContainedIn<X(==), Err>(xs: seq<X>, other: seq<X>, errorGenerator: X -> Err)
    returns (r: Outcome<Err>)
    ensures r.Pass? <==> AllContained(xs, other)
    ensures r.Fail? ==> exists i :: FirstMissingAt(xs, other, i) && r.error == errorGenerator(xs[i])
    ensures r == match FirstNotContained(xs, other)
                 case None => Pass
                 case Some(e) => Fail(errorGenerator(e))
  {
    for i := 0 to |xs|
      invariant forall j :: 0 <= j < i ==> xs[j] in other
    {
      if xs[i] !in other {
        assert FirstMissingAt(xs, other, i);
        ghost var first := FirstNotContained(xs, other);
        ghost var k :| FirstMissingAt(xs, other, k) && xs[k] == first.value;
        FirstMissingUnique(xs, other, i, k);
        return Fail(errorGenerator(xs[i]));
      }
    }
    return Pass;
  }

  /**
   * Which element is reported depends only on which values `other` holds,
   * not on their order or on duplicates.
   */
  lemma {:induction false} FirstNotContainedDependsOnMembership<X>(xs: seq<X>, a: seq<X>, b: seq<X>)
    requires forall x :: x in a <==> x in b
    ensures FirstNotContained(xs, a) == FirstNotContained(xs, b)
  {
    if |xs| > 0 && xs[0] in a {
      FirstNotContainedDependsOnMembership(xs[1..], a, b);
    }
  }
}
