/**
 * `useScrollAnimation`: an element's in-view flag and its has-animated latch,
 * driven by intersection entries (each entry reduced to whether it intersects;
 * only the first entry of each observer callback is read).
 */
module ScrollAnimation {

  const DefaultThresholdPercent: nat := 35
  const DefaultRootMargin: string := "-20% 0px -20% 0px"
  const DefaultResetOnExit: bool := false

  /** Whether the element is in view after the entries `seen`, in order:
      with `resetOnExit`, iff the latest entry intersected; without it, iff
      any entry did (a one-way latch). Either way only after some entry
      intersected. */
  function InViewAfter(seen: seq<bool>, resetOnExit: bool): (r: bool)
    ensures r ==> true in seen
  {
    if resetOnExit then seen != [] && seen[|seen| - 1] else true in seen
  }

  /** Without `resetOnExit`, once in view always in view, whatever entries follow. */
  lemma {:induction false} LatchWithoutReset(seen: seq<bool>, later: seq<bool>)
    ensures InViewAfter(seen, false) ==> InViewAfter(seen + later, false)
  {
    if InViewAfter(seen, false) {
      var k :| 0 <= k < |seen| && seen[k];
      assert (seen + later)[k];
    }
  }

  /** With `resetOnExit`, the latest entry alone decides. */
  lemma ResetFollowsLatest(seen: seq<bool>, isIntersecting: bool)
    ensures InViewAfter(seen + [isIntersecting], true) == isIntersecting
  {
  }

  class ScrollAnimation {
    const threshold: nat          // percent
    const rootMargin: string
    const resetOnExit: bool
    var isInView: bool
    var hasAnimated: bool
    /** The first entry of each observer callback so far (the callback reads
        only `([entry])`, the first of its batch). */
    ghost var seen: seq<bool>

    ghost predicate Valid()
      reads this
    {
      isInView == InViewAfter(seen, resetOnExit)
      && (hasAnimated <==> true in seen)
      && (isInView ==> hasAnimated)
    }

    constructor (threshold: nat, rootMargin: string, resetOnExit: bool)
      ensures Valid() && seen == []
      ensures this.threshold == threshold && this.rootMargin == rootMargin
      ensures this.resetOnExit == resetOnExit
      ensures !isInView && !hasAnimated
    {
      this.threshold := threshold;
      this.rootMargin := rootMargin;
      this.resetOnExit := resetOnExit;
      isInView := false;
      hasAnimated := false;
      seen := [];
    }

    /** One observer callback, given its batch's first entry. An intersecting
        entry sets both flags; a leaving entry clears only `isInView`, and
        only with `resetOnExit`. */
    method OnEntry(isIntersecting: bool)
      requires Valid()
      modifies this
      ensures Valid() && seen == old(seen) + [isIntersecting]
      ensures isIntersecting ==> isInView && hasAnimated
      ensures !isIntersecting && resetOnExit ==> !isInView && hasAnimated == old(hasAnimated)
      ensures !isIntersecting && !resetOnExit ==>
        isInView == old(isInView) && hasAnimated == old(hasAnimated)
      ensures old(hasAnimated) ==> hasAnimated
    {
      if isIntersecting {
        isInView := true;
        hasAnimated := true;
      } else if resetOnExit {
        isInView := false;
      }
      seen := seen + [isIntersecting];
      assert true in seen <==> (true in old(seen) || isIntersecting);
    }
  }
}
