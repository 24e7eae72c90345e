/**
 * The visibility tracker (src/components/feed/VisibilityTracker.tsx): an
 * `isVisible` state that each intersection callback overwrites, handed to the
 * children on every render.
 */
module Visibility {
  import opened Wrappers

  /** The threshold used when the caller gives none. */
  const DefaultThreshold: real := 0.5

  /** The last of `entries`, or `initial` when there are none. */
  function LastOr(entries: seq<bool>, initial: bool): bool {
    if entries == [] then initial else entries[|entries| - 1]
  }

  class VisibilityTracker {
    var threshold: real
    var isVisible: bool
    var observing: bool
    /** `isIntersecting` of every callback delivered so far, oldest first. */
    ghost var entries: seq<bool>

    /** `isVisible` is the last callback's `isIntersecting`, `false` before any callback. */
    ghost predicate Valid()
      reads this
    {
      isVisible == LastOr(entries, false)
    }

    /** Mounting: `isVisible` starts `false` and the effect starts observing the wrapper element. */
    constructor (threshold: Option<real>)
      ensures Valid()
      ensures this.threshold == threshold.GetOr(DefaultThreshold)
      ensures !isVisible && entries == [] && observing
    {
      this.threshold := threshold.GetOr(DefaultThreshold);
      isVisible := false;
      entries := [];
      observing := true;
    }

    /** An observer callback; none arrives once the observer is detached. */
    method OnEntry(isIntersecting: bool)
      requires Valid()
      modifies this`isVisible, this`entries
      ensures Valid()
      ensures threshold == old(threshold) && observing == old(observing)
      ensures old(observing) ==> isVisible == isIntersecting && entries == old(entries) + [isIntersecting]
      ensures !old(observing) ==> isVisible == old(isVisible) && entries == old(entries)
    {
      if observing {
        isVisible := isIntersecting;
        entries := entries + [isIntersecting];
      }
    }

    /** A new threshold: the old observer is detached and a new one watches the element. */
    method SetThreshold(t: real)
      requires Valid() && observing
      modifies this`threshold, this`observing
      ensures Valid() && observing
      ensures threshold == t
      ensures isVisible == old(isVisible) && entries == old(entries)
    {
      if t != threshold {
        observing := false;
        threshold := t;
        observing := true;
      }
    }

    /** Unmounting runs the cleanup: the element is no longer observed. */
    method Unmount()
      requires Valid()
      modifies this`observing
      ensures Valid() && !observing
      ensures isVisible == old(isVisible) && threshold == old(threshold) && entries == old(entries)
    {
      observing := false;
    }

    /** The render: the children, given the current `isVisible`. */
    function RenderChildren<T>(children: bool -> T): (out: T)
      reads this
      requires Valid()
      ensures out == children(LastOr(entries, false))
    {
      children(isVisible)
    }
  }
}
