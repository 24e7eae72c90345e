/**
 * The infinite-scroll trigger (src/components/feed/InfiniteScroll.tsx): a
 * sentinel rendered after the children, observed only while another page
 * exists and none is being fetched, and the indicator shown inside it.
 */
module Scroll {

  /** The effect's guard: an observer is attached only when this holds (the sentinel element always exists once mounted). */
  predicate ObserverWanted(hasNextPage: bool, isFetchingNextPage: bool) {
    hasNextPage && !isFetchingNextPage
  }

  /** What the sentinel shows: the loading line, the end-of-list line, or neither. */
  datatype SentinelView = SentinelView(loading: bool, endOfList: bool)

  /**
   * The sentinel's content: the loading line exactly while a next page is
   * fetched, the end-of-list line exactly when there is no next page and none
   * is being fetched; never both.
   */
  function SentinelContent(hasNextPage: bool, isFetchingNextPage: bool): (v: SentinelView)
    ensures !(v.loading && v.endOfList)
    ensures v.loading <==> isFetchingNextPage
    ensures v.endOfList <==> !hasNextPage && !isFetchingNextPage
  {
    SentinelView(isFetchingNextPage, !hasNextPage && !isFetchingNextPage)
  }

  /** One element of the rendered output. */
  datatype Part<C> = Child(child: C) | Sentinel(view: SentinelView)

  /** The rendered output: every child, in order, and then the sentinel, whatever the state. */
  function Render<C>(children: seq<C>, hasNextPage: bool, isFetchingNextPage: bool): (out: seq<Part<C>>)
    ensures |out| == |children| + 1
    ensures forall i :: 0 <= i < |children| ==> out[i] == Child(children[i])
    ensures out[|children|] == Sentinel(SentinelContent(hasNextPage, isFetchingNextPage))
  {
    seq(|children|, i requires 0 <= i < |children| => Child(children[i])) +
    [Sentinel(SentinelContent(hasNextPage, isFetchingNextPage))]
  }

  /**
   * The mounted component: the props of the last render and whether an
   * IntersectionObserver currently watches the sentinel.
   */
  class InfiniteScroll {
    var hasNextPage: bool
    var isFetchingNextPage: bool
    var mounted: bool
    var observing: bool

    /** After every commit the effect has run for the current props. */
    ghost predicate Valid()
      reads this
    {
      observing == (mounted && ObserverWanted(hasNextPage, isFetchingNextPage))
    }

    /** First render and commit: the effect attaches an observer if the guard allows. */
    constructor (hasNextPage: bool, isFetchingNextPage: bool)
      ensures Valid() && mounted
      ensures this.hasNextPage == hasNextPage && this.isFetchingNextPage == isFetchingNextPage
      ensures observing == ObserverWanted(hasNextPage, isFetchingNextPage)
    {
      this.hasNextPage, this.isFetchingNextPage := hasNextPage, isFetchingNextPage;
      mounted := true;
      observing := ObserverWanted(hasNextPage, isFetchingNextPage);
    }

    /**
     * A re-render with new props. When a dependency changed, the old observer is
     * detached and the effect runs again; otherwise nothing happens.
     */
    method Rerender(hasNextPage: bool, isFetchingNextPage: bool)
      requires Valid() && mounted
      modifies this`hasNextPage, this`isFetchingNextPage, this`observing
      ensures Valid() && mounted
      ensures this.hasNextPage == hasNextPage && this.isFetchingNextPage == isFetchingNextPage
      ensures observing == ObserverWanted(hasNextPage, isFetchingNextPage)
    {
      if hasNextPage != this.hasNextPage || isFetchingNextPage != this.isFetchingNextPage {
        observing := false;
        this.hasNextPage, this.isFetchingNextPage := hasNextPage, isFetchingNextPage;
        if ObserverWanted(hasNextPage, isFetchingNextPage) {
          observing := true;
        }
      }
    }

    /**
     * The observer reports the sentinel's entry: `fetchNextPage` is called exactly
     * when an observer is attached and the entry is intersecting.
     */
    method OnSentinelEntry(isIntersecting: bool) returns (fetchRequested: bool)
      requires Valid()
      ensures fetchRequested <==> observing && isIntersecting
      ensures fetchRequested ==> hasNextPage && !isFetchingNextPage
    {
      fetchRequested := observing && isIntersecting;
    }

    /** Unmounting runs the effect's cleanup: the observer is detached. */
    method Unmount()
      requires Valid()
      modifies this`observing, this`mounted
      ensures Valid() && !mounted && !observing
      ensures hasNextPage == old(hasNextPage) && isFetchingNextPage == old(isFetchingNextPage)
    {
      observing := false;
      mounted := false;
    }
  }
}
