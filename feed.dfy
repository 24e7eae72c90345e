/**
 * The feed assembled from its parts. The page that would wire them is a stub
 * (src/pages/Feed.tsx), so the wiring here is the one the parts' props call
 * for: the infinite query's `hasNextPage`, `isFetchingNextPage` and
 * `fetchNextPage` go to the scroll trigger, and each card sits inside a
 * visibility tracker whose `isVisible` it hands to its player.
 */
module Feed {
  import opened Wrappers
  import opened FeedPages
  import Scroll
  import Visibility
  import Card

  /** When the last loaded page is short, the loaded pages hold every matching listing, newest first. */
  lemma {:induction false} ShortLastPageMeansEverything(store: seq<Listing>, f: FeedFilters, k: nat)
    requires k >= 1 && NextAfter(store, f, k).None?
    ensures Flatten(FirstPages(store, f, k)) == Matching(store, f)
  {
    NextAfterIff(store, f, k);
    FirstPagesArePrefix(store, f, k);
    assert Min(k * ListingsPerPage, |Matching(store, f)|) == |Matching(store, f)|;
  }

  /** The infinite query for one filter value, rendered through the scroll trigger, over a fixed table. */
  class FeedSession {
    const store: seq<Listing>
    var list: PageList
    var scroll: Scroll.InfiniteScroll

    /** The trigger sees the query's current flags, and the loaded pages are the feed's first pages. */
    ghost predicate Valid()
      reads this, list, scroll
    {
      list.Valid() && scroll.Valid() && scroll.mounted &&
      list.pages == FirstPages(store, list.filters, |list.pages|) &&
      scroll.hasNextPage == list.HasNextPage() &&
      scroll.isFetchingNextPage == list.IsFetchingNextPage()
    }

    /** Mounting: the first page is requested and the trigger renders. */
    constructor (store: seq<Listing>, filters: FeedFilters)
      ensures Valid() && fresh(list) && fresh(scroll)
      ensures this.store == store && list.filters == filters
      ensures list.pages == [] && list.pending == Some(InitialPageParam)
      ensures !scroll.observing
    {
      this.store := store;
      var l := new PageList(filters);
      list := l;
      scroll := new Scroll.InfiniteScroll(l.HasNextPage(), l.IsFetchingNextPage());
    }

    /** The trigger re-renders with the query's flags. */
    method Render()
      requires list.Valid() && scroll.Valid() && scroll.mounted
      requires list.pages == FirstPages(store, list.filters, |list.pages|)
      modifies scroll
      ensures Valid()
      ensures scroll.observing == Scroll.ObserverWanted(list.HasNextPage(), list.IsFetchingNextPage())
    {
      scroll.Rerender(list.HasNextPage(), list.IsFetchingNextPage());
    }

    /**
     * The sentinel scrolls into view. A page is requested only while the
     * trigger observes, and the page requested is the number of pages loaded.
     */
    method SentinelIntersects() returns (requested: Option<nat>)
      requires Valid()
      modifies list, scroll
      ensures Valid()
      ensures requested.Some? <==> old(scroll.observing)
      ensures requested.Some? ==> requested.value == |list.pages| && list.pending == requested && !scroll.observing
      ensures requested.None? ==> list.pending == old(list.pending)
      ensures list.pages == old(list.pages) && list.error == old(list.error)
    {
      var fetch := scroll.OnSentinelEntry(true);
      if fetch {
        requested := list.FetchNextPage();
      } else {
        requested := None;
      }
      Render();
    }

    /** The fetch in flight is answered from the table, or fails with `remoteError`. */
    method Deliver(remoteError: Option<string>)
      requires Valid() && list.pending.Some?
      modifies list, scroll
      ensures Valid() && list.pending.None?
      ensures remoteError.None? ==> list.pages == old(list.pages) + [Page(store, list.filters, old(|list.pages|))]
      ensures remoteError.Some? ==> list.pages == old(list.pages) && list.error == remoteError
    {
      list.Fetch(store, remoteError);
      Render();
    }

    /**
     * New filters are a new query key: the query starts over from page 0 with
     * no page of the old filters, and the trigger re-renders.
     */
    method ChangeFilters(filters: FeedFilters)
      requires Valid()
      modifies this, scroll
      ensures Valid() && fresh(list)
      ensures list.filters == filters && list.pages == [] && list.pending == Some(InitialPageParam)
      ensures !scroll.observing
    {
      list := new PageList(filters);
      Render();
    }

    /**
     * The sentinel's content. Once the end-of-list line shows after some page
     * has loaded, every matching listing has been loaded; it also shows while
     * nothing is loaded and no next page is being fetched (before the first
     * page arrives, or after it failed).
     */
    method Sentinel() returns (view: Scroll.SentinelView)
      requires Valid()
      ensures view == Scroll.SentinelContent(scroll.hasNextPage, scroll.isFetchingNextPage)
      ensures view.endOfList && list.pages != [] ==> Flatten(list.pages) == Matching(store, list.filters)
      ensures list.pages == [] ==> view.endOfList
    {
      view := Scroll.SentinelContent(scroll.hasNextPage, scroll.isFetchingNextPage);
      if view.endOfList && list.pages != [] {
        var k := |list.pages|;
        assert list.pages[k - 1] == Page(store, list.filters, k - 1);
        ShortLastPageMeansEverything(store, list.filters, k);
      }
    }
  }

  /** One feed entry: a card inside a visibility tracker. */
  class FeedItem {
    const tracker: Visibility.VisibilityTracker
    const card: Card.ListingCard

    /** The card's player always has the tracker's current `isVisible`. */
    ghost predicate Valid()
      reads this, tracker, card, card.likes, card.player
    {
      tracker.Valid() && card.Valid() && card.player.isVisible == tracker.isVisible
    }

    constructor (tracker: Visibility.VisibilityTracker, card: Card.ListingCard)
      requires tracker.Valid() && card.Valid() && card.player.isVisible == tracker.isVisible
      ensures Valid() && this.tracker == tracker && this.card == card
    {
      this.tracker, this.card := tracker, card;
    }

    /**
     * An intersection callback: the tracker takes the entry and the card
     * re-renders with it, so the video starts (when `play()` resolves) on
     * scrolling into view and pauses on scrolling out of it.
     */
    method OnEntry(isIntersecting: bool, playAllowed: bool)
      requires Valid()
      modifies tracker`isVisible, tracker`entries
      modifies card.player`isVisible, card.player`isPlaying, card.player`elementPlaying
      ensures Valid()
      ensures old(tracker.observing) ==> card.player.isVisible == isIntersecting
      ensures card.player.showControls == old(card.player.showControls)
      ensures !old(tracker.observing) || isIntersecting == old(card.player.isVisible) || !card.player.hasVideo ==>
                card.player.isPlaying == old(card.player.isPlaying)
      ensures old(tracker.observing) && isIntersecting != old(card.player.isVisible) && card.player.hasVideo ==>
                card.player.isPlaying == (isIntersecting && (old(card.player.isPlaying) || playAllowed))
    {
      tracker.OnEntry(isIntersecting);
      card.SetVisible(tracker.isVisible, playAllowed);
    }
  }
}
