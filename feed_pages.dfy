/**
 * The paginated feed query (src/hooks/useFeedListings.ts).
 *
 * The remote `listings` table is an abstract sequence of rows. The query that
 * `queryFn` builds step by step is a value (`Query`) whose conditions are
 * appended one at a time; `Run` is what the database does with it. `Page` is
 * the reference meaning of one page; the lemmas below say how consecutive pages
 * cover the matching rows, and `PageList` holds the pages loaded so far.
 */
module FeedPages {
  import opened Wrappers
  import opened Text

  /** `LISTINGS_PER_PAGE`. */
  const ListingsPerPage: nat := 20
  /** `initialPageParam`. */
  const InitialPageParam: nat := 0

  datatype Status = Active | Sold

  /** A row of the `listings` table; `price` is in cents. */
  datatype Listing = Listing(
    id: string,
    title: string,
    price: int,
    category: string,
    size: string,
    createdAt: int,
    status: Status)

  /** The hook's `FeedFilters`; the price bounds are whole euros, `None` for `null`. */
  datatype FeedFilters = FeedFilters(
    search: string,
    category: string,
    minPrice: Option<int>,
    maxPrice: Option<int>)

  // ---------------------------------------------------------------------------
  // What the filters mean

  /** A blank search (empty after trimming) matches every title; otherwise the trimmed text must occur in it, ignoring case. */
  predicate TitleMatches(search: string, title: string) {
    Trim(search) == [] || ContainsIgnoringCase(title, Trim(search))
  }

  /** An empty category or the `'all'` sentinel matches every category; anything else only itself. */
  predicate CategoryMatches(category: string, rowCategory: string) {
    category == "" || category == "all" || rowCategory == category
  }

  /** Absent bounds do not constrain; present ones are inclusive and in euros, prices in cents. */
  predicate PriceWithin(minPrice: Option<int>, maxPrice: Option<int>, price: int) {
    (minPrice.None? || minPrice.value * 100 <= price) &&
    (maxPrice.None? || price <= maxPrice.value * 100)
  }

  /** The rows the feed shows for `f`: active ones that pass every filter. */
  predicate Matches(f: FeedFilters, l: Listing) {
    l.status == Active &&
    TitleMatches(f.search, l.title) &&
    CategoryMatches(f.category, l.category) &&
    PriceWithin(f.minPrice, f.maxPrice, l.price)
  }

  // ---------------------------------------------------------------------------
  // Rows, selection and order

  /** The rows of `rows` that satisfy `keep`, in their original order. */
  function Where(rows: seq<Listing>, keep: Listing -> bool): (r: seq<Listing>)
    ensures forall x :: x in r <==> x in rows && keep(x)
  {
    if rows == [] then []
    else if keep(rows[0]) then [rows[0]] + Where(rows[1..], keep)
    else Where(rows[1..], keep)
  }

  /** Selecting with two predicates that agree on every row gives the same rows. */
  lemma {:induction false} WhereAgrees(rows: seq<Listing>, p: Listing -> bool, q: Listing -> bool)
    requires forall x :: p(x) == q(x)
    ensures Where(rows, p) == Where(rows, q)
  {
    if rows != [] {
      WhereAgrees(rows[1..], p, q);
    }
  }

  /** Ordered by `created_at`, newest first. */
  predicate NewestFirst(s: seq<Listing>) {
    forall i, j :: 0 <= i < j < |s| ==> s[i].createdAt >= s[j].createdAt
  }

  /** A row no older than any row of a newest-first sequence can go in front of it. */
  lemma PrependNewestFirst(x: Listing, s: seq<Listing>)
    requires NewestFirst(s)
    requires forall y :: y in s ==> y.createdAt <= x.createdAt
    ensures NewestFirst([x] + s)
  {
    var r := [x] + s;
    forall i, j | 0 <= i < j < |r|
      ensures r[i].createdAt >= r[j].createdAt
    {
      if i == 0 {
        assert r[j] == s[j - 1];
        assert s[j - 1] in s;
      } else {
        assert r[i] == s[i - 1] && r[j] == s[j - 1];
      }
    }
  }

  function InsertNewestFirst(l: Listing, s: seq<Listing>): (r: seq<Listing>)
    requires NewestFirst(s)
    ensures NewestFirst(r)
    ensures forall x :: x in r <==> x == l || x in s
    ensures multiset(r) == multiset(s) + multiset{l}
  {
    if s == [] then [l]
    else if l.createdAt >= s[0].createdAt then
      PrependNewestFirst(l, s);
      [l] + s
    else
      assert s == [s[0]] + s[1..];
      var rest := InsertNewestFirst(l, s[1..]);
      assert forall y :: y in rest ==> y.createdAt <= s[0].createdAt;
      PrependNewestFirst(s[0], rest);
      [s[0]] + rest
  }

  /** `.order('created_at', { ascending: false })`: the same rows, newest first. */
  function SortNewestFirst(s: seq<Listing>): (r: seq<Listing>)
    ensures NewestFirst(r)
    ensures forall x :: x in r <==> x in s
    ensures multiset(r) == multiset(s)
  {
    if s == [] then []
    else
      assert s == [s[0]] + s[1..];
      InsertNewestFirst(s[0], SortNewestFirst(s[1..]))
  }

  /** `.range(from, to)`: rows `from` through `to` inclusive, as many of them as exist. */
  function Range(rows: seq<Listing>, from: nat, to: nat): (r: seq<Listing>)
    ensures |r| <= to + 1 - from || from > to
  {
    var lo := if from <= |rows| then from else |rows|;
    var hi := if to + 1 <= |rows| then to + 1 else |rows|;
    if lo <= hi then rows[lo..hi] else []
  }

  /** Every row the feed can show for `f`, newest first. */
  function Matching(store: seq<Listing>, f: FeedFilters): seq<Listing> {
    SortNewestFirst(Where(store, l => Matches(f, l)))
  }

  /** Reference meaning of page `p`: the slice of the matching rows starting at row `20p`. */
  function Page(store: seq<Listing>, f: FeedFilters, p: nat): seq<Listing> {
    var m := Matching(store, f);
    var lo := if p * ListingsPerPage <= |m| then p * ListingsPerPage else |m|;
    var hi := if p * ListingsPerPage + ListingsPerPage <= |m| then p * ListingsPerPage + ListingsPerPage else |m|;
    m[lo..hi]
  }

  // ---------------------------------------------------------------------------
  // The query `queryFn` builds

  /** One filter of the built query. */
  datatype Condition =
    | StatusIs(status: Status)
    | TitleILike(needle: string)
    | CategoryIs(category: string)
    | PriceAtLeast(cents: int)
    | PriceAtMost(cents: int)

  predicate Holds(c: Condition, l: Listing) {
    match c
    case StatusIs(s) => l.status == s
    case TitleILike(needle) => ContainsIgnoringCase(l.title, needle)
    case CategoryIs(cat) => l.category == cat
    case PriceAtLeast(cents) => l.price >= cents
    case PriceAtMost(cents) => l.price <= cents
  }

  /** Every condition of `cs` holds of `l` (the conditions are chained with AND). */
  predicate HoldsAll(cs: seq<Condition>, l: Listing) {
    cs == [] || (HoldsAll(cs[..|cs| - 1], l) && Holds(cs[|cs| - 1], l))
  }

  /** The chain holds exactly when each condition of it holds. */
  lemma {:induction false} HoldsAllIff(cs: seq<Condition>, l: Listing)
    ensures HoldsAll(cs, l) <==> forall i :: 0 <= i < |cs| ==> Holds(cs[i], l)
  {
    if cs != [] {
      var init := cs[..|cs| - 1];
      HoldsAllIff(init, l);
      if HoldsAll(cs, l) {
        forall i | 0 <= i < |cs|
          ensures Holds(cs[i], l)
        {
          if i < |init| {
            assert cs[i] == init[i];
          }
        }
      }
      if forall i :: 0 <= i < |cs| ==> Holds(cs[i], l) {
        forall i | 0 <= i < |init|
          ensures Holds(init[i], l)
        {
          assert cs[i] == init[i];
        }
      }
    }
  }

  /** The query: its conditions, newest-first order, and the inclusive row range. */
  datatype Query = Query(conditions: seq<Condition>, rangeFrom: nat, rangeTo: nat) {
    /** The query narrowed by one more condition. */
    function And(c: Condition): (q: Query)
      ensures q.rangeFrom == rangeFrom && q.rangeTo == rangeTo
      ensures q.conditions == conditions + [c]
    {
      this.(conditions := conditions + [c])
    }
  }

  /** A row passes the narrowed query exactly when it passes the query and the new condition. */
  lemma AndHolds(q: Query, c: Condition, l: Listing)
    ensures HoldsAll(q.And(c).conditions, l) <==> HoldsAll(q.conditions, l) && Holds(c, l)
  {
    var cs := q.And(c).conditions;
    assert cs[..|cs| - 1] == q.conditions;
  }

  /** What the database returns for `q`: the satisfying rows, newest first, cut to the range. */
  function Run(q: Query, store: seq<Listing>): seq<Listing> {
    Range(SortNewestFirst(Where(store, l => HoldsAll(q.conditions, l))), q.rangeFrom, q.rangeTo)
  }

  /** One optional narrowing: applied, it adds the condition `c`; skipped, it leaves the rows as they were. */
  lemma Narrowed(q: Query, q': Query, c: Condition, apply: bool, l: Listing, before: bool, passes: bool)
    requires HoldsAll(q.conditions, l) == before
    requires q' == if apply then q.And(c) else q
    requires passes == (!apply || Holds(c, l))
    ensures HoldsAll(q'.conditions, l) == (before && passes)
  {
    if apply {
      AndHolds(q, c, l);
    }
  }

  /**
   * The four optional narrowings, applied in `queryFn`'s order after the status
   * condition, select exactly the rows `Matches` admits.
   */
  lemma NarrowingsMatch(f: FeedFilters, q0: Query, q1: Query, q2: Query, q3: Query, q4: Query, l: Listing)
    requires q0.conditions == [StatusIs(Active)]
    requires q1 == if Trim(f.search) != [] then q0.And(TitleILike(Trim(f.search))) else q0
    requires q2 == if f.category != "" && f.category != "all" then q1.And(CategoryIs(f.category)) else q1
    requires q3 == if f.minPrice.Some? then q2.And(PriceAtLeast(f.minPrice.value * 100)) else q2
    requires q4 == if f.maxPrice.Some? then q3.And(PriceAtMost(f.maxPrice.value * 100)) else q3
    ensures HoldsAll(q4.conditions, l) <==> Matches(f, l)
  {
    var b0 := l.status == Active;
    var b1 := b0 && TitleMatches(f.search, l.title);
    var b2 := b1 && CategoryMatches(f.category, l.category);
    var b3 := b2 && (f.minPrice.None? || f.minPrice.value * 100 <= l.price);
    var b4 := b3 && (f.maxPrice.None? || l.price <= f.maxPrice.value * 100);
    assert HoldsAll(q0.conditions, l) == b0 by {
      assert q0.conditions[..0] == [];
    }
    assert HoldsAll(q1.conditions, l) == b1 by {
      Narrowed(q0, q1, TitleILike(Trim(f.search)), Trim(f.search) != [], l, b0, TitleMatches(f.search, l.title));
    }
    assert HoldsAll(q2.conditions, l) == b2 by {
      Narrowed(q1, q2, CategoryIs(f.category), f.category != "" && f.category != "all", l, b1,
               CategoryMatches(f.category, l.category));
    }
    assert HoldsAll(q3.conditions, l) == b3 by {
      Narrowed(q2, q3, PriceAtLeast(if f.minPrice.Some? then f.minPrice.value * 100 else 0), f.minPrice.Some?, l, b2,
               f.minPrice.None? || f.minPrice.value * 100 <= l.price);
    }
    assert HoldsAll(q4.conditions, l) == b4 by {
      Narrowed(q3, q4, PriceAtMost(if f.maxPrice.Some? then f.maxPrice.value * 100 else 0), f.maxPrice.Some?, l, b3,
               f.maxPrice.None? || l.price <= f.maxPrice.value * 100);
    }
  }

  /**
   * Builds the query for page `pageParam` the way `queryFn` does, one condition
   * at a time; the conditions together select exactly the rows `Matches` admits.
   */
  method BuildQuery(filters: FeedFilters, pageParam: nat) returns (query: Query)
    ensures query.rangeFrom == pageParam * ListingsPerPage
    ensures query.rangeTo == (pageParam + 1) * ListingsPerPage - 1
    ensures forall l :: HoldsAll(query.conditions, l) <==> Matches(filters, l)
  {
    query := Query([StatusIs(Active)], pageParam * ListingsPerPage, (pageParam + 1) * ListingsPerPage - 1);
    ghost var q0 := query;
    var search := Trim(filters.search);
    if search != [] {
      query := query.And(TitleILike(search));
    }
    ghost var q1 := query;
    if filters.category != "" && filters.category != "all" {
      query := query.And(CategoryIs(filters.category));
    }
    ghost var q2 := query;
    if filters.minPrice.Some? {
      query := query.And(PriceAtLeast(filters.minPrice.value * 100));
    }
    ghost var q3 := query;
    if filters.maxPrice.Some? {
      query := query.And(PriceAtMost(filters.maxPrice.value * 100));
    }
    forall l
      ensures HoldsAll(query.conditions, l) <==> Matches(filters, l)
    {
      NarrowingsMatch(filters, q0, q1, q2, q3, query, l);
    }
  }

  /**
   * `queryFn`: runs the built query against the table; a remote error is thrown,
   * so no page comes back, otherwise the page is exactly `Page(store, filters, pageParam)`.
   */
  method QueryFn(store: seq<Listing>, filters: FeedFilters, pageParam: nat, remoteError: Option<string>)
    returns (r: Result<seq<Listing>, string>)
    ensures remoteError.Some? ==> r == Err(remoteError.value)
    ensures remoteError.None? ==> r == Ok(Page(store, filters, pageParam))
  {
    var query := BuildQuery(filters, pageParam);
    if remoteError.Some? {
      return Err(remoteError.value);
    }
    WhereAgrees(store, l => HoldsAll(query.conditions, l), l => Matches(filters, l));
    r := Ok(Run(query, store));
  }

  // ---------------------------------------------------------------------------
  // Pages

  /** `getNextPageParam`: no next page after a short page, otherwise the number of pages loaded. */
  function GetNextPageParam(lastPage: seq<Listing>, allPages: seq<seq<Listing>>): (next: Option<nat>)
    ensures next.None? <==> |lastPage| < ListingsPerPage
    ensures next.Some? ==> next.value == |allPages|
  {
    if |lastPage| < ListingsPerPage then None else Some(|allPages|)
  }

  /** The rows of all pages, in page order. */
  function Flatten(pages: seq<seq<Listing>>): seq<Listing> {
    if pages == [] then [] else Flatten(pages[..|pages| - 1]) + pages[|pages| - 1]
  }

  /** The first `k` pages for `f`, pages `0` through `k - 1`. */
  function FirstPages(store: seq<Listing>, f: FeedFilters, k: nat): (ps: seq<seq<Listing>>)
    ensures |ps| == k
  {
    seq(k, i requires 0 <= i < k => Page(store, f, i))
  }

  function Min(a: int, b: int): int {
    if a <= b then a else b
  }

  /** Page `p` holds rows `20p` to `20p + 19` of the matching rows, those that exist. */
  lemma PageIsSlice(store: seq<Listing>, f: FeedFilters, p: nat)
    ensures var m := Matching(store, f);
            Page(store, f, p) == m[Min(p * ListingsPerPage, |m|)..Min(p * ListingsPerPage + ListingsPerPage, |m|)]
    ensures |Page(store, f, p)| == Min(ListingsPerPage, |Matching(store, f)| - Min(p * ListingsPerPage, |Matching(store, f)|))
  {
  }

  /**
   * Every row of a page is in the table, active and matching the filters, and a
   * page is newest first; no page holds more than 20 rows.
   */
  lemma PageRows(store: seq<Listing>, f: FeedFilters, p: nat)
    ensures |Page(store, f, p)| <= ListingsPerPage
    ensures NewestFirst(Page(store, f, p))
    ensures forall x :: x in Page(store, f, p) ==> x in store && x.status == Active && Matches(f, x)
  {
    PageIsSlice(store, f, p);
    var m := Matching(store, f);
    var page := Page(store, f, p);
    forall x | x in page
      ensures x in store && Matches(f, x)
    {
      var j :| 0 <= j < |page| && page[j] == x;
      assert x in m;
    }
  }

  /** Consecutive slices of 20 rows of `m`, taken together, are the first `20 * |ps|` rows of `m` (or all of them). */
  lemma {:induction false} FlattenSlices(m: seq<Listing>, ps: seq<seq<Listing>>)
    requires forall i :: 0 <= i < |ps| ==> ps[i] == m[Min(i * ListingsPerPage, |m|)..Min(i * ListingsPerPage + ListingsPerPage, |m|)]
    ensures Flatten(ps) == m[..Min(|ps| * ListingsPerPage, |m|)]
  {
    if ps != [] {
      var k := |ps|;
      var a := Min((k - 1) * ListingsPerPage, |m|);
      var b := Min(k * ListingsPerPage, |m|);
      FlattenSlices(m, ps[..k - 1]);
      assert ps[k - 1] == m[a..b] by {
        assert (k - 1) * ListingsPerPage + ListingsPerPage == k * ListingsPerPage;
      }
      PrefixExtends(m, a, b);
    }
  }

  /** The first `k` pages, taken together, are the first `20k` matching rows (or all of them). */
  lemma FirstPagesArePrefix(store: seq<Listing>, f: FeedFilters, k: nat)
    ensures var m := Matching(store, f);
            Flatten(FirstPages(store, f, k)) == m[..Min(k * ListingsPerPage, |m|)]
  {
    var m := Matching(store, f);
    var ps := FirstPages(store, f, k);
    forall i | 0 <= i < |ps|
      ensures ps[i] == m[Min(i * ListingsPerPage, |m|)..Min(i * ListingsPerPage + ListingsPerPage, |m|)]
    {
      PageIsSlice(store, f, i);
    }
    FlattenSlices(m, ps);
  }

  /** A prefix followed by the slice after it is the longer prefix. */
  lemma PrefixExtends(m: seq<Listing>, a: nat, b: nat)
    requires a <= b <= |m|
    ensures m[..a] + m[a..b] == m[..b]
  {
  }

  /** Whether another page is asked for once `k` pages are loaded. */
  function NextAfter(store: seq<Listing>, f: FeedFilters, k: nat): Option<nat>
    requires k >= 1
  {
    GetNextPageParam(Page(store, f, k - 1), FirstPages(store, f, k))
  }

  /** With `k` pages loaded, page `k` is asked for exactly when all `k` pages were full. */
  lemma NextAfterIff(store: seq<Listing>, f: FeedFilters, k: nat)
    requires k >= 1
    ensures NextAfter(store, f, k) == if k * ListingsPerPage <= |Matching(store, f)| then Some(k) else None
  {
    PageIsSlice(store, f, k - 1);
  }

  /**
   * Loading page after page while `getNextPageParam` allows stops after exactly
   * `n / 20 + 1` pages for `n` matching rows, and by then every matching row
   * has been loaded, in order.
   */
  lemma LoadingStopsWithEverything(store: seq<Listing>, f: FeedFilters, k: nat)
    requires k >= 1
    requires forall j :: 1 <= j < k ==> NextAfter(store, f, j).Some?
    requires NextAfter(store, f, k).None?
    ensures k == |Matching(store, f)| / ListingsPerPage + 1
    ensures Flatten(FirstPages(store, f, k)) == Matching(store, f)
  {
    var n := |Matching(store, f)|;
    NextAfterIff(store, f, k);
    if k >= 2 {
      NextAfterIff(store, f, k - 1);
    }
    FirstPagesArePrefix(store, f, k);
  }

  /** 45 matching rows: pages of 20, 20 and 5 rows, and then no next page. */
  lemma FortyFiveRows(store: seq<Listing>, f: FeedFilters)
    requires |Matching(store, f)| == 45
    ensures |Page(store, f, 0)| == 20 && |Page(store, f, 1)| == 20 && |Page(store, f, 2)| == 5
    ensures NextAfter(store, f, 1) == Some(1) && NextAfter(store, f, 2) == Some(2)
    ensures NextAfter(store, f, 3).None?
  {
    PageIsSlice(store, f, 0);
    PageIsSlice(store, f, 1);
    PageIsSlice(store, f, 2);
  }

  // ---------------------------------------------------------------------------
  // Loaded pages

  /**
   * The pages the infinite query has loaded for one filter value (its query key):
   * `pageParams[i]` is the parameter page `i` was fetched with, and `pending`
   * the parameter of the fetch in flight.
   */
  class PageList {
    const filters: FeedFilters
    var pages: seq<seq<Listing>>
    var pageParams: seq<nat>
    var pending: Option<nat>
    var error: Option<string>

    /** Parameters run 0, 1, 2, ... with no gap and no repeat, and a fetch in flight asks for the next one. */
    ghost predicate Valid()
      reads this
    {
      |pageParams| == |pages| &&
      (forall i :: 0 <= i < |pages| ==> pageParams[i] == i) &&
      (pending.Some? ==> pending.value == |pages|)
    }

    /** The parameter `getNextPageParam` gives for the loaded pages; none before the first page. */
    function NextPageParam(): Option<nat>
      reads this
    {
      if pages == [] then None else GetNextPageParam(pages[|pages| - 1], pages)
    }

    predicate HasNextPage()
      reads this
    {
      NextPageParam().Some?
    }

    /** A fetch is in flight and it is not the first page's. */
    predicate IsFetchingNextPage()
      reads this
    {
      pending.Some? && pages != []
    }

    /** Mounting the query fetches page `initialPageParam` at once. */
    constructor (filters: FeedFilters)
      ensures Valid()
      ensures this.filters == filters
      ensures pages == [] && pageParams == [] && pending == Some(InitialPageParam) && error.None?
    {
      this.filters := filters;
      pages, pageParams := [], [];
      pending, error := Some(InitialPageParam), None;
    }

    /**
     * `fetchNextPage`: asks for page `pages.length` when `getNextPageParam` gives
     * one; a fetch already in flight for it is superseded by the new request.
     */
    method FetchNextPage() returns (requested: Option<nat>)
      requires Valid()
      modifies this`pending
      ensures Valid()
      ensures requested == old(NextPageParam())
      ensures requested.Some? ==> requested.value == |pages|
      ensures pending == if requested.Some? then requested else old(pending)
      ensures pages == old(pages) && pageParams == old(pageParams) && error == old(error)
    {
      requested := NextPageParam();
      if requested.Some? {
        pending := requested;
      }
    }

    /** The response to the fetch in flight: a page is appended under its parameter; an error appends nothing. */
    method Receive(response: Result<seq<Listing>, string>)
      requires Valid() && pending.Some?
      modifies this`pages, this`pageParams, this`error, this`pending
      ensures Valid() && pending.None?
      ensures response.Ok? ==>
        pages == old(pages) + [response.value] && pageParams == old(pageParams) + [old(pending).value] && error.None?
      ensures response.Err? ==>
        pages == old(pages) && pageParams == old(pageParams) && error == Some(response.error)
    {
      if response.Ok? {
        pages := pages + [response.value];
        pageParams := pageParams + [pending.value];
        error := None;
      } else {
        error := Some(response.error);
      }
      pending := None;
    }

    /**
     * The fetch in flight runs `queryFn` for its parameter against `store` and
     * its answer is received. Pages fetched this way from the same table are
     * always pages `0` through `k - 1` of the feed.
     */
    method Fetch(store: seq<Listing>, remoteError: Option<string>)
      requires Valid() && pending.Some?
      modifies this`pages, this`pageParams, this`error, this`pending
      ensures Valid() && pending.None?
      ensures remoteError.None? ==> pages == old(pages) + [Page(store, filters, old(|pages|))] && error.None?
      ensures old(pages) == FirstPages(store, filters, old(|pages|)) ==> pages == FirstPages(store, filters, |pages|)
      ensures remoteError.Some? ==> pages == old(pages) && error == remoteError
    {
      var k := |pages|;
      var response := QueryFn(store, filters, pending.value, remoteError);
      Receive(response);
      if remoteError.None? && old(pages) == FirstPages(store, filters, k) {
        assert pages == FirstPages(store, filters, k) + [Page(store, filters, k)];
        assert pages == FirstPages(store, filters, k + 1);
      }
    }
  }
}
