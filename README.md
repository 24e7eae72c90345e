# Kyklos closet circle: feed, likes, player and listing capture in Dafny

Kyklos is a second-hand clothing marketplace. This project models the
client-side decision logic of its web application:

- the **infinite feed**. The query hook fetches active listings 20 at a
  time, newest first. It filters by a trimmed, case-insensitive title search,
  a category with an `'all'` sentinel, and inclusive price bounds in euros
  compared against prices in cents. A short page means there is no next page.
- the **filter panel's** one-field record update.
- the **scroll trigger**. An observed sentinel requests the next page, and it
  shows either a loading line or an end-of-list line.
- the **like toggle**. A logged-out user is rejected. Otherwise the toggle
  deletes the like or inserts one. Only when that succeeds are the cached
  status and count updated, with the count clamped at 0.
- the **listing card**: the price text, the likes badge and the heart button.
- the **visibility tracker** and the **video player** it drives. Play is an
  oracle that resolves or is rejected.
- the **listing form's** validation schema and its submit rule.
- the **video recorder**: a 3-tick countdown, then a recording that a
  15-tick timer stops.

The modules follow the source files:

| module | file |
|---|---|
| `Wrappers` | `Option` and `Result` |
| `Text` | trimming, ASCII lower-casing, substring search, decimal digits |
| `FeedPages` | `src/hooks/useFeedListings.ts` |
| `Filters` | `src/components/feed/FeedFilters.tsx` |
| `Scroll` | `src/components/feed/InfiniteScroll.tsx` |
| `Likes` | `src/hooks/useListingLikes.ts` |
| `Card` | `src/components/feed/ListingCard.tsx` |
| `Visibility` | `src/components/feed/VisibilityTracker.tsx` |
| `Player` | `src/components/feed/VideoPlayer.tsx` |
| `SellForm` | `src/components/sell/ListingForm.tsx` |
| `Recorder` | `src/components/sell/VideoRecorder.tsx` |
| `Feed` | how the parts are wired together |

The feed page that would wire the parts is a stub (`src/pages/Feed.tsx`), so
`Feed` composes them the way their props call for.

Mutable component state is modelled as classes. Each class has a `Valid()`
invariant, and its methods say what the new state is. Pure code is modelled
as functions, with lemmas relating each function to a partner: an inverse, a
reference definition, or an invariant.

**Three behaviours of the code:**

- Filter edits are emitted on every keystroke. There is no debounce.
- The like toggle is not optimistic. The cache is written only in the success
  handler, and nothing changes on failure. There is no rollback, because
  nothing was written early.
- There is no discarding of stale page results and no de-duplication of rows.
  Pages are keyed by the filter value, and a filter change starts a new page
  list.

## Model

| member | source | states |
|---|---|---|
| Text.TrimStartKeepsSuffix | src/hooks/useFeedListings.ts:29-30 | dropping leading whitespace keeps a suffix; everything cut is whitespace and the result does not start with whitespace |
| Text.TrimEndKeepsPrefix | src/hooks/useFeedListings.ts:29-30 | dropping trailing whitespace keeps a prefix; everything cut is whitespace and the result does not end with whitespace |
| Text.TrimIsSlice | src/hooks/useFeedListings.ts:29-30 | the trimmed search is a contiguous slice of the input; only whitespace was cut from either side; the result is empty or has non-whitespace ends |
| Text.TrimEmptyIff | src/hooks/useFeedListings.ts:29 | the trimmed search is empty exactly when the input is all whitespace, so such a search applies no title filter |
| Text.ContainsOccurs | src/hooks/useFeedListings.ts:30 | whatever the scan finds occurs in the title at some position |
| Text.OccursContains | src/hooks/useFeedListings.ts:30 | an occurrence of the needle at any position is found by the scan |
| Text.ContainsIff | src/hooks/useFeedListings.ts:30 | the substring test holds exactly when the needle occurs at some position of the title (one direction per helper lemma, `ContainsOccurs` and `OccursContains`) |
| Text.DecimalDigitsRoundTrip | src/components/feed/ListingCard.tsx:63 | the decimal text of a count reads back as that count |
| FeedPages.Where | src/hooks/useFeedListings.ts:24-44 | the selected rows are exactly the rows of the table that satisfy the filter |
| FeedPages.SortNewestFirst | src/hooks/useFeedListings.ts:25 | ordering by `created_at` descending yields a newest-first permutation of the rows |
| FeedPages.Range | src/hooks/useFeedListings.ts:26 | an inclusive range `from..to` yields at most `to - from + 1` rows |
| FeedPages.Query.And | src/hooks/useFeedListings.ts:30-43 | adding a filter keeps the requested range and appends exactly that condition |
| FeedPages.HoldsAllIff | src/hooks/useFeedListings.ts:21-44 | a row passes the chained conditions exactly when it passes each of them |
| FeedPages.AndHolds | src/hooks/useFeedListings.ts:21-44 | a row satisfies the extended query iff it satisfies the old conditions and the added one |
| FeedPages.NarrowingsMatch | src/hooks/useFeedListings.ts:28-44 | the status condition followed by the optional search, category, minimum and maximum narrowings admits exactly the rows the filters mean |
| FeedPages.BuildQuery | src/hooks/useFeedListings.ts:21-44 | page `p` asks for rows `20p..20p+19`; a row passes the built conditions iff it is active, its title contains the trimmed search ignoring case (or the search is blank), its category equals a category other than `''`/`'all'`, and its cents lie within the bounds × 100 |
| FeedPages.QueryFn | src/hooks/useFeedListings.ts:18-55 | a remote error is thrown, so no page is produced; otherwise the result is page `p` of the matching rows, newest first |
| FeedPages.GetNextPageParam | src/hooks/useFeedListings.ts:56-61 | no next page iff the last page has fewer than 20 rows; otherwise the next parameter is the number of pages loaded |
| FeedPages.PageIsSlice | src/hooks/useFeedListings.ts:26 | page `p` holds `min(20, n - 20p)` rows (none past the end), taken from row `min(20p, n)` of the matching rows |
| FeedPages.PageRows | src/hooks/useFeedListings.ts:24-26 | a page has at most 20 rows, newest first, each an active matching row of the table |
| FeedPages.FlattenSlices | src/hooks/useFeedListings.ts:26 | consecutive 20-row slices of a sequence, concatenated, are its prefix of `20k` rows (or all of it) |
| FeedPages.FirstPagesArePrefix | src/hooks/useFeedListings.ts:26 | pages `0..k-1` concatenated are the first `min(20k, n)` matching rows, so pages are contiguous and disjoint |
| FeedPages.NextAfterIff | src/hooks/useFeedListings.ts:56-61 | after `k` pages, page `k` is asked for iff `20k <= n` |
| FeedPages.LoadingStopsWithEverything | src/hooks/useFeedListings.ts:56-62 | loading while a next page exists stops after exactly `n/20 + 1` pages, which hold every matching row |
| FeedPages.FortyFiveRows | src/hooks/useFeedListings.ts:57-58 | 45 matching rows give pages of 20, 20 and 5, then no next page |
| FeedPages.PageList.constructor | src/hooks/useFeedListings.ts:62 | the first fetch asks for page 0, with nothing loaded |
| FeedPages.PageList.FetchNextPage | src/hooks/useFeedListings.ts:56-62 | the page requested is the one `getNextPageParam` gives, which is the number of pages loaded; only the pending fetch changes |
| FeedPages.PageList.Receive | src/hooks/useFeedListings.ts:46-54 | a page is appended under its parameter; an error appends nothing and is recorded; parameters stay 0, 1, 2, …; the filters never change |
| FeedPages.PageList.Fetch | src/hooks/useFeedListings.ts:17-62 | a successful fetch appends exactly page `k` of the feed (the page `queryFn` returns for parameter `k`, `k` pages being loaded); a failed one keeps the pages and records the error; pages fetched from one table stay exactly pages `0..k-1`; only the pages, their parameters, the error and the pending fetch change |
| Filters.HandleFilterChange | src/components/feed/FeedFilters.tsx:40-45 | the emitted record has field `key` set to the value and the other three fields unchanged |
| Filters.FieldsDetermineRecord | src/components/feed/FeedFilters.tsx:9-14 | a filter record is determined by its four fields |
| Filters.ChangeIsIdempotent | src/components/feed/FeedFilters.tsx:40-44 | the same edit made twice gives the record one edit gives |
| Filters.ChangeToCurrentValueIsIdentity | src/components/feed/FeedFilters.tsx:40-44 | re-entering a field's current value emits an equal record |
| Filters.ChangesOfDifferentFieldsCommute | src/components/feed/FeedFilters.tsx:40-44 | edits of different fields give the same record in either order |
| Filters.CategoryValuesDistinct | src/components/feed/FeedFilters.tsx:23-32 | category values are pairwise distinct and `'all'` is the first |
| Filters.SelectCategory | src/components/feed/FeedFilters.tsx:81-93 | picking a category entry stores its value and leaves the other fields alone |
| Scroll.SentinelContent | src/components/feed/InfiniteScroll.tsx:46-58 | the loading line shows iff a next page is being fetched; the end line shows iff there is no next page and none is being fetched; never both |
| Scroll.Render | src/components/feed/InfiniteScroll.tsx:41-60 | every child in order, then the sentinel, whatever the flags |
| Scroll.InfiniteScroll.constructor | src/components/feed/InfiniteScroll.tsx:20-34 | on mount an observer is attached iff there is a next page and none is being fetched |
| Scroll.InfiniteScroll.Rerender | src/components/feed/InfiniteScroll.tsx:20-39 | after new props the observer is attached iff there is a next page and none is being fetched |
| Scroll.InfiniteScroll.OnSentinelEntry | src/components/feed/InfiniteScroll.tsx:24-29 | `fetchNextPage` is called iff an observer is attached and the entry intersects, so never without a next page or during a fetch |
| Scroll.InfiniteScroll.Unmount | src/components/feed/InfiniteScroll.tsx:36-38 | unmounting detaches the observer |
| Likes.LikeStatus | src/hooks/useListingLikes.ts:12-32 | liked iff a user is logged in and a like row of theirs was found; `false` without a user or on a query error |
| Likes.LikesCount | src/hooks/useListingLikes.ts:35-50 | the exact count, and 0 for a `null` count or a query error |
| Likes.MutationFn | src/hooks/useListingLikes.ts:54-81 | without a user it fails with "Must be logged in to like items" and issues no write; otherwise it deletes when liked and inserts when not, and yields `!isLiked` unless the write fails |
| Likes.CountAfterNeverNegative | src/hooks/useListingLikes.ts:87-89 | the stored count goes up by one after a like, down by one after an unlike, stops at 0, and never becomes negative |
| Likes.ToggleKeepsCacheInStep | src/hooks/useListingLikes.ts:59-89 | when the cache agreed with the likes table, a successful toggle leaves status and count agreeing with the table after its write |
| Likes.LikeCache.constructor | src/hooks/useListingLikes.ts:12-50 | the hook starts with the two queries' answers and no toggle pending |
| Likes.LikeCache.Mutate | src/hooks/useListingLikes.ts:53-81 | starting the toggle makes it pending (`isToggling`), reports the write it issues, and changes no cached value |
| Likes.LikeCache.Settle | src/hooks/useListingLikes.ts:82-100 | on success the status becomes the result and the count moves by one, clamped at 0; on failure only an error toast is raised; the count stays non-negative |
| Card.AmountRoundTrip | src/components/feed/ListingCard.tsx:28-30 | the euros-and-two-decimals text of a whole number of cents reads back as that number |
| Card.FormatPriceRoundTrip | src/components/feed/ListingCard.tsx:28-30 | the price text determines the price: reading `€` plus euros with two decimals back gives the cents |
| Card.FormatPriceExamples | src/components/feed/ListingCard.tsx:28-30 | 2500 cents is `€25.00`, 1005 is `€10.05`, 99 is `€0.99` |
| Card.LikesBadge | src/components/feed/ListingCard.tsx:61-65 | the badge shows iff the count is positive |
| Card.LikesBadgeText | src/components/feed/ListingCard.tsx:61-65 | the badge reads back as the count, followed by `like` exactly when the count is 1 and `likes` otherwise |
| Card.Heart | src/components/feed/ListingCard.tsx:49-58 | the heart is filled and red iff liked, and disabled iff a toggle is pending |
| Card.ListingCard.HandleLikeClick | src/components/feed/ListingCard.tsx:23-26 | an enabled heart starts the toggle, a disabled one does nothing; the click never reaches the card; no cached value and no error toast count changes; only the pending flag may change |
| Card.ListingCard.ClickCard | src/components/feed/ListingCard.tsx:33-35 | a click elsewhere on the card reaches `onCardClick` once |
| Card.ListingCard.SetVisible | src/components/feed/ListingCard.tsx:38-43 | `isVisible` reaches the player unchanged; a change to visible plays when `play()` resolves, a change to hidden pauses, no change leaves playback as it was; the controls are untouched |
| Visibility.VisibilityTracker.constructor | src/components/feed/VisibilityTracker.tsx:9-27 | the threshold defaults to 0.5; `isVisible` starts `false`; the element is observed |
| Visibility.VisibilityTracker.OnEntry | src/components/feed/VisibilityTracker.tsx:20-23 | each callback sets `isVisible` to its `isIntersecting`, so the last callback wins |
| Visibility.VisibilityTracker.SetThreshold | src/components/feed/VisibilityTracker.tsx:16-32 | a new threshold re-attaches the observer and keeps `isVisible` |
| Visibility.VisibilityTracker.Unmount | src/components/feed/VisibilityTracker.tsx:29-31 | unmounting detaches the observer |
| Visibility.VisibilityTracker.RenderChildren | src/components/feed/VisibilityTracker.tsx:34-38 | the children receive the last callback's `isIntersecting`, or `false` before any |
| Player.VideoPlayer.VisibilityEffect | src/components/feed/VideoPlayer.tsx:22-37 | visible: `isPlaying` becomes whether play resolved; invisible: paused and `false`; without an element nothing changes |
| Player.VideoPlayer.constructor | src/components/feed/VideoPlayer.tsx:18-37 | on mount the player is paused and without controls, and the effect runs once |
| Player.VideoPlayer.SetVisible | src/components/feed/VideoPlayer.tsx:22-37 | the effect runs only when `isVisible` changed: becoming visible plays iff `play()` resolves, becoming hidden pauses; `isPlaying` always mirrors the element and the controls are untouched |
| Player.VideoPlayer.TogglePlayPause | src/components/feed/VideoPlayer.tsx:39-53 | playing: pause and `false`; paused: `true` iff play resolves, otherwise it stays `false`; `isVisible` and the controls never change |
| Player.VideoPlayer.ClickOverlay | src/components/feed/VideoPlayer.tsx:73-77 | the overlay toggles playback only while it is shown: playing pauses, paused plays iff `play()` resolves; `isVisible` and the controls never change |
| Player.VideoPlayer.OnPlayEvent | src/components/feed/VideoPlayer.tsx:69 | the element's `play` event sets `isPlaying` |
| Player.VideoPlayer.OnPauseEvent | src/components/feed/VideoPlayer.tsx:70 | the element's `pause` event clears `isPlaying` |
| Player.VideoPlayer.MouseEnter | src/components/feed/VideoPlayer.tsx:58 | entering the player shows the controls |
| Player.VideoPlayer.MouseLeave | src/components/feed/VideoPlayer.tsx:59 | leaving the player hides the controls |
| Player.VideoPlayer.Overlay | src/components/feed/VideoPlayer.tsx:73-84 | the overlay exists iff the controls show, and shows Pause iff playing |
| SellForm.TitleError | src/components/sell/ListingForm.tsx:14 | no title error iff the title has 3 to 100 characters |
| SellForm.PriceError | src/components/sell/ListingForm.tsx:15 | no price error iff the price is a number from 1 to 1000 |
| SellForm.ChoiceError | src/components/sell/ListingForm.tsx:16-17 | no category or size error iff a non-empty value is chosen |
| SellForm.Validate | src/components/sell/ListingForm.tsx:13-18 | there are no errors iff the schema accepts the values, field by field |
| SellForm.TitleBounds | src/components/sell/ListingForm.tsx:14 | "at least 3 characters" iff shorter than 3; "Title too long" iff longer than 100 |
| SellForm.PriceBounds | src/components/sell/ListingForm.tsx:15 | a number is accepted iff 1 ≤ price ≤ 1000; NaN is never accepted |
| SellForm.Parse | src/components/sell/ListingForm.tsx:13-18 | the data comes out iff the schema accepts the values; otherwise the errors of every field |
| SellForm.ParsedDataIsUnchanged | src/components/sell/ListingForm.tsx:61-63 | accepted values reach `onSubmit` unchanged |
| SellForm.FillThenParse | src/components/sell/ListingForm.tsx:13-18 | data within the schema passes through the form and comes out as it went in |
| SellForm.ChoiceLists | src/components/sell/ListingForm.tsx:27-44 | ten categories and sixteen sizes, none empty, none repeated |
| SellForm.SelectCategory | src/components/sell/ListingForm.tsx:108-121 | choosing a listed category sets only that field, and the field then validates |
| SellForm.SelectSize | src/components/sell/ListingForm.tsx:131-144 | choosing a listed size sets only that field, and the field then validates |
| SellForm.SubmitEnabledIff | src/components/sell/ListingForm.tsx:154 | the submit button is enabled iff the values are valid and nothing is being submitted |
| SellForm.SubmitButton | src/components/sell/ListingForm.tsx:158-165 | the caption is "Creating Listing..." with a spinner iff submitting, otherwise "Create Listing" |
| SellForm.Submit | src/components/sell/ListingForm.tsx:61-69 | a press sends data iff the schema accepts the values and nothing is being submitted, and the data sent is the values |
| Recorder.CountsDown | src/components/sell/VideoRecorder.tsx:117-132 | a counter started at `n` reads `n - k` after `k < n` ticks and has not fired |
| Recorder.FiresOnTick | src/components/sell/VideoRecorder.tsx:78-134 | a counter started at `n ≥ 1` fires on tick `n` exactly, not before, and then holds the fired value |
| Recorder.CountdownStartsRecordingOnThirdTick | src/components/sell/VideoRecorder.tsx:77-84 | the countdown reads 3, 2, 1; recording starts on the third tick and the countdown becomes `null` |
| Recorder.TimerStopsOnFifteenthTick | src/components/sell/VideoRecorder.tsx:114-128 | the recording timer fires on its fifteenth tick and not before, leaving `timeLeft` at 0 |
| Recorder.StrayTimerNeverFires | src/components/sell/VideoRecorder.tsx:117-128 | a timer whose counter is `null` or not positive never fires, counts on below zero, and is never cleared |
| Recorder.NonEmptyKeepsExactly | src/components/sell/VideoRecorder.tsx:91-95 | the kept chunks are exactly the non-empty delivered ones, never more than were delivered |
| Recorder.NonEmptyAppend | src/components/sell/VideoRecorder.tsx:91-95 | a new chunk is kept, at the end, exactly when it is not empty |
| Recorder.VideoRecorder.StartCamera | src/components/sell/VideoRecorder.tsx:22-45 | a granted camera sets the stream; a refused one raises an error toast |
| Recorder.VideoRecorder.constructor | src/components/sell/VideoRecorder.tsx:151-156 | mounting is idle and requests the camera |
| Recorder.VideoRecorder.StartRecording | src/components/sell/VideoRecorder.tsx:70-78 | without a stream only the camera is requested (a refusal adds one toast); with one the countdown starts at 3 and the stream and toasts are kept; nothing but the stream, toasts and countdown changes |
| Recorder.VideoRecorder.CountdownTick | src/components/sell/VideoRecorder.tsx:78-134 | at 1: the countdown clears itself, chunks reset, recording starts with `timeLeft` 15 and one more timer; otherwise it counts down by one and `timeLeft`, the timers, recorder and chunks are unchanged; the stream, video, toasts and stop flag never change |
| Recorder.VideoRecorder.RecordingTick | src/components/sell/VideoRecorder.tsx:117-128 | at 1: the timer clears itself, stops a recording recorder and leaves 0; otherwise `timeLeft` counts down by one and the timers, recorder and stop flag are unchanged; a recording is stopped by its fifteenth tick; the recorded video, stream, chunks and countdown never change |
| Recorder.VideoRecorder.OnDataAvailable | src/components/sell/VideoRecorder.tsx:91-95 | a non-empty chunk is appended, an empty one dropped; nothing else changes |
| Recorder.VideoRecorder.OnRecorderStop | src/components/sell/VideoRecorder.tsx:97-110 | the recorded video is the non-empty chunks in arrival order; `isRecording` becomes false and `timeLeft` `null`; the chunks, recorder, timers, countdown and stream are unchanged |
| Recorder.VideoRecorder.StopRecording | src/components/sell/VideoRecorder.tsx:137-141 | stops the recorder only if it is recording; the timer is left running and nothing else changes (no control of the rendered component calls `stopRecording`) |
| Recorder.VideoRecorder.ResetRecording | src/components/sell/VideoRecorder.tsx:143-149 | the recorded video, `isRecording`, countdown and `timeLeft` are cleared, the record button is enabled, and the camera is requested (a grant sets the stream, a refusal adds one toast); the chunks, recorder and timers are unchanged |
| Feed.ShortLastPageMeansEverything | src/hooks/useFeedListings.ts:56-61 | once no next page exists after `k ≥ 1` pages, they hold every matching row |
| Feed.FeedSession.constructor | src/hooks/useFeedListings.ts:15-18 | the feed starts with page 0 requested and no observer |
| Feed.FeedSession.Render | src/components/feed/InfiniteScroll.tsx:20-39 | the trigger observes iff the query has a next page and is not fetching one |
| Feed.FeedSession.SentinelIntersects | src/components/feed/InfiniteScroll.tsx:22-29 | a page is requested iff the trigger was observing; the page requested is the number of pages loaded, and observing stops while it is fetched; when none is requested the pending fetch is unchanged; pages and error never change |
| Feed.FeedSession.Deliver | src/hooks/useFeedListings.ts:18-55 | a fetched page is appended, and it is exactly the next page of the feed; an error appends nothing and is recorded; the loaded pages stay the feed's first pages |
| Feed.FeedSession.ChangeFilters | src/hooks/useFeedListings.ts:16-17 | new filters start a new page list from page 0 that holds no page of the old filters |
| Feed.FeedSession.Sentinel | src/components/feed/InfiniteScroll.tsx:53-57 | once the end line shows after some page loaded, every matching row is loaded; with nothing loaded the end line shows |
| Feed.FeedItem.OnEntry | src/components/feed/VisibilityTracker.tsx:20-36 | an intersection callback reaches the card's player as its `isVisible`: scrolling into view plays when `play()` resolves, scrolling out pauses, no change of visibility leaves playback as it was; the controls are untouched |

## Left out

- Network and storage are parameters. The likes table's reply, the listings
  query's rows or error, the camera grant, and the `play()` outcome are all
  inputs. Upload, the listing insert and payments are not part of this model.
- Query-cache internals are not modelled: retries, `staleTime`, cache
  retention, refetching, and what happens to a fetch that was superseded.
  `FeedPages.PageList` keeps one fetch in flight, and a new request replaces it.
- `Feed.FeedSession.ChangeFilters` always starts a new page list. It does not
  model that a cache entry kept for an earlier filter value would be shown
  again.
- Raw filter strings (`FilterValues`) become the numeric `FeedFilters` only in
  the missing feed page. That conversion is not part of this model.
- Floating point is not modelled. Prices are integer cents, and filter bounds
  are whole euros multiplied by 100.
- `Card.FormatPriceRoundTrip` is stated for integer cents. It does not model
  `toFixed` on very large prices: `priceInCents / 100` is rounded to a double
  first, so from about 7·10^15 cents the text can differ from the exact
  cents. Nor does it model the exponent form from 10^21.
- The form's price is a `real`, and NaN is `None`.
- The intersection thresholds are kept as values only.
- Search uses a plain substring match. In the source, `%` and `_` in the
  search text are ILIKE wildcards, `\` is ILIKE's escape character, and the
  PostgREST API turns `*` in an `ilike` value into `%`.
- Case is folded for ASCII letters only.
- `SellForm.TitleError` counts characters, where the JavaScript `length`
  counts UTF-16 code units.
- `Likes.LikeCache.Mutate` requires that no toggle is pending. Its only caller
  is the heart button, which is disabled while one is, so a concurrent second
  mutation is not modelled.
- `Likes.LikeCache.constructor` starts from both queries already answered.
  Toggling before the count loads is not modelled: the `undefined + 1` of the
  source is not captured.
- `FeedPages.Range` states only a bound on the number of rows. `PageIsSlice`
  states which rows.
- The recorder's `MediaRecorder` is reduced to its state and its chunks.
  Blobs, object URLs, the thumbnail canvas and `onVideoRecorded`'s thumbnail
  argument are not modelled. Stopping the camera on unmount is not modelled.
- The `fetchNextPage` dependency of the scroll trigger's effect is treated as
  stable. The effect re-runs on changes of the two flags only.
- Console logging is not modelled.
- `FeedPages.FirstPagesArePrefix`, `FeedPages.PageList.Fetch`,
  `FeedPages.LoadingStopsWithEverything`, `Feed.ShortLastPageMeansEverything`
  and `Feed.FeedSession.Sentinel` assume one fixed table for the whole
  session (`Feed.FeedSession.store`) and one fixed order among rows with equal
  `created_at`. The source pages by offset against a live table. A row
  inserted, or marked sold, between two fetches shifts the offsets, so a row
  can appear on two pages or on none. The database also does not promise the
  same order of rows with equal `created_at` across separate queries.
- `Recorder.VideoRecorder.StopRecording` models `stopRecording`, which no
  control of the rendered component calls: while recording, the record button
  reads "Stop" but is disabled and wired to `startRecording`.
