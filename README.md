# Pitchwave swipe feed, modelled in Dafny

Pitchwave is a swipe-based feed of startup pitch videos. This project models
its two pieces of interaction logic:

- **The card's swipe gesture** (`VideoCard`). A card keeps four state fields:
  `swiping`, `startX`, `offsetX` and `swipeDirection`. Touch start and mouse
  down begin a gesture. Moves set the offset from the start position and show
  a direction once the offset passes ±50. Touch end, mouse up and mouse leave
  release the gesture. If the offset is larger than `SWIPE_THRESHOLD` (100)
  in absolute value, the release reports a left or right decision for the
  card's pitch through `onSwipe`. A release always resets the card to neutral.
- **The feed** (`VideoFeed`). Loading copies the mock pitch list, keeps the
  pitches of the selected category, and sorts them newest first. The category
  buttons list each category once, in order of first appearance. The integer
  cursor `currentIndex` picks the active pitch. A committed swipe or the next
  arrow moves it forward under a bounds guard. `handlePrevious` would move it
  back, but no control in the rendered feed calls it.

Files:

- `wrappers.dfy`: `Option`.
- `types.dfy`: `PitchVideo` and `SwipeDirection` (src/types/index.ts).
- `video_card.dfy`, module `Card`. It holds the classifier and the resolver.
  The handlers are functions on a `GestureState` value, with the invariant of
  reachable states and event sequences. The `VideoCard` class has the four
  fields, and its six handlers are proved to follow those functions.
- `video_feed.dfy`, module `Feed`. It holds the mock data, the
  filter/sort/load pipeline and the category list. The feed handlers are
  functions on a `FeedState` value. The `VideoFeed` class has the state
  fields and the handlers as methods.

Behaviour of the code that a reader might not expect, and which the model
keeps:

- When the list is replaced, one would expect the cursor to go back to the
  first pitch. The code never resets `currentIndex` (see Findings).
- The code tests `if (activeCategory)`, and the empty string is falsy. So
  `Some("")` loads the unfiltered list rather than filtering by `""`
  (`Feed.Filters`, `Feed.EmptyCategoryDoesNotFilter`).
- The fetch effect depends on `activeCategory`. Selecting the category that is
  already selected therefore starts no fetch (`Feed.SelectCategory`).
- A release does not reset `startX`. Only `swiping`, `offsetX` and
  `swipeDirection` go back to neutral.
- While loading, only the spinner is rendered, so no card is active whatever
  the cursor is (`Feed.ActiveVideo`).

Timestamps are the millisecond values of `Date.getTime()`. The mock dates
are parsed as midnight UTC.

## Model

| member | source | states |
|---|---|---|
| `Card.Classify` | src/components/VideoCard.tsx:47-54 | the direction is right iff the offset is > 50, left iff it is < -50, none iff abs(offset) <= 50 |
| `Card.Resolve` | src/components/VideoCard.tsx:58-60 | a release reports a decision iff abs(offset) > 100; the decision is never none, is right iff the offset is positive, left iff negative, and carries the card's id |
| `Card.Press` | src/components/VideoCard.tsx:36-39 | a press starts tracking at x and leaves the offset and direction as they were |
| `Card.Move` | src/components/VideoCard.tsx:41-55 | a move while not swiping changes nothing; otherwise offset = x - startX, the direction is the offset's classification, start position unchanged |
| `Card.Release` | src/components/VideoCard.tsx:70-73 | a release leaves swiping false, offset 0, direction none, and keeps startX |
| `Card.Step` | src/components/VideoCard.tsx:128-134 | the event bindings: each event makes at most one `onSwipe` call, with the card's id and a left or right direction; a press or a move makes none; a release resets the card and calls iff abs(offset) > 100; mouse leave behaves exactly as mouse up |
| `Card.Calls` | src/components/VideoCard.tsx:58-60 | `onSwipe` is called once, with the decision, when a decision is made, and not at all otherwise |
| `Card.IdleConsistent` | src/components/VideoCard.tsx:15-18 | the initial card state satisfies the invariant and a release from it reports nothing |
| `Card.StepsPreserveConsistent` | src/components/VideoCard.tsx:36-73 | press, move and release keep the invariant: the shown direction classifies the offset, and there is no offset while not swiping |
| `Card.MoveWhileIdleIsNoOp` | src/components/VideoCard.tsx:42 | a move while not swiping leaves the state unchanged |
| `Card.CommitMatchesShownDirection` | src/components/VideoCard.tsx:48-59 | when a release commits, the direction shown last equals the committed one and a gesture was in progress |
| `Card.SecondReleaseReportsNothing` | src/components/VideoCard.tsx:97-114 | a release right after a release (mouse leave after mouse up) reports nothing and changes nothing |
| `Card.IdleReleaseReportsNothing` | src/components/VideoCard.tsx:134 | releasing (or leaving the card) with no gesture in progress reports nothing |
| `Card.TouchAndMouseAgree` | src/components/VideoCard.tsx:36-114 | replacing every touch event by its mouse counterpart gives the same final state and the same `onSwipe` calls |
| `Card.RunPreservesConsistent` | src/components/VideoCard.tsx:128-134 | every state reached by any sequence of bound events satisfies the invariant |
| `Card.AtMostOneCallPerPress` | src/components/VideoCard.tsx:57-74 | over any event sequence, `onSwipe` is called at most once per press (plus one for a gesture already in progress), always with the card's id |
| `Card.DragThenRelease` | src/components/VideoCard.tsx:36-74 | press at x0, move to x1, release reports exactly the resolution of x1 - x0 and leaves the card neutral |
| `Card.VideoCard.constructor` | src/components/VideoCard.tsx:15-18 | a new card is in the initial state |
| `Card.VideoCard.HandleTouchStart` | src/components/VideoCard.tsx:36-39 | sets startX and swiping; the new state is `Press` of the old |
| `Card.VideoCard.HandleTouchMove` | src/components/VideoCard.tsx:41-55 | no change while not swiping; otherwise offset and direction as `Move` |
| `Card.VideoCard.HandleTouchEnd` | src/components/VideoCard.tsx:57-74 | returns the decision iff abs(old offset) > 100, right iff positive, equal to the direction shown, with the card's id; resets to neutral |
| `Card.VideoCard.HandleMouseDown` | src/components/VideoCard.tsx:77-80 | the same transition as touch start |
| `Card.VideoCard.HandleMouseMove` | src/components/VideoCard.tsx:82-95 | the same transition as touch move |
| `Card.VideoCard.HandleMouseUp` | src/components/VideoCard.tsx:97-114 | the same decision and reset as touch end |
| `Feed.Filters` | src/components/VideoFeed.tsx:102 | the truthiness test of the selected category; its consequences are stated by `Feed.LoadFeed` (filtered iff it holds) and `Feed.EmptyCategoryDoesNotFilter` |
| `Feed.OfCategory` | src/components/VideoFeed.tsx:102-104 | filtering never adds pitches: the result is no longer than the input and holds only input pitches of the category |
| `Feed.OfCategoryExactly` | src/components/VideoFeed.tsx:102-104 | the filter keeps each pitch of the category exactly as often as it occurs, and nothing else |
| `Feed.SortNewestFirst` | src/components/VideoFeed.tsx:107 | the sort keeps the length of its input; its order, permutation and stability are stated by `Feed.SortIsSortedPermutation`, `Feed.SortIsStable` and `Feed.StableSortIsUnique` |
| `Feed.SortIsSortedPermutation` | src/components/VideoFeed.tsx:107 | the sort returns a permutation of its input ordered by createdAt, non-increasing |
| `Feed.OfCategoryCommutesWithSort` | src/components/VideoFeed.tsx:99-107 | filtering the sorted list by a category equals sorting the filtered list |
| `Feed.SortIsStable` | src/components/VideoFeed.tsx:107 | the sort is stable: the pitches created at any one time keep their input order |
| `Feed.StableSortIsUnique` | src/components/VideoFeed.tsx:107 | any newest-first order that keeps same-time pitches in input order is the sort's result, so this sort and a stable JavaScript sort agree |
| `Feed.LoadFeed` | src/components/VideoFeed.tsx:99-109 | the loaded list is sorted newest first; unfiltered it is a permutation of the source list, filtered it holds exactly the source pitches of the category; it only holds source pitches |
| `Feed.Load` | src/components/VideoFeed.tsx:99-109 | every loaded pitch is one of the mock pitches and, when filtered, has the selected category; the list is newest first |
| `Feed.LoadFeedOfCategory` | src/components/VideoFeed.tsx:102-104 | every loaded pitch has the selected non-empty category |
| `Feed.LoadFeedIsSliceOfFullFeed` | src/components/VideoFeed.tsx:99-107 | loading a category gives that category's pitches in the order of the unfiltered feed |
| `Feed.EmptyCategoryDoesNotFilter` | src/components/VideoFeed.tsx:102 | selecting the empty string loads the unfiltered list |
| `Feed.MockFeedOrder` | src/components/VideoFeed.tsx:9-80 | the unfiltered mock feed is pitches 5, 4, 3, 2, 1 |
| `Feed.Distinct` | src/components/VideoFeed.tsx:151 | `Array.from(new Set(...))`; what it returns is stated by `Feed.DistinctElements` |
| `Feed.DistinctElements` | src/components/VideoFeed.tsx:151 | the deduplicated list has no duplicates, holds exactly the input's elements, in order of first appearance |
| `Feed.Categories` | src/components/VideoFeed.tsx:151 | the categories have no duplicates, and a category is listed iff some pitch has it |
| `Feed.CategoriesInFirstAppearanceOrder` | src/components/VideoFeed.tsx:151 | categories are listed in the order their first pitch appears |
| `Feed.MockCategories` | src/components/VideoFeed.tsx:151 | the mock categories are CleanTech, HealthTech, FoodTech, Logistics, DevTools |
| `Feed.SelectCategory` | src/components/VideoFeed.tsx:91-114 | selecting sets the category and keeps list and cursor; the spinner starts iff the selection changes |
| `Feed.FinishFetch` | src/components/VideoFeed.tsx:109-110 | a completed fetch stores the loaded list and stops loading, and keeps the cursor |
| `Feed.Swipe` | src/components/VideoFeed.tsx:117-135 | the cursor advances by exactly 1 iff currentIndex < length - 1; otherwise it stays and the end of the feed is reported; nothing else changes |
| `Feed.Next` | src/components/VideoFeed.tsx:138-142 | the same guard and increment as a swipe, without a report |
| `Feed.Previous` | src/components/VideoFeed.tsx:144-148 | the cursor decrements iff it is > 0 (no control calls this handler) |
| `Feed.ActiveVideo` | src/components/VideoFeed.tsx:187-205 | a card is active iff the feed is not loading and the cursor is within the list, and it is the pitch at the cursor |
| `Feed.HandlersKeepCursorNonNegative` | src/components/VideoFeed.tsx:117-148 | no handler makes the cursor negative |
| `Feed.CursorHandlersKeepInRange` | src/components/VideoFeed.tsx:117-148 | swipe, next, previous and selection keep a cursor that points at a pitch (or 0 on an empty list) |
| `Feed.SwipeIgnoresDirection` | src/components/VideoFeed.tsx:117-142 | left, right and none swipes, on any card, move the cursor the same way, and the same way as next |
| `Feed.EndOfFeedLeavesStateAlone` | src/components/VideoFeed.tsx:126-134 | the end of the feed is reported iff the cursor is at or past the last pitch, and then the state is unchanged |
| `Feed.ShowsNextIndicator` | src/components/VideoFeed.tsx:217 | the condition under which the next arrow is rendered; `Feed.IndicatorMatchesNextGuard` states that it is the next guard while not loading |
| `Feed.IndicatorMatchesNextGuard` | src/components/VideoFeed.tsx:217 | the next arrow shows iff not loading and the next guard holds, and then next advances by one |
| `Feed.PreviousThenNext` | src/components/VideoFeed.tsx:138-148 | from an in-range cursor above 0, previous then next returns to the same state |
| `Feed.ReloadKeepsCursor` | src/components/VideoFeed.tsx:91-114 | a category change and fetch replace the list and stop loading but leave currentIndex unchanged |
| `Feed.ReloadLeavesCursorPastEnd` | src/components/VideoFeed.tsx:91-114 | at index 4 of the full feed, switching to CleanTech leaves index 4 over a one-pitch list: no active card, the next arrow is hidden, next does nothing, a swipe reports the end |
| `Feed.CleanTechFeed` | src/components/VideoFeed.tsx:9-80 | the unfiltered mock feed has five pitches and the CleanTech feed is pitch 1 alone |
| `Feed.FinishFetchReseeded` | src/components/VideoFeed.tsx:109-110 | the corrected fetch stores the loaded list, stops loading and puts the cursor at 0 |
| `Feed.ReseededReloadKeepsInRange` | src/components/VideoFeed.tsx:109-110 | after the corrected fetch the cursor points at a pitch, and a non-empty feed has an active card |
| `Feed.InRangeHasActiveVideo` | src/components/VideoFeed.tsx:187-205 | once loading is over, an in-range cursor over a non-empty list always has an active card |
| `Feed.SwipeRightOnNewestPitch` | src/components/VideoFeed.tsx:117-127 | after the first load, a +150 drag of the active card reports a right swipe of pitch 5 and moves the cursor to pitch 4 |
| `Feed.VideoFeed.constructor` | src/components/VideoFeed.tsx:83-86 | a new feed is empty, at index 0, loading, with no category |
| `Feed.VideoFeed.SetActiveCategory` | src/components/VideoFeed.tsx:157-177 | sets the category, and starts loading iff it changed; list and cursor unchanged |
| `Feed.VideoFeed.FetchVideos` | src/components/VideoFeed.tsx:99-110 | copy, filter when a non-empty category is selected, sort newest first, store, stop loading; cursor unchanged |
| `Feed.VideoFeed.HandleSwipe` | src/components/VideoFeed.tsx:117-135 | advances by one under the guard, otherwise returns the end-of-feed report; the rest of the state unchanged |
| `Feed.VideoFeed.HandleNext` | src/components/VideoFeed.tsx:138-142 | advances by one under the same guard, no report |
| `Feed.VideoFeed.HandlePrevious` | src/components/VideoFeed.tsx:144-148 | decrements iff the cursor is > 0, so it never goes negative |

## Left out

- JSX rendering, class names, overlays and the category button styling: presentation only.
- `cardStyle` (the translation, rotation and opacity of a dragged card): floating-point CSS values.
- The video playback effect of a card: it drives the DOM media API.
- Toasts and `console.log` calls: fire-and-forget side effects. The end-of-feed toast is the boolean that `Feed.Swipe` and `HandleSwipe` return. The direction-dependent log lines of `handleSwipe` are dropped.
- The one-second `setTimeout` in `fetchVideos`, and races between overlapping fetches. The model makes each fetch one atomic completion (`FetchVideos`) after its start (`SetActiveCategory`). The code has no guard against a stale response, and the model cannot represent one: a completing fetch always loads the category selected at that moment, so the state "B selected, A's list shown, spinner off" that an out-of-order response would produce is not reachable in the model.
- React state batching and stale closures: each handler reads the latest state and updates it atomically.
- Event coordinates: `clientX` is a JavaScript number that can be fractional. The model uses integers.
- Funding amounts are integers, as in the mock data. Dates are integer millisecond timestamps.
- src/components/ProfileView.tsx, src/components/NavigationBar.tsx and src/pages/Index.tsx: static views, a router path comparison, timers and toasts, with no logic to verify.

## Findings

| source | as written | input that shows it | evidently intended | confidence | as-written member | corrected member |
|---|---|---|---|---|---|---|
| src/components/VideoFeed.tsx:91-114 | a category change replaces `videos` but leaves `currentIndex` as it was | at index 4 of the five-pitch feed, select CleanTech: the list has one pitch and the index stays 4, so no card is active, the next arrow is hidden, next does nothing and a swipe reports the end of the feed; no control calls `handlePrevious`, so the user cannot step back, and of the category buttons only "All" brings a card back (pitch 1, at index 4 of the full feed), since each mock category has one pitch; leaving the feed view and returning remounts it at index 0 | reset the cursor to 0 whenever the list is replaced | medium; not executed | `Feed.ReloadLeavesCursorPastEnd` | `Feed.ReseededReloadKeepsInRange` |

`Feed.FinishFetch` and `Feed.VideoFeed.FetchVideos` keep the code's
behaviour. `Feed.FinishFetchReseeded` is the corrected reload. With it,
`Feed.CursorHandlersKeepInRange` and `Feed.ReseededReloadKeepsInRange`
together show that every handler keeps the cursor on a pitch.
