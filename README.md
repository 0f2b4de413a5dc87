# DuManga reading session, modelled in Dafny

This project models the reading screen of DuManga, an iOS reader for
archives served by a LANraragi server. It covers two parts.

- **The page screen** (`ArchivePage`). It holds the current page index, the
  split-page phase (off, first half, last half), the half of the page on
  screen and whether the controls are hidden. It turns next, previous and
  jump into index and phase changes. It loads the page it lands on and asks
  the server to clear the archive's "new" flag when it lands on the last
  page. Taps and swipes reach it through a table of stored control strings.
  The module also models the slider range, the container's extraction
  trigger and the reaction to error codes.
- **The page model** (`ArchivePageModelV2`). It copies a snapshot of the
  application state, resumes the stored reading progress, tests whether an
  archive is known, and orders page ids for prefetching: the current page and
  those after it first, then the earlier pages, nearest first.

Files:

- `wrappers.dfy`: `Option`.
- `view_models.dfy`: archive items, error codes, and the slices of the
  application state that the page model reads.
- `page_navigation.dfy` (module `PageNavigation`): the page screen. The pure
  step functions `JumpTo`, `Perform` and `EnterSplit` state the navigation
  rules. The class `ArchivePage` changes its fields in place. Each of its
  methods is proved to take exactly the step the function describes, and it
  keeps the invariant `Valid()`. The invariant says the index lies in the
  page list and every logged load is of a page of that list. Calls to the
  page loader and to the clear-flag service are kept in the ghost logs
  `loads` and `clearRequests`.
- `page_model.dfy` (module `PageModel`): the prefetch order with its
  permutation and position lemmas, and the class `ArchivePageModel`.

Page positions are integers. The source keeps the position as a `Double`,
but the slider moves in steps of one and every position is rounded before
use. Rounding (`getIntPart`, `rounded()`) is therefore the identity here.

What the code does, stated plainly:

- The prefetch order is the current page and the pages after it, followed by
  the earlier pages reversed (`secondHalf + firstHalf`,
  DuManga/Page/ArchivePageModelV2.swift:58-61).
- The clear-flag request is issued on every landing on the last page
  (DuManga/ArchivePage.swift:196-198).
- A target outside the page list still resets the split phase to off
  (DuManga/ArchivePage.swift:188-190).
- The step inside a split page tests only the orientation, not the
  split-page setting (DuManga/ArchivePage.swift:179-186).
- `jumpToPage` never enters a split phase itself: it sets the phase to off
  and passes `split` to the page loader. `jumpToInternalPage` has no caller in
  the code (the page loader is built with only an error callback,
  DuManga/ArchivePage.swift:69). So in `ArchivePage.swift` only `jumpToInternalPage`,
  which nothing calls, sets a split phase. The page loader, `InternalPageModel`,
  is defined outside the two modelled files and may enter a split itself in its `load`, which receives `split`,
  `priorityLeft` and `action` (DuManga/ArchivePage.swift:191-194); the model
  gives that `load` no effect on the state. `ControlsStayOff` proves, for
  `ArchivePage.swift`, that whole sessions of controls and slider releases stay at
  phase off.

## Model

| member | source | states |
|---|---|---|
| `PageNavigation.GuardAsWritten` | DuManga/ArchivePage.swift:190 | the range test as written: with a page list it admits exactly the positions of the list; with none it admits exactly index 0 |
| `PageNavigation.InRange` | DuManga/ArchivePage.swift:189-191 | a target passes only when a page list exists and the target is a position in it, so the page to load always exists; with a page list it agrees with the source's test |
| `PageNavigation.MissingPagesPassGuard` | DuManga/ArchivePage.swift:189-191 | with no page list, the slider offers 0 and the test as written admits 0, but no page 0 exists |
| `PageNavigation.SplitForward` | DuManga/ArchivePage.swift:202-209 | the pure form of `nextInternalPage`: phase last, right half shown exactly when left has priority, index and controls unchanged |
| `PageNavigation.SplitBackward` | DuManga/ArchivePage.swift:211-218 | the pure form of `previousInternalPage`: phase first, left half shown exactly when left has priority, index and controls unchanged |
| `PageNavigation.EnterSplit` | DuManga/ArchivePage.swift:220-237 | next or jump enters at the first phase, showing left exactly when left has priority; previous enters at the last phase, showing right exactly when left has priority; index and controls unchanged |
| `PageNavigation.JumpTo` | DuManga/ArchivePage.swift:178-200 | portrait, first phase and next: last phase, same index, no load; portrait, last phase and previous: first phase, no load; the shown half follows the priority setting. Otherwise the phase goes off first. An out-of-range target then keeps the index, with no load and no flag request. An in-range target becomes the index and issues exactly one load of that page with split = setting && portrait. A flag request is issued exactly when landing on the last page. The step keeps the index invariant |
| `PageNavigation.Resolve` | DuManga/ArchivePage.swift:156-168 | a stored string names a control exactly when it is that control's raw value; any other string names none |
| `PageNavigation.Perform` | DuManga/ArchivePage.swift:156-176 | next jumps to index+1 with action next; previous jumps to index-1 with action previous; navigation only flips the hidden flag; any other string changes nothing; the index invariant is kept and every load is of a listed page |
| `PageNavigation.DefaultBindings` | DuManga/ArchivePage.swift:42-46 | out of the box, left tap and left swipe go forward, right tap and right swipe go back, and the middle tap toggles the controls |
| `PageNavigation.BindingFor` | DuManga/ArchivePage.swift:86-106 | each tap zone yields its own binding; a drag to the left yields the swipe-left binding, to the right the swipe-right binding; only a drag with zero width yields nothing |
| `PageNavigation.SliderRange` | DuManga/ArchivePage.swift:152-154 | the range starts at 0; with a page list its positions are exactly the valid indices; with none it is 0...1; an empty list is refused |
| `PageNavigation.ContainerLoad` | DuManga/ArchivePage.swift:30-34 | the container dispatches extraction of its archive exactly when its page list is absent or empty |
| `PageNavigation.HandleError` | DuManga/ArchivePage.swift:239-258 | an extraction or page-fetch error shows its own notice and dispatches a reset; no error or any other error does nothing |
| `PageNavigation.Release` | DuManga/ArchivePage.swift:114-120 | a slider release at `value` leaves the index at `value` and the phase off; it issues exactly one load, of page `value` with split = setting && portrait, the priority setting and action jump, exactly when `value` is a position of the list, and no load otherwise; it requests the flag clear exactly when it is the last one; a release inside the slider range keeps the index invariant |
| `PageNavigation.ReplayKeepsInvariant` | DuManga/ArchivePage.swift:114-200 | through any session of bound controls and slider releases inside the slider range, the index stays in the page list, every loaded page is a listed page, and every flag request comes with a load |
| `PageNavigation.ControlsStayOff` | DuManga/ArchivePage.swift:156-200 | in `ArchivePage.swift`, with the page loader's `load` as a call without effect on the state, a session of bound controls and slider releases that starts with the phase off ends with the phase off |
| `PageNavigation.SplitWalk` | DuManga/ArchivePage.swift:178-237 | portrait, split on, left first: page 2 entered forwards shows its left half; next shows its right half without loading; next again loads page 3 split, resets the phase, and asks to clear the new flag exactly when page 3 is the last page |
| `PageNavigation.ArchivePage.constructor` | DuManga/ArchivePage.swift:57-71 | a new screen starts at the assumed initial index 0 with the assumed initial phase off; it loads page 0 when pages exist, and requests the flag clear when page 0 is also the last page |
| `PageNavigation.ArchivePage.LoadStartImage` | DuManga/ArchivePage.swift:146-150 | with a page list it jumps forwards to the current index; without one nothing changes |
| `PageNavigation.ArchivePage.NextInternalPage` | DuManga/ArchivePage.swift:202-209 | the phase becomes last and the shown half right if left has priority, else left; index, controls and logs unchanged |
| `PageNavigation.ArchivePage.PreviousInternalPage` | DuManga/ArchivePage.swift:211-218 | the phase becomes first and the shown half left if left has priority, else right; index, controls and logs unchanged |
| `PageNavigation.ArchivePage.JumpToInternalPage` | DuManga/ArchivePage.swift:220-237 | the in-place form of `EnterSplit`; index, controls and logs unchanged |
| `PageNavigation.ArchivePage.JumpToPage` | DuManga/ArchivePage.swift:178-200 | the new state is the one `JumpTo` gives; its load and flag request are appended to the logs; `Valid()` is kept |
| `PageNavigation.ArchivePage.NextPage` | DuManga/ArchivePage.swift:170-172 | takes the `JumpTo` step to index+1 with action next |
| `PageNavigation.ArchivePage.PreviousPage` | DuManga/ArchivePage.swift:174-176 | takes the `JumpTo` step to index-1 with action previous |
| `PageNavigation.ArchivePage.PerformAction` | DuManga/ArchivePage.swift:156-168 | takes the `Perform` step for the stored string |
| `PageNavigation.ArchivePage.HandleGesture` | DuManga/ArchivePage.swift:86-106 | performs the string a gesture is bound to; a drag with zero width changes nothing |
| `PageNavigation.ArchivePage.SliderRelease` | DuManga/ArchivePage.swift:114-120 | takes the `Release` step: the released slider position becomes the index and is then jumped to with action jump |
| `PageModel.Reverse` | DuManga/Page/ArchivePageModelV2.swift:60 | `firstHalf.reverse()`: the reversal has as many elements as its input |
| `PageModel.ReverseAt` | DuManga/Page/ArchivePageModelV2.swift:60 | reversal keeps the length and puts element `|s|-1-k` at position `k` |
| `PageModel.ReverseMultiset` | DuManga/Page/ArchivePageModelV2.swift:60 | reversal keeps the multiset of elements |
| `PageModel.PrefetchOrder` | DuManga/Page/ArchivePageModelV2.swift:57-62 | the prefetch order has as many entries as the ids; when the index is inside the list, its first element is the current page |
| `PageModel.PrefetchPermutation` | DuManga/Page/ArchivePageModelV2.swift:58-61 | the prefetch order is a permutation of the ids: the same multiset of elements |
| `PageModel.PrefetchAt` | DuManga/Page/ArchivePageModelV2.swift:58-61 | position `k` holds `ids[i+k]` while `k < |ids|-i`, and `ids[|ids|-1-k]` after that |
| `PageModel.PrefetchTail` | DuManga/Page/ArchivePageModelV2.swift:58-61 | for `i > 0`, position `|ids|-i` holds `ids[i-1]` and the last position holds `ids[0]` |
| `PageModel.PrefetchBoundaries` | DuManga/Page/ArchivePageModelV2.swift:58-61 | index 0 yields the ids unchanged; index `|ids|` yields them reversed |
| `PageModel.PrefetchSevenPages` | DuManga/Page/ArchivePageModelV2.swift:58-61 | `[p0..p6]` with index 3 yields `[p3,p4,p5,p6,p2,p1,p0]` |
| `PageModel.ArchivePageModel.constructor` | DuManga/Page/ArchivePageModelV2.swift:9-15 | a new model is at position 0 with controls hidden, not loading, with no items, no pages and no error |
| `PageModel.ArchivePageModel.Load` | DuManga/Page/ArchivePageModelV2.swift:22-29 | loading, items, pages and error are copied from the snapshot; the position becomes the progress only when it was 0, otherwise it is kept; the hidden flag is untouched |
| `PageModel.ArchivePageModel.VerifyArchiveExists` | DuManga/Page/ArchivePageModelV2.swift:53-55 | true exactly when the id is a key of the archive items |
| `PageModel.ArchivePageModel.PrefetchImages` | DuManga/Page/ArchivePageModelV2.swift:57-63 | the list handed to the prefetch service is `PrefetchOrder(ids, index)`; the index must lie in `0..|ids|`, since slicing outside it traps |
| `PageModel.ArchivePageModel.ClearNewFlag` | DuManga/Page/ArchivePageModelV2.swift:65-72 | one clear-flag request for the id is recorded |

## Left out

- Rendering and layout: the `body` views, `GeometryReader`, the banner display and the page counter text are presentation.
- Gesture recognition: a drag is reduced to the sign of its horizontal translation; the 50-point minimum distance belongs to the recogniser.
- Floating-point rounding: `getIntPart` and `rounded()` act on whole numbers only, because the slider steps by one, and are the identity here.
- Orientation and stored settings: the device orientation, the split-page settings and the five bindings are parameters read when an action arrives.
- Page loader internals: `InternalPageModel` is defined outside the two modelled files and is not part of this model. Its `load` and `clearNewFlag` are recorded calls, and `setCurrentPageToLeft`/`setCurrentPageToRight` write the shown half.
- `PageNavigation.ControlsStayOff`: the page loader's own effect on the split phase and the shown half is not modelled. Its `load` receives `split`, `priorityLeft` and `action` and may enter a split page itself, but here it is a recorded call that leaves the state unchanged, so the lemma holds for `ArchivePage.swift` alone. `InternalPageModel` is defined outside the two modelled files.
- `PageNavigation.ArchivePage.constructor`: the loader's initial shown half and hidden flag are not modelled, so they are parameters. The initial index 0 and phase off are assumed, not modelled.
- `PageNavigation.ArchivePage.constructor`: the archive item is taken as present, because the screen force-unwraps it. A missing item would trap on every render, when `body` builds the details link (DuManga/ArchivePage.swift:83), and again on landing on the last page.
- `PageNavigation.RawValue`: the declaration of the page controls is not part of this model. Their raw strings are taken as "next", "previous" and "navigation"; only their distinctness matters.
- `PageNavigation.SliderRange`: an empty page list makes the source build the range 0...-1, which traps; the model refuses that input by a precondition.
- Reactive plumbing: the publisher subscriptions of `load`, `unload`'s cancellation, and the error-swallowing pipeline of `clearNewFlag` are framework code; `unload` is not modelled.
- Prefetch service, server client and store middleware: their behaviour (de-duplication, bounded fetching, extraction) is not part of the code modelled; `preloadImages` is a recorded call.
- `PageModel.ArchivePageModel.PrefetchImages`: the source's `Double`-to-`Int` conversion of the index is not modelled and is taken as exact on whole numbers.
- Other files: the archive list, settings screens, the setting middleware and the content view are network or view code.

## Findings

| source | as written | input that shows it | evidently intended | confidence | as-written member | corrected member |
|---|---|---|---|---|---|---|
| DuManga/ArchivePage.swift:190-191 | the range test uses `pages?.count ?? 1`, so with no page list index 0 passes and `pages![index]` force-unwraps a missing list | pages absent; the slider, whose range is then 0...1, is released at 0 | with no page list every jump is a no-op | not executed; medium | `PageNavigation.GuardAsWritten`, `PageNavigation.MissingPagesPassGuard` | `PageNavigation.InRange`, `PageNavigation.JumpTo` |
