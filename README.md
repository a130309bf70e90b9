# GNestedScrollView core, modelled in Dafny

`NestedScrollView` is a composite UIKit scroll view that stacks several
"containers" (plain views, or views that manage a scroll view of their own)
end to end. An invisible overlay scroll view receives the user's drags. On each
scroll tick, the composite view follows the overlay's offset until that offset
reaches the *hover height*. The default hover height is the height of every
container but the last. From there on, the composite view is pinned at the
hover height and the last container's own scroll view absorbs the remainder.
A stretch header behind the first container grows while the content is
pulled down past its top.

The model has these parts:

- `wrappers.dfy`: `Option`.
- `geometry.dfy`: `CGPoint`, `CGSize` and `CGRect` over `real`, with lengths never negative.
- `containers.dfy` (module `Containers`): containers as values carrying an
  identity token, and the list edits the registry performs, each specified
  against `InsertAt`/`RemoveAt` together with its round trip.
- `stacking.dfy` (module `Stacking`): the pure reference functions:
  - the stacked layout (`Layout`);
  - the hover height (`TopHeight`);
  - the overlay's content height (`TotalContentHeight`);
  - the scroll views that defer to the overlay (`TakeoverIds`);
  - the lemmas about them.
- `stretch_header.dfy` (module `StretchHeader`): the header baseline and the stretched frame.
- `nested_scroll_view.dfy` (module `NestedScroll`): the class
  `NestedScrollView`. Its fields are the view's mutable state:
  - the container list;
  - the composite and overlay offsets and content sizes;
  - the hover flag;
  - the stretch frames;
  - the tracked child scroll views and their bookkeeping map;
  - the offsets written into scroll views;
  - the delegate notifications sent.

  Each source method that changes state is a Dafny method with field-level
  `modifies` clauses, and its `ensures` ties the new state to those
  reference functions. The read-only members `contains`, `topContainerHeight`
  and the hover-height lookup are functions (`Contains`, `TopHeight`,
  `HoverHeight`).
- `scenario.dfy` (module `Scenario`): a worked three-container example.

A re-layout runs after every registry change. Its result is `Layout` of the
edited list, and the invariant `LaidOut()` holds after every layout, stating
that:

- the frames are contiguous from the top;
- the composite content height is the stacked height;
- the overlay content height is `TotalContentHeight`;
- the stretch baseline is captured from the first container.

## Model

| member | source | states |
|---|---|---|
| Containers.FirstIndexOf | GNestedScrollView/Classes/NestedScrollView.swift:479-484 | The result is the smallest index holding a container with that identity, and None exactly when no container has it (`firstIndex(where: isEqual)`). |
| Containers.FirstManaging | GNestedScrollView/Classes/NestedScrollView.swift:319 | The result is the smallest index whose container manages the scroll view, and None exactly when none does (`containers.first(where: managedScrollView ===)`). |
| Containers.InsertThenRemove | GNestedScrollView/Classes/NestedScrollView.swift:144 | `insert(_:at:)` puts the element at that index, and removing at that index gives back the original list. |
| Containers.RemoveThenInsert | GNestedScrollView/Classes/NestedScrollView.swift:168 | `remove(at:)` shortens the list by one, and re-inserting the removed element at its index gives back the original list. |
| Containers.InsertedAt | GNestedScrollView/Classes/NestedScrollView.swift:141-146 | The new container lands at `min(index, count)`, and removing it gives back the old list, so all other containers keep their order. |
| Containers.InsertedBefore | GNestedScrollView/Classes/NestedScrollView.swift:148-154 | With the anchor found, the container lands just before the first anchor. Without it, the container is appended at the end. Either way removing it restores the list. |
| Containers.InsertedAfter | GNestedScrollView/Classes/NestedScrollView.swift:156-162 | With the anchor found, the container lands just after the first anchor. Without it, the container goes to the FRONT, unlike the `before` variant. Either way removing it restores the list. |
| Containers.RemoveFirst | GNestedScrollView/Classes/NestedScrollView.swift:164-171 | Without a match the list is unchanged. Otherwise exactly the first matching container is removed, and putting it back restores the list. |
| Containers.RemoveFirstDropsOneEntry | GNestedScrollView/Classes/NestedScrollView.swift:164-171 | Removal drops exactly one occurrence of the identity from the multiset of identities. |
| Containers.RemoveAppended | GNestedScrollView/Classes/NestedScrollView.swift:135-139 | A container not yet registered, then appended and removed, leaves the original list. |
| Stacking.Layout | GNestedScrollView/Classes/NestedScrollView.swift:231-234 | The reference placement of `updateLayout`: the same number of containers, each moved so that its top edge is the sum of the heights before it. Its properties are the rows `LayoutIsContiguous`, `LayoutKeepsSizes`, `LayoutIdempotent` and `LayoutIgnoresOrigins`. |
| Stacking.StackHeight | GNestedScrollView/Classes/NestedScrollView.swift:221-234 | The running `yOffset` of the layout loop is never negative and is at least the last container's height. |
| Stacking.LaidUpToStep | GNestedScrollView/Classes/NestedScrollView.swift:231-234 | One loop pass moves container `i` to the running total and turns the `i`-prefix layout into the `i+1`-prefix layout. |
| Stacking.LayoutIsContiguous | GNestedScrollView/Classes/NestedScrollView.swift:220-243 | After layout the first frame starts at 0, each frame starts where the previous one ends, and the last ends at the stacked height. |
| Stacking.LayoutKeepsSizes | GNestedScrollView/Classes/NestedScrollView.swift:231-233 | Layout changes only `origin.y`: identities, sizes, scroll views and flags are kept, and so is the stacked height. |
| Stacking.StackHeightIgnoresOrigins | GNestedScrollView/Classes/NestedScrollView.swift:231-234 | The stacked height depends on frame heights only. |
| Stacking.LayoutIgnoresOrigins | GNestedScrollView/Classes/NestedScrollView.swift:220-243 | Two lists that differ only in frame origins lay out identically. |
| Stacking.LayoutIdempotent | GNestedScrollView/Classes/NestedScrollView.swift:220-243 | Re-running `updateLayout` on a laid-out list changes nothing. |
| Stacking.LayoutAfterAppend | GNestedScrollView/Classes/NestedScrollView.swift:135-139 | Appending to a laid-out list and laying out equals laying out the whole list once. |
| Stacking.TopHeight | GNestedScrollView/Classes/NestedScrollView.swift:349-355 | `topContainerHeight` is 0 with at most one container, and is otherwise the stacked height minus the last container's height. |
| Stacking.LastOriginIsTopHeight | GNestedScrollView/Classes/NestedScrollView.swift:35-37 | After layout the last container starts exactly at the default hover height. |
| Stacking.Contribution | GNestedScrollView/Classes/NestedScrollView.swift:338-343 | A container with a scroll view contributes the larger of its padded content height (content height plus both insets) and its frame height. A plain container contributes its frame height. |
| Stacking.TotalContentHeight | GNestedScrollView/Classes/NestedScrollView.swift:334-347 | The overlay content height is never negative. |
| Stacking.TotalIgnoresOrigins | GNestedScrollView/Classes/NestedScrollView.swift:334-347 | The overlay content height depends on sizes only, so layout never changes it. |
| Stacking.TotalWithoutScrollViews | GNestedScrollView/Classes/NestedScrollView.swift:334-347 | With no managed scroll views, the overlay content height equals the stacked content height. |
| Stacking.TotalCoversStack | GNestedScrollView/Classes/NestedScrollView.swift:334-347 | When each managed scroll view is as tall as its attach view, the overlay content height covers the stacked height. |
| Stacking.TakeoverIds | GNestedScrollView/Classes/NestedScrollView.swift:285-290 | The reference set of scroll views whose pan gesture `observeContainer` makes wait for the overlay's: managed scroll views of containers with `needsPanGestureTakeover`. `TakeoverIdsExactly` states that characterisation. |
| Stacking.TakeoverIdsExactly | GNestedScrollView/Classes/NestedScrollView.swift:285-290 | A scroll view is made to wait for the overlay's pan gesture exactly when some registered container manages it and asks for the takeover. |
| Stacking.TakeoverIdsStep | GNestedScrollView/Classes/NestedScrollView.swift:223-229 | One loop pass adds that container's takeover scroll view, if any. |
| Stacking.TakeoverIdsIgnoresOrigins | GNestedScrollView/Classes/NestedScrollView.swift:285-290 | Which scroll views take over does not depend on layout. |
| Stacking.AppendToLaidOut | GNestedScrollView/Classes/NestedScrollView.swift:135-139 | Appending to the laid-out list gives the layout and takeovers of appending to the original, and earlier takeovers stay. |
| Stacking.AppendNext | GNestedScrollView/Classes/NestedScrollView.swift:183-185 | Each `addContainer` made by `addContainers` extends the layout and takeovers by exactly the next element. |
| Stacking.LastManaged | GNestedScrollView/Classes/NestedScrollView.swift:388-389 | `containers.last?.managedScrollView`: when present, it is the scroll view managed by the last container. |
| StretchHeader.Baseline | GNestedScrollView/Classes/NestedScrollView.swift:250-251 | The baseline is the custom frame when that frame is non-empty, else the attach view's bounds: origin (0,0) and the attach view's size. |
| StretchHeader.StretchedFrame | GNestedScrollView/Classes/NestedScrollView.swift:258-276 | The header keeps the baseline width. Its top edge is `min(offset, 0)` and its bottom edge stays at the baseline height, so it grows by exactly the overscroll. |
| StretchHeader.StretchGrowsWithOverscroll | GNestedScrollView/Classes/NestedScrollView.swift:268-275 | Pulling further down never shrinks the header, whose height is the baseline height minus `min(offset, 0)`. |
| StretchHeader.StretchAtRest | GNestedScrollView/Classes/NestedScrollView.swift:261-267 | At a non-negative offset a baseline at the origin is restored exactly. |
| NestedScroll.ZeroOn | GNestedScrollView/Classes/NestedScrollView.swift:405-413 | Every given key maps to 0, every other key keeps its value, and the key set grows by the given keys. |
| NestedScroll.Refitted | GNestedScrollView/Classes/NestedScrollView.swift:319-329 | Only the FIRST container managing the scroll view is refitted: to the new size with `needsAutoFrameUpdate`, else to `customHeight` when that is positive, else not at all. No frame moves, nothing else changes, and every record of that scroll view carries the new content height. |
| NestedScroll.NestedScrollView.constructor | GNestedScrollView/Classes/NestedScrollView.swift:87-100 | Starts with the defaults the class declares (lines 72, 76, 82-83): not hovering, offsets at the origin, bouncing, child scrolling allowed while bouncing, header disabled and shown, zero custom and stretch frames, no tracked children and no cancelled pans. The containers are `Layout(initial)` (laid out when non-empty), their takeover scroll views defer to the overlay, and one content-size report per container carries the content size after that container was added (`GrowthReports`). |
| NestedScroll.NestedScrollView.Contains | GNestedScrollView/Classes/NestedScrollView.swift:179-181 | True exactly when some registered container has that identity. |
| NestedScroll.NestedScrollView.AddContainer | GNestedScrollView/Classes/NestedScrollView.swift:135-139 | The registry becomes `Layout(old + [c])`. `LaidOut` and `Valid` hold, takeover scroll views are added, and one content-size notification is sent. When the header is disabled, or the list is empty, both stretch frames stay as they were. |
| NestedScroll.NestedScrollView.InsertContainer | GNestedScrollView/Classes/NestedScrollView.swift:141-146 | The registry becomes `Layout(InsertedAt(old, c, index))`, with `LaidOut`, the takeovers of the new list and one notification. When the header is disabled, or the list is empty, both stretch frames stay as they were. |
| NestedScroll.NestedScrollView.AddContainerBefore | GNestedScrollView/Classes/NestedScrollView.swift:148-154 | The registry becomes `Layout(InsertedBefore(old, c, anchor))`, with `LaidOut`, the takeovers of the new list and one notification. When the header is disabled, or the list is empty, both stretch frames stay as they were. |
| NestedScroll.NestedScrollView.AddContainerAfter | GNestedScrollView/Classes/NestedScrollView.swift:156-162 | The registry becomes `Layout(InsertedAfter(old, c, anchor))`, with `LaidOut`, the takeovers of the new list and one notification. When the header is disabled, or the list is empty, both stretch frames stay as they were. |
| NestedScroll.NestedScrollView.RemoveContainer | GNestedScrollView/Classes/NestedScrollView.swift:164-171 | Without a match the whole object is unchanged and no layout runs. Otherwise the registry becomes `Layout(RemoveFirst(old, id))`, one shorter, with `LaidOut`, one notification and the takeovers of the new list. When the header is disabled, or the list is empty, both stretch frames stay as they were. |
| NestedScroll.NestedScrollView.RemoveAllContainers | GNestedScrollView/Classes/NestedScrollView.swift:173-177 | The registry is empty, both content heights are 0, and a zero-height content size is reported. The stretch frames and the deferred set stay as they were. |
| NestedScroll.NestedScrollView.AddContainers | GNestedScrollView/Classes/NestedScrollView.swift:183-185 | Adding one by one equals `Layout(old + cs)`, with `LaidOut` and the takeovers of `old + cs`. The notifications are `GrowthReports(screenWidth, old, cs)`: one per element, carrying the overlay content size of the list up to that element. An empty list changes nothing. When the header is disabled, or the list is empty, both stretch frames stay as they were. |
| NestedScroll.GrowthReportsStep | GNestedScrollView/Classes/NestedScrollView.swift:183-185 | Adding one more element appends exactly one report, for the longer list. |
| NestedScroll.ReportOfLaidOut | GNestedScrollView/Classes/NestedScrollView.swift:212-216 | The report sent after laying out the longer list equals the one computed from the list before layout. |
| NestedScroll.NestedScrollView.AddFirst | GNestedScrollView/Classes/NestedScrollView.swift:183-185 | The first `addContainer` of `addContainers` establishes the loop invariant `AddedUpTo` for one element. |
| NestedScroll.NestedScrollView.AddNext | GNestedScrollView/Classes/NestedScrollView.swift:183-185 | Each later `addContainer` of `addContainers` keeps `AddedUpTo` from `i` to `i+1`. |
| NestedScroll.NestedScrollView.UpdateLayout | GNestedScrollView/Classes/NestedScrollView.swift:220-243 | The containers become `Layout(old)` and `LaidOut` holds: contiguous frames, composite content size `(screen width, stacked height)`, overlay content size and stretch baseline. Takeover scroll views defer to the overlay. |
| NestedScroll.NestedScrollView.StackContainers | GNestedScrollView/Classes/NestedScrollView.swift:221-239 | The loop leaves `Layout(old)` and returns the stacked height. The stretch baseline is set up from the first laid-out frame when enabled, else left alone. |
| NestedScroll.NestedScrollView.PlaceContainer | GNestedScrollView/Classes/NestedScrollView.swift:224-238 | One loop pass keeps the loop invariant `StackedUpTo` from `i` to `i+1`. |
| NestedScroll.NestedScrollView.SetupStretchHeader | GNestedScrollView/Classes/NestedScrollView.swift:245-252 | The header frame and its saved original both become the baseline. |
| NestedScroll.NestedScrollView.SetEnableStretchHeader | GNestedScrollView/Classes/NestedScrollView.swift:76-80 | The `didSet` hides the header exactly when it is disabled. |
| NestedScroll.NestedScrollView.CalculateTotalContentHeight | GNestedScrollView/Classes/NestedScrollView.swift:334-347 | The loop's sum equals `TotalContentHeight(containers)`. |
| NestedScroll.NestedScrollView.UpdateOverlayContentSize | GNestedScrollView/Classes/NestedScrollView.swift:212-216 | The overlay content size becomes `(contentSize.width, total height)`, and exactly that size is reported to the delegate. |
| NestedScroll.NestedScrollView.AttachViewBoundsDidChange | GNestedScrollView/Classes/NestedScrollView.swift:300-302 | A bounds change of an attach view re-lays out the resized list: the containers become `Layout(Resized(old, id, size))`, with `LaidOut`, the takeovers of that list and one notification. When the header is disabled, or the list is empty, both stretch frames stay as they were. |
| NestedScroll.NestedScrollView.HandleContentSizeChange | GNestedScrollView/Classes/NestedScrollView.swift:308-332 | If new == old, the whole object is unchanged. Otherwise the containers become `Refitted(old, sid, new)` and the overlay content size is recomputed and reported, with frames not re-stacked. |
| NestedScroll.NestedScrollView.ScrollToContainer | GNestedScrollView/Classes/NestedScrollView.swift:189-193 | The overlay goes to `(contentOffset.x, top of the first matching container)`. Without a match nothing moves. |
| NestedScroll.NestedScrollView.ScrollToTop | GNestedScrollView/Classes/NestedScrollView.swift:195-197 | The overlay goes to the origin. |
| NestedScroll.NestedScrollView.AddChildScrollView | GNestedScrollView/Classes/NestedScrollView.swift:201-210 | An already tracked child leaves everything unchanged. Otherwise the child is tracked with bookkeeping entry 0 and defers to the overlay, and `Valid` is kept. |
| NestedScroll.NestedScrollView.HoverHeight | GNestedScrollView/Classes/NestedScrollView.swift:374 | The delegate's hover height when it supplies one, else `topContainerHeight`. |
| NestedScroll.NestedScrollView.UpdateStretchHeader | GNestedScrollView/Classes/NestedScrollView.swift:258-276 | When disabled nothing changes. Otherwise the header becomes `StretchedFrame(originalStretchFrame, offset)`. |
| NestedScroll.NestedScrollView.ScrollViewDidScroll | GNestedScrollView/Classes/NestedScrollView.swift:373-429 | The offset is reported first. In the non-bouncing top-edge case, the composite view is reset. The overlay is pulled back and its pan cancelled only when child scrolling is allowed, and nothing else moves. Otherwise the header stretches, then the view follows the overlay below the hover height, or pins at it from the hover height on (equality hovers). |
| NestedScroll.NestedScrollView.HandleTopEdge | GNestedScrollView/Classes/NestedScrollView.swift:380-394 | The tick stops exactly when `!bounces && offset <= 0`, and either child scrolling is disallowed or the last container manages a scroll view. Cancellation and pull-back happen only in the second case. When the tick goes on, the hover flag and composite offset are reset under `!bounces && offset <= 0` and kept otherwise. |
| NestedScroll.NestedScrollView.Arbitrate | GNestedScrollView/Classes/NestedScrollView.swift:396-428 | The stretch update comes first. The split is at `offset < hoverHeight`. |
| NestedScroll.NestedScrollView.FollowOverlay | GNestedScrollView/Classes/NestedScrollView.swift:399-414 | Not hovering, and the composite offset is the raw offset. When the last container manages a scroll view, it and every tracked child go to 0, and their bookkeeping entries go to 0 only where they existed or are tracked. |
| NestedScroll.NestedScrollView.PinAtHover | GNestedScrollView/Classes/NestedScrollView.swift:415-427 | Hovering, with the composite pinned at `(0, hoverHeight)`. The last scroll view is at `offset - hoverHeight`, and its existing bookkeeping entry records the absolute offset. |
| NestedScroll.NestedScrollView.OffsetIsSplit | GNestedScrollView/Classes/NestedScrollView.swift:399-427 | After arbitration, hovering holds exactly when `offset >= hoverHeight`. The composite offset plus the last scroll view's offset always add up to the overlay's offset. |
| NestedScroll.NestedScrollView.ZeroChildScrollViews | GNestedScrollView/Classes/NestedScrollView.swift:410-413 | Every tracked child's offset and bookkeeping entry become 0, and nothing else changes. |
| Scenario.ThreeContainers | GNestedScrollView/Classes/NestedScrollView.swift:334-429 | Heights are 100, 200 and 300, the last managing 500 points of content. The hover height is 300 and the overlay content height 800. Offset 250 follows the overlay. Offset 350 pins at 300, with the trailing scroll view at 50. |

## Left out

- UIKit plumbing is not modelled: subviews, z-order, the overlay's own frame (`layoutSubviews`, `willMove(toSuperview:)`), indicators, `scrollsToTop` and `contentInsetAdjustmentBehavior`. Animation flags of `scrollToContainer`/`scrollToTop` are left out too.
- Key-value observing is modelled as explicit calls. `AttachViewBoundsDidChange` and `HandleContentSizeChange` are the two observer paths of `observeValue`. A content-size notification whose old or new value is missing is ignored by the source and has no counterpart here.
- Re-entrant notifications are not modelled. In UIKit, writing an attach view's frame inside `handleContentSizeChange` triggers the bounds observer, and through it a full `updateLayout`. Writing the overlay's offset triggers another `scrollViewDidScroll`. Here each notification is one method call.
- Observers are registered during a layout whenever a container's attach view is not yet a subview (`attachView.superview != self`), so a view that was removed and added again is registered again. The model records only the effect that matters to the arbiter: takeover scroll views join `deferredToOverlay`, idempotently, at each layout. The duplicate KVO registrations and their doubled notifications are not modelled.
- Weak references are not modelled. `childScrollViews` and its offset map lose entries when a child is deallocated, but here tracked children live forever.
- The drag and deceleration forwarders (lines 431-441) only relay to the delegate and are left out. The delegate is modelled by the `events` log (always recorded) and the optional hover height.
- Containers are values with an identity token, and `isEqual(to:)` is identity of that token. A container registered twice is two independent records. A frame written through one is not seen by the other, whereas in UIKit they would share one attach view.
- Refitted: a container's attach view and its managed scroll view are two independent records. The scroll view's frame height (`ScrollView.frameHeight`) is an input unaffected by writes to the attach view's frame. The model therefore does not capture the common UIKit case where the attach view IS the managed scroll view. There, resizing the attach view in `handleContentSizeChange` (lines 320-328) or through a bounds change also changes the scroll view's frame height used at line 340, and the stretch baseline's `view.bounds` (line 250) has the scroll view's content offset as its origin instead of (0,0).
- `CGFloat` is `real`: no rounding, no NaN or infinities. Widths and heights are never negative, as CoreGraphics standardises rectangles. `UIScreen.main.bounds.width` is the constructor parameter `screenWidth`.
- InsertContainer: indices are `nat`, because Swift traps on a negative index to `insert(_:at:)`.
- The stretch image view's content and styling are left out. The header is its frame and its hidden flag.
- The `required init?(coder:)` path is the same as `init(frame:)` with no containers and is not modelled separately.
- The model follows the code on these points:
  - the hover tie-break: `offset == hoverHeight` hovers (`offset < hoverHeight` follows the overlay);
  - the non-bouncing edge case: the overlay is pulled back and cancelled when child scrolling IS allowed and a trailing scroll view exists, and the tick simply stops when it is not allowed;
  - at rest, the stretch header goes to origin (0,0) with the baseline size, not to the baseline's own origin;
  - `updateLayout` keeps each attach view's width: only `origin.y` is written.
