/**
 * The nested scroll view itself: a composite scroll view that stacks its
 * containers, lets an invisible overlay scroll view drive the combined offset,
 * and hands the scroll over to the last container's own scroll view once the
 * offset reaches the hover height.
 */
module NestedScroll {
  import opened Wrappers
  import opened Geometry
  import opened Containers
  import opened Stacking
  import opened StretchHeader

  /** What the nested delegate is told (when one is attached). */
  datatype Event =
    | DidUpdateOffset(offset: Point)
    | DidUpdateContentSize(size: Size)

  /** `m` with every key of `ids` (present or not) mapped to 0. */
  function ZeroOn(m: map<Id, real>, ids: set<Id>): (r: map<Id, real>)
    ensures r.Keys == m.Keys + ids
    ensures forall k :: k in ids ==> r[k] == 0.0
    ensures forall k :: k in m && k !in ids ==> r[k] == m[k]
  {
    map k | k in m.Keys + ids :: if k in ids then 0.0 else m[k]
  }

  /** Zeroing one more key is a single map update. */
  lemma ZeroOnOneMore(m: map<Id, real>, ids: set<Id>, k: Id)
    ensures ZeroOn(m, ids + {k}) == ZeroOn(m, ids)[k := 0.0]
    ensures ZeroOn(m[k := 0.0], ids) == ZeroOn(m, ids + {k})
  {
  }

  /** The host has resized the attach view of container `id` to `size`. */
  function Resized(cs: seq<Container>, id: Id, size: Size): (r: seq<Container>)
    ensures |r| == |cs|
  {
    seq(|cs|, k requires 0 <= k < |cs| =>
      if cs[k].id == id then cs[k].(frame := cs[k].frame.(width := size.width, height := size.height))
      else cs[k])
  }

  /** The scroll view `sid` now reports content height `h`, in every record of it. */
  function WithContentHeight(cs: seq<Container>, sid: Id, h: Length): (r: seq<Container>)
    ensures |r| == |cs|
  {
    seq(|cs|, k requires 0 <= k < |cs| =>
      if Manages(cs[k], sid) then cs[k].(managed := Some(cs[k].managed.value.(contentHeight := h)))
      else cs[k])
  }

  /** The frame rule for a container whose scroll view changed content size. */
  function Refit(c: Container, size: Size): Container {
    if c.needsAutoFrameUpdate then c.(frame := c.frame.(width := size.width, height := size.height))
    else if c.customHeight > 0.0 then c.(frame := c.frame.(height := c.customHeight))
    else c
  }

  /**
   * The containers after scroll view `sid` reported content size `size`: the
   * records of that scroll view carry the new content height, and only the
   * FIRST container managing it has its attach view resized — to the content
   * size when it asks for automatic frame updates, else to its custom height
   * when that is positive. No frame moves.
   */
  function Refitted(cs: seq<Container>, sid: Id, size: Size): (r: seq<Container>)
    ensures |r| == |cs|
    ensures forall k :: 0 <= k < |cs| ==>
      r[k].id == cs[k].id && r[k].frame.x == cs[k].frame.x && r[k].frame.y == cs[k].frame.y
    ensures forall k :: 0 <= k < |cs| && !Manages(cs[k], sid) ==> r[k] == cs[k]
    ensures forall k :: 0 <= k < |cs| && Manages(cs[k], sid) ==>
      r[k].managed == Some(cs[k].managed.value.(contentHeight := size.height))
    ensures forall k :: 0 <= k < |cs| && FirstManaging(cs, sid) != Some(k) ==> r[k].frame == cs[k].frame
    ensures FirstManaging(cs, sid).Some? ==>
      var i := FirstManaging(cs, sid).value;
      && (cs[i].needsAutoFrameUpdate ==>
            r[i].frame.width == size.width && r[i].frame.height == size.height)
      && (!cs[i].needsAutoFrameUpdate && cs[i].customHeight > 0.0 ==>
            r[i].frame.width == cs[i].frame.width && r[i].frame.height == cs[i].customHeight)
      && (!cs[i].needsAutoFrameUpdate && cs[i].customHeight <= 0.0 ==> r[i].frame == cs[i].frame)
  {
    var recorded := WithContentHeight(cs, sid, size.height);
    match FirstManaging(cs, sid)
    case None => recorded
    case Some(i) => recorded[i := Refit(recorded[i], size)]
  }

  /** The notification that reports the overlay content size of `cs` at width `width`. */
  function SizeReport(width: Length, cs: seq<Container>): Event {
    DidUpdateContentSize(Size(width, TotalContentHeight(cs)))
  }

  /**
   * The content sizes reported while `added` is appended to `start` one
   * container at a time: after each append, the overlay content size of the
   * list so far.
   */
  function GrowthReports(width: Length, start: seq<Container>, added: seq<Container>): (r: seq<Event>)
    ensures |r| == |added|
  {
    seq(|added|, k requires 0 <= k < |added| => SizeReport(width, start + added[..k + 1]))
  }

  /** One more appended container adds the report for the longer list. */
  lemma GrowthReportsStep(width: Length, start: seq<Container>, added: seq<Container>, i: nat)
    requires i < |added|
    ensures GrowthReports(width, start, added[..i + 1]) ==
      GrowthReports(width, start, added[..i]) + [SizeReport(width, start + added[..i + 1])]
  {
    var a := GrowthReports(width, start, added[..i + 1]);
    var b := GrowthReports(width, start, added[..i]) + [SizeReport(width, start + added[..i + 1])];
    forall k | 0 <= k < i + 1
      ensures a[k] == b[k]
    {
      assert added[..i + 1][..k + 1] == added[..k + 1];
      if k < i {
        assert added[..i][..k + 1] == added[..k + 1];
      }
    }
  }

  /**
   * Appending one more container reports the content size of the laid-out
   * list, which is that of the list before layout.
   */
  lemma ReportOfLaidOut(width: Length, start: seq<Container>, added: seq<Container>, i: nat)
    requires i < |added|
    ensures GrowthReports(width, start, added[..i + 1]) ==
      GrowthReports(width, start, added[..i]) + [SizeReport(width, Layout(start + added[..i + 1]))]
  {
    LayoutKeepsSizes(start + added[..i + 1]);
    TotalIgnoresOrigins(Layout(start + added[..i + 1]), start + added[..i + 1]);
    GrowthReportsStep(width, start, added, i);
  }

  /** Appending to a log that was itself extended. */
  lemma AppendAssociates(a: seq<Event>, b: seq<Event>, c: seq<Event>)
    ensures (a + b) + c == a + (b + c)
  {
  }

  class NestedScrollView {
    /** `UIScreen.main.bounds.width`, the width the composite content gets. */
    const screenWidth: Length

    /** The registered containers, in stacking order. */
    var containers: seq<Container>
    /** The composite view's own content size and content offset. */
    var contentSize: Size
    var contentOffset: Point
    /** The overlay (driving) scroll view's content offset and content size. */
    var overlayOffset: Point
    var overlayContentSize: Size
    /** How many times the overlay's pan gesture was cancelled. */
    var panCancellations: nat

    var isHovering: bool
    var bounces: bool
    var allowChildScrollWhenBouncing: bool

    var enableStretchHeader: bool
    var stretchCustomFrame: Rect
    /** The stretch image view's frame, whether it is hidden, and its baseline. */
    var stretchFrame: Rect
    var stretchHidden: bool
    var originalStretchFrame: Rect

    /** Tracked child scroll views and their offset bookkeeping. */
    var childScrollViews: set<Id>
    var childScrollViewOffsets: map<Id, real>
    /** Scroll views whose pan gesture must fail before the overlay's may begin. */
    var deferredToOverlay: set<Id>
    /** The vertical content offsets this view has written into scroll views. */
    var scrollOffsets: map<Id, real>

    /** Delegate notifications sent so far. */
    var events: seq<Event>

    /**
     * Every tracked child has a bookkeeping entry and nothing else has, and
     * every tracked child's gesture defers to the overlay.
     */
    ghost predicate Valid()
      reads this
    {
      && childScrollViewOffsets.Keys == childScrollViews
      && childScrollViews <= deferredToOverlay
    }

    /** The state a full re-layout leaves behind. */
    ghost predicate LaidOut()
      reads this
    {
      && Contiguous(containers)
      && contentSize == Size(screenWidth, StackHeight(containers))
      && overlayContentSize == Size(screenWidth, TotalContentHeight(containers))
      && (enableStretchHeader && |containers| > 0 ==>
            stretchFrame == originalStretchFrame == Baseline(stretchCustomFrame, containers[0].frame))
    }

    /** `init(frame:)` (no containers) and `init(containers:)`. */
    constructor (screenWidth: Length, initial: seq<Container>)
      ensures Valid()
      ensures this.screenWidth == screenWidth
      ensures containers == Layout(initial)
      ensures |initial| == 0 ==> contentSize == Size(0.0, 0.0) && overlayContentSize == Size(0.0, 0.0)
      ensures |initial| > 0 ==> LaidOut()
      ensures events == GrowthReports(screenWidth, [], initial)
      ensures deferredToOverlay == TakeoverIds(initial)
      ensures !isHovering && contentOffset == Origin && overlayOffset == Origin && panCancellations == 0
      ensures bounces && allowChildScrollWhenBouncing
      ensures !enableStretchHeader && !stretchHidden && stretchCustomFrame == ZeroRect
      ensures stretchFrame == ZeroRect && originalStretchFrame == ZeroRect
      ensures childScrollViews == {} && childScrollViewOffsets == map[] && scrollOffsets == map[]
    {
      this.screenWidth := screenWidth;
      containers := [];
      contentSize := Size(0.0, 0.0);
      contentOffset := Origin;
      overlayOffset := Origin;
      overlayContentSize := Size(0.0, 0.0);
      panCancellations := 0;
      isHovering := false;
      bounces := true;
      allowChildScrollWhenBouncing := true;
      enableStretchHeader := false;
      stretchCustomFrame := ZeroRect;
      stretchFrame := ZeroRect;
      stretchHidden := false;
      originalStretchFrame := ZeroRect;
      childScrollViews := {};
      childScrollViewOffsets := map[];
      deferredToOverlay := {};
      scrollOffsets := map[];
      events := [];
      new;
      AddContainers(initial);
      assert [] + initial == initial;
    }

    // ---------------------------------------------------------------------
    // Container registry

    /** `contains(_:)`: some registered container has this identity. */
    function Contains(id: Id): (r: bool)
      reads this
      ensures r <==> exists i :: 0 <= i < |containers| && containers[i].id == id
    {
      FirstIndexOf(containers, id).Some?
    }

    /** `addContainer(_:)`: append, then re-layout. */
    method AddContainer(c: Container)
      requires Valid()
      modifies this`containers, this`stretchFrame, this`originalStretchFrame, this`deferredToOverlay,
        this`contentSize, this`overlayContentSize, this`events
      ensures Valid() && LaidOut()
      ensures containers == Layout(old(containers) + [c])
      ensures deferredToOverlay == old(deferredToOverlay) + TakeoverIds(old(containers) + [c])
      ensures !(enableStretchHeader && |containers| > 0) ==>
        stretchFrame == old(stretchFrame) && originalStretchFrame == old(originalStretchFrame)
      ensures events == old(events) + [DidUpdateContentSize(overlayContentSize)]
    {
      containers := containers + [c];
      UpdateLayout();
    }

    /** `insertContainer(_:at:)`: insert at `min(index, count)`, then re-layout. */
    method InsertContainer(c: Container, index: nat)
      requires Valid()
      modifies this`containers, this`stretchFrame, this`originalStretchFrame, this`deferredToOverlay,
        this`contentSize, this`overlayContentSize, this`events
      ensures Valid() && LaidOut()
      ensures containers == Layout(InsertedAt(old(containers), c, index))
      ensures deferredToOverlay == old(deferredToOverlay) + TakeoverIds(InsertedAt(old(containers), c, index))
      ensures !(enableStretchHeader && |containers| > 0) ==>
        stretchFrame == old(stretchFrame) && originalStretchFrame == old(originalStretchFrame)
      ensures events == old(events) + [DidUpdateContentSize(overlayContentSize)]
    {
      var insertIndex := if index < |containers| then index else |containers|;
      containers := containers[..insertIndex] + [c] + containers[insertIndex..];
      UpdateLayout();
    }

    /** `addContainer(_:before:)` */
    method AddContainerBefore(c: Container, anchor: Id)
      requires Valid()
      modifies this`containers, this`stretchFrame, this`originalStretchFrame, this`deferredToOverlay,
        this`contentSize, this`overlayContentSize, this`events
      ensures Valid() && LaidOut()
      ensures containers == Layout(InsertedBefore(old(containers), c, anchor))
      ensures deferredToOverlay == old(deferredToOverlay) + TakeoverIds(InsertedBefore(old(containers), c, anchor))
      ensures !(enableStretchHeader && |containers| > 0) ==>
        stretchFrame == old(stretchFrame) && originalStretchFrame == old(originalStretchFrame)
      ensures events == old(events) + [DidUpdateContentSize(overlayContentSize)]
    {
      var found := FirstIndexOf(containers, anchor);
      if found.Some? {
        InsertContainer(c, found.value);
      } else {
        AddContainer(c);
      }
    }

    /** `addContainer(_:after:)` */
    method AddContainerAfter(c: Container, anchor: Id)
      requires Valid()
      modifies this`containers, this`stretchFrame, this`originalStretchFrame, this`deferredToOverlay,
        this`contentSize, this`overlayContentSize, this`events
      ensures Valid() && LaidOut()
      ensures containers == Layout(InsertedAfter(old(containers), c, anchor))
      ensures deferredToOverlay == old(deferredToOverlay) + TakeoverIds(InsertedAfter(old(containers), c, anchor))
      ensures !(enableStretchHeader && |containers| > 0) ==>
        stretchFrame == old(stretchFrame) && originalStretchFrame == old(originalStretchFrame)
      ensures events == old(events) + [DidUpdateContentSize(overlayContentSize)]
    {
      var found := FirstIndexOf(containers, anchor);
      if found.Some? {
        InsertContainer(c, found.value + 1);
      } else {
        InsertContainer(c, 0);
      }
    }

    /**
     * `removeContainer(_:)`: drop the first container with this identity and
     * re-layout; when there is none, nothing at all happens.
     */
    method RemoveContainer(id: Id)
      requires Valid()
      modifies this`containers, this`stretchFrame, this`originalStretchFrame, this`deferredToOverlay,
        this`contentSize, this`overlayContentSize, this`events
      ensures Valid()
      ensures !old(Contains(id)) ==> unchanged(this)
      ensures old(Contains(id)) ==>
        && LaidOut()
        && containers == Layout(RemoveFirst(old(containers), id))
        && |containers| == |old(containers)| - 1
        && deferredToOverlay == old(deferredToOverlay) + TakeoverIds(RemoveFirst(old(containers), id))
        && (!(enableStretchHeader && |containers| > 0) ==>
              stretchFrame == old(stretchFrame) && originalStretchFrame == old(originalStretchFrame))
        && events == old(events) + [DidUpdateContentSize(overlayContentSize)]
    {
      var found := FirstIndexOf(containers, id);
      if found.Some? {
        var index := found.value;
        containers := containers[..index] + containers[index + 1..];
        UpdateLayout();
      }
    }

    /** `removeAllContainers()` */
    method RemoveAllContainers()
      requires Valid()
      modifies this`containers, this`stretchFrame, this`originalStretchFrame, this`deferredToOverlay,
        this`contentSize, this`overlayContentSize, this`events
      ensures Valid() && LaidOut()
      ensures containers == []
      ensures contentSize == Size(screenWidth, 0.0) && overlayContentSize == Size(screenWidth, 0.0)
      ensures deferredToOverlay == old(deferredToOverlay)
      ensures stretchFrame == old(stretchFrame) && originalStretchFrame == old(originalStretchFrame)
      ensures events == old(events) + [DidUpdateContentSize(Size(screenWidth, 0.0))]
    {
      containers := [];
      UpdateLayout();
    }

    /** `addContainers(_:)`: one `addContainer(_:)` per element, in order. */
    method AddContainers(cs: seq<Container>)
      requires Valid()
      modifies this`containers, this`stretchFrame, this`originalStretchFrame, this`deferredToOverlay,
        this`contentSize, this`overlayContentSize, this`events
      ensures Valid()
      ensures |cs| == 0 ==> unchanged(this)
      ensures |cs| > 0 ==> LaidOut() && containers == Layout(old(containers) + cs)
      ensures |cs| > 0 ==> deferredToOverlay == old(deferredToOverlay) + TakeoverIds(old(containers) + cs)
      ensures !(enableStretchHeader && |containers| > 0) ==>
        stretchFrame == old(stretchFrame) && originalStretchFrame == old(originalStretchFrame)
      ensures events == old(events) + GrowthReports(screenWidth, old(containers), cs)
    {
      if |cs| == 0 {
        return;
      }
      // The first call is taken out of the loop so that the loop invariant
      // can speak of a laid-out list.
      ghost var start := containers;
      AddFirst(cs);
      var i := 1;
      while i < |cs|
        invariant 1 <= i <= |cs|
        invariant AddedUpTo(start, cs, i, old(deferredToOverlay), old(stretchFrame), old(originalStretchFrame), old(events))
      {
        AddNext(start, cs, i, old(deferredToOverlay), old(stretchFrame), old(originalStretchFrame), old(events));
        i := i + 1;
      }
      assert cs[..i] == cs;
    }

    /**
     * The state of `addContainers(_:)` after the first `i` containers of `cs`
     * were added to the list `start`.
     */
    ghost predicate AddedUpTo(start: seq<Container>, cs: seq<Container>, i: nat, deferred: set<Id>,
                              stretch: Rect, original: Rect, reported: seq<Event>)
      reads this
      requires i <= |cs|
    {
      && Valid() && LaidOut()
      && containers == Layout(start + cs[..i])
      && deferredToOverlay == deferred + TakeoverIds(start + cs[..i])
      && (!enableStretchHeader ==> stretchFrame == stretch && originalStretchFrame == original)
      && events == reported + GrowthReports(screenWidth, start, cs[..i])
    }

    /** The first pass of `addContainers(_:)`, on a list not yet known to be laid out. */
    method AddFirst(cs: seq<Container>)
      requires 0 < |cs| && Valid()
      modifies this`containers, this`stretchFrame, this`originalStretchFrame, this`deferredToOverlay,
        this`contentSize, this`overlayContentSize, this`events
      ensures AddedUpTo(old(containers), cs, 1, old(deferredToOverlay), old(stretchFrame), old(originalStretchFrame), old(events))
    {
      assert containers + [cs[0]] == containers + cs[..1];
      ReportOfLaidOut(screenWidth, containers, cs, 0);
      AddContainer(cs[0]);
    }

    /** One pass of `addContainers(_:)`: add container `i`. */
    method AddNext(ghost start: seq<Container>, cs: seq<Container>, i: nat, ghost deferred: set<Id>,
                   ghost stretch: Rect, ghost original: Rect, ghost reported: seq<Event>)
      requires 0 < i < |cs| && AddedUpTo(start, cs, i, deferred, stretch, original, reported)
      modifies this`containers, this`stretchFrame, this`originalStretchFrame, this`deferredToOverlay,
        this`contentSize, this`overlayContentSize, this`events
      ensures AddedUpTo(start, cs, i + 1, deferred, stretch, original, reported)
    {
      ghost var before := GrowthReports(screenWidth, start, cs[..i]);
      ghost var next := start + cs[..i + 1];
      AppendNext(start, cs, i, deferred);
      ReportOfLaidOut(screenWidth, start, cs, i);
      AddContainer(cs[i]);
      assert overlayContentSize == Size(screenWidth, TotalContentHeight(Layout(next)));
      assert events == (reported + before) + [SizeReport(screenWidth, Layout(next))];
      AppendAssociates(reported, before, [SizeReport(screenWidth, Layout(next))]);
    }

    // ---------------------------------------------------------------------
    // Layout

    /**
     * `updateLayout`: stack the attach views end to end in registry order,
     * set up the stretch header on the first container, let the takeover
     * scroll views defer to the overlay, and recompute both content sizes.
     */
    method UpdateLayout()
      requires Valid()
      modifies this`containers, this`stretchFrame, this`originalStretchFrame, this`deferredToOverlay,
        this`contentSize, this`overlayContentSize, this`events
      ensures Valid() && LaidOut()
      ensures containers == Layout(old(containers))
      ensures deferredToOverlay == old(deferredToOverlay) + TakeoverIds(old(containers))
      ensures !(enableStretchHeader && |containers| > 0) ==>
        stretchFrame == old(stretchFrame) && originalStretchFrame == old(originalStretchFrame)
      ensures events == old(events) + [DidUpdateContentSize(overlayContentSize)]
    {
      var yOffset := StackContainers();
      contentSize := Size(screenWidth, yOffset);
      UpdateOverlayContentSize();
    }

    /**
     * The loop of `updateLayout`: each attach view is moved to the running
     * total of the heights before it, and the total is returned.
     */
    method StackContainers() returns (yOffset: real)
      modifies this`containers, this`stretchFrame, this`originalStretchFrame, this`deferredToOverlay
      ensures containers == Layout(old(containers))
      ensures Contiguous(containers) && yOffset == StackHeight(containers)
      ensures deferredToOverlay == old(deferredToOverlay) + TakeoverIds(old(containers))
      ensures if enableStretchHeader && |containers| > 0 then
          stretchFrame == originalStretchFrame == Baseline(stretchCustomFrame, containers[0].frame)
        else
          stretchFrame == old(stretchFrame) && originalStretchFrame == old(originalStretchFrame)
    {
      var cs := containers;
      yOffset := 0.0;
      var i := 0;
      LaidUpToEnd(cs);
      while i < |cs|
        invariant 0 <= i <= |cs|
        invariant StackedUpTo(cs, i, yOffset, old(deferredToOverlay), old(stretchFrame), old(originalStretchFrame))
      {
        yOffset := PlaceContainer(cs, i, yOffset, old(deferredToOverlay), old(stretchFrame), old(originalStretchFrame));
        i := i + 1;
      }
      assert cs[..i] == cs;
      LayoutIsContiguous(cs);
      LayoutKeepsSizes(cs);
      if |cs| > 0 {
        assert cs[..0] == [];
      }
    }

    /**
     * The state of `updateLayout`'s loop after `i` passes over the list `cs`:
     * the first `i` attach views are laid out, `y` is where the last of them
     * ends, their takeover scroll views defer to the overlay, and the stretch
     * header is set up from the first one when it is enabled.
     */
    ghost predicate StackedUpTo(cs: seq<Container>, i: nat, y: real, deferred: set<Id>, stretch: Rect, original: Rect)
      reads this
      requires i <= |cs|
    {
      && containers == LaidUpTo(cs, i)
      && y == StackHeight(cs[..i])
      && deferredToOverlay == deferred + TakeoverIds(cs[..i])
      && if enableStretchHeader && i > 0 then
           stretchFrame == originalStretchFrame == Baseline(stretchCustomFrame, cs[0].frame.(y := 0.0))
         else
           stretchFrame == stretch && originalStretchFrame == original
    }

    /**
     * One pass of `updateLayout`'s loop: container `i`'s attach view moves
     * to `yOffset`, and the result is where it now ends.
     */
    method PlaceContainer(ghost cs: seq<Container>, i: nat, yOffset: real,
                          ghost deferred: set<Id>, ghost stretch: Rect, ghost original: Rect) returns (next: real)
      requires i < |cs| && StackedUpTo(cs, i, yOffset, deferred, stretch, original)
      modifies this`containers, this`stretchFrame, this`originalStretchFrame, this`deferredToOverlay
      ensures StackedUpTo(cs, i + 1, next, deferred, stretch, original)
    {
      LaidUpToStep(cs, i);
      StackHeightStep(cs, i);
      TakeoverIdsStep(cs, i, deferred);
      var wrapper := containers[i];
      if wrapper.needsPanGestureTakeover && wrapper.managed.Some? {
        deferredToOverlay := deferredToOverlay + {wrapper.managed.value.id};
      }
      var frame := wrapper.frame.(y := yOffset);
      containers := containers[i := wrapper.(frame := frame)];
      next := frame.MaxY();
      if enableStretchHeader && i == 0 {
        SetupStretchHeader(frame);
      }
    }

    /** `setupStretchHeader(for:)`: capture the header baseline from the first attach view. */
    method SetupStretchHeader(attach: Rect)
      modifies this`stretchFrame, this`originalStretchFrame
      ensures stretchFrame == originalStretchFrame == Baseline(stretchCustomFrame, attach)
    {
      stretchFrame := if stretchCustomFrame.IsEmpty() then attach.Bounds() else stretchCustomFrame;
      originalStretchFrame := stretchFrame;
    }

    /** `enableStretchHeader` and its `didSet`: the header is hidden exactly when disabled. */
    method SetEnableStretchHeader(enabled: bool)
      modifies this`enableStretchHeader, this`stretchHidden
      ensures enableStretchHeader == enabled && stretchHidden == !enabled
    {
      enableStretchHeader := enabled;
      stretchHidden := !enableStretchHeader;
    }

    /** `calculateTotalContentHeight()` */
    method CalculateTotalContentHeight() returns (totalHeight: real)
      ensures totalHeight == TotalContentHeight(containers)
    {
      totalHeight := 0.0;
      var i := 0;
      while i < |containers|
        invariant 0 <= i <= |containers|
        invariant totalHeight == TotalContentHeight(containers[..i])
      {
        var wrapper := containers[i];
        match wrapper.managed {
          case Some(scrollView) =>
            var contentHeight := scrollView.contentHeight + scrollView.insetTop + scrollView.insetBottom;
            totalHeight := totalHeight + Max(contentHeight, scrollView.frameHeight);
          case None =>
            totalHeight := totalHeight + wrapper.frame.height;
        }
        assert containers[..i + 1][..i] == containers[..i];
        i := i + 1;
      }
      assert containers[..i] == containers;
    }

    /** `updateOverlayContentSize()`: recompute the overlay's content size and report it. */
    method UpdateOverlayContentSize()
      modifies this`overlayContentSize, this`events
      ensures overlayContentSize == Size(contentSize.width, TotalContentHeight(containers))
      ensures events == old(events) + [DidUpdateContentSize(overlayContentSize)]
    {
      var totalHeight := CalculateTotalContentHeight();
      overlayContentSize := Size(contentSize.width, totalHeight);
      events := events + [DidUpdateContentSize(Size(contentSize.width, totalHeight))];
    }

    /** The bounds observer: container `id`'s attach view now has size `size`; re-layout. */
    method AttachViewBoundsDidChange(id: Id, size: Size)
      requires Valid()
      modifies this`containers, this`stretchFrame, this`originalStretchFrame, this`deferredToOverlay,
        this`contentSize, this`overlayContentSize, this`events
      ensures Valid() && LaidOut()
      ensures containers == Layout(Resized(old(containers), id, size))
      ensures deferredToOverlay == old(deferredToOverlay) + TakeoverIds(Resized(old(containers), id, size))
      ensures !(enableStretchHeader && |containers| > 0) ==>
        stretchFrame == old(stretchFrame) && originalStretchFrame == old(originalStretchFrame)
      ensures events == old(events) + [DidUpdateContentSize(overlayContentSize)]
    {
      containers := Resized(containers, id, size);
      UpdateLayout();
    }

    /**
     * `handleContentSizeChange(for:change:)`: scroll view `sid` reports its
     * content size went from `oldSize` to `newSize`. A notification that
     * changes nothing is ignored; otherwise the first container managing the
     * scroll view is refitted and the overlay content size recomputed.
     */
    method HandleContentSizeChange(sid: Id, oldSize: Size, newSize: Size)
      requires Valid()
      modifies this`containers, this`overlayContentSize, this`events
      ensures Valid()
      ensures newSize == oldSize ==> unchanged(this)
      ensures newSize != oldSize ==>
        && containers == Refitted(old(containers), sid, newSize)
        && overlayContentSize == Size(contentSize.width, TotalContentHeight(containers))
        && events == old(events) + [DidUpdateContentSize(overlayContentSize)]
    {
      if newSize == oldSize {
        return;
      }
      containers := WithContentHeight(containers, sid, newSize.height);
      var found := FirstManaging(containers, sid);
      if found.Some? {
        var wrapper := containers[found.value];
        if wrapper.needsAutoFrameUpdate {
          var frame := wrapper.frame.(width := newSize.width, height := newSize.height);
          containers := containers[found.value := wrapper.(frame := frame)];
        } else if wrapper.customHeight > 0.0 {
          var frame := wrapper.frame.(height := wrapper.customHeight);
          containers := containers[found.value := wrapper.(frame := frame)];
        }
      }
      assert containers == Refitted(old(containers), sid, newSize);
      UpdateOverlayContentSize();
    }

    // ---------------------------------------------------------------------
    // Scroll control and child scroll views

    /** `scrollToContainer(_:animated:)`: move the overlay to the container's top edge. */
    method ScrollToContainer(id: Id)
      modifies this`overlayOffset
      ensures FirstIndexOf(containers, id).None? ==> overlayOffset == old(overlayOffset)
      ensures FirstIndexOf(containers, id).Some? ==>
        overlayOffset == Point(contentOffset.x, containers[FirstIndexOf(containers, id).value].frame.y)
    {
      var found := FirstIndexOf(containers, id);
      if found.Some? {
        overlayOffset := Point(contentOffset.x, containers[found.value].frame.y);
      }
    }

    /** `scrollToTop(animated:)` */
    method ScrollToTop()
      modifies this`overlayOffset
      ensures overlayOffset == Origin
    {
      overlayOffset := Origin;
    }

    /**
     * `addChildScrollView(_:)`: start tracking a child scroll view with a zero
     * bookkeeping entry and make its gesture defer to the overlay's; a child
     * already tracked is left alone.
     */
    method AddChildScrollView(sid: Id)
      requires Valid()
      modifies this`childScrollViews, this`childScrollViewOffsets, this`deferredToOverlay
      ensures Valid()
      ensures sid in old(childScrollViews) ==> unchanged(this)
      ensures sid !in old(childScrollViews) ==>
        && childScrollViews == old(childScrollViews) + {sid}
        && childScrollViewOffsets == old(childScrollViewOffsets)[sid := 0.0]
        && deferredToOverlay == old(deferredToOverlay) + {sid}
    {
      if sid in childScrollViews {
        return;
      }
      childScrollViewOffsets := childScrollViewOffsets[sid := 0.0];
      childScrollViews := childScrollViews + {sid};
      deferredToOverlay := deferredToOverlay + {sid};
    }

    // ---------------------------------------------------------------------
    // Scroll arbitration

    /** The delegate's hover height when it supplies one, else `topContainerHeight`. */
    function HoverHeight(delegateHover: Option<real>): (h: real)
      reads this
      ensures delegateHover.Some? ==> h == delegateHover.value
      ensures delegateHover.None? ==> h == TopHeight(containers)
    {
      delegateHover.GetOr(TopHeight(containers))
    }

    /**
     * The non-bouncing edge case that ends a tick before the stretch and
     * hover logic run.
     */
    predicate StopsAtTopEdge(offsetY: real)
      reads this
    {
      !bounces && offsetY <= 0.0 && (!allowChildScrollWhenBouncing || LastManaged(containers).Some?)
    }

    /** `updateStretchHeader(offset:)` */
    method UpdateStretchHeader(offset: real)
      modifies this`stretchFrame
      ensures stretchFrame == if enableStretchHeader then StretchedFrame(originalStretchFrame, offset)
                              else old(stretchFrame)
    {
      if !enableStretchHeader {
        return;
      }
      if offset >= 0.0 {
        stretchFrame := Rect(0.0, 0.0, originalStretchFrame.width, originalStretchFrame.height);
      } else {
        stretchFrame := Rect(0.0, offset, originalStretchFrame.width, originalStretchFrame.height - offset);
      }
    }

    /**
     * The state below the hover height, from bookkeeping `oldScroll` and
     * `oldChild`: the composite view follows the overlay's offset `raw`, and
     * when the last container manages a scroll view, that scroll view and
     * every tracked child are back at 0.
     */
    ghost predicate FollowsOverlay(raw: Point, oldScroll: map<Id, real>, oldChild: map<Id, real>)
      reads this
    {
      && !isHovering && contentOffset == raw
      && (LastManaged(containers).None? ==> childScrollViewOffsets == oldChild && scrollOffsets == oldScroll)
      && (LastManaged(containers).Some? ==>
            var sid := LastManaged(containers).value.id;
            && scrollOffsets == ZeroOn(oldScroll, childScrollViews + {sid})
            && childScrollViewOffsets == ZeroOn(oldChild, childScrollViews))
    }

    /**
     * The state from the hover height on: the composite view is pinned at
     * `hoverHeight`, and the last container's scroll view (when there is one)
     * is at `offset - hoverHeight`; its bookkeeping entry, if it has one,
     * records `offset`.
     */
    ghost predicate PinnedAtHover(offset: real, hoverHeight: real, oldScroll: map<Id, real>, oldChild: map<Id, real>)
      reads this
    {
      && isHovering && contentOffset == Point(0.0, hoverHeight)
      && (LastManaged(containers).None? ==> childScrollViewOffsets == oldChild && scrollOffsets == oldScroll)
      && (LastManaged(containers).Some? ==>
            var sid := LastManaged(containers).value.id;
            && scrollOffsets == oldScroll[sid := offset - hoverHeight]
            && childScrollViewOffsets ==
                 if sid in oldChild then oldChild[sid := offset] else oldChild)
    }

    /**
     * Either way the overlay's offset is split between the composite view
     * and the last container's scroll view: the two add up to `raw.y`.
     */
    lemma OffsetIsSplit(raw: Point, hoverHeight: real, oldScroll: map<Id, real>, oldChild: map<Id, real>)
      requires if hoverHeight <= raw.y then PinnedAtHover(raw.y, hoverHeight, oldScroll, oldChild)
               else FollowsOverlay(raw, oldScroll, oldChild)
      requires LastManaged(containers).Some?
      ensures isHovering <==> hoverHeight <= raw.y
      ensures LastManaged(containers).value.id in scrollOffsets
      ensures contentOffset.y + scrollOffsets[LastManaged(containers).value.id] == raw.y
    {
      var sid := LastManaged(containers).value.id;
      if hoverHeight > raw.y {
        assert sid in childScrollViews + {sid};
      }
    }

    /**
     * `scrollViewDidScroll(_:)`: the overlay reports content offset `raw`.
     * Below the hover height the composite view follows `raw` and the last
     * container's scroll view and every tracked child are reset to 0; from
     * the hover height on, the composite view is pinned at the hover height
     * and the last container's scroll view takes the remainder.
     */
    method ScrollViewDidScroll(raw: Point, delegateHover: Option<real>)
      requires Valid()
      modifies this`isHovering, this`contentOffset, this`overlayOffset, this`panCancellations,
        this`stretchFrame, this`childScrollViewOffsets, this`scrollOffsets, this`events
      ensures Valid()
      ensures events == old(events) + [DidUpdateOffset(raw)]
      ensures StopsAtTopEdge(raw.y) ==>
        && !isHovering && contentOffset == Origin
        && (if allowChildScrollWhenBouncing
            then overlayOffset == Origin && panCancellations == old(panCancellations) + 1
            else overlayOffset == raw && panCancellations == old(panCancellations))
        && stretchFrame == old(stretchFrame)
        && childScrollViewOffsets == old(childScrollViewOffsets)
        && scrollOffsets == old(scrollOffsets)
      ensures !StopsAtTopEdge(raw.y) ==>
        && overlayOffset == raw && panCancellations == old(panCancellations)
        && stretchFrame == (if enableStretchHeader then StretchedFrame(originalStretchFrame, raw.y)
                            else old(stretchFrame))
        && (if HoverHeight(delegateHover) <= raw.y
            then PinnedAtHover(raw.y, HoverHeight(delegateHover), old(scrollOffsets), old(childScrollViewOffsets))
            else FollowsOverlay(raw, old(scrollOffsets), old(childScrollViewOffsets)))
    {
      var hoverHeight := HoverHeight(delegateHover);
      var offset := raw.y;
      overlayOffset := raw;
      events := events + [DidUpdateOffset(raw)];

      var stopped := HandleTopEdge(offset);
      if !stopped {
        Arbitrate(raw, hoverHeight);
      }
    }

    /**
     * The rest of `scrollViewDidScroll(_:)` once the edge case has not
     * returned: stretch the header, then follow the overlay below the hover
     * height or pin at the hover height from there on.
     */
    method Arbitrate(raw: Point, hoverHeight: real)
      requires Valid()
      modifies this`isHovering, this`contentOffset, this`stretchFrame, this`childScrollViewOffsets, this`scrollOffsets
      ensures Valid()
      ensures stretchFrame == (if enableStretchHeader then StretchedFrame(originalStretchFrame, raw.y)
                               else old(stretchFrame))
      ensures if hoverHeight <= raw.y
        then PinnedAtHover(raw.y, hoverHeight, old(scrollOffsets), old(childScrollViewOffsets))
        else FollowsOverlay(raw, old(scrollOffsets), old(childScrollViewOffsets))
    {
      var offset := raw.y;
      UpdateStretchHeader(offset);
      if offset < hoverHeight {
        FollowOverlay(raw);
      } else {
        PinAtHover(offset, hoverHeight);
      }
    }

    /**
     * The non-bouncing edge case of `scrollViewDidScroll(_:)`: at or above
     * the top edge the composite view is reset; `stopped` tells whether the
     * source returns early there, after pulling the overlay back and
     * cancelling its pan gesture when a child may scroll instead.
     */
    method HandleTopEdge(offset: real) returns (stopped: bool)
      modifies this`isHovering, this`contentOffset, this`overlayOffset, this`panCancellations
      ensures stopped == StopsAtTopEdge(offset)
      ensures stopped ==> !isHovering && contentOffset == Origin
      ensures stopped && allowChildScrollWhenBouncing ==>
        overlayOffset == Origin && panCancellations == old(panCancellations) + 1
      ensures !(stopped && allowChildScrollWhenBouncing) ==>
        overlayOffset == old(overlayOffset) && panCancellations == old(panCancellations)
      ensures !stopped ==>
        if !bounces && offset <= 0.0 then !isHovering && contentOffset == Origin
        else isHovering == old(isHovering) && contentOffset == old(contentOffset)
    {
      stopped := false;
      if !bounces && offset <= 0.0 {
        isHovering := false;
        contentOffset := Origin;
        if !allowChildScrollWhenBouncing {
          stopped := true;
        } else if LastManaged(containers).Some? {
          overlayOffset := Origin;
          panCancellations := panCancellations + 1;
          stopped := true;
        }
      }
    }

    /** The branch of `scrollViewDidScroll(_:)` below the hover height. */
    method FollowOverlay(raw: Point)
      requires Valid()
      modifies this`isHovering, this`contentOffset, this`childScrollViewOffsets, this`scrollOffsets
      ensures Valid()
      ensures FollowsOverlay(raw, old(scrollOffsets), old(childScrollViewOffsets))
    {
      isHovering := false;
      contentOffset := raw;
      var last := LastManaged(containers);
      if last.Some? {
        var lastScrollView := last.value.id;
        if lastScrollView in childScrollViewOffsets {
          childScrollViewOffsets := childScrollViewOffsets[lastScrollView := 0.0];
        }
        scrollOffsets := scrollOffsets[lastScrollView := 0.0];
        ZeroChildScrollViews();
        ZeroOnOneMore(old(scrollOffsets), childScrollViews, lastScrollView);
        ZeroOnOneMore(old(childScrollViewOffsets), childScrollViews, lastScrollView);
        assert lastScrollView in old(childScrollViewOffsets) ==>
          childScrollViews + {lastScrollView} == childScrollViews;
      }
    }

    /** The branch of `scrollViewDidScroll(_:)` from the hover height on. */
    method PinAtHover(offset: real, hoverHeight: real)
      requires Valid()
      modifies this`isHovering, this`contentOffset, this`childScrollViewOffsets, this`scrollOffsets
      ensures Valid()
      ensures PinnedAtHover(offset, hoverHeight, old(scrollOffsets), old(childScrollViewOffsets))
    {
      isHovering := true;
      contentOffset := Point(0.0, hoverHeight);
      var last := LastManaged(containers);
      if last.Some? {
        var lastScrollView := last.value.id;
        scrollOffsets := scrollOffsets[lastScrollView := offset - contentOffset.y];
        if lastScrollView in childScrollViewOffsets {
          childScrollViewOffsets := childScrollViewOffsets[lastScrollView := offset];
        }
      }
    }

    /** Set every tracked child's offset and bookkeeping entry to 0. */
    method ZeroChildScrollViews()
      modifies this`scrollOffsets, this`childScrollViewOffsets
      ensures scrollOffsets == ZeroOn(old(scrollOffsets), childScrollViews)
      ensures childScrollViewOffsets == ZeroOn(old(childScrollViewOffsets), childScrollViews)
    {
      var pending := childScrollViews;
      while pending != {}
        invariant pending <= childScrollViews
        invariant scrollOffsets == ZeroOn(old(scrollOffsets), childScrollViews - pending)
        invariant childScrollViewOffsets == ZeroOn(old(childScrollViewOffsets), childScrollViews - pending)
        decreases pending
      {
        var child :| child in pending;
        scrollOffsets := scrollOffsets[child := 0.0];
        childScrollViewOffsets := childScrollViewOffsets[child := 0.0];
        ZeroOnOneMore(old(scrollOffsets), childScrollViews - pending, child);
        ZeroOnOneMore(old(childScrollViewOffsets), childScrollViews - pending, child);
        assert childScrollViews - (pending - {child}) == (childScrollViews - pending) + {child};
        pending := pending - {child};
      }
    }
  }
}
