/**
 * A worked example: three containers 100, 200 and 300 points tall, the last
 * managing a scroll view with 500 points of content, scrolled to 250 and
 * then to 350 with the default hover height.
 */
module Scenario {
  import opened Wrappers
  import opened Geometry
  import opened Containers
  import opened Stacking
  import opened NestedScroll

  /** A plain view container of height `h`. */
  function PlainView(id: Id, h: Length): Container {
    Container(id, Rect(0.0, 0.0, 320.0, h), None, false, 0.0, false)
  }

  /** The trailing container: its scroll view (id 30) holds 500 points of content. */
  function Feed(): Container {
    Container(3, Rect(0.0, 0.0, 320.0, 300.0), Some(ScrollView(30, 500.0, 0.0, 0.0, 300.0)), false, 0.0, true)
  }

  method ThreeContainers() returns (hover: real, total: real, below: Point, pinned: Point, feedOffset: real)
    ensures hover == 300.0 && total == 800.0
    ensures below == Point(0.0, 250.0) && pinned == Point(0.0, 300.0) && feedOffset == 50.0
  {
    var cs := [PlainView(1, 100.0), PlainView(2, 200.0), Feed()];
    assert cs[..2][..1] == cs[..1] && cs[..1][..0] == [];
    assert StackHeight(cs[..1]) == 100.0;
    assert StackHeight(cs[..2]) == 300.0;
    assert cs[..3] == cs && cs[..3][..2] == cs[..2];
    assert TotalContentHeight(cs[..1]) == 100.0;
    assert TotalContentHeight(cs[..2]) == 300.0;
    var v := new NestedScrollView(320.0, cs);
    LayoutKeepsSizes(cs);
    TotalIgnoresOrigins(Layout(cs), cs);
    hover := v.HoverHeight(None);
    total := v.overlayContentSize.height;
    v.ScrollViewDidScroll(Point(0.0, 250.0), None);
    assert !v.isHovering;
    below := v.contentOffset;
    v.ScrollViewDidScroll(Point(0.0, 350.0), None);
    assert v.isHovering;
    pinned := v.contentOffset;
    feedOffset := v.scrollOffsets[30];
  }
}
