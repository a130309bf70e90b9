/**
 * Stacking layout of the registered containers: attach views are laid end to
 * end in registry order, the hover height is the height of everything above
 * the last container, and the driving surface's content height adds up what
 * each container can scroll through.
 */
module Stacking {
  import opened Wrappers
  import opened Geometry
  import opened Containers

  /** Sum of the attach-view heights of `cs` (the running total of `updateLayout`). */
  function StackHeight(cs: seq<Container>): (h: real)
    ensures h >= 0.0
    ensures |cs| > 0 ==> h >= cs[|cs| - 1].frame.height
  {
    if cs == [] then 0.0 else StackHeight(cs[..|cs| - 1]) + cs[|cs| - 1].frame.height
  }

  /** Extending a prefix by one container adds that container's height. */
  lemma StackHeightStep(cs: seq<Container>, i: nat)
    requires i < |cs|
    ensures StackHeight(cs[..i + 1]) == StackHeight(cs[..i]) + cs[i].frame.height
  {
    assert cs[..i + 1][..i] == cs[..i];
  }

  /** The same container with the top edge of its attach view moved to `y`. */
  function Place(c: Container, y: real): Container {
    c.(frame := c.frame.(y := y))
  }

  /** Two lists that differ at most in where their attach views start. */
  ghost predicate SameButOrigins(r: seq<Container>, cs: seq<Container>) {
    |r| == |cs| && forall i :: 0 <= i < |cs| ==> r[i] == Place(cs[i], r[i].frame.y)
  }

  /** Frames laid end to end from the top: no gap and no overlap. */
  ghost predicate Contiguous(cs: seq<Container>) {
    && (|cs| > 0 ==> cs[0].frame.y == 0.0)
    && forall i, j {:trigger cs[i], cs[j]} :: 0 <= i && j == i + 1 && j < |cs| ==> cs[j].frame.y == cs[i].frame.MaxY()
  }

  /**
   * The containers as `updateLayout` leaves them: each attach view starts at
   * the sum of the heights of the containers before it.
   */
  function Layout(cs: seq<Container>): (r: seq<Container>)
    ensures |r| == |cs|
  {
    seq(|cs|, i requires 0 <= i < |cs| => Place(cs[i], StackHeight(cs[..i])))
  }

  /** The list while `updateLayout` runs: the first `i` containers laid out, the rest untouched. */
  function LaidUpTo(cs: seq<Container>, i: nat): (r: seq<Container>)
    requires i <= |cs|
    ensures |r| == |cs|
  {
    Layout(cs[..i]) + cs[i..]
  }

  /** One step of `updateLayout` places container `i` at the running total. */
  lemma LaidUpToStep(cs: seq<Container>, i: nat)
    requires i < |cs|
    ensures LaidUpTo(cs, i)[i] == cs[i]
    ensures LaidUpTo(cs, i)[i := Place(cs[i], StackHeight(cs[..i]))] == LaidUpTo(cs, i + 1)
  {
    var a := LaidUpTo(cs, i)[i := Place(cs[i], StackHeight(cs[..i]))];
    var b := LaidUpTo(cs, i + 1);
    forall k | 0 <= k < |cs|
      ensures a[k] == b[k]
    {
      if k < i {
        assert cs[..i + 1][..k] == cs[..i][..k];
      } else if k == i {
        assert cs[..i + 1][..i] == cs[..i];
      }
    }
  }

  /** Once every container is placed, the list is the full layout. */
  lemma LaidUpToEnd(cs: seq<Container>)
    ensures LaidUpTo(cs, 0) == cs
    ensures LaidUpTo(cs, |cs|) == Layout(cs)
  {
    assert cs[..|cs|] == cs;
    assert cs[0..] == cs;
  }

  /** Layout moves origins only: identities, sizes and the stacked height stay. */
  lemma LayoutKeepsSizes(cs: seq<Container>)
    ensures SameButOrigins(Layout(cs), cs)
    ensures StackHeight(Layout(cs)) == StackHeight(cs)
  {
    var r := Layout(cs);
    assert SameButOrigins(r, cs);
    StackHeightIgnoresOrigins(r, cs);
  }

  /**
   * After layout each frame starts where the previous one ends, the first at
   * the top, and the last ends at the total stacked height.
   */
  lemma LayoutIsContiguous(cs: seq<Container>)
    ensures Contiguous(Layout(cs))
    ensures |cs| > 0 ==> Layout(cs)[|cs| - 1].frame.MaxY() == StackHeight(cs)
  {
    var r := Layout(cs);
    forall i, j | 0 <= i && j == i + 1 && j < |cs|
      ensures r[j].frame.y == r[i].frame.MaxY()
    {
      StackHeightStep(cs, i);
    }
    if |cs| > 0 {
      StackHeightStep(cs, |cs| - 1);
      assert cs[..|cs|] == cs;
    }
  }

  /** The stacked height depends on heights alone, never on origins. */
  lemma {:induction false} StackHeightIgnoresOrigins(r: seq<Container>, cs: seq<Container>)
    requires SameButOrigins(r, cs)
    ensures StackHeight(r) == StackHeight(cs)
  {
    if cs != [] {
      var n := |cs| - 1;
      assert SameButOrigins(r[..n], cs[..n]);
      StackHeightIgnoresOrigins(r[..n], cs[..n]);
    }
  }

  /** Layout reads only heights: where the frames started does not matter. */
  lemma LayoutIgnoresOrigins(r: seq<Container>, cs: seq<Container>)
    requires SameButOrigins(r, cs)
    ensures Layout(r) == Layout(cs)
  {
    forall i | 0 <= i < |cs|
      ensures Layout(r)[i] == Layout(cs)[i]
    {
      assert SameButOrigins(r[..i], cs[..i]);
      StackHeightIgnoresOrigins(r[..i], cs[..i]);
    }
  }

  /** Laying out an already laid-out list changes nothing. */
  lemma LayoutIdempotent(cs: seq<Container>)
    ensures Layout(Layout(cs)) == Layout(cs)
  {
    LayoutKeepsSizes(cs);
    LayoutIgnoresOrigins(Layout(cs), cs);
    var r := Layout(cs);
    forall i | 0 <= i < |cs|
      ensures Layout(r)[i] == r[i]
    {
      assert SameButOrigins(r[..i], cs[..i]);
      StackHeightIgnoresOrigins(r[..i], cs[..i]);
    }
  }

  /** Appending to a laid-out list lays out like appending to the original. */
  lemma LayoutAfterAppend(cs: seq<Container>, more: seq<Container>)
    ensures Layout(Layout(cs) + more) == Layout(cs + more)
  {
    LayoutKeepsSizes(cs);
    assert SameButOrigins(Layout(cs) + more, cs + more);
    LayoutIgnoresOrigins(Layout(cs) + more, cs + more);
  }

  /**
   * `topContainerHeight`: the height of every container but the last (0 when
   * there is at most one), the default hover height.
   */
  function TopHeight(cs: seq<Container>): (h: real)
    ensures h >= 0.0
    ensures |cs| <= 1 ==> h == 0.0
    ensures |cs| > 0 ==> h + cs[|cs| - 1].frame.height == StackHeight(cs)
  {
    if |cs| <= 1 then 0.0 else StackHeight(cs[..|cs| - 1])
  }

  /**
   * After layout the last container starts exactly at the top height: the
   * default hover height is reached when the last container hits the top.
   */
  lemma LastOriginIsTopHeight(cs: seq<Container>)
    requires |cs| > 0
    ensures Layout(cs)[|cs| - 1].frame.y == TopHeight(cs)
  {
    if |cs| == 1 {
      assert cs[..0] == [];
    }
  }

  /**
   * What one container adds to the driving surface's content height: its
   * managed scroll view's padded content height (never less than that scroll
   * view's frame), or else its attach-view height.
   */
  function Contribution(c: Container): (h: Length)
    ensures c.managed.None? ==> h == c.frame.height
    ensures c.managed.Some? ==> var sv := c.managed.value;
      && h >= sv.frameHeight && h >= sv.contentHeight + sv.insetTop + sv.insetBottom
      && (h == sv.frameHeight || h == sv.contentHeight + sv.insetTop + sv.insetBottom)
  {
    match c.managed
    case Some(sv) => Max(sv.contentHeight + sv.insetTop + sv.insetBottom, sv.frameHeight)
    case None => c.frame.height
  }

  /** `calculateTotalContentHeight` */
  function TotalContentHeight(cs: seq<Container>): (h: real)
    ensures h >= 0.0
  {
    if cs == [] then 0.0 else TotalContentHeight(cs[..|cs| - 1]) + Contribution(cs[|cs| - 1])
  }

  /** The content height depends on sizes alone: layout never changes it. */
  lemma {:induction false} TotalIgnoresOrigins(r: seq<Container>, cs: seq<Container>)
    requires SameButOrigins(r, cs)
    ensures TotalContentHeight(r) == TotalContentHeight(cs)
  {
    if cs != [] {
      var n := |cs| - 1;
      assert SameButOrigins(r[..n], cs[..n]);
      TotalIgnoresOrigins(r[..n], cs[..n]);
    }
  }

  /** Without managed scroll views the content height is the stacked height. */
  lemma {:induction false} TotalWithoutScrollViews(cs: seq<Container>)
    requires forall i :: 0 <= i < |cs| ==> cs[i].managed.None?
    ensures TotalContentHeight(cs) == StackHeight(cs)
  {
    if cs != [] {
      TotalWithoutScrollViews(cs[..|cs| - 1]);
    }
  }

  /**
   * The content height covers the stacked height when every managed scroll
   * view is exactly as tall as its attach view.
   */
  lemma {:induction false} TotalCoversStack(cs: seq<Container>)
    requires forall i :: 0 <= i < |cs| && cs[i].managed.Some? ==>
      cs[i].managed.value.frameHeight == cs[i].frame.height
    ensures TotalContentHeight(cs) >= StackHeight(cs)
  {
    if cs != [] {
      TotalCoversStack(cs[..|cs| - 1]);
    }
  }

  /** The scroll views of `cs` whose pan gesture must wait for the driving surface's. */
  function TakeoverIds(cs: seq<Container>): set<Id> {
    if cs == [] then {}
    else
      var c := cs[|cs| - 1];
      TakeoverIds(cs[..|cs| - 1]) + if c.needsPanGestureTakeover && c.managed.Some? then {c.managed.value.id} else {}
  }

  /**
   * A scroll view defers to the driving surface exactly when some container
   * that asks for the takeover manages it.
   */
  lemma {:induction false} TakeoverIdsExactly(cs: seq<Container>, id: Id)
    ensures id in TakeoverIds(cs) <==>
      exists i :: 0 <= i < |cs| && cs[i].needsPanGestureTakeover && Manages(cs[i], id)
  {
    if cs != [] {
      var n := |cs| - 1;
      TakeoverIdsExactly(cs[..n], id);
      if exists i :: 0 <= i < n && cs[..n][i].needsPanGestureTakeover && Manages(cs[..n][i], id) {
        var i :| 0 <= i < n && cs[..n][i].needsPanGestureTakeover && Manages(cs[..n][i], id);
        assert cs[i] == cs[..n][i];
      }
      if exists i :: 0 <= i < |cs| && cs[i].needsPanGestureTakeover && Manages(cs[i], id) {
        var i :| 0 <= i < |cs| && cs[i].needsPanGestureTakeover && Manages(cs[i], id);
        if i < n {
          assert cs[..n][i] == cs[i];
        }
      }
    }
  }

  /** Extending a prefix by one container adds that container's takeover scroll view, if any. */
  lemma TakeoverIdsStep(cs: seq<Container>, i: nat, deferred: set<Id>)
    requires i < |cs|
    ensures deferred + TakeoverIds(cs[..i]) + TakeoverIds([cs[i]]) == deferred + TakeoverIds(cs[..i + 1])
  {
    assert cs[..i + 1][..i] == cs[..i];
    assert [cs[i]][..0] == [];
  }

  /** Which scroll views take over depends on the containers, never on where their frames start. */
  lemma {:induction false} TakeoverIdsIgnoresOrigins(r: seq<Container>, cs: seq<Container>)
    requires SameButOrigins(r, cs)
    ensures TakeoverIds(r) == TakeoverIds(cs)
  {
    if cs != [] {
      var n := |cs| - 1;
      assert SameButOrigins(r[..n], cs[..n]);
      TakeoverIdsIgnoresOrigins(r[..n], cs[..n]);
    }
  }

  /**
   * Appending to a laid-out list: the layout and the takeover scroll views
   * are those of appending to the original, and the earlier takeovers stay.
   */
  lemma AppendToLaidOut(prior: seq<Container>, c: Container)
    ensures Layout(Layout(prior) + [c]) == Layout(prior + [c])
    ensures TakeoverIds(Layout(prior) + [c]) == TakeoverIds(prior + [c])
    ensures TakeoverIds(prior) <= TakeoverIds(prior + [c])
  {
    LayoutAfterAppend(prior, [c]);
    LayoutKeepsSizes(prior);
    assert SameButOrigins(Layout(prior) + [c], prior + [c]);
    TakeoverIdsIgnoresOrigins(Layout(prior) + [c], prior + [c]);
    assert (prior + [c])[..|prior|] == prior;
  }

  /**
   * One more container from `more` appended to the laid-out `start + more[..i]`
   * lays out, and takes over, like `start + more[..i + 1]`.
   */
  lemma AppendNext(start: seq<Container>, more: seq<Container>, i: nat, deferred: set<Id>)
    requires i < |more|
    ensures Layout(Layout(start + more[..i]) + [more[i]]) == Layout(start + more[..i + 1])
    ensures deferred + TakeoverIds(start + more[..i]) + TakeoverIds(Layout(start + more[..i]) + [more[i]])
      == deferred + TakeoverIds(start + more[..i + 1])
  {
    var prior := start + more[..i];
    assert prior + [more[i]] == start + more[..i + 1];
    AppendToLaidOut(prior, more[i]);
  }

  /** `containers.last?.managedScrollView` */
  function LastManaged(cs: seq<Container>): (r: Option<ScrollView>)
    ensures r.Some? ==> |cs| > 0 && Manages(cs[|cs| - 1], r.value.id)
  {
    if cs == [] then None else cs[|cs| - 1].managed
  }
}
