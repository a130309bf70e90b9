/**
 * The container registry of a nested scroll view: what a container is, how
 * containers are found by identity, and the list edits that adding, inserting
 * and removing perform. Swift compares containers with `===`; here every
 * container object and every scroll view carries an opaque identity token.
 */
module Containers {
  import opened Wrappers
  import opened Geometry

  /** Identity of a container object or of a scroll view. */
  type Id = nat

  /** What the coordinator reads of a UIScrollView managed by a container. */
  datatype ScrollView = ScrollView(
    id: Id,
    contentHeight: Length,  // contentSize.height
    insetTop: real,         // contentInset.top
    insetBottom: real,      // contentInset.bottom
    frameHeight: Length)    // frame.height

  /**
   * A registered container, as its wrapper presents it: the frame of its
   * attach view, its optional managed scroll view and its three policy flags
   * (a plain UIView container has no scroll view and the default flags).
   */
  datatype Container = Container(
    id: Id,
    frame: Rect,
    managed: Option<ScrollView>,
    needsAutoFrameUpdate: bool,
    customHeight: real,
    needsPanGestureTakeover: bool)

  /** Does container `c` manage the scroll view `sid`? */
  predicate Manages(c: Container, sid: Id) {
    c.managed.Some? && c.managed.value.id == sid
  }

  /** Swift's `firstIndex(where:)`: the smallest index whose element satisfies `p`. */
  function FirstWhere<T>(s: seq<T>, p: T -> bool): (r: Option<nat>)
    ensures r.Some? ==> r.value < |s| && p(s[r.value])
    ensures r.Some? ==> forall j :: 0 <= j < r.value ==> !p(s[j])
    ensures r.None? <==> forall j :: 0 <= j < |s| ==> !p(s[j])
  {
    if s == [] then None
    else if p(s[0]) then Some(0)
    else match FirstWhere(s[1..], p)
      case None => None
      case Some(i) => Some(i + 1)
  }

  /** The position of the first container whose identity is `id` (`isEqual(to:)`). */
  function FirstIndexOf(cs: seq<Container>, id: Id): (r: Option<nat>)
    ensures r.Some? ==> r.value < |cs| && cs[r.value].id == id
    ensures r.Some? ==> forall j :: 0 <= j < r.value ==> cs[j].id != id
    ensures r.None? <==> forall j :: 0 <= j < |cs| ==> cs[j].id != id
  {
    FirstWhere(cs, (c: Container) => c.id == id)
  }

  /** The position of the first container that manages scroll view `sid`. */
  function FirstManaging(cs: seq<Container>, sid: Id): (r: Option<nat>)
    ensures r.Some? ==> r.value < |cs| && Manages(cs[r.value], sid)
    ensures r.Some? ==> forall j :: 0 <= j < r.value ==> !Manages(cs[j], sid)
    ensures r.None? <==> forall j :: 0 <= j < |cs| ==> !Manages(cs[j], sid)
  {
    FirstWhere(cs, (c: Container) => Manages(c, sid))
  }

  /** `Array.insert(_:at:)` */
  function InsertAt(cs: seq<Container>, c: Container, i: nat): seq<Container>
    requires i <= |cs|
  {
    cs[..i] + [c] + cs[i..]
  }

  /** `Array.remove(at:)` */
  function RemoveAt(cs: seq<Container>, i: nat): seq<Container>
    requires i < |cs|
  {
    cs[..i] + cs[i + 1..]
  }

  /** Removing what was just inserted gives back the original list. */
  lemma InsertThenRemove(cs: seq<Container>, c: Container, i: nat)
    requires i <= |cs|
    ensures |InsertAt(cs, c, i)| == |cs| + 1 && InsertAt(cs, c, i)[i] == c
    ensures RemoveAt(InsertAt(cs, c, i), i) == cs
  {
    var r := InsertAt(cs, c, i);
    assert r[..i] == cs[..i];
    assert r[i + 1..] == cs[i..];
  }

  /** Putting a removed container back where it was gives back the original list. */
  lemma RemoveThenInsert(cs: seq<Container>, i: nat)
    requires i < |cs|
    ensures |RemoveAt(cs, i)| == |cs| - 1
    ensures InsertAt(RemoveAt(cs, i), cs[i], i) == cs
  {
    var r := RemoveAt(cs, i);
    assert r[..i] == cs[..i];
    assert r[i..] == cs[i + 1..];
  }

  /**
   * The list after `insertContainer(_:at:)`: the container goes to position
   * `min(index, count)` and every other container keeps its relative order.
   */
  function InsertedAt(cs: seq<Container>, c: Container, index: nat): (r: seq<Container>)
    ensures |r| == |cs| + 1
    ensures index <= |cs| ==> r[index] == c && RemoveAt(r, index) == cs
    ensures |cs| < index ==> r[|cs|] == c && RemoveAt(r, |cs|) == cs
  {
    var i := if index < |cs| then index else |cs|;
    InsertThenRemove(cs, c, i);
    InsertAt(cs, c, i)
  }

  /**
   * The list after `addContainer(_:before:)`: just before the first container
   * with the anchor's identity, or at the end when there is none.
   */
  function InsertedBefore(cs: seq<Container>, c: Container, anchor: Id): (r: seq<Container>)
    ensures |r| == |cs| + 1
    ensures FirstIndexOf(cs, anchor).Some? ==>
      var i := FirstIndexOf(cs, anchor).value;
      r[i] == c && r[i + 1].id == anchor && RemoveAt(r, i) == cs
    ensures FirstIndexOf(cs, anchor).None? ==> r[|cs|] == c && RemoveAt(r, |cs|) == cs
  {
    match FirstIndexOf(cs, anchor)
    case Some(i) =>
      InsertThenRemove(cs, c, i);
      InsertAt(cs, c, i)
    case None =>
      InsertThenRemove(cs, c, |cs|);
      assert InsertAt(cs, c, |cs|) == cs + [c];
      cs + [c]
  }

  /**
   * The list after `addContainer(_:after:)`: just after the first container
   * with the anchor's identity, or at the FRONT when there is none (unlike
   * the `before` variant, which appends).
   */
  function InsertedAfter(cs: seq<Container>, c: Container, anchor: Id): (r: seq<Container>)
    ensures |r| == |cs| + 1
    ensures FirstIndexOf(cs, anchor).Some? ==>
      var i := FirstIndexOf(cs, anchor).value;
      r[i].id == anchor && r[i + 1] == c && RemoveAt(r, i + 1) == cs
    ensures FirstIndexOf(cs, anchor).None? ==> r[0] == c && RemoveAt(r, 0) == cs
  {
    match FirstIndexOf(cs, anchor)
    case Some(i) =>
      InsertThenRemove(cs, c, i + 1);
      InsertAt(cs, c, i + 1)
    case None =>
      InsertThenRemove(cs, c, 0);
      InsertAt(cs, c, 0)
  }

  /**
   * The list after `removeContainer(_:)`: only the first container with that
   * identity is dropped; without one the list is left as it is.
   */
  function RemoveFirst(cs: seq<Container>, id: Id): (r: seq<Container>)
    ensures FirstIndexOf(cs, id).None? ==> r == cs
    ensures FirstIndexOf(cs, id).Some? ==>
      var i := FirstIndexOf(cs, id).value;
      |r| == |cs| - 1 && InsertAt(r, cs[i], i) == cs
  {
    match FirstIndexOf(cs, id)
    case Some(i) =>
      RemoveThenInsert(cs, i);
      RemoveAt(cs, i)
    case None => cs
  }

  /** The identities of a list of containers, in order. */
  function Ids(cs: seq<Container>): (r: seq<Id>)
    ensures |r| == |cs|
    ensures forall i :: 0 <= i < |cs| ==> r[i] == cs[i].id
  {
    seq(|cs|, i requires 0 <= i < |cs| => cs[i].id)
  }

  /** Removing a present container drops exactly one occurrence of its identity. */
  lemma RemoveFirstDropsOneEntry(cs: seq<Container>, id: Id)
    requires FirstIndexOf(cs, id).Some?
    ensures multiset(Ids(RemoveFirst(cs, id))) + multiset{id} == multiset(Ids(cs))
  {
    var i := FirstIndexOf(cs, id).value;
    var r := RemoveFirst(cs, id);
    RemoveThenInsert(cs, i);
    assert r == cs[..i] + cs[i + 1..];
    assert Ids(r) == Ids(cs[..i]) + Ids(cs[i + 1..]);
    assert Ids(cs) == Ids(cs[..i]) + [id] + Ids(cs[i + 1..]);
  }

  /** A container appended and then removed by its identity leaves no trace. */
  lemma RemoveAppended(cs: seq<Container>, c: Container)
    requires FirstIndexOf(cs, c.id).None?
    ensures RemoveFirst(cs + [c], c.id) == cs
  {
    var r := cs + [c];
    assert r[|cs|].id == c.id;
    assert forall j :: 0 <= j < |cs| ==> r[j] == cs[j];
    assert FirstIndexOf(r, c.id) == Some(|cs|);
    assert r[..|cs|] == cs;
  }
}
