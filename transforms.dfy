// UITransform: a local position and size, an optional anchor to the screen
// or to the parent, and a dirty flag. Transforms refer to their parent, so
// they live in an arena: a parent is an index, and acyclicity is witnessed
// by a ghost rank that strictly decreases from child to parent.

module Transforms {
  import opened Common

  datatype AnchorPoint =
    TopLeft | TopCenter | TopRight | CenterLeft | Center | CenterRight | BottomLeft | BottomCenter | BottomRight

  datatype AnchorTarget = Screen | Parent

  datatype AnchorConfig = AnchorConfig(target: AnchorTarget, point: AnchorPoint, offsetX: real, offsetY: real)

  const DefaultAnchor: AnchorConfig := AnchorConfig(Screen, TopLeft, 0.0, 0.0)

  /** One UITransform; `parent` is an index into the arena. */
  datatype TransformNode = TransformNode(position: Vec2, size: Vec2, hasAnchor: bool, anchor: AnchorConfig,
                                         parent: Option<nat>, dirty: bool)

  /** A freshly constructed transform: at the origin, 0×0, unanchored, no parent, dirty. */
  const NewTransform: TransformNode := TransformNode(Origin, Origin, false, DefaultAnchor, None, true)

  /**
   * getAnchorPointOffset: where a named point of a w×h box lies relative to
   * its bottom-left corner (y grows upward, so Top is h and Bottom 0).
   */
  function AnchorPointOffset(point: AnchorPoint, w: real, h: real): Vec2
  {
    match point
    case TopLeft => Vec2(0.0, h)
    case TopCenter => Vec2(w * 0.5, h)
    case TopRight => Vec2(w, h)
    case CenterLeft => Vec2(0.0, h * 0.5)
    case Center => Vec2(w * 0.5, h * 0.5)
    case CenterRight => Vec2(w, h * 0.5)
    case BottomLeft => Vec2(0.0, 0.0)
    case BottomCenter => Vec2(w * 0.5, 0.0)
    case BottomRight => Vec2(w, 0.0)
  }

  /** The column of a point: 0 for left, 1 for centre, 2 for right. */
  function Column(point: AnchorPoint): nat
  {
    match point
    case TopLeft => 0 case CenterLeft => 0 case BottomLeft => 0
    case TopCenter => 1 case Center => 1 case BottomCenter => 1
    case TopRight => 2 case CenterRight => 2 case BottomRight => 2
  }

  /** The row of a point: 0 for bottom, 1 for centre, 2 for top. */
  function Row(point: AnchorPoint): nat
  {
    match point
    case BottomLeft => 0 case BottomCenter => 0 case BottomRight => 0
    case CenterLeft => 1 case Center => 1 case CenterRight => 1
    case TopLeft => 2 case TopCenter => 2 case TopRight => 2
  }

  /**
   * The offset table is the grid {0, w/2, w} × {0, h/2, h}: each point's
   * offset is its column and row times half the box, so Center is the
   * middle and opposite corners add up to (w, h).
   */
  lemma AnchorPointGrid(point: AnchorPoint, w: real, h: real)
    ensures AnchorPointOffset(point, w, h) == Vec2(Column(point) as real * (w / 2.0), Row(point) as real * (h / 2.0))
    ensures AnchorPointOffset(Center, w, h) == Vec2(w / 2.0, h / 2.0)
    ensures Add(AnchorPointOffset(TopLeft, w, h), AnchorPointOffset(BottomRight, w, h)) == Vec2(w, h)
    ensures Add(AnchorPointOffset(BottomLeft, w, h), AnchorPointOffset(TopRight, w, h)) == Vec2(w, h)
  {
  }

  // ----------------------------------------------------------------- arena

  /** Every parent index is in range and has a strictly smaller rank. */
  ghost predicate Acyclic(nodes: seq<TransformNode>, rank: seq<nat>)
  {
    |rank| == |nodes|
    && forall i :: 0 <= i < |nodes| && nodes[i].parent.Some? ==>
         nodes[i].parent.value < |nodes| && rank[nodes[i].parent.value] < rank[i]
  }

  /** getAbsolutePosition, with the window size passed in. */
  function AbsolutePosition(nodes: seq<TransformNode>, ghost rank: seq<nat>, i: nat, screenW: real, screenH: real): Vec2
    requires Acyclic(nodes, rank) && i < |nodes|
    decreases rank[i], 1
  {
    var n := nodes[i];
    if !n.hasAnchor then
      match n.parent
      case Some(p) => Add(AbsolutePosition(nodes, rank, p, screenW, screenH), n.position)
      case None => n.position
    else AnchorPosition(nodes, rank, i, screenW, screenH)
  }

  /** calculateAnchorPosition: the reference box's point minus the element's point, plus the offset. */
  function AnchorPosition(nodes: seq<TransformNode>, ghost rank: seq<nat>, i: nat, screenW: real, screenH: real): Vec2
    requires Acyclic(nodes, rank) && i < |nodes|
    decreases rank[i], 0
  {
    var n := nodes[i];
    var a := n.anchor;
    var useParent := a.target == Parent && n.parent.Some?;
    var base := if useParent then AbsolutePosition(nodes, rank, n.parent.value, screenW, screenH) else Origin;
    var refSize := if useParent then nodes[n.parent.value].size else Vec2(screenW, screenH);
    var anchorOffset := AnchorPointOffset(a.point, refSize.x, refSize.y);
    var elementOffset := AnchorPointOffset(a.point, n.size.x, n.size.y);
    Add(Sub(Add(base, anchorOffset), elementOffset), Vec2(a.offsetX, a.offsetY))
  }

  /** Unanchored, a transform sits at its parent's absolute position plus its own, or at its own. */
  lemma UnanchoredPosition(nodes: seq<TransformNode>, rank: seq<nat>, i: nat, sw: real, sh: real)
    requires Acyclic(nodes, rank) && i < |nodes| && !nodes[i].hasAnchor
    ensures nodes[i].parent.None? ==> AbsolutePosition(nodes, rank, i, sw, sh) == nodes[i].position
    ensures nodes[i].parent.Some? ==>
              AbsolutePosition(nodes, rank, i, sw, sh)
                == Add(AbsolutePosition(nodes, rank, nodes[i].parent.value, sw, sh), nodes[i].position)
  {
  }

  /**
   * Anchored, the reference box is the parent's (absolute position and
   * size) when the target is Parent and a parent exists, and the screen at
   * the origin otherwise; the result is base + offset(point, reference)
   * − offset(point, own size) + (offsetX, offsetY).
   */
  lemma AnchoredPosition(nodes: seq<TransformNode>, rank: seq<nat>, i: nat, sw: real, sh: real)
    requires Acyclic(nodes, rank) && i < |nodes| && nodes[i].hasAnchor
    ensures var n := nodes[i];
            var a := n.anchor;
            var own := AnchorPointOffset(a.point, n.size.x, n.size.y);
            var pos := AbsolutePosition(nodes, rank, i, sw, sh);
            (a.target == Parent && n.parent.Some? ==>
               var p := n.parent.value;
               var ps := nodes[p].size;
               pos == Add(Sub(Add(AbsolutePosition(nodes, rank, p, sw, sh), AnchorPointOffset(a.point, ps.x, ps.y)), own),
                          Vec2(a.offsetX, a.offsetY)))
            && (a.target == Screen || n.parent.None? ==>
               pos == Add(Sub(AnchorPointOffset(a.point, sw, sh), own), Vec2(a.offsetX, a.offsetY)))
  {
  }

  /** Anchored, the local position plays no part: moving the transform does not move it. */
  lemma AnchoredIgnoresLocal(nodes: seq<TransformNode>, rank: seq<nat>, i: nat, p: Vec2, sw: real, sh: real)
    requires Acyclic(nodes, rank) && i < |nodes| && nodes[i].hasAnchor
    ensures Acyclic(nodes[i := nodes[i].(position := p)], rank)
    ensures AbsolutePosition(nodes[i := nodes[i].(position := p)], rank, i, sw, sh) == AbsolutePosition(nodes, rank, i, sw, sh)
  {
    var nodes' := nodes[i := nodes[i].(position := p)];
    if nodes[i].parent.Some? {
      var q := nodes[i].parent.value;
      LowerRankNotDescendant(nodes, rank, i, q);
      AbsoluteFrame(nodes, nodes', rank, i, q, sw, sh);
    }
  }

  /** Whether i is among j's ancestors: reached from j by following parent links. */
  ghost predicate Descends(nodes: seq<TransformNode>, rank: seq<nat>, j: nat, i: nat)
    requires Acyclic(nodes, rank) && j < |nodes|
    decreases rank[j]
  {
    nodes[j].parent.Some? && (nodes[j].parent.value == i || Descends(nodes, rank, nodes[j].parent.value, i))
  }

  /** Ancestors rank below their descendants, so a node ranked below i does not descend from i. */
  lemma {:induction false} LowerRankNotDescendant(nodes: seq<TransformNode>, rank: seq<nat>, i: nat, j: nat)
    requires Acyclic(nodes, rank) && i < |nodes| && j < |nodes| && rank[j] < rank[i]
    ensures !Descends(nodes, rank, j, i)
    decreases rank[j]
  {
    if nodes[j].parent.Some? {
      LowerRankNotDescendant(nodes, rank, i, nodes[j].parent.value);
    }
  }

  /**
   * Changing node i (keeping its parent link) moves no other node that
   * does not have i among its ancestors.
   */
  lemma {:induction false} AbsoluteFrame(nodes: seq<TransformNode>, nodes': seq<TransformNode>, rank: seq<nat>,
                                         i: nat, j: nat, sw: real, sh: real)
    requires Acyclic(nodes, rank) && i < |nodes| && j < |nodes|
    requires |nodes'| == |nodes| && nodes'[i].parent == nodes[i].parent
    requires forall k :: 0 <= k < |nodes| && k != i ==> nodes'[k] == nodes[k]
    requires j != i && !Descends(nodes, rank, j, i)
    ensures Acyclic(nodes', rank)
    ensures AbsolutePosition(nodes', rank, j, sw, sh) == AbsolutePosition(nodes, rank, j, sw, sh)
    decreases rank[j]
  {
    assert forall k :: 0 <= k < |nodes| ==> nodes'[k].parent == nodes[k].parent;
    if nodes[j].parent.Some? {
      AbsoluteFrame(nodes, nodes', rank, i, nodes[j].parent.value, sw, sh);
    }
  }

  /** The dirty flags play no part in any absolute position. */
  lemma {:induction false} AbsoluteIgnoresDirty(nodes: seq<TransformNode>, nodes': seq<TransformNode>, rank: seq<nat>,
                                                j: nat, sw: real, sh: real)
    requires Acyclic(nodes, rank) && j < |nodes| && |nodes'| == |nodes|
    requires forall k :: 0 <= k < |nodes| ==> nodes'[k] == nodes[k].(dirty := nodes'[k].dirty)
    ensures Acyclic(nodes', rank)
    ensures AbsolutePosition(nodes', rank, j, sw, sh) == AbsolutePosition(nodes, rank, j, sw, sh)
    decreases rank[j]
  {
    assert forall k :: 0 <= k < |nodes| ==> nodes'[k].parent == nodes[k].parent;
    if nodes[j].parent.Some? {
      AbsoluteIgnoresDirty(nodes, nodes', rank, nodes[j].parent.value, sw, sh);
    }
  }

  /** Where a transform of the given size lands when anchored to a sw×sh window. */
  function ScreenAnchorPosition(a: AnchorConfig, size: Vec2, sw: real, sh: real): Vec2
  {
    Add(Sub(AnchorPointOffset(a.point, sw, sh), AnchorPointOffset(a.point, size.x, size.y)), Vec2(a.offsetX, a.offsetY))
  }

  /** Anchored to the screen (or to a missing parent): the window box is the reference. */
  lemma ScreenAnchored(nodes: seq<TransformNode>, rank: seq<nat>, i: nat, sw: real, sh: real)
    requires Acyclic(nodes, rank) && i < |nodes| && nodes[i].hasAnchor
    requires nodes[i].anchor.target == Screen || nodes[i].parent.None?
    ensures AbsolutePosition(nodes, rank, i, sw, sh) == ScreenAnchorPosition(nodes[i].anchor, nodes[i].size, sw, sh)
  {
  }

  /**
   * BottomRight of an 800×600 window with offset (−10, 10): a 200×50
   * transform sits at (590, 10), its bottom-right corner 10 units in from
   * the window's right edge and 10 up from its bottom edge.
   */
  lemma AnchorExample()
    ensures ScreenAnchorPosition(AnchorConfig(Screen, BottomRight, -10.0, 10.0), Vec2(200.0, 50.0), 800.0, 600.0)
              == Vec2(590.0, 10.0)
    ensures Add(ScreenAnchorPosition(AnchorConfig(Screen, BottomRight, -10.0, 10.0), Vec2(200.0, 50.0), 800.0, 600.0),
                Vec2(200.0, 0.0)).x == 800.0 - 10.0
  {
  }

  /** The transforms of the UI, owned by index. */
  class TransformArena {
    var nodes: seq<TransformNode>
    ghost var rank: seq<nat>

    ghost predicate Valid()
      reads this
    {
      Acyclic(nodes, rank)
    }

    constructor()
      ensures Valid() && nodes == []
    {
      nodes := [];
      rank := [];
    }

    /** A new UITransform: the defaults, no parent. */
    method Add() returns (id: nat)
      requires Valid()
      modifies this
      ensures Valid()
      ensures id == |old(nodes)| && nodes == old(nodes) + [NewTransform]
    {
      id := |nodes|;
      nodes := nodes + [NewTransform];
      rank := rank + [0];
    }

    /** A new transform sized w x h at (0, 0), as each UI wrapper's constructor makes one. */
    method AddSized(w: real, h: real) returns (id: nat)
      requires Valid()
      modifies this
      ensures Valid() && id == |old(nodes)| && |nodes| == id + 1 && nodes[..id] == old(nodes)
      ensures nodes[id].size == Vec2(w, h) && nodes[id].position == Vec2(0.0, 0.0) && !nodes[id].hasAnchor
    {
      id := Add();
      SetSize(id, w, h);
      SetPosition(id, 0.0, 0.0);
    }

    /** The absolute position of transform id in a window of the given size. */
    function Absolute(id: nat, screenW: real, screenH: real): Vec2
      reads this
      requires Valid() && id < |nodes|
    {
      AbsolutePosition(nodes, rank, id, screenW, screenH)
    }

    /** setPosition: only a different position is stored and marks the transform dirty. */
    method SetPosition(id: nat, x: real, y: real)
      requires Valid() && id < |nodes|
      modifies this
      ensures Valid() && rank == old(rank)
      ensures old(nodes[id].position) != Vec2(x, y) ==>
                nodes == old(nodes)[id := old(nodes[id]).(position := Vec2(x, y), dirty := true)]
      ensures old(nodes[id].position) == Vec2(x, y) ==> nodes == old(nodes)
    {
      var n := nodes[id];
      if n.position.x != x || n.position.y != y {
        nodes := nodes[id := n.(position := Vec2(x, y), dirty := true)];
        assert forall k :: 0 <= k < |nodes| ==> nodes[k].parent == old(nodes)[k].parent;
      }
    }

    /** setSize: only a different size is stored and marks the transform dirty. */
    method SetSize(id: nat, w: real, h: real)
      requires Valid() && id < |nodes|
      modifies this
      ensures Valid() && rank == old(rank)
      ensures old(nodes[id].size) != Vec2(w, h) ==>
                nodes == old(nodes)[id := old(nodes[id]).(size := Vec2(w, h), dirty := true)]
      ensures old(nodes[id].size) == Vec2(w, h) ==> nodes == old(nodes)
    {
      var n := nodes[id];
      if n.size.x != w || n.size.y != h {
        nodes := nodes[id := n.(size := Vec2(w, h), dirty := true)];
        assert forall k :: 0 <= k < |nodes| ==> nodes[k].parent == old(nodes)[k].parent;
      }
    }

    /** setAnchor: always stores the anchor and marks the transform dirty. */
    method SetAnchor(id: nat, config: AnchorConfig)
      requires Valid() && id < |nodes|
      modifies this
      ensures Valid() && rank == old(rank)
      ensures nodes == old(nodes)[id := old(nodes[id]).(anchor := config, hasAnchor := true, dirty := true)]
    {
      nodes := nodes[id := nodes[id].(anchor := config, hasAnchor := true, dirty := true)];
      assert forall k :: 0 <= k < |nodes| ==> nodes[k].parent == old(nodes)[k].parent;
    }

    /** clearAnchor: always drops the anchor and marks the transform dirty. */
    method ClearAnchor(id: nat)
      requires Valid() && id < |nodes|
      modifies this
      ensures Valid() && rank == old(rank)
      ensures nodes == old(nodes)[id := old(nodes[id]).(hasAnchor := false, dirty := true)]
    {
      nodes := nodes[id := nodes[id].(hasAnchor := false, dirty := true)];
      assert forall k :: 0 <= k < |nodes| ==> nodes[k].parent == old(nodes)[k].parent;
    }

    /**
     * setParent: only a different parent is stored and marks the transform
     * dirty. The caller keeps the parent graph acyclic; `newRank` witnesses it.
     */
    method SetParent(id: nat, p: Option<nat>, ghost newRank: seq<nat>)
      requires Valid() && id < |nodes|
      requires Acyclic(nodes[id := nodes[id].(parent := p)], newRank)
      modifies this
      ensures Valid()
      ensures old(nodes[id].parent) != p ==> nodes == old(nodes)[id := old(nodes[id]).(parent := p, dirty := true)]
      ensures old(nodes[id].parent) == p ==> nodes == old(nodes)
    {
      if nodes[id].parent != p {
        ghost var witnessed := nodes[id := nodes[id].(parent := p)];
        nodes := nodes[id := nodes[id].(parent := p, dirty := true)];
        rank := newRank;
        assert forall k :: 0 <= k < |nodes| ==> nodes[k].parent == witnessed[k].parent;
      }
    }

    /**
     * update: an anchored transform is marked dirty; nothing else changes,
     * so no absolute position moves.
     */
    method Update(id: nat, screenW: real, screenH: real)
      requires Valid() && id < |nodes|
      modifies this
      ensures Valid() && rank == old(rank)
      ensures nodes == old(nodes)[id := old(nodes[id]).(dirty := old(nodes[id].dirty) || old(nodes[id].hasAnchor))]
      ensures forall j :: 0 <= j < |nodes| ==>
                AbsolutePosition(nodes, rank, j, screenW, screenH) == AbsolutePosition(old(nodes), rank, j, screenW, screenH)
    {
      if nodes[id].hasAnchor {
        nodes := nodes[id := nodes[id].(dirty := true)];
      }
      forall j | 0 <= j < |nodes|
        ensures AbsolutePosition(nodes, rank, j, screenW, screenH) == AbsolutePosition(old(nodes), rank, j, screenW, screenH)
      {
        AbsoluteIgnoresDirty(old(nodes), nodes, rank, j, screenW, screenH);
      }
    }

    method ClearDirty(id: nat)
      requires Valid() && id < |nodes|
      modifies this
      ensures Valid() && rank == old(rank)
      ensures nodes == old(nodes)[id := old(nodes[id]).(dirty := false)]
    {
      nodes := nodes[id := nodes[id].(dirty := false)];
      assert forall k :: 0 <= k < |nodes| ==> nodes[k].parent == old(nodes)[k].parent;
    }
  }
}
