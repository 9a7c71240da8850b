// The containers that group primitives: the engine's UIElement (a cached
// background quad, a transform, an optional corner auto-anchor and a list
// of child primitives), the older UIElement it replaced, and WorldElement.
//
// Children are handles; a null shared_ptr is None. What a child reports
// from getContentSize is a call into code outside the container, so it is
// passed in as `sizeOf`. The window size comes from InputState in the
// source and is a parameter here. The quad's vertex buffer is modelled by
// its four vertices; the quad's renderable shares that buffer, so the
// vertices drawn are the buffer's.

module Containers {
  import opened Common
  import opened Transforms

  datatype Corner = CornerBottomLeft | CornerBottomRight | CornerTopLeft | CornerTopRight

  /**
   * The corner rule of drawCachedQuad: the quad's bottom-left corner so
   * that the box keeps the margins from the chosen window corner.
   */
  function CornerTarget(corner: Corner, sw: real, sh: real, w: real, h: real, mx: real, my: real): Vec2
  {
    match corner
    case CornerBottomLeft => Vec2(mx, my)
    case CornerBottomRight => Vec2(sw - w - mx, my)
    case CornerTopLeft => Vec2(mx, sh - h - my)
    case CornerTopRight => Vec2(sw - w - mx, sh - h - my)
  }

  /** enableAutoAnchor's transform anchor: the same corner of the screen, margins signed inward. */
  function CornerAnchor(corner: Corner, mx: real, my: real): AnchorConfig
  {
    match corner
    case CornerBottomLeft => AnchorConfig(Screen, BottomLeft, mx, my)
    case CornerBottomRight => AnchorConfig(Screen, BottomRight, -mx, my)
    case CornerTopLeft => AnchorConfig(Screen, TopLeft, mx, -my)
    case CornerTopRight => AnchorConfig(Screen, TopRight, -mx, -my)
  }

  /** Resolved through the transform, the corner anchor lands where the corner rule puts the quad. */
  lemma CornerAnchorAgrees(corner: Corner, sw: real, sh: real, w: real, h: real, mx: real, my: real)
    ensures ScreenAnchorPosition(CornerAnchor(corner, mx, my), Vec2(w, h), sw, sh) == CornerTarget(corner, sw, sh, w, h, mx, my)
  {
    match corner
    case CornerBottomLeft =>
    case CornerBottomRight =>
    case CornerTopLeft =>
    case CornerTopRight =>
  }

  /**
   * The screen quad over [l, l + w] x [t, t + h] as buildScreenQuad and
   * moveCachedQuad write it: (l, t+h), (l+w, t+h), (l+w, t), (l, t), white,
   * with UVs (0,0), (1,0), (1,1), (0,1).
   */
  function QuadVertices(l: real, t: real, w: real, h: real): (vs: seq<Vertex>)
    ensures |vs| == 4
  {
    [FlatVertex(l, t + h, 1.0, 1.0, 1.0, 0.0, 0.0),
     FlatVertex(l + w, t + h, 1.0, 1.0, 1.0, 1.0, 0.0),
     FlatVertex(l + w, t, 1.0, 1.0, 1.0, 1.0, 1.0),
     FlatVertex(l, t, 1.0, 1.0, 1.0, 0.0, 1.0)]
  }

  /** The quad's vertices determine the rectangle it was written for. */
  lemma QuadDeterminesBox(l: real, t: real, w: real, h: real, l': real, t': real, w': real, h': real)
    requires QuadVertices(l, t, w, h) == QuadVertices(l', t', w', h')
    ensures l == l' && t == t' && w == w' && h == h'
  {
    assert QuadVertices(l, t, w, h)[3] == QuadVertices(l', t', w', h')[3];
    assert QuadVertices(l, t, w, h)[1] == QuadVertices(l', t', w', h')[1];
  }

  /**
   * The componentwise maximum of the present children's content sizes,
   * starting from (0, 0): the getContentSize loop of both containers
   * (`if (w > width) width = w`, which is also what std::max does).
   */
  function MaxContentSize(prims: seq<Option<nat>>, sizeOf: nat -> Vec2): (r: Vec2)
    ensures r.x >= 0.0 && r.y >= 0.0
    ensures forall i :: 0 <= i < |prims| && prims[i].Some? ==>
              sizeOf(prims[i].value).x <= r.x && sizeOf(prims[i].value).y <= r.y
    ensures r.x == 0.0 || exists i :: 0 <= i < |prims| && prims[i].Some? && sizeOf(prims[i].value).x == r.x
    ensures r.y == 0.0 || exists i :: 0 <= i < |prims| && prims[i].Some? && sizeOf(prims[i].value).y == r.y
  {
    if prims == [] then Vec2(0.0, 0.0)
    else
      var init := prims[..|prims| - 1];
      var r := MaxContentSize(init, sizeOf);
      var last := prims[|prims| - 1];
      assert forall i :: 0 <= i < |init| ==> init[i] == prims[i];
      if last.None? then r
      else
        var s := sizeOf(last.value);
        Vec2(if s.x > r.x then s.x else r.x, if s.y > r.y then s.y else r.y)
  }

  /** The getContentSize loop computes MaxContentSize. */
  method MaxContentLoop(prims: seq<Option<nat>>, sizeOf: nat -> Vec2) returns (width: real, height: real)
    ensures Vec2(width, height) == MaxContentSize(prims, sizeOf)
  {
    width, height := 0.0, 0.0;
    for i := 0 to |prims|
      invariant Vec2(width, height) == MaxContentSize(prims[..i], sizeOf)
    {
      assert prims[..i + 1][..i] == prims[..i];
      if prims[i].Some? {
        var s := sizeOf(prims[i].value);
        if s.x > width {
          width := s.x;
        }
        if s.y > height {
          height := s.y;
        }
      }
    }
    assert prims[..|prims|] == prims;
  }

  /** A container without children has no content: (0, 0). */
  lemma NoChildrenNoContent(prims: seq<Option<nat>>, sizeOf: nat -> Vec2)
    requires forall i :: 0 <= i < |prims| ==> prims[i].None?
    ensures MaxContentSize(prims, sizeOf) == Vec2(0.0, 0.0)
  {
  }

  // ------------------------------------------------------ engine UIElement

  class UIElement {
    const transforms: TransformArena
    /** The element's own UITransform in the arena. */
    const id: nat
    var primitives: seq<Option<nat>>
    /** quadMesh.vertexBuffer: None after destroy and before the first build. */
    var quad: Option<seq<Vertex>>
    var quadRenderable: bool
    var quadColor: Color
    var elementWidth: real
    var elementHeight: real
    var cachedLeft: real
    var cachedTop: real
    var autoAnchorEnabled: bool
    var anchorCorner: Corner
    var anchorMarginX: real
    var anchorMarginY: real

    /**
     * The transform exists; the quad and its renderable come and go
     * together, and the quad always covers the cached box.
     */
    ghost predicate Valid()
      reads this, transforms
    {
      Placed() && Paired()
      && (quad.Some? ==> quad.value == QuadVertices(cachedLeft, cachedTop, elementWidth, elementHeight))
    }

    /** The quad and its renderable come and go together. */
    ghost predicate Paired()
      reads this
    {
      quadRenderable <==> quad.Some?
    }

    /** The element's transform is in the arena. */
    ghost predicate Placed()
      reads this, transforms
    {
      transforms.Valid() && id < |transforms.nodes|
    }

    /** The transform's size. */
    function TransformSize(): Vec2
      reads this, transforms
      requires Placed()
    {
      transforms.nodes[id].size
    }

    /** A new element: a fresh transform of size 0 x 0, no quad, no children, anchoring off. */
    constructor(arena: TransformArena)
      requires arena.Valid()
      modifies arena
      ensures Valid() && transforms == arena && id == |old(arena.nodes)|
      ensures arena.nodes == old(arena.nodes) + [NewTransform] && TransformSize() == Vec2(0.0, 0.0)
      ensures primitives == [] && quad == None && !quadRenderable
      ensures elementWidth == 0.0 && elementHeight == 0.0 && cachedLeft == 0.0 && cachedTop == 0.0
      ensures !autoAnchorEnabled && anchorCorner == CornerBottomLeft
    {
      transforms := arena;
      var fresh_id := arena.Add();
      id := fresh_id;
      primitives := [];
      quad := None;
      quadRenderable := false;
      quadColor := White;
      elementWidth, elementHeight, cachedLeft, cachedTop := 0.0, 0.0, 0.0, 0.0;
      autoAnchorEnabled := false;
      anchorCorner := CornerBottomLeft;
      anchorMarginX, anchorMarginY := 0.0, 0.0;
      new;
      transforms.SetSize(id, 0.0, 0.0);
    }

    /** render: the transform is updated for the window, then the children are drawn. */
    method Render(sw: real, sh: real) returns (drawn: seq<nat>)
      requires Valid()
      modifies transforms
      ensures Valid()
      ensures transforms.nodes == old(transforms.nodes)[id := old(transforms.nodes[id]).(dirty := old(transforms.nodes[id].dirty) || old(transforms.nodes[id].hasAnchor))]
      ensures drawn == Somes(primitives)
    {
      transforms.Update(id, sw, sh);
      drawn := DrawPrimitives();
    }

    /**
     * buildCachedQuad: the old quad is destroyed, the transform takes the
     * box, the cache records it, and a new quad with its renderable is made.
     */
    method BuildCachedQuad(left: real, top: real, width: real, height: real, col: Color)
      requires Placed()
      modifies this, transforms
      ensures Valid()
      ensures cachedLeft == left && cachedTop == top && elementWidth == width && elementHeight == height
      ensures quad == Some(QuadVertices(left, top, width, height)) && quadRenderable && quadColor == col
      ensures TransformSize() == Vec2(width, height) && transforms.nodes[id].position == Vec2(left, top)
      ensures primitives == old(primitives) && autoAnchorEnabled == old(autoAnchorEnabled)
      ensures anchorCorner == old(anchorCorner) && anchorMarginX == old(anchorMarginX) && anchorMarginY == old(anchorMarginY)
    {
      DestroyCachedQuad();
      transforms.SetSize(id, width, height);
      transforms.SetPosition(id, left, top);
      cachedLeft, cachedTop := left, top;
      elementWidth, elementHeight := width, height;
      quad := Some(QuadVertices(left, top, width, height));
      quadColor := col;
      quadRenderable := true;
    }

    /** moveCachedQuad: without a quad nothing happens; otherwise its four vertices are rewritten. */
    method MoveCachedQuad(left: real, top: real, width: real, height: real)
      requires Paired()
      modifies this
      ensures quad == (if old(quad).Some? then Some(QuadVertices(left, top, width, height)) else None)
      ensures quadRenderable == old(quadRenderable) && quadColor == old(quadColor)
      ensures cachedLeft == old(cachedLeft) && cachedTop == old(cachedTop)
      ensures elementWidth == old(elementWidth) && elementHeight == old(elementHeight)
      ensures primitives == old(primitives) && autoAnchorEnabled == old(autoAnchorEnabled)
      ensures anchorCorner == old(anchorCorner) && anchorMarginX == old(anchorMarginX) && anchorMarginY == old(anchorMarginY)
    {
      if quad.None? || !quadRenderable {
        return;
      }
      quad := Some(QuadVertices(left, top, width, height));
    }

    /** destroyCachedQuad: no quad, and the transform and the element are 0 x 0. */
    method DestroyCachedQuad()
      requires Placed()
      modifies this, transforms
      ensures Valid()
      ensures quad == None && !quadRenderable && elementWidth == 0.0 && elementHeight == 0.0
      ensures TransformSize() == Vec2(0.0, 0.0)
      ensures transforms.nodes[id].position == old(transforms.nodes[id].position)
      ensures transforms.nodes[id].hasAnchor == old(transforms.nodes[id].hasAnchor)
      ensures cachedLeft == old(cachedLeft) && cachedTop == old(cachedTop) && quadColor == old(quadColor)
      ensures primitives == old(primitives) && autoAnchorEnabled == old(autoAnchorEnabled)
      ensures anchorCorner == old(anchorCorner) && anchorMarginX == old(anchorMarginX) && anchorMarginY == old(anchorMarginY)
    {
      quadRenderable := false;
      quad := None;
      transforms.SetSize(id, 0.0, 0.0);
      elementWidth, elementHeight := 0.0, 0.0;
    }

    /**
     * drawCachedQuad: nothing at all without a quad renderable (not even
     * the children). With auto-anchoring on and a non-empty box, the quad
     * is moved to the corner target when that differs from the cached
     * position. Returns whether the quad moved, the vertices drawn and the
     * children drawn.
     */
    method DrawCachedQuad(sw: real, sh: real) returns (moved: bool, shown: Option<seq<Vertex>>, drawn: seq<nat>)
      requires Valid()
      modifies this
      ensures Valid()
      ensures !old(quadRenderable) ==>
                !moved && shown == None && drawn == [] && quad == old(quad)
                && cachedLeft == old(cachedLeft) && cachedTop == old(cachedTop) && !quadRenderable
      ensures old(quadRenderable) ==> shown == quad && drawn == Somes(primitives)
      ensures var target := CornerTarget(anchorCorner, sw, sh, elementWidth, elementHeight, anchorMarginX, anchorMarginY);
              old(quadRenderable) && autoAnchorEnabled && elementWidth > 0.0 && elementHeight > 0.0 ==>
                Vec2(cachedLeft, cachedTop) == target
                && shown == Some(QuadVertices(target.x, target.y, elementWidth, elementHeight))
                && (moved <==> Vec2(old(cachedLeft), old(cachedTop)) != target)
      ensures !(autoAnchorEnabled && elementWidth > 0.0 && elementHeight > 0.0) ==>
                !moved && cachedLeft == old(cachedLeft) && cachedTop == old(cachedTop) && quad == old(quad)
      ensures elementWidth == old(elementWidth) && elementHeight == old(elementHeight)
      ensures primitives == old(primitives) && autoAnchorEnabled == old(autoAnchorEnabled)
      ensures anchorCorner == old(anchorCorner) && anchorMarginX == old(anchorMarginX) && anchorMarginY == old(anchorMarginY)
    {
      moved := false;
      if !quadRenderable {
        return false, None, [];
      }
      if autoAnchorEnabled && elementWidth > 0.0 && elementHeight > 0.0 {
        var target := CornerTarget(anchorCorner, sw, sh, elementWidth, elementHeight, anchorMarginX, anchorMarginY);
        if target.x != cachedLeft || target.y != cachedTop {
          MoveCachedQuad(target.x, target.y, elementWidth, elementHeight);
          cachedLeft, cachedTop := target.x, target.y;
          moved := true;
        }
      }
      shown := quad;
      drawn := DrawPrimitives();
    }

    /** addPrimitive: appended as given, null included. */
    method AddPrimitive(p: Option<nat>)
      modifies this
      ensures primitives == old(primitives) + [p]
    {
      primitives := primitives + [p];
    }

    method ClearPrimitives()
      modifies this
      ensures primitives == []
    {
      primitives := [];
    }

    /** drawPrimitives: the present children, in insertion order, each drawn in screen space. */
    method DrawPrimitives() returns (drawn: seq<nat>)
      ensures drawn == Somes(primitives)
    {
      drawn := VisitPresent(primitives);
    }

    /** enableAutoAnchor: the corner and margins are stored and the transform anchored to that screen corner. */
    method EnableAutoAnchor(corner: Corner, mx: real, my: real)
      requires Valid()
      modifies this, transforms
      ensures Valid() && autoAnchorEnabled && anchorCorner == corner && anchorMarginX == mx && anchorMarginY == my
      ensures transforms.nodes == old(transforms.nodes)[id := old(transforms.nodes[id]).(anchor := CornerAnchor(corner, mx, my), hasAnchor := true, dirty := true)]
      ensures forall sw: real, sh: real :: transforms.Absolute(id, sw, sh) == CornerTarget(corner, sw, sh, TransformSize().x, TransformSize().y, mx, my)
      ensures quad == old(quad) && primitives == old(primitives)
      ensures elementWidth == old(elementWidth) && elementHeight == old(elementHeight)
      ensures cachedLeft == old(cachedLeft) && cachedTop == old(cachedTop)
    {
      anchorCorner, anchorMarginX, anchorMarginY := corner, mx, my;
      autoAnchorEnabled := true;
      transforms.SetAnchor(id, CornerAnchor(corner, mx, my));
      forall sw: real, sh: real
        ensures transforms.Absolute(id, sw, sh) == CornerTarget(corner, sw, sh, TransformSize().x, TransformSize().y, mx, my)
      {
        ScreenAnchored(transforms.nodes, transforms.rank, id, sw, sh);
        CornerAnchorAgrees(corner, sw, sh, TransformSize().x, TransformSize().y, mx, my);
      }
    }

    /** disableAutoAnchor: the flag is cleared and the transform's anchor dropped. */
    method DisableAutoAnchor()
      requires Valid()
      modifies this, transforms
      ensures Valid() && !autoAnchorEnabled
      ensures transforms.nodes == old(transforms.nodes)[id := old(transforms.nodes[id]).(hasAnchor := false, dirty := true)]
      ensures quad == old(quad) && primitives == old(primitives)
      ensures elementWidth == old(elementWidth) && elementHeight == old(elementHeight)
      ensures cachedLeft == old(cachedLeft) && cachedTop == old(cachedTop)
    {
      autoAnchorEnabled := false;
      transforms.ClearAnchor(id);
    }

    /**
     * updateSizeFromPrimitives: the children's maximum size is applied to
     * the element, the transform and the quad, but only when both maxima
     * are positive.
     */
    method UpdateSizeFromPrimitives(sizeOf: nat -> Vec2)
      requires Valid()
      modifies this, transforms
      ensures Valid()
      ensures var m := MaxContentSize(primitives, sizeOf);
              if m.x > 0.0 && m.y > 0.0 then
                elementWidth == m.x && elementHeight == m.y && TransformSize() == m
                && quad == (if old(quad).Some? then Some(QuadVertices(cachedLeft, cachedTop, m.x, m.y)) else None)
              else
                elementWidth == old(elementWidth) && elementHeight == old(elementHeight)
                && quad == old(quad) && transforms.nodes == old(transforms.nodes)
      ensures cachedLeft == old(cachedLeft) && cachedTop == old(cachedTop) && primitives == old(primitives)
      ensures autoAnchorEnabled == old(autoAnchorEnabled)
    {
      var maxWidth, maxHeight := MaxContentLoop(primitives, sizeOf);
      if maxWidth > 0.0 && maxHeight > 0.0 {
        elementWidth, elementHeight := maxWidth, maxHeight;
        transforms.SetSize(id, maxWidth, maxHeight);
        if quad.Some? && quadRenderable {
          MoveCachedQuad(cachedLeft, cachedTop, maxWidth, maxHeight);
        }
      }
    }

    /** getContentSize: the children's maximum size. */
    method GetContentSize(sizeOf: nat -> Vec2) returns (width: real, height: real)
      ensures Vec2(width, height) == MaxContentSize(primitives, sizeOf)
    {
      width, height := MaxContentLoop(primitives, sizeOf);
    }
  }

  /**
   * With auto-anchoring on, a second draw in the same window moves
   * nothing: the first already put the quad on its corner.
   */
  method SecondDrawStill(e: UIElement, sw: real, sh: real) returns (first: bool, second: bool)
    requires e.Valid() && e.quadRenderable && e.autoAnchorEnabled && e.elementWidth > 0.0 && e.elementHeight > 0.0
    modifies e
    ensures !second
    ensures first <==> Vec2(old(e.cachedLeft), old(e.cachedTop))
                        != CornerTarget(e.anchorCorner, sw, sh, e.elementWidth, e.elementHeight, e.anchorMarginX, e.anchorMarginY)
  {
    var s1, d1;
    first, s1, d1 := e.DrawCachedQuad(sw, sh);
    var s2, d2;
    second, s2, d2 := e.DrawCachedQuad(sw, sh);
  }

  // ------------------------------------------------------ legacy UIElement

  /** The older UIElement: the same cache and corner rule, no transform, and a flag-only auto-anchor. */
  class LegacyUIElement {
    var primitives: seq<Option<nat>>
    var quad: Option<seq<Vertex>>
    var quadRenderable: bool
    var quadColor: Color
    var elementWidth: real
    var elementHeight: real
    var cachedLeft: real
    var cachedTop: real
    var autoAnchorEnabled: bool
    var anchorCorner: Corner
    var anchorMarginX: real
    var anchorMarginY: real

    ghost predicate Valid()
      reads this
    {
      Paired()
      && (quad.Some? ==> quad.value == QuadVertices(cachedLeft, cachedTop, elementWidth, elementHeight))
    }

    /** The quad and its renderable come and go together. */
    ghost predicate Paired()
      reads this
    {
      quadRenderable <==> quad.Some?
    }

    constructor()
      ensures Valid() && primitives == [] && quad == None && !quadRenderable
      ensures elementWidth == 0.0 && elementHeight == 0.0 && cachedLeft == 0.0 && cachedTop == 0.0
      ensures !autoAnchorEnabled && anchorCorner == CornerBottomLeft
    {
      primitives := [];
      quad := None;
      quadRenderable := false;
      quadColor := White;
      elementWidth, elementHeight, cachedLeft, cachedTop := 0.0, 0.0, 0.0, 0.0;
      autoAnchorEnabled := false;
      anchorCorner := CornerBottomLeft;
      anchorMarginX, anchorMarginY := 0.0, 0.0;
    }

    /** buildCachedQuad: the cache fields record the box and a new quad is made. */
    method BuildCachedQuad(left: real, top: real, width: real, height: real, col: Color)
      modifies this
      ensures Valid()
      ensures cachedLeft == left && cachedTop == top && elementWidth == width && elementHeight == height
      ensures quad == Some(QuadVertices(left, top, width, height)) && quadRenderable && quadColor == col
      ensures primitives == old(primitives) && autoAnchorEnabled == old(autoAnchorEnabled)
      ensures anchorCorner == old(anchorCorner) && anchorMarginX == old(anchorMarginX) && anchorMarginY == old(anchorMarginY)
    {
      DestroyCachedQuad();
      elementWidth, elementHeight := width, height;
      cachedLeft, cachedTop := left, top;
      quad := Some(QuadVertices(left, top, width, height));
      quadColor := col;
      quadRenderable := true;
    }

    /**
     * moveCachedQuad: without a vertex buffer it builds a white quad at the
     * box instead; otherwise it rewrites the four vertices.
     */
    method MoveCachedQuad(left: real, top: real, width: real, height: real)
      requires Paired()
      modifies this
      ensures quad == Some(QuadVertices(left, top, width, height)) && quadRenderable
      ensures old(quad).None? ==>
                (Valid() && quadColor == White
                 && cachedLeft == left && cachedTop == top && elementWidth == width && elementHeight == height)
      ensures old(quad).Some? ==>
                (quadColor == old(quadColor) && cachedLeft == old(cachedLeft) && cachedTop == old(cachedTop)
                 && elementWidth == old(elementWidth) && elementHeight == old(elementHeight))
      ensures primitives == old(primitives) && autoAnchorEnabled == old(autoAnchorEnabled)
      ensures anchorCorner == old(anchorCorner) && anchorMarginX == old(anchorMarginX) && anchorMarginY == old(anchorMarginY)
    {
      if quad.None? {
        BuildCachedQuad(left, top, width, height, White);
        return;
      }
      quad := Some(QuadVertices(left, top, width, height));
    }

    /** destroyCachedQuad: no quad and a 0 x 0 element; the cached position stays. */
    method DestroyCachedQuad()
      modifies this
      ensures Valid() && quad == None && !quadRenderable && elementWidth == 0.0 && elementHeight == 0.0
      ensures cachedLeft == old(cachedLeft) && cachedTop == old(cachedTop) && quadColor == old(quadColor)
      ensures primitives == old(primitives) && autoAnchorEnabled == old(autoAnchorEnabled)
      ensures anchorCorner == old(anchorCorner) && anchorMarginX == old(anchorMarginX) && anchorMarginY == old(anchorMarginY)
    {
      quadRenderable := false;
      quad := None;
      elementWidth, elementHeight := 0.0, 0.0;
    }

    /** drawCachedQuad: the same corner rule and move-on-change as the engine version. */
    method DrawCachedQuad(sw: real, sh: real) returns (moved: bool, shown: Option<seq<Vertex>>, drawn: seq<nat>)
      requires Valid()
      modifies this
      ensures Valid()
      ensures !old(quadRenderable) ==>
                !moved && shown == None && drawn == [] && quad == old(quad)
                && cachedLeft == old(cachedLeft) && cachedTop == old(cachedTop) && !quadRenderable
      ensures old(quadRenderable) ==> shown == quad && drawn == Somes(primitives)
      ensures var target := CornerTarget(anchorCorner, sw, sh, elementWidth, elementHeight, anchorMarginX, anchorMarginY);
              old(quadRenderable) && autoAnchorEnabled && elementWidth > 0.0 && elementHeight > 0.0 ==>
                Vec2(cachedLeft, cachedTop) == target
                && shown == Some(QuadVertices(target.x, target.y, elementWidth, elementHeight))
                && (moved <==> Vec2(old(cachedLeft), old(cachedTop)) != target)
      ensures !(autoAnchorEnabled && elementWidth > 0.0 && elementHeight > 0.0) ==>
                !moved && cachedLeft == old(cachedLeft) && cachedTop == old(cachedTop) && quad == old(quad)
      ensures elementWidth == old(elementWidth) && elementHeight == old(elementHeight)
      ensures primitives == old(primitives) && autoAnchorEnabled == old(autoAnchorEnabled)
      ensures anchorCorner == old(anchorCorner) && anchorMarginX == old(anchorMarginX) && anchorMarginY == old(anchorMarginY)
    {
      moved := false;
      if !quadRenderable {
        return false, None, [];
      }
      if autoAnchorEnabled && elementWidth > 0.0 && elementHeight > 0.0 {
        var target := CornerTarget(anchorCorner, sw, sh, elementWidth, elementHeight, anchorMarginX, anchorMarginY);
        if target.x != cachedLeft || target.y != cachedTop {
          MoveCachedQuad(target.x, target.y, elementWidth, elementHeight);
          cachedLeft, cachedTop := target.x, target.y;
          moved := true;
        }
      }
      shown := quad;
      drawn := DrawPrimitives();
    }

    method AddPrimitive(p: Option<nat>)
      modifies this
      ensures primitives == old(primitives) + [p]
    {
      primitives := primitives + [p];
    }

    method ClearPrimitives()
      modifies this
      ensures primitives == []
    {
      primitives := [];
    }

    /** drawPrimitives: the present children, in insertion order. */
    method DrawPrimitives() returns (drawn: seq<nat>)
      ensures drawn == Somes(primitives)
    {
      drawn := VisitPresent(primitives);
    }

    /** enableAutoAnchor: stores the corner, the margins and the flag, and nothing else. */
    method EnableAutoAnchor(corner: Corner, mx: real, my: real)
      requires Valid()
      modifies this
      ensures Valid() && autoAnchorEnabled && anchorCorner == corner && anchorMarginX == mx && anchorMarginY == my
      ensures quad == old(quad) && quadRenderable == old(quadRenderable) && primitives == old(primitives)
      ensures elementWidth == old(elementWidth) && elementHeight == old(elementHeight)
      ensures cachedLeft == old(cachedLeft) && cachedTop == old(cachedTop)
    {
      anchorCorner, anchorMarginX, anchorMarginY := corner, mx, my;
      autoAnchorEnabled := true;
    }

    /** disableAutoAnchor: clears the flag only. */
    method DisableAutoAnchor()
      requires Valid()
      modifies this
      ensures Valid() && !autoAnchorEnabled
      ensures anchorCorner == old(anchorCorner) && anchorMarginX == old(anchorMarginX) && anchorMarginY == old(anchorMarginY)
      ensures quad == old(quad) && quadRenderable == old(quadRenderable) && primitives == old(primitives)
      ensures elementWidth == old(elementWidth) && elementHeight == old(elementHeight)
      ensures cachedLeft == old(cachedLeft) && cachedTop == old(cachedTop)
    {
      autoAnchorEnabled := false;
    }
  }

  // ---------------------------------------------------------- WorldElement

  /** A container of 3-D primitives with a position and a rotation. */
  class WorldElement {
    /** Never holds a null handle: addPrimitive drops those. */
    var primitives: seq<nat>
    var position: Vec3
    var rotation: Vec3

    constructor()
      ensures primitives == [] && position == Vec3(0.0, 0.0, 0.0) && rotation == Vec3(0.0, 0.0, 0.0)
    {
      primitives := [];
      position := Vec3(0.0, 0.0, 0.0);
      rotation := Vec3(0.0, 0.0, 0.0);
    }

    /** addPrimitive: a present handle is appended; null is ignored. */
    method AddPrimitive(p: Option<nat>)
      modifies this
      ensures primitives == old(primitives) + (if p.Some? then [p.value] else [])
      ensures position == old(position) && rotation == old(rotation)
    {
      if p.Some? {
        primitives := primitives + [p.value];
      }
    }

    method ClearPrimitives()
      modifies this
      ensures primitives == [] && position == old(position) && rotation == old(rotation)
    {
      primitives := [];
    }

    method SetPosition(x: real, y: real, z: real)
      modifies this
      ensures position == Vec3(x, y, z) && rotation == old(rotation) && primitives == old(primitives)
    {
      position := Vec3(x, y, z);
    }

    method SetRotation(pitch: real, yaw: real, roll: real)
      modifies this
      ensures rotation == Vec3(pitch, yaw, roll) && position == old(position) && primitives == old(primitives)
    {
      rotation := Vec3(pitch, yaw, roll);
    }

    /** The handles as the shared_ptr list holds them. */
    function Handles(): seq<Option<nat>>
      reads this
    {
      var ps := primitives;
      seq(|ps|, i requires 0 <= i < |ps| => Some(ps[i]))
    }

    /** getContentSize: the componentwise maximum over the children, (0, 0) when empty. */
    method GetContentSize(sizeOf: nat -> Vec2) returns (width: real, height: real)
      ensures Vec2(width, height) == MaxContentSize(Handles(), sizeOf)
      ensures primitives == [] ==> width == 0.0 && height == 0.0
    {
      width, height := MaxContentLoop(Handles(), sizeOf);
    }

    /** render / drawPrimitives: every child, in insertion order, with the given matrices. */
    method Render(projection: Mat4, view: Mat4) returns (drawn: seq<nat>)
      ensures drawn == primitives
    {
      drawn := VisitPresent(Handles());
      SomesAllPresent(primitives);
    }
  }

  /** A list with no null handle is drawn whole. */
  lemma {:induction false} SomesAllPresent(s: seq<nat>)
    ensures Somes(seq(|s|, i requires 0 <= i < |s| => Some(s[i]))) == s
  {
    if s != [] {
      var init := s[..|s| - 1];
      SomesAllPresent(init);
      var hs := seq(|s|, i requires 0 <= i < |s| => Some(s[i]));
      assert hs[..|s| - 1] == seq(|init|, i requires 0 <= i < |init| => Some(init[i]));
      assert s == init + [s[|s| - 1]];
    }
  }
}
