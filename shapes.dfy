// The 2-D shape primitives of the engine: RectanglePrimitive (a quad whose
// index list depends on the topology), RoundedRectanglePrimitive and
// CirclePrimitive (triangle fans around a centre vertex), and
// CompositePrimitive. GPU buffers are sequences; the mesh-building helpers
// here are shared with the older UI primitives.

module Shapes {
  import opened Common
  import opened Factories
  import opened Primitives

  // ----------------------------------------------------------- rectangle

  /**
   * The four corners (l, t+h), (l+w, t+h), (l+w, t), (l, t), white, with
   * texture coordinates (0,1), (1,1), (1,0), (0,0) when `withUV` and zero
   * coordinates otherwise.
   */
  function RectangleVertices(l: real, t: real, w: real, h: real, withUV: bool): (vs: seq<Vertex>)
    ensures |vs| == 4
  {
    var one := if withUV then 1.0 else 0.0;
    [FlatVertex(l, t + h, 1.0, 1.0, 1.0, 0.0, one),
     FlatVertex(l + w, t + h, 1.0, 1.0, 1.0, one, one),
     FlatVertex(l + w, t, 1.0, 1.0, 1.0, one, 0.0),
     FlatVertex(l, t, 1.0, 1.0, 1.0, 0.0, 0.0)]
  }

  /** Corners k and k+1 (mod 4) share an edge of the box: they differ in exactly one coordinate. */
  predicate Adjacent(a: Vertex, b: Vertex)
  {
    (a.x == b.x) != (a.y == b.y)
  }

  /**
   * The vertices are the four distinct corners of the l, t, w, h box, each
   * one sharing an edge with the next, so they go round the box.
   */
  lemma RectangleCorners(l: real, t: real, w: real, h: real, withUV: bool)
    requires w != 0.0 && h != 0.0
    ensures var vs := RectangleVertices(l, t, w, h, withUV);
            (forall k :: 0 <= k < 4 ==> (vs[k].x == l || vs[k].x == l + w) && (vs[k].y == t || vs[k].y == t + h))
            && Adjacent(vs[0], vs[1]) && Adjacent(vs[1], vs[2]) && Adjacent(vs[2], vs[3]) && Adjacent(vs[3], vs[0])
            && (forall j, k :: 0 <= j < k < 4 ==> vs[j] != vs[k])
  {
  }

  /** With UVs each corner's texture coordinate is its place in the box: u = (x − l)/w, v = (y − t)/h. */
  lemma RectangleUV(l: real, t: real, w: real, h: real)
    requires w != 0.0 && h != 0.0
    ensures var vs := RectangleVertices(l, t, w, h, true);
            forall k :: 0 <= k < 4 ==> vs[k].u == (vs[k].x - l) / w && vs[k].v == (vs[k].y - t) / h
  {
    assert (l + w - l) / w == 1.0;
    assert (t + h - t) / h == 1.0;
    assert (l - l) / w == 0.0;
    assert (t - t) / h == 0.0;
  }

  /** The index list for a topology: strip [0,1,3,2], line strip [0,1,2,3,0], otherwise [0,1,2,2,3,0]. */
  function RectangleIndices(tp: Topology): (ix: seq<int>)
    ensures 4 <= |ix| <= 6
    ensures forall k :: 0 <= k < |ix| ==> 0 <= ix[k] < 4
  {
    if tp == TriangleStrip then [0, 1, 3, 2]
    else if tp == LineStrip then [0, 1, 2, 3, 0]
    else [0, 1, 2, 2, 3, 0]
  }

  /** The triangles a triangle list draws, three indices at a time (a partial triple is dropped). */
  function ListTriangles(ix: seq<int>): seq<set<int>>
    decreases |ix|
  {
    if |ix| < 3 then [] else [{ix[0], ix[1], ix[2]}] + ListTriangles(ix[3..])
  }

  /** The triangles a triangle strip draws: every window of three indices. */
  function StripTriangles(ix: seq<int>): seq<set<int>>
    decreases |ix|
  {
    if |ix| < 3 then [] else [{ix[0], ix[1], ix[2]}] + StripTriangles(ix[1..])
  }

  function DrawnTriangles(tp: Topology, ix: seq<int>): seq<set<int>>
  {
    if tp == Triangle then ListTriangles(ix)
    else if tp == TriangleStrip then StripTriangles(ix)
    else []
  }

  /**
   * For both triangle topologies the list yields two triangles that split
   * the quad along a diagonal: together they use all four corners and they
   * share exactly two of them, which are opposite corners.
   */
  lemma RectangleTriangulation(tp: Topology)
    requires tp == Triangle || tp == TriangleStrip
    ensures var ts := DrawnTriangles(tp, RectangleIndices(tp));
            |ts| == 2 && ts[0] + ts[1] == {0, 1, 2, 3}
            && (ts[0] * ts[1] == {0, 2} || ts[0] * ts[1] == {1, 3})
  {
    var ix := RectangleIndices(tp);
    if tp == Triangle {
      assert ix[3..] == [2, 3, 0];
      assert ix[3..][3..] == [];
      assert ListTriangles(ix[3..][3..]) == [];
      assert ListTriangles(ix[3..]) == [{2, 3, 0}];
      assert ListTriangles(ix) == [{0, 1, 2}, {2, 3, 0}];
    } else {
      assert ix[1..] == [1, 3, 2];
      assert ix[1..][1..] == [3, 2];
      assert StripTriangles(ix[1..][1..]) == [];
      assert StripTriangles(ix[1..]) == [{1, 3, 2}];
      assert StripTriangles(ix) == [{0, 1, 3}, {1, 3, 2}];
    }
  }

  /** The line strip walks round the box: each step goes to the next corner and it ends where it began. */
  lemma RectangleOutline()
    ensures var ix := RectangleIndices(LineStrip);
            |ix| == 5 && ix[0] == ix[4] && forall k :: 0 <= k < 4 ==> ix[k + 1] == (ix[k] + 1) % 4
  {
  }

  /**
   * The index buffer after a rebuild: a buffer that is missing or too small
   * is replaced by one holding exactly `ix`; a large enough buffer is reused
   * and only its first |ix| entries are overwritten.
   */
  function ReuseIndexBuffer(prev: Option<seq<int>>, ix: seq<int>): (buf: seq<int>)
    ensures |ix| <= |buf| && buf[..|ix|] == ix
    ensures prev.Some? && |ix| <= |prev.value| ==> |buf| == |prev.value| && buf[|ix|..] == prev.value[|ix|..]
    ensures !(prev.Some? && |ix| <= |prev.value|) ==> buf == ix
  {
    if prev.Some? && |ix| <= |prev.value| then ix + prev.value[|ix|..] else ix
  }

  /**
   * RectanglePrimitive. The renderable it holds is the one bound to its
   * base state, so it is read through `base.bound`.
   */
  class Rectangle {
    const base: RenderablePrimitive
    var l: real
    var t: real
    var width: real
    var height: real
    var dirty: bool
    var mesh: Mesh

    /** The bound renderable draws this mesh with the current colour. */
    ghost predicate Valid()
      reads this, base
    {
      base.Valid()
      && (base.bound.Some? ==> base.bound.value.mesh == mesh && base.bound.value.materialColor == base.color)
    }

    /** The mesh holds this box's corners and the index list of the current topology, and is bound. */
    ghost predicate Built()
      reads this, base
    {
      var ix := RectangleIndices(base.primitiveType);
      mesh.vertexBuffer == Some(RectangleVertices(l, t, width, height, true)) && mesh.vertexCount == 4
      && mesh.indexBuffer.Some? && mesh.indexCount == |ix| <= |mesh.indexBuffer.value|
      && mesh.indexBuffer.value[..|ix|] == ix
      && base.bound.Some?
    }

    /** A clean rectangle's mesh is up to date. */
    ghost predicate Fresh()
      reads this, base
    {
      !dirty ==> Built()
    }

    /** The rebuild-skip test of ensureMesh. */
    predicate Skips()
      reads this, base
    {
      !dirty && mesh.vertexBuffer.Some? && base.bound.Some? && base.bound.value.topology == base.primitiveType
    }

    constructor(left: real, top: real, w: real, h: real, col: Color)
      ensures Valid() && Fresh() && fresh(base)
      ensures l == left && t == top && width == w && height == h && dirty && mesh == EmptyMesh
      ensures base.color == col && base.primitiveType == Triangle && base.screenSpace && base.bound == None
    {
      base := new RenderablePrimitive();
      l, t, width, height := left, top, w, h;
      dirty := true;
      mesh := EmptyMesh;
      new;
      base.SetColor(col);
      base.SetBoundColor(col);
    }

    method SetPosition(left: real, top: real)
      requires Valid()
      modifies this
      ensures Valid() && Fresh() && dirty
      ensures l == left && t == top && width == old(width) && height == old(height) && mesh == old(mesh)
    {
      l, t := left, top;
      dirty := true;
    }

    method SetSize(w: real, h: real)
      requires Valid()
      modifies this
      ensures Valid() && Fresh() && dirty
      ensures width == w && height == h && l == old(l) && t == old(t) && mesh == old(mesh)
    {
      width, height := w, h;
      dirty := true;
    }

    /** setColor followed by onColorChanged: the bound material takes the colour; the mesh is kept. */
    method SetColor(c: Color)
      requires Valid()
      modifies base
      ensures Valid() && (old(Fresh()) ==> Fresh())
      ensures base.color == c
      ensures base.bound == (if old(base.bound).Some? then Some(old(base.bound).value.(materialColor := c)) else None)
      ensures base.primitiveType == old(base.primitiveType)
    {
      base.SetColor(c);
      base.SetBoundColor(c);
    }

    /**
     * setPrimitiveType, corrected: a change of topology also marks the
     * rectangle dirty, so the next draw builds the matching index list.
     */
    method SetPrimitiveType(tp: Topology)
      requires Valid()
      modifies this, base
      ensures Valid() && (old(Fresh()) ==> Fresh())
      ensures base.primitiveType == tp && base.color == old(base.color)
      ensures old(base.primitiveType) != tp ==> dirty
      ensures old(base.primitiveType) == tp ==> dirty == old(dirty)
      ensures mesh == old(mesh) && l == old(l) && t == old(t) && width == old(width) && height == old(height)
    {
      var changed := base.SetPrimitiveType(tp);
      if changed {
        dirty := true;
      }
    }

    /**
     * setPrimitiveType as written: the type is stored and pushed into the
     * bound renderable and nothing else happens, so the rectangle stays
     * clean.
     */
    method SetPrimitiveTypeAsWritten(tp: Topology)
      requires Valid()
      modifies base
      ensures Valid()
      ensures base.primitiveType == tp && base.color == old(base.color)
      ensures base.bound == (if old(base.bound).Some? then Some(old(base.bound).value.(topology := tp)) else None)
    {
      var _ := base.SetPrimitiveType(tp);
    }

    /**
     * ensureMesh: unless the skip test holds, writes the corners and the
     * topology's index list (reusing an index buffer that is large enough),
     * binds a new renderable and clears `dirty`.
     */
    method EnsureMesh()
      requires Valid()
      modifies this, base
      ensures Valid() && !dirty
      ensures old(Skips()) ==> mesh == old(mesh) && base.bound == old(base.bound)
      ensures !old(Skips()) || old(Fresh()) ==> Built()
      ensures base.primitiveType == old(base.primitiveType) && base.color == old(base.color)
      ensures l == old(l) && t == old(t) && width == old(width) && height == old(height)
    {
      if Skips() {
        return;
      }
      var ix := RectangleIndices(base.primitiveType);
      mesh := Mesh(Some(RectangleVertices(l, t, width, height, true)), Some(ReuseIndexBuffer(mesh.indexBuffer, ix)), 4, |ix|);
      var r := base.MakeRenderable(mesh, base.color, base.primitiveType);
      dirty := false;
    }

    /** draw: ensureMesh, then the bound renderable's draw call. */
    method Draw(projection: Mat4, view: Mat4) returns (d: Option<DrawCall>)
      requires Valid()
      modifies this, base
      ensures Valid() && !dirty
      ensures old(Skips()) ==> mesh == old(mesh) && base.bound == old(base.bound)
      ensures !old(Skips()) || old(Fresh()) ==> Built()
      ensures d == (if base.bound.Some? then IssueDraw(base.bound.value, projection, view) else None)
      ensures base.primitiveType == old(base.primitiveType) && base.color == old(base.color)
      ensures l == old(l) && t == old(t) && width == old(width) && height == old(height)
    {
      EnsureMesh();
      d := if base.bound.Some? then IssueDraw(base.bound.value, projection, view) else None;
    }

    /** drawScreenSpace: the same draw with the identity as the view matrix. */
    method DrawScreenSpace(projection: Mat4) returns (d: Option<DrawCall>)
      requires Valid()
      modifies this, base
      ensures Valid() && !dirty
      ensures d.Some? ==> d.value.view == Identity && d.value.projection == projection
      ensures d == (if base.bound.Some? then IssueDraw(base.bound.value, projection, Identity) else None)
      ensures base.primitiveType == old(base.primitiveType) && base.color == old(base.color)
      ensures l == old(l) && t == old(t) && width == old(width) && height == old(height)
    {
      d := Draw(projection, Identity);
    }
  }

  /**
   * Under the base class's invariant the bound renderable always carries
   * the current topology, so the topology clause of the skip test never
   * decides anything: the rebuild is skipped exactly when the rectangle is
   * clean, has a vertex buffer and is bound.
   */
  lemma TopologyTestInert(r: Rectangle)
    requires r.Valid()
    ensures r.Skips() <==> !r.dirty && r.mesh.vertexBuffer.Some? && r.base.bound.Some?
  {
  }

  /**
   * As written: a rectangle drawn as a triangle strip and then switched to
   * triangles keeps its strip index list, and the draw call sends those 4
   * indices as a triangle list, which yields one triangle: half the box.
   */
  method StaleTopologyExample(projection: Mat4, view: Mat4) returns (d: Option<DrawCall>)
    ensures d.Some? && d.value.topology == Triangle && d.value.indexed && d.value.count == 4
    ensures TrianglesDrawn(d.value) == 1
  {
    var rect := new Rectangle(0.0, 0.0, 100.0, 50.0, White);
    rect.SetPrimitiveType(TriangleStrip);
    var first := rect.Draw(projection, view);
    rect.SetPrimitiveTypeAsWritten(Triangle);
    d := rect.Draw(projection, view);
  }

  /** Corrected: after the same steps the draw call sends the 6-index triangle list: two triangles. */
  method TopologyChangeExample(projection: Mat4, view: Mat4) returns (d: Option<DrawCall>)
    ensures d.Some? && d.value.topology == Triangle && d.value.indexed && d.value.count == 6
    ensures TrianglesDrawn(d.value) == 2
  {
    var rect := new Rectangle(0.0, 0.0, 100.0, 50.0, White);
    rect.SetPrimitiveType(TriangleStrip);
    var first := rect.Draw(projection, view);
    rect.SetPrimitiveType(Triangle);
    d := rect.Draw(projection, view);
  }

  /**
   * With the corrected setter every draw of a rectangle issues an indexed
   * call over exactly the current topology's index list, in the current
   * colour.
   */
  method DrawMatchesTopology(rect: Rectangle, projection: Mat4, view: Mat4) returns (d: Option<DrawCall>)
    requires rect.Valid() && rect.Fresh()
    modifies rect, rect.base
    ensures rect.Valid() && rect.Fresh()
    ensures d.Some? && d.value.indexed && d.value.topology == rect.base.primitiveType
    ensures d.value.count == |RectangleIndices(rect.base.primitiveType)| && d.value.color == rect.base.color
    ensures rect.Built()
  {
    d := rect.Draw(projection, view);
  }

  // --------------------------------------------------------- triangle fans

  /**
   * Entry k of a fan index list: 0 at the start of each triple, and
   * `(ushort)(i + 1)`, `(ushort)(i + 2)` after it, for triangle i = k / 3.
   */
  function FanIndexAt(k: nat): int
  {
    if k % 3 == 0 then 0 else U16(k / 3 + k % 3)
  }

  /** An index array of `size` zeros whose first `triangles` triples are filled in. */
  function FanIndices(size: nat, triangles: nat): (ix: seq<int>)
    ensures |ix| == size
  {
    seq(size, k requires 0 <= k < size => if k < 3 * triangles then FanIndexAt(k) else 0)
  }

  /** The index loop of the fan builders, writing into a zero-filled array. */
  method FillFanIndices(size: nat, triangles: nat) returns (ix: seq<int>)
    requires 3 * triangles <= size
    ensures ix == FanIndices(size, triangles)
  {
    ix := seq(size, _ => 0);
    for i := 0 to triangles
      invariant |ix| == size
      invariant forall k :: 0 <= k < size ==> ix[k] == (if k < 3 * i then FanIndexAt(k) else 0)
    {
      FanTripleAt(i);
      ix := ix[3 * i := 0][3 * i + 1 := U16(i + 1)][3 * i + 2 := U16(i + 2)];
      forall k | 0 <= k < size
        ensures ix[k] == (if k < 3 * (i + 1) then FanIndexAt(k) else 0)
      {
        if 3 * i <= k < 3 * i + 3 {
          assert k == 3 * i || k == 3 * i + 1 || k == 3 * i + 2;
        }
      }
    }
  }

  /** Triple i of the fan is (0, (ushort)(i + 1), (ushort)(i + 2)). */
  lemma FanTripleAt(i: nat)
    ensures FanIndexAt(3 * i) == 0
    ensures FanIndexAt(3 * i + 1) == U16(i + 1)
    ensures FanIndexAt(3 * i + 2) == U16(i + 2)
  {
    EuclidUnique(3 * i, 3, i, 0);
    EuclidUnique(3 * i + 1, 3, i, 1);
    EuclidUnique(3 * i + 2, 3, i, 2);
  }

  /**
   * Every fan index is at most `triangles + 1`, so with the centre and
   * `triangles + 1` rim vertices no index is out of range.
   */
  lemma FanIndicesBound(size: nat, triangles: nat)
    ensures forall k :: 0 <= k < size ==> 0 <= FanIndices(size, triangles)[k] <= triangles + 1
  {
    forall k | 0 <= k < size && k < 3 * triangles
      ensures 0 <= FanIndexAt(k) <= triangles + 1
    {
      var i, j := k / 3, k % 3;
      assert k == 3 * i + j;
      assert i < triangles;
    }
  }

  /** Triangle i of a fan is (centre, rim i, rim i + 1) while the indices fit in a ushort. */
  lemma FanTriangles(size: nat, triangles: nat, i: nat)
    requires i < triangles && 3 * triangles <= size && triangles + 1 < 65536
    ensures var ix := FanIndices(size, triangles);
            ix[3 * i] == 0 && ix[3 * i + 1] == i + 1 && ix[3 * i + 2] == i + 2
  {
    FanTripleAt(i);
  }

  // ----------------------------------------------------- rounded rectangle

  /** The radius used: `max(0, min(rad, min(w, h) / 2))`. */
  function ClampedRadius(w: real, h: real, rad: real): (r: real)
    ensures 0.0 <= r && (r <= rad || rad < 0.0)
    ensures w >= 0.0 && h >= 0.0 ==> 2.0 * r <= w && 2.0 * r <= h
    ensures 0.0 <= rad && 2.0 * rad <= w && 2.0 * rad <= h ==> r == rad
  {
    Max(0.0, Min(rad, 0.5 * Min(w, h)))
  }

  /** The outline factory of a rounded box: its size, the clamped radius and `perCorner` points per corner. */
  function OutlineFactory(w: real, h: real, rad: real, perCorner: int): RoundedRectangleFactory
  {
    MakeRoundedRectangleFactory(Vec2(w, h), ClampedRadius(w, h, rad), perCorner)
  }

  /**
   * A rim vertex of a rounded box: the factory point moved to (l, t), in
   * colour `col`; with UVs, u = (x − l)/w and v = 1 − (y − t)/h, each 0
   * for an empty side.
   */
  function RimVertex(l: real, t: real, w: real, h: real, p: Vec2, col: Color, withUV: bool): Vertex
  {
    var x, y := l + p.x, t + p.y;
    var u := if withUV && w > 0.0 then (x - l) / w else 0.0;
    var v := if withUV && h > 0.0 then 1.0 - (y - t) / h else 0.0;
    FlatVertex(x, y, col.r, col.g, col.b, u, v)
  }

  /** The outline point used for rim slot i: point i, and point 0 again for the last slot. */
  function RimPoint(f: RoundedRectangleFactory, i: nat, trig: Trig): Vec2
  {
    RoundedPoint(f, if i == PointCount(f) then 0 else i, trig)
  }

  /**
   * The vertices of a rounded box: the centre (l + w/2, t + h/2), with UV
   * (0.5, 0.5) when `withUV`, then rim slots 0..N.
   */
  function RoundedVertices(l: real, t: real, w: real, h: real, f: RoundedRectangleFactory, col: Color,
                           withUV: bool, trig: Trig): (vs: seq<Vertex>)
    requires f.perCorner >= 1
    ensures |vs| == PointCount(f) + 2
  {
    var c := if withUV then 0.5 else 0.0;
    [FlatVertex(l + w * 0.5, t + h * 0.5, col.r, col.g, col.b, c, c)]
      + seq(PointCount(f) + 1, i requires 0 <= i <= PointCount(f) => RimVertex(l, t, w, h, RimPoint(f, i, trig), col, withUV))
  }

  /** The vertex loop of the rounded-rectangle builders. */
  method BuildRoundedVertices(l: real, t: real, w: real, h: real, f: RoundedRectangleFactory, col: Color,
                              withUV: bool, trig: Trig) returns (vs: seq<Vertex>)
    requires f.perCorner >= 1
    ensures vs == RoundedVertices(l, t, w, h, f, col, withUV, trig)
  {
    var n := PointCount(f);
    var c := if withUV then 0.5 else 0.0;
    vs := [FlatVertex(l + w * 0.5, t + h * 0.5, col.r, col.g, col.b, c, c)];
    for i := 0 to n + 1
      invariant |vs| == i + 1
      invariant vs[0] == FlatVertex(l + w * 0.5, t + h * 0.5, col.r, col.g, col.b, c, c)
      invariant forall k :: 0 <= k < i ==> vs[k + 1] == RimVertex(l, t, w, h, RimPoint(f, k, trig), col, withUV)
    {
      var idx := if i == n then 0 else i;
      var p := RoundedPoint(f, idx, trig);
      vs := vs + [RimVertex(l, t, w, h, p, col, withUV)];
    }
    assert vs == RoundedVertices(l, t, w, h, f, col, withUV, trig);
  }

  /**
   * The rim closes the fan: the last vertex repeats the first rim vertex,
   * and rim vertex k + 1 comes from outline point k.
   */
  lemma RoundedFanCloses(l: real, t: real, w: real, h: real, f: RoundedRectangleFactory, col: Color,
                         withUV: bool, trig: Trig)
    requires f.perCorner >= 1
    ensures var vs := RoundedVertices(l, t, w, h, f, col, withUV, trig);
            vs[PointCount(f) + 1] == vs[1]
            && forall k :: 0 <= k < PointCount(f) ==> vs[k + 1] == RimVertex(l, t, w, h, RoundedPoint(f, k, trig), col, withUV)
  {
    var vs := RoundedVertices(l, t, w, h, f, col, withUV, trig);
    var n := PointCount(f);
    var first := RimPoint(f, 0, trig);
    assert RimPoint(f, n, trig) == first;
    assert vs[n + 1] == RimVertex(l, t, w, h, first, col, withUV);
    assert vs[1] == RimVertex(l, t, w, h, first, col, withUV);
  }

  /**
   * A rim vertex sits at (l, t) plus its outline point, and its texture
   * coordinate is that point scaled by the box with v flipped.
   */
  lemma RimVertexPlacement(l: real, t: real, w: real, h: real, p: Vec2, col: Color)
    ensures var v := RimVertex(l, t, w, h, p, col, true);
            v.x == l + p.x && v.y == t + p.y && v.z == 0.0
            && (w > 0.0 ==> v.u == p.x / w) && (h > 0.0 ==> v.v == 1.0 - p.y / h)
            && (w <= 0.0 ==> v.u == 0.0) && (h <= 0.0 ==> v.v == 0.0)
  {
    assert l + p.x - l == p.x;
    assert t + p.y - t == p.y;
  }

  /** The mesh of a rounded box: N + 2 vertices and 3N fan indices. */
  function RoundedMesh(l: real, t: real, w: real, h: real, f: RoundedRectangleFactory, col: Color,
                       withUV: bool, trig: Trig): (m: Mesh)
    requires f.perCorner >= 1
    ensures m.vertexCount == PointCount(f) + 2 && m.indexCount == 3 * PointCount(f)
  {
    var n := PointCount(f);
    Mesh(Some(RoundedVertices(l, t, w, h, f, col, withUV, trig)), Some(FanIndices(3 * n, n)), n + 2, 3 * n)
  }

  /** Every index of a rounded box's mesh is a vertex of it, and triangle i is (centre, rim i, rim i + 1). */
  lemma RoundedMeshIndices(l: real, t: real, w: real, h: real, f: RoundedRectangleFactory, col: Color,
                           withUV: bool, trig: Trig)
    requires f.perCorner >= 1
    ensures var m := RoundedMesh(l, t, w, h, f, col, withUV, trig);
            |m.indexBuffer.value| == m.indexCount && |m.vertexBuffer.value| == m.vertexCount
            && forall k :: 0 <= k < m.indexCount ==> 0 <= m.indexBuffer.value[k] < m.vertexCount
  {
    FanIndicesBound(3 * PointCount(f), PointCount(f));
  }

  /** The rounded-box builder shared by both rounded rectangles. */
  method BuildRoundedMesh(l: real, t: real, w: real, h: real, f: RoundedRectangleFactory, col: Color,
                          withUV: bool, trig: Trig) returns (m: Mesh)
    requires f.perCorner >= 1
    ensures m == RoundedMesh(l, t, w, h, f, col, withUV, trig)
  {
    var n := PointCount(f);
    var vs := BuildRoundedVertices(l, t, w, h, f, col, withUV, trig);
    var ix := FillFanIndices(3 * n, n);
    m := Mesh(Some(vs), Some(ix), |vs|, |ix|);
  }

  /** RoundedRectanglePrimitive; `trig` stands for the cos/sin the outline uses. */
  class RoundedRectangle {
    const base: RenderablePrimitive
    const trig: Trig
    var l: real
    var t: real
    var width: real
    var height: real
    var rad: real
    var perCorner: int
    var dirty: bool
    var mesh: Mesh
    /** The colour the vertices were last built with. */
    ghost var meshColor: Color

    ghost predicate Valid()
      reads this, base
    {
      base.Valid() && perCorner >= 1
      && (base.bound.Some? ==> base.bound.value.mesh == mesh && base.bound.value.materialColor == base.color)
      && (!dirty ==> Built())
    }

    /** The mesh is this box's fan, and it is bound. */
    ghost predicate Built()
      reads this, base
      requires perCorner >= 1
    {
      mesh == RoundedMesh(l, t, width, height, OutlineFactory(width, height, rad, perCorner), meshColor, true, trig)
      && base.bound.Some?
    }

    /** The constructor: `perCorner = max(1, q)`, the colour, and triangles. */
    constructor(left: real, top: real, w: real, h: real, radius: real, col: Color, qualityPerCorner: int, tr: Trig)
      ensures Valid() && fresh(base) && dirty
      ensures l == left && t == top && width == w && height == h && rad == radius && trig == tr
      ensures perCorner == (if qualityPerCorner < 1 then 1 else qualityPerCorner)
      ensures base.color == col && base.primitiveType == Triangle && base.bound == None
    {
      base := new RenderablePrimitive();
      trig := tr;
      l, t, width, height, rad := left, top, w, h, radius;
      perCorner := if qualityPerCorner < 1 then 1 else qualityPerCorner;
      dirty := true;
      mesh := EmptyMesh;
      new;
      base.SetColor(col);
      base.SetBoundColor(col);
      var _ := base.SetPrimitiveType(Triangle);
    }

    method SetPosition(left: real, top: real)
      requires Valid()
      modifies this
      ensures Valid() && dirty && l == left && t == top
      ensures width == old(width) && height == old(height) && rad == old(rad) && perCorner == old(perCorner)
    {
      l, t := left, top;
      dirty := true;
    }

    method SetSize(w: real, h: real)
      requires Valid()
      modifies this
      ensures Valid() && dirty && width == w && height == h
      ensures l == old(l) && t == old(t) && rad == old(rad) && perCorner == old(perCorner)
    {
      width, height := w, h;
      dirty := true;
    }

    method SetRadius(r: real)
      requires Valid()
      modifies this
      ensures Valid() && dirty && rad == r
      ensures l == old(l) && t == old(t) && width == old(width) && height == old(height) && perCorner == old(perCorner)
    {
      rad := r;
      dirty := true;
    }

    method SetQualityPerCorner(q: int)
      requires Valid()
      modifies this
      ensures Valid() && dirty && perCorner == (if q < 1 then 1 else q)
      ensures l == old(l) && t == old(t) && width == old(width) && height == old(height) && rad == old(rad)
    {
      perCorner := if q < 1 then 1 else q;
      dirty := true;
    }

    /** setColor followed by onColorChanged: the bound material takes the colour; the vertices keep theirs. */
    method SetColor(c: Color)
      requires Valid()
      modifies base
      ensures Valid() && base.color == c
      ensures base.bound == (if old(base.bound).Some? then Some(old(base.bound).value.(materialColor := c)) else None)
    {
      base.SetColor(c);
      base.SetBoundColor(c);
    }

    /**
     * rebuild: skipped when clean with a vertex buffer. Otherwise builds the
     * fan for the clamped radius, then binds a new renderable the first
     * time, or hands the existing one the new mesh and the colour.
     */
    method Rebuild()
      requires Valid()
      modifies this, base
      ensures Valid() && !dirty && Built()
      ensures old(!dirty && mesh.vertexBuffer.Some?) ==> mesh == old(mesh) && base.bound == old(base.bound)
      ensures old(dirty || mesh.vertexBuffer.None?) && old(base.bound).Some? ==>
                base.bound == Some(old(base.bound).value.(mesh := mesh, materialColor := base.color))
      ensures base.color == old(base.color) && base.primitiveType == old(base.primitiveType)
      ensures l == old(l) && t == old(t) && width == old(width) && height == old(height)
      ensures rad == old(rad) && perCorner == old(perCorner)
    {
      if !dirty && mesh.vertexBuffer.Some? {
        return;
      }
      var f := OutlineFactory(width, height, rad, perCorner);
      MadeFactoryShape(Vec2(width, height), ClampedRadius(width, height, rad), perCorner);
      mesh := BuildRoundedMesh(l, t, width, height, f, base.color, true, trig);
      meshColor := base.color;
      if base.bound.None? {
        var r := base.MakeRenderable(mesh, base.color, base.primitiveType);
      } else {
        base.UpdateBoundMesh(mesh);
        base.SetBoundColor(base.color);
      }
      dirty := false;
    }

    method Draw(projection: Mat4, view: Mat4) returns (d: Option<DrawCall>)
      requires Valid()
      modifies this, base
      ensures Valid() && !dirty && Built()
      ensures d == IssueDraw(base.bound.value, projection, view)
      ensures base.color == old(base.color)
      ensures l == old(l) && t == old(t) && width == old(width) && height == old(height)
      ensures rad == old(rad) && perCorner == old(perCorner)
    {
      Rebuild();
      d := IssueDraw(base.bound.value, projection, view);
    }
  }

  // -------------------------------------------------------------- circle

  /**
   * The vertices of a circle fan: the centre, then the centre plus
   * `getPoint(i)` for i = 0..segments, all in colour `col` with zero UVs.
   */
  function CircleVertices(cx: real, cy: real, cf: CircleFactory, col: Color, trig: Trig): (vs: seq<Vertex>)
    requires cf.quality >= -1
    ensures |vs| == cf.quality + 2
  {
    [FlatVertex(cx, cy, col.r, col.g, col.b, 0.0, 0.0)]
      + seq(cf.quality + 1, i => var p := CirclePoint(cf, i, trig);
                                FlatVertex(cx + p.x, cy + p.y, col.r, col.g, col.b, 0.0, 0.0))
  }

  /** The vertex loop of the circle builders. */
  method BuildCircleVertices(cx: real, cy: real, cf: CircleFactory, col: Color, trig: Trig) returns (vs: seq<Vertex>)
    requires cf.quality >= -1
    ensures vs == CircleVertices(cx, cy, cf, col, trig)
  {
    vs := [FlatVertex(cx, cy, col.r, col.g, col.b, 0.0, 0.0)];
    var i := 0;
    while i <= cf.quality
      invariant 0 <= i <= cf.quality + 1 && |vs| == i + 1
      invariant vs[0] == FlatVertex(cx, cy, col.r, col.g, col.b, 0.0, 0.0)
      invariant forall k :: 0 <= k < i ==>
                  vs[k + 1] == FlatVertex(cx + CirclePoint(cf, k, trig).x, cy + CirclePoint(cf, k, trig).y,
                                          col.r, col.g, col.b, 0.0, 0.0)
    {
      var p := CirclePoint(cf, i, trig);
      vs := vs + [FlatVertex(cx + p.x, cy + p.y, col.r, col.g, col.b, 0.0, 0.0)];
      i := i + 1;
    }
    assert vs == CircleVertices(cx, cy, cf, col, trig);
  }

  /** The index array of a circle: 3·(segments + 1) entries, the first `segments` triples filled. */
  function CircleIndices(segments: int): (ix: seq<int>)
    requires segments >= -1
  {
    FanIndices(3 * (segments + 1), if segments < 0 then 0 else segments)
  }

  /**
   * The circle's index list: with segments >= 0 it is the fan followed by
   * a trailing (0, 0, 0) triple that is still counted, and every index is a
   * vertex of the circle's segments + 2.
   */
  lemma CircleIndexShape(segments: int)
    requires segments >= -1
    ensures |CircleIndices(segments)| == 3 * (segments + 1)
    ensures segments >= 0 ==> CircleIndices(segments)[3 * segments..] == [0, 0, 0]
    ensures forall k :: 0 <= k < |CircleIndices(segments)| ==> 0 <= CircleIndices(segments)[k] < segments + 2
  {
    var s := if segments < 0 then 0 else segments;
    FanIndicesBound(3 * (segments + 1), s);
    if segments >= 0 {
      var ix := CircleIndices(segments);
      assert ix[3 * segments..] == [ix[3 * segments], ix[3 * segments + 1], ix[3 * segments + 2]];
    }
  }

  /** The mesh of a circle: segments + 2 vertices and 3·(segments + 1) indices. */
  function CircleMesh(cx: real, cy: real, cf: CircleFactory, col: Color, trig: Trig): Mesh
    requires cf.quality >= -1
  {
    Mesh(Some(CircleVertices(cx, cy, cf, col, trig)), Some(CircleIndices(cf.quality)),
         cf.quality + 2, 3 * (cf.quality + 1))
  }

  /** The circle builder shared by both circles. */
  method BuildCircleMesh(cx: real, cy: real, cf: CircleFactory, col: Color, trig: Trig) returns (m: Mesh)
    requires cf.quality >= -1
    ensures m == CircleMesh(cx, cy, cf, col, trig)
  {
    var vs := BuildCircleVertices(cx, cy, cf, col, trig);
    var ix := FillFanIndices(3 * (cf.quality + 1), if cf.quality < 0 then 0 else cf.quality);
    m := Mesh(Some(vs), Some(ix), |vs|, |ix|);
  }

  /** CirclePrimitive. Its vertices are white; the material carries the colour. */
  class Circle {
    const base: RenderablePrimitive
    const trig: Trig
    const segments: int
    var cx: real
    var cy: real
    var radius: real
    var dirty: bool
    var mesh: Mesh

    ghost predicate Valid()
      reads this, base
    {
      base.Valid()
      && (base.bound.Some? ==> base.bound.value.mesh == mesh && base.bound.value.materialColor == base.color)
      && (!dirty ==> segments >= -1 && Built())
    }

    ghost predicate Built()
      reads this, base
      requires segments >= -1
    {
      mesh == CircleMesh(cx, cy, CircleFactory(radius, segments), White, trig) && base.bound.Some?
    }

    constructor(x: real, y: real, r: real, col: Color, segs: int, tr: Trig)
      ensures Valid() && fresh(base) && dirty
      ensures cx == x && cy == y && radius == r && segments == segs && trig == tr
      ensures base.color == col && base.primitiveType == Triangle && base.bound == None
    {
      base := new RenderablePrimitive();
      trig := tr;
      segments := segs;
      cx, cy, radius := x, y, r;
      dirty := true;
      mesh := EmptyMesh;
      new;
      base.SetColor(col);
      base.SetBoundColor(col);
      var _ := base.SetPrimitiveType(Triangle);
    }

    method SetCenter(x: real, y: real)
      requires Valid()
      modifies this
      ensures Valid() && dirty && cx == x && cy == y && radius == old(radius)
    {
      cx, cy := x, y;
      dirty := true;
    }

    method SetRadius(r: real)
      requires Valid()
      modifies this
      ensures Valid() && dirty && radius == r && cx == old(cx) && cy == old(cy)
    {
      radius := r;
      dirty := true;
    }

    /** setColor followed by onColorChanged: the bound material takes the colour; `dirty` is untouched. */
    method SetColor(c: Color)
      requires Valid()
      modifies base
      ensures Valid() && base.color == c
      ensures base.bound == (if old(base.bound).Some? then Some(old(base.bound).value.(materialColor := c)) else None)
    {
      base.SetColor(c);
      base.SetBoundColor(c);
    }

    /** rebuild: skipped when clean with a vertex buffer; otherwise the fan, then bind or update. */
    method Rebuild()
      requires Valid() && segments >= -1
      modifies this, base
      ensures Valid() && !dirty && Built()
      ensures old(!dirty && mesh.vertexBuffer.Some?) ==> mesh == old(mesh) && base.bound == old(base.bound)
      ensures old(dirty || mesh.vertexBuffer.None?) && old(base.bound).Some? ==>
                base.bound == Some(old(base.bound).value.(mesh := mesh, materialColor := base.color))
      ensures base.color == old(base.color) && base.primitiveType == old(base.primitiveType)
      ensures cx == old(cx) && cy == old(cy) && radius == old(radius)
    {
      if !dirty && mesh.vertexBuffer.Some? {
        return;
      }
      mesh := BuildCircleMesh(cx, cy, CircleFactory(radius, segments), White, trig);
      if base.bound.None? {
        var r := base.MakeRenderable(mesh, base.color, base.primitiveType);
      } else {
        base.UpdateBoundMesh(mesh);
        base.SetBoundColor(base.color);
      }
      dirty := false;
    }

    method Draw(projection: Mat4, view: Mat4) returns (d: Option<DrawCall>)
      requires Valid() && segments >= -1
      modifies this, base
      ensures Valid() && !dirty && Built()
      ensures d == IssueDraw(base.bound.value, projection, view)
      ensures base.color == old(base.color) && cx == old(cx) && cy == old(cy) && radius == old(radius)
    {
      Rebuild();
      d := IssueDraw(base.bound.value, projection, view);
    }
  }

  // ----------------------------------------------------------- composite

  /** CompositePrimitive: child handles, possibly null, drawn in order. */
  class Composite {
    var children: seq<Option<nat>>

    constructor()
      ensures children == []
    {
      children := [];
    }

    method Add(child: Option<nat>)
      modifies this
      ensures children == old(children) + [child]
    {
      children := children + [child];
    }

    method Clear()
      modifies this
      ensures children == []
    {
      children := [];
    }

    /** draw: the non-null children, in insertion order. */
    method Draw() returns (drawn: seq<nat>)
      ensures drawn == Somes(children)
    {
      drawn := VisitPresent(children);
    }
  }
}
