// The older UI primitives (UIPrimitive and its rectangle, rounded
// rectangle and circle). Their base class only stores the topology and the
// colour; each primitive owns its renderable outright and rebuilds it with
// the current topology and colour. The mesh builders are the ones of the
// newer shapes.

module LegacyShapes {
  import opened Common
  import opened Factories
  import opened Primitives
  import opened Shapes

  /** UIPrimitive: a topology and a colour, set without side effects. */
  class UIPrimitive {
    var primitiveType: Topology
    var color: Color

    /** The defaults: triangles, white. */
    constructor()
      ensures primitiveType == Triangle && color == White
    {
      primitiveType := Triangle;
      color := White;
    }

    method SetPrimitiveType(tp: Topology)
      modifies this
      ensures primitiveType == tp && color == old(color)
    {
      primitiveType := tp;
    }

    method SetColor(c: Color)
      modifies this
      ensures color == c && primitiveType == old(primitiveType)
    {
      color := c;
    }
  }

  /** UIPrimitive::makeRenderable: a screen-space renderable of topology `tp` with material colour `col`. */
  function LegacyRenderable(mesh: Mesh, col: Color, tp: Topology): (r: RenderableState)
    ensures r.screenSpace && r.topology == tp && r.mesh == mesh && r.materialColor == col && r.transform == Identity
  {
    NewRenderable(mesh, col).(screenSpace := true, topology := tp)
  }

  /** RectangleUIPrimitive: white corners without texture coordinates. */
  class RectangleUIPrimitive {
    const base: UIPrimitive
    var l: real
    var t: real
    var width: real
    var height: real
    var dirty: bool
    var mesh: Mesh
    var renderable: Option<RenderableState>

    /** The mesh holds the box's corners and the index list of the renderable's own topology. */
    ghost predicate Consistent()
      reads this
    {
      renderable.Some? &&
      var ix := RectangleIndices(renderable.value.topology);
      mesh.vertexBuffer == Some(RectangleVertices(l, t, width, height, false)) && mesh.vertexCount == 4
      && mesh.indexBuffer.Some? && mesh.indexCount == |ix| <= |mesh.indexBuffer.value|
      && mesh.indexBuffer.value[..|ix|] == ix
      && renderable.value.mesh == mesh
    }

    /** Up to date: consistent, and the renderable has the current topology. */
    ghost predicate Built()
      reads this, base
    {
      Consistent() && renderable.value.topology == base.primitiveType
    }

    /** A clean rectangle with buffers and a renderable is consistent, whatever the current topology. */
    ghost predicate Valid()
      reads this
    {
      !dirty && mesh.vertexBuffer.Some? && renderable.Some? ==> Consistent()
    }

    predicate Skips()
      reads this, base
    {
      !dirty && mesh.vertexBuffer.Some? && renderable.Some? && renderable.value.topology == base.primitiveType
    }

    constructor(left: real, top: real, w: real, h: real, col: Color)
      ensures Valid() && fresh(base) && dirty && renderable == None && mesh == EmptyMesh
      ensures l == left && t == top && width == w && height == h
      ensures base.color == col && base.primitiveType == Triangle
    {
      base := new UIPrimitive();
      l, t, width, height := left, top, w, h;
      dirty := true;
      mesh := EmptyMesh;
      renderable := None;
      new;
      base.SetColor(col);
    }

    method SetPosition(left: real, top: real)
      requires Valid()
      modifies this
      ensures Valid() && dirty && l == left && t == top && width == old(width) && height == old(height)
    {
      l, t := left, top;
      dirty := true;
    }

    method SetSize(w: real, h: real)
      requires Valid()
      modifies this
      ensures Valid() && dirty && width == w && height == h && l == old(l) && t == old(t)
    {
      width, height := w, h;
      dirty := true;
    }

    /** The inherited setPrimitiveType: the renderable keeps its old topology until the next ensureMesh. */
    method SetPrimitiveType(tp: Topology)
      requires Valid()
      modifies base
      ensures Valid() && base.primitiveType == tp && base.color == old(base.color)
    {
      base.SetPrimitiveType(tp);
    }

    /**
     * ensureMesh: unless clean, built and of the current topology, writes
     * the corners and the topology's index list and recreates the
     * renderable. Either way the mesh is then up to date.
     */
    method EnsureMesh()
      requires Valid()
      modifies this
      ensures Valid() && !dirty && Built()
      ensures old(Skips()) ==> mesh == old(mesh) && renderable == old(renderable)
      ensures !old(Skips()) ==> renderable == Some(LegacyRenderable(mesh, base.color, base.primitiveType))
      ensures l == old(l) && t == old(t) && width == old(width) && height == old(height)
    {
      if Skips() {
        return;
      }
      var ix := RectangleIndices(base.primitiveType);
      mesh := Mesh(Some(RectangleVertices(l, t, width, height, false)), Some(ReuseIndexBuffer(mesh.indexBuffer, ix)), 4, |ix|);
      renderable := Some(LegacyRenderable(mesh, base.color, base.primitiveType));
      dirty := false;
    }

    /**
     * draw: after ensureMesh the draw call always uses the current topology
     * and exactly its index list, in screen space with the identity view.
     */
    method Draw(ortho: Mat4) returns (d: Option<DrawCall>)
      requires Valid()
      modifies this
      ensures Valid() && !dirty && Built()
      ensures d == IssueDraw(renderable.value, ortho, Identity)
      ensures d.Some? && d.value.indexed && d.value.topology == base.primitiveType
      ensures d.value.count == |RectangleIndices(base.primitiveType)| && d.value.view == Identity
    {
      EnsureMesh();
      d := IssueDraw(renderable.value, ortho, Identity);
    }
  }

  /** In the older rectangle a change of topology is always rebuilt: the draw after it has the new index list. */
  method LegacyTopologyChangeExample(ortho: Mat4) returns (d: Option<DrawCall>)
    ensures d.Some? && d.value.topology == Triangle && d.value.count == 6
  {
    var rect := new RectangleUIPrimitive(0.0, 0.0, 100.0, 50.0, White);
    rect.SetPrimitiveType(TriangleStrip);
    var first := rect.Draw(ortho);
    rect.SetPrimitiveType(Triangle);
    d := rect.Draw(ortho);
  }

  /** RoundedRectangleUIPrimitive: the fan in the primitive's colour, without texture coordinates. */
  class RoundedRectangleUIPrimitive {
    const base: UIPrimitive
    const trig: Trig
    var l: real
    var t: real
    var width: real
    var height: real
    var rad: real
    var perCorner: int
    var dirty: bool
    var mesh: Mesh
    var renderable: Option<RenderableState>
    /** The colour the vertices were last built with. */
    ghost var meshColor: Color

    ghost predicate Valid()
      reads this
    {
      perCorner >= 1 && (!dirty ==> Built())
    }

    ghost predicate Built()
      reads this
      requires perCorner >= 1
    {
      mesh == RoundedMesh(l, t, width, height, OutlineFactory(width, height, rad, perCorner), meshColor, false, trig)
      && renderable.Some? && renderable.value.mesh == mesh
    }

    constructor(left: real, top: real, w: real, h: real, radius: real, col: Color, qualityPerCorner: int, tr: Trig)
      ensures Valid() && fresh(base) && dirty && renderable == None
      ensures l == left && t == top && width == w && height == h && rad == radius && trig == tr
      ensures perCorner == (if qualityPerCorner < 1 then 1 else qualityPerCorner)
      ensures base.color == col && base.primitiveType == Triangle
    {
      base := new UIPrimitive();
      trig := tr;
      l, t, width, height, rad := left, top, w, h, radius;
      perCorner := if qualityPerCorner < 1 then 1 else qualityPerCorner;
      dirty := true;
      mesh := EmptyMesh;
      renderable := None;
      new;
      base.SetColor(col);
      base.SetPrimitiveType(Triangle);
    }

    method SetPosition(left: real, top: real)
      requires Valid()
      modifies this
      ensures Valid() && dirty && l == left && t == top && width == old(width) && height == old(height) && rad == old(rad)
    {
      l, t := left, top;
      dirty := true;
    }

    method SetSize(w: real, h: real)
      requires Valid()
      modifies this
      ensures Valid() && dirty && width == w && height == h && l == old(l) && t == old(t) && rad == old(rad)
    {
      width, height := w, h;
      dirty := true;
    }

    method SetRadius(r: real)
      requires Valid()
      modifies this
      ensures Valid() && dirty && rad == r && l == old(l) && t == old(t) && width == old(width) && height == old(height)
    {
      rad := r;
      dirty := true;
    }

    method SetQualityPerCorner(q: int)
      requires Valid()
      modifies this
      ensures Valid() && dirty && perCorner == (if q < 1 then 1 else q) && rad == old(rad)
    {
      perCorner := if q < 1 then 1 else q;
      dirty := true;
    }

    /** rebuild: skipped when clean with a vertex buffer; otherwise the fan and a new renderable. */
    method Rebuild()
      requires Valid()
      modifies this
      ensures Valid() && !dirty && Built()
      ensures old(!dirty && mesh.vertexBuffer.Some?) ==> mesh == old(mesh) && renderable == old(renderable)
      ensures old(dirty || mesh.vertexBuffer.None?) ==>
                renderable == Some(LegacyRenderable(mesh, base.color, base.primitiveType)) && meshColor == base.color
      ensures l == old(l) && t == old(t) && width == old(width) && height == old(height) && rad == old(rad)
    {
      if !dirty && mesh.vertexBuffer.Some? {
        return;
      }
      var f := OutlineFactory(width, height, rad, perCorner);
      mesh := BuildRoundedMesh(l, t, width, height, f, base.color, false, trig);
      meshColor := base.color;
      renderable := Some(LegacyRenderable(mesh, base.color, base.primitiveType));
      dirty := false;
    }

    method Draw(ortho: Mat4) returns (d: Option<DrawCall>)
      requires Valid()
      modifies this
      ensures Valid() && !dirty && Built()
      ensures d == IssueDraw(renderable.value, ortho, Identity)
    {
      Rebuild();
      d := IssueDraw(renderable.value, ortho, Identity);
    }
  }

  /** CircleUIPrimitive: the fan in the primitive's colour. */
  class CircleUIPrimitive {
    const base: UIPrimitive
    const trig: Trig
    const segments: int
    var cx: real
    var cy: real
    var radius: real
    var dirty: bool
    var mesh: Mesh
    var renderable: Option<RenderableState>
    ghost var meshColor: Color

    ghost predicate Valid()
      reads this
    {
      !dirty ==> segments >= -1 && Built()
    }

    ghost predicate Built()
      reads this
      requires segments >= -1
    {
      mesh == CircleMesh(cx, cy, CircleFactory(radius, segments), meshColor, trig)
      && renderable.Some? && renderable.value.mesh == mesh
    }

    constructor(x: real, y: real, r: real, col: Color, segs: int, tr: Trig)
      ensures Valid() && fresh(base) && dirty && renderable == None
      ensures cx == x && cy == y && radius == r && segments == segs && trig == tr
      ensures base.color == col && base.primitiveType == Triangle
    {
      base := new UIPrimitive();
      trig := tr;
      segments := segs;
      cx, cy, radius := x, y, r;
      dirty := true;
      mesh := EmptyMesh;
      renderable := None;
      new;
      base.SetColor(col);
      base.SetPrimitiveType(Triangle);
    }

    method SetCenter(x: real, y: real)
      requires Valid()
      modifies this
      ensures Valid() && dirty && cx == x && cy == y && radius == old(radius)
    {
      cx, cy := x, y;
      dirty := true;
    }

    method SetRadius(r: real)
      requires Valid()
      modifies this
      ensures Valid() && dirty && radius == r && cx == old(cx) && cy == old(cy)
    {
      radius := r;
      dirty := true;
    }

    /** rebuild: skipped when clean with a vertex buffer; otherwise the fan and a new renderable. */
    method Rebuild()
      requires Valid() && segments >= -1
      modifies this
      ensures Valid() && !dirty && Built()
      ensures old(!dirty && mesh.vertexBuffer.Some?) ==> mesh == old(mesh) && renderable == old(renderable)
      ensures old(dirty || mesh.vertexBuffer.None?) ==>
                renderable == Some(LegacyRenderable(mesh, base.color, base.primitiveType)) && meshColor == base.color
      ensures cx == old(cx) && cy == old(cy) && radius == old(radius)
    {
      if !dirty && mesh.vertexBuffer.Some? {
        return;
      }
      mesh := BuildCircleMesh(cx, cy, CircleFactory(radius, segments), base.color, trig);
      meshColor := base.color;
      renderable := Some(LegacyRenderable(mesh, base.color, base.primitiveType));
      dirty := false;
    }

    method Draw(ortho: Mat4) returns (d: Option<DrawCall>)
      requires Valid() && segments >= -1
      modifies this
      ensures Valid() && !dirty && Built()
      ensures d == IssueDraw(renderable.value, ortho, Identity)
    {
      Rebuild();
      d := IssueDraw(renderable.value, ortho, Identity);
    }
  }
}
