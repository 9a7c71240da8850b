// RenderablePrimitive: the state every drawable primitive shares (topology,
// colour, screen-space flag, transform override) and the renderable it is
// bound to. The binding is a weak pointer in the engine; every primitive
// only ever binds the renderable it owns itself, so while bound the
// renderable is alive and is modelled inline as a value.

module Primitives {
  import opened Common

  /** The state of a Renderable that primitives read and write. */
  datatype RenderableState =
    RenderableState(topology: Topology, screenSpace: bool, transform: Mat4, materialColor: Color, mesh: Mesh)

  /** `new Renderable(mesh, material)` whose material colour is `col`. */
  function NewRenderable(mesh: Mesh, col: Color): RenderableState
  {
    RenderableState(Triangle, false, Identity, col, mesh)
  }

  /** One draw call as the encoder receives it. */
  datatype DrawCall = DrawCall(topology: Topology, indexed: bool, count: nat,
                               transform: Mat4, projection: Mat4, view: Mat4, color: Color)

  /**
   * Renderable::draw: an indexed draw of `indexCount` indices when there is
   * an index buffer, a plain draw of `vertexCount` vertices when there is
   * only a vertex buffer, and nothing without buffers.
   */
  function IssueDraw(r: RenderableState, projection: Mat4, view: Mat4): (d: Option<DrawCall>)
    ensures d.Some? <==> r.mesh.indexBuffer.Some? || r.mesh.vertexBuffer.Some?
    ensures d.Some? ==> d.value.indexed == r.mesh.indexBuffer.Some?
    ensures d.Some? && d.value.indexed ==> d.value.count == r.mesh.indexCount
    ensures d.Some? && !d.value.indexed ==> d.value.count == r.mesh.vertexCount
    ensures d.Some? ==> d.value.topology == r.topology && d.value.color == r.materialColor
                        && d.value.transform == r.transform && d.value.projection == projection && d.value.view == view
  {
    if r.mesh.indexBuffer.Some? then
      Some(DrawCall(r.topology, true, r.mesh.indexCount, r.transform, projection, view, r.materialColor))
    else if r.mesh.vertexBuffer.Some? then
      Some(DrawCall(r.topology, false, r.mesh.vertexCount, r.transform, projection, view, r.materialColor))
    else None
  }

  /** How many whole triangles a triangle-list draw of `count` indices produces. */
  function TrianglesDrawn(d: DrawCall): nat
  {
    if d.topology == Triangle then d.count / 3 else 0
  }

  class RenderablePrimitive {
    var color: Color
    var screenSpace: bool
    var hasTransformOverride: bool
    var transformOverride: Mat4
    var primitiveType: Topology
    /** The renderable `registeredRenderable` refers to, or None when unbound. */
    var bound: Option<RenderableState>

    /** A renderable carries this primitive's topology, screen-space flag and transform. */
    predicate Agrees(r: RenderableState)
      reads this
    {
      r.topology == primitiveType && r.screenSpace == screenSpace && r.transform == transformOverride
    }

    /** Without an override the stored transform is the identity, and the bound renderable agrees. */
    ghost predicate Valid()
      reads this
    {
      (!hasTransformOverride ==> transformOverride == Identity)
      && (bound.Some? ==> Agrees(bound.value))
    }

    /** The defaults: white, screen space, no override, triangles, nothing bound. */
    constructor()
      ensures Valid()
      ensures color == White && screenSpace && !hasTransformOverride && transformOverride == Identity
      ensures primitiveType == Triangle && bound == None
    {
      color := White;
      screenSpace := true;
      hasTransformOverride := false;
      transformOverride := Identity;
      primitiveType := Triangle;
      bound := None;
    }

    /**
     * applyState: the renderable with this primitive's topology and
     * screen-space flag, and its transform when an override is set;
     * its mesh and material are untouched.
     */
    function ApplyState(r: RenderableState): (r': RenderableState)
      reads this
      ensures r'.topology == primitiveType && r'.screenSpace == screenSpace
      ensures r'.transform == (if hasTransformOverride then transformOverride else r.transform)
      ensures r'.mesh == r.mesh && r'.materialColor == r.materialColor
      ensures Valid() && (hasTransformOverride || r.transform == Identity) ==> Agrees(r')
    {
      var pushed := r.(topology := primitiveType, screenSpace := screenSpace);
      if hasTransformOverride then pushed.(transform := transformOverride) else pushed
    }

    /** setPrimitiveType: nothing happens for the current type; otherwise stored and pushed. */
    method SetPrimitiveType(t: Topology) returns (changed: bool)
      requires Valid()
      modifies this
      ensures Valid()
      ensures changed <==> old(primitiveType) != t
      ensures !changed ==> unchanged(this)
      ensures primitiveType == t
      ensures bound == (if old(bound).Some? then Some(old(bound).value.(topology := t)) else None)
      ensures color == old(color) && screenSpace == old(screenSpace)
      ensures hasTransformOverride == old(hasTransformOverride) && transformOverride == old(transformOverride)
    {
      if primitiveType == t {
        return false;
      }
      primitiveType := t;
      if bound.Some? {
        bound := Some(bound.value.(topology := t));
      }
      changed := true;
    }

    /** setColor: always stores the colour; the caller then runs its onColorChanged. */
    method SetColor(c: Color)
      requires Valid()
      modifies this
      ensures Valid()
      ensures color == c
      ensures screenSpace == old(screenSpace) && primitiveType == old(primitiveType) && bound == old(bound)
      ensures hasTransformOverride == old(hasTransformOverride) && transformOverride == old(transformOverride)
    {
      color := c;
    }

    /** setScreenSpace: nothing happens for the current value; otherwise stored and pushed. */
    method SetScreenSpace(v: bool) returns (changed: bool)
      requires Valid()
      modifies this
      ensures Valid()
      ensures changed <==> old(screenSpace) != v
      ensures !changed ==> unchanged(this)
      ensures screenSpace == v
      ensures bound == (if old(bound).Some? then Some(old(bound).value.(screenSpace := v)) else None)
      ensures color == old(color) && primitiveType == old(primitiveType)
      ensures hasTransformOverride == old(hasTransformOverride) && transformOverride == old(transformOverride)
    {
      if screenSpace == v {
        return false;
      }
      screenSpace := v;
      if bound.Some? {
        bound := Some(bound.value.(screenSpace := v));
      }
      changed := true;
    }

    /** setTransform: stores the override, raises the flag and pushes it. */
    method SetTransform(m: Mat4)
      requires Valid()
      modifies this
      ensures Valid()
      ensures hasTransformOverride && transformOverride == m
      ensures bound == (if old(bound).Some? then Some(old(bound).value.(transform := m)) else None)
      ensures color == old(color) && screenSpace == old(screenSpace) && primitiveType == old(primitiveType)
    {
      transformOverride := m;
      hasTransformOverride := true;
      if bound.Some? {
        bound := Some(bound.value.(transform := m));
      }
    }

    /** clearTransform: back to the identity with the flag off, pushed as well. */
    method ClearTransform()
      requires Valid()
      modifies this
      ensures Valid()
      ensures !hasTransformOverride && transformOverride == Identity
      ensures bound == (if old(bound).Some? then Some(old(bound).value.(transform := Identity)) else None)
      ensures color == old(color) && screenSpace == old(screenSpace) && primitiveType == old(primitiveType)
    {
      transformOverride := Identity;
      hasTransformOverride := false;
      if bound.Some? {
        bound := Some(bound.value.(transform := Identity));
      }
    }

    /** registerRenderable: binds the renderable and pushes the state into it. */
    method RegisterRenderable(r: Option<RenderableState>)
      requires Valid()
      modifies this
      ensures bound == (if r.Some? then Some(ApplyState(r.value)) else None)
      ensures r.Some? && (hasTransformOverride || r.value.transform == Identity) ==> Valid()
      ensures r.None? ==> Valid()
      ensures color == old(color) && screenSpace == old(screenSpace) && primitiveType == old(primitiveType)
      ensures hasTransformOverride == old(hasTransformOverride) && transformOverride == old(transformOverride)
    {
      bound := if r.Some? then Some(ApplyState(r.value)) else None;
    }

    /** unregisterRenderable: drops the binding. */
    method UnregisterRenderable()
      requires Valid()
      modifies this
      ensures Valid() && bound == None
      ensures color == old(color) && screenSpace == old(screenSpace) && primitiveType == old(primitiveType)
      ensures hasTransformOverride == old(hasTransformOverride) && transformOverride == old(transformOverride)
    {
      bound := None;
    }

    /**
     * makeRenderable: a new renderable over `mesh` with material colour
     * `col`, registered, then given topology `t`, this primitive's
     * screen-space flag and its transform. Every caller passes the
     * primitive's own topology, and then the binding agrees.
     */
    method MakeRenderable(mesh: Mesh, col: Color, t: Topology) returns (r: RenderableState)
      requires Valid()
      modifies this
      ensures bound == Some(r)
      ensures r.mesh == mesh && r.materialColor == col && r.topology == t
      ensures r.screenSpace == screenSpace && r.transform == transformOverride
      ensures t == primitiveType ==> Valid()
      ensures color == old(color) && screenSpace == old(screenSpace) && primitiveType == old(primitiveType)
      ensures hasTransformOverride == old(hasTransformOverride) && transformOverride == old(transformOverride)
    {
      var created := NewRenderable(mesh, col);
      RegisterRenderable(Some(created));
      r := bound.value.(topology := t, screenSpace := screenSpace);
      if hasTransformOverride {
        r := r.(transform := transformOverride);
      }
      bound := Some(r);
    }

    /** Renderable::updateMesh on the bound renderable. */
    method UpdateBoundMesh(m: Mesh)
      requires Valid() && bound.Some?
      modifies this
      ensures Valid()
      ensures bound == Some(old(bound).value.(mesh := m))
      ensures color == old(color) && screenSpace == old(screenSpace) && primitiveType == old(primitiveType)
      ensures hasTransformOverride == old(hasTransformOverride) && transformOverride == old(transformOverride)
    {
      bound := Some(bound.value.(mesh := m));
    }

    /** `material->setColor(c)` on the bound renderable, when there is one. */
    method SetBoundColor(c: Color)
      requires Valid()
      modifies this
      ensures Valid()
      ensures bound == (if old(bound).Some? then Some(old(bound).value.(materialColor := c)) else None)
      ensures color == old(color) && screenSpace == old(screenSpace) && primitiveType == old(primitiveType)
      ensures hasTransformOverride == old(hasTransformOverride) && transformOverride == old(transformOverride)
    {
      if bound.Some? {
        bound := Some(bound.value.(materialColor := c));
      }
    }
  }

  /**
   * A renderable that agrees with the primitive is left unchanged by
   * applyState: pushing the state twice is the same as pushing it once.
   */
  lemma ApplyStateIdempotent(p: RenderablePrimitive, r: RenderableState)
    requires p.Valid() && p.Agrees(r)
    ensures p.ApplyState(r) == r
    ensures p.ApplyState(p.ApplyState(r)) == p.ApplyState(r)
  {
  }
}
