// Shared value types of the engine's layout code: optional values, 2-D
// points and sizes, RGBA colours, 4x4 matrices (kept abstract), GPU
// vertices and meshes, and the Metal primitive topologies.

module Common {

  datatype Option<T> = None | Some(value: T)

  /** A simd::float2: a point, an offset or a width/height pair. */
  datatype Vec2 = Vec2(x: real, y: real)

  function Add(a: Vec2, b: Vec2): Vec2 { Vec2(a.x + b.x, a.y + b.y) }

  function Sub(a: Vec2, b: Vec2): Vec2 { Vec2(a.x - b.x, a.y - b.y) }

  const Origin: Vec2 := Vec2(0.0, 0.0)

  /** A simd::float3: a world position, direction or set of angles. */
  datatype Vec3 = Vec3(x: real, y: real, z: real)

  /** A simd::float4 colour (red, green, blue, alpha). */
  datatype Color = Color(r: real, g: real, b: real, a: real)

  const White: Color := Color(1.0, 1.0, 1.0, 1.0)

  /** A simd::float4x4, row by row. No matrix arithmetic is modelled. */
  datatype Mat4 = Mat4(rows: seq<real>)

  const Identity: Mat4 :=
    Mat4([1.0, 0.0, 0.0, 0.0,
          0.0, 1.0, 0.0, 0.0,
          0.0, 0.0, 1.0, 0.0,
          0.0, 0.0, 0.0, 1.0])

  /** MTL::PrimitiveType. */
  datatype Topology = Point | Line | LineStrip | Triangle | TriangleStrip

  /** The engine's Vertex: position (x, y, z), colour (r, g, b), texture coordinate (u, v). */
  datatype Vertex = Vertex(x: real, y: real, z: real, r: real, g: real, b: real, u: real, v: real)

  /** A vertex in the plane z = 0. */
  function FlatVertex(x: real, y: real, r: real, g: real, b: real, u: real, v: real): Vertex
  {
    Vertex(x, y, 0.0, r, g, b, u, v)
  }

  /**
   * A Mesh with its GPU buffers seen as sequences. An absent buffer is
   * None; the counts are the ones the draw call uses.
   */
  datatype Mesh = Mesh(vertexBuffer: Option<seq<Vertex>>, indexBuffer: Option<seq<int>>,
                       vertexCount: nat, indexCount: nat)

  const EmptyMesh: Mesh := Mesh(None, None, 0, 0)

  /** A C++ `ushort` cast of a non-negative int (arithmetic modulo 2^16). */
  function U16(n: nat): (r: nat)
    ensures r < 65536 && r <= n
    ensures n < 65536 ==> r == n
  {
    n % 65536
  }

  /** std::max / std::min over reals. */
  function Max(a: real, b: real): (r: real)
    ensures r >= a && r >= b && (r == a || r == b)
  {
    if a < b then b else a
  }

  function Min(a: real, b: real): (r: real)
    ensures r <= a && r <= b && (r == a || r == b)
  {
    if b < a then b else a
  }

  /** The present elements of a list of possibly-null handles, in order. */
  function Somes<T>(s: seq<Option<T>>): (r: seq<T>)
    ensures |r| <= |s|
  {
    if s == [] then []
    else Somes(s[..|s| - 1]) + (if s[|s| - 1].Some? then [s[|s| - 1].value] else [])
  }

  /** Appending a handle appends its value when present and nothing when null. */
  lemma SomesSnoc<T>(s: seq<Option<T>>, x: Option<T>)
    ensures Somes(s + [x]) == Somes(s) + (if x.Some? then [x.value] else [])
  {
    assert (s + [x])[..|s|] == s;
  }

  /** One more element of a prefix: its value is added when present. */
  lemma SomesPrefixStep<T>(s: seq<Option<T>>, i: nat)
    requires i < |s|
    ensures Somes(s[..i + 1]) == Somes(s[..i]) + (if s[i].Some? then [s[i].value] else [])
  {
    assert s[..i + 1] == s[..i] + [s[i]];
    SomesSnoc(s[..i], s[i]);
  }

  /** Every present handle is visited, and nothing else. */
  lemma {:induction false} SomesMembers<T>(s: seq<Option<T>>, v: T)
    ensures v in Somes(s) <==> Some(v) in s
  {
    if s != [] {
      var init := s[..|s| - 1];
      SomesMembers(init, v);
      assert s == init + [s[|s| - 1]];
    }
  }

  /**
   * The loop shared by every container's draw: visit the handles in order
   * and skip the null ones. Returns the handles drawn, in drawing order.
   */
  method VisitPresent<T>(children: seq<Option<T>>) returns (drawn: seq<T>)
    ensures drawn == Somes(children)
  {
    drawn := [];
    for i := 0 to |children|
      invariant drawn == Somes(children[..i])
    {
      SomesPrefixStep(children, i);
      if children[i].Some? {
        drawn := drawn + [children[i].value];
      }
    }
    assert children[..|children|] == children;
  }
}
