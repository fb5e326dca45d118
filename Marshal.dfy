/** What `fetch_surfaces` makes of one gathered surface: the five mesh arrays handed to the
    host engine, with positions and normals permuted to the host axes and tangents flattened
    to four components per vertex. */
module Marshal {
  import opened LibMap

  /** The vertex, normal, tangent, UV and index slots of the host mesh array. */
  datatype MeshArrays<S> = MeshArrays(
    vertices: seq<Vec3<S>>,
    normals: seq<Vec3<S>>,
    tangents: seq<S>,
    uvs: seq<Vec2<S>>,
    indices: seq<int>)

  /** The four tangent components in the order the binding emits them: y, z, x, w. */
  function TangentComponents<S>(t: Vec4<S>): seq<S>
  {
    [t.y, t.z, t.x, t.w]
  }

  /** The tangents of `vs`, four components per vertex, in vertex order. */
  function FlattenTangents<S>(vs: seq<Vertex<S>>): (r: seq<S>)
    ensures |r| == 4 * |vs|
  {
    if vs == [] then []
    else FlattenTangents(vs[..|vs| - 1]) + TangentComponents(vs[|vs| - 1].tangent)
  }

  /** One more vertex appends its four tangent components, one at a time, in (y, z, x, w) order. */
  lemma FlattenTangentsStep<S>(vs: seq<Vertex<S>>, v: int)
    requires 0 <= v < |vs|
    ensures FlattenTangents(vs[..v + 1])
         == FlattenTangents(vs[..v]) + [vs[v].tangent.y] + [vs[v].tangent.z] + [vs[v].tangent.x] + [vs[v].tangent.w]
  {
    assert vs[..v + 1][..v] == vs[..v];
  }

  /** Vertex `v`'s tangent occupies slots 4v .. 4v+3, as (y, z, x, w). */
  lemma {:induction false} FlattenTangentsAt<S>(vs: seq<Vertex<S>>, v: int)
    requires 0 <= v < |vs|
    ensures FlattenTangents(vs)[4 * v] == vs[v].tangent.y
    ensures FlattenTangents(vs)[4 * v + 1] == vs[v].tangent.z
    ensures FlattenTangents(vs)[4 * v + 2] == vs[v].tangent.x
    ensures FlattenTangents(vs)[4 * v + 3] == vs[v].tangent.w
  {
    var init := vs[..|vs| - 1];
    if v < |vs| - 1 {
      FlattenTangentsAt(init, v);
      assert init[v] == vs[v];
    }
  }

  /** Vertex positions on the host axes. */
  function HostPositions<S>(vs: seq<Vertex<S>>): seq<Vec3<S>>
  {
    seq(|vs|, i requires 0 <= i < |vs| => ToHostAxes(vs[i].vertex))
  }

  /** Vertex normals on the host axes, unscaled. */
  function HostNormals<S>(vs: seq<Vertex<S>>): seq<Vec3<S>>
  {
    seq(|vs|, i requires 0 <= i < |vs| => ToHostAxes(vs[i].normal))
  }

  function VertexUVs<S>(vs: seq<Vertex<S>>): seq<Vec2<S>>
  {
    seq(|vs|, i requires 0 <= i < |vs| => vs[i].uv)
  }

  /** The arrays `fetch_surfaces` builds for a surface with at least one vertex. */
  function MarshalSurface<S>(s: Surface<S>): MeshArrays<S>
  {
    MeshArrays(HostPositions(s.vertices), HostNormals(s.vertices), FlattenTangents(s.vertices),
               VertexUVs(s.vertices), s.indices)
  }

  /** The arrays agree in length: one position, normal and UV per vertex, four tangent
      components per vertex. */
  ghost predicate WellShaped<S>(a: MeshArrays<S>)
  {
    |a.normals| == |a.vertices| && |a.uvs| == |a.vertices| && |a.tangents| == 4 * |a.vertices|
  }

  /** Reads the engine's vertices back out of host mesh arrays. */
  function UnmarshalVertices<S>(a: MeshArrays<S>): seq<Vertex<S>>
    requires WellShaped(a)
  {
    seq(|a.vertices|, i requires 0 <= i < |a.vertices| =>
      Vertex(FromHostAxes(a.vertices[i]),
             FromHostAxes(a.normals[i]),
             Vec4(a.tangents[4 * i + 2], a.tangents[4 * i], a.tangents[4 * i + 1], a.tangents[4 * i + 3]),
             a.uvs[i]))
  }

  /** Over exact components and without the position scaling, marshalling loses nothing:
      the arrays are well shaped, the indices are copied verbatim, and every vertex
      (position, normal, tangent, UV) can be read back. */
  lemma MarshalSurfaceRoundTrip<S>(s: Surface<S>)
    ensures WellShaped(MarshalSurface(s))
    ensures |MarshalSurface(s).vertices| == |s.vertices|
    ensures MarshalSurface(s).indices == s.indices
    ensures UnmarshalVertices(MarshalSurface(s)) == s.vertices
  {
    var a := MarshalSurface(s);
    forall v | 0 <= v < |s.vertices|
      ensures UnmarshalVertices(a)[v] == s.vertices[v]
    {
      FlattenTangentsAt(s.vertices, v);
    }
  }
}
