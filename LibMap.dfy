/** The libmap data model that the Godot binding reads: textures, entities made of brushes,
    brushes made of faces, worldspawn layers, and the vertices and surfaces that the surface
    gatherer hands back. Only the fields the binding touches are modelled; the geometry
    engine that fills them in is not part of this model. */
module LibMap {

  datatype Option<T> = None | Some(value: T)

  /** Vector types. Components are left abstract (`S`) wherever the binding only moves
      them around; the entity center, which the binding also only permutes, uses `real`. */
  datatype Vec2<S> = Vec2(u: S, v: S)
  datatype Vec3<S> = Vec3(x: S, y: S, z: S)
  datatype Vec4<S> = Vec4(x: S, y: S, z: S, w: S)

  /** For the binding's purposes a face is just the index of its texture in the registry. */
  datatype Face = Face(textureIdx: int)

  /** A brush is its ordered sequence of faces (`face_count` / `faces`). */
  datatype Brush = Brush(faces: seq<Face>)

  datatype Property = Property(key: string, value: string)

  /** An entity: its brushes (`brush_count` / `brushes`), its raw key/value properties in
      file order, and its center in the engine's axis convention. */
  datatype Entity = Entity(brushes: seq<Brush>, properties: seq<Property>, center: Vec3<real>)

  datatype Texture = Texture(name: string)

  datatype WorldspawnLayer = WorldspawnLayer(textureIdx: int, buildVisuals: bool)

  /** The shared map data: texture registry, entities (entity 0 is worldspawn) and the
      registered worldspawn layers. */
  datatype MapData = MapData(textures: seq<Texture>, entities: seq<Entity>, layers: seq<WorldspawnLayer>)

  /** One generated vertex and one gathered surface (`vertex_count` / `vertices`,
      `index_count` / `indices`). */
  datatype Vertex<S> = Vertex(vertex: Vec3<S>, normal: Vec3<S>, tangent: Vec4<S>, uv: Vec2<S>)
  datatype Surface<S> = Surface(vertices: seq<Vertex<S>>, indices: seq<int>)

  /** Position in `layers` at or after `from` whose texture is `textureIdx`, or -1. */
  function FindLayerFrom(layers: seq<WorldspawnLayer>, textureIdx: int, from: nat): (r: int)
    requires from <= |layers|
    ensures r == -1 || from <= r < |layers|
    ensures r != -1 ==> layers[r].textureIdx == textureIdx
    ensures r == -1 <==> forall l :: from <= l < |layers| ==> layers[l].textureIdx != textureIdx
    decreases |layers| - from
  {
    if from == |layers| then -1
    else if layers[from].textureIdx == textureIdx then from
    else FindLayerFrom(layers, textureIdx, from + 1)
  }

  /** `map_data_find_worldspawn_layer`: the index of a registered layer that uses texture
      `textureIdx`, or -1 when no registered layer does. */
  function FindWorldspawnLayer(m: MapData, textureIdx: int): (r: int)
    ensures r == -1 || 0 <= r < |m.layers|
    ensures r != -1 ==> m.layers[r].textureIdx == textureIdx
    ensures r == -1 <==> forall l :: 0 <= l < |m.layers| ==> m.layers[l].textureIdx != textureIdx
  {
    FindLayerFrom(m.layers, textureIdx, 0)
  }

  /** `map_data_get_texture`: the registered texture with index `textureIdx`, or nothing
      when the index is outside the registry. */
  function GetTexture(m: MapData, textureIdx: int): Option<Texture>
  {
    if 0 <= textureIdx < |m.textures| then Some(m.textures[textureIdx]) else None
  }

  /** The binding's axis convention: engine (x, y, z) is emitted as (y, z, x). */
  function ToHostAxes<S>(v: Vec3<S>): (r: Vec3<S>)
    ensures FromHostAxes(r) == v
  {
    Vec3(v.y, v.z, v.x)
  }

  /** The inverse permutation: host (a, b, c) came from engine (c, a, b). */
  function FromHostAxes<S>(v: Vec3<S>): Vec3<S>
  {
    Vec3(v.z, v.x, v.y)
  }
}
