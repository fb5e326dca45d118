# Qodot binding layer, modelled in Dafny

Qodot's Godot module (`qodot.cpp`) sits between the Godot engine and libmap. libmap is a
library that parses Quake-style brush maps, builds brush geometry and gathers it into
surfaces. This project models the logic that the binding itself contains:

- **Brush classification.** `get_entity_dicts` reports one dictionary per entity: its brush
  count, its properties, its center permuted to Godot's axes, and the indices of its brushes
  that touch no worldspawn-layer texture. `get_worldspawn_layer_dicts` reports, for each
  registered worldspawn layer whose texture resolves, the worldspawn brushes that use that
  layer's texture.
- **Surface marshalling.** `fetch_surfaces` turns each gathered surface into Godot mesh
  arrays. An empty surface becomes a nil slot. Positions and normals are permuted from
  (x, y, z) to (y, z, x). Tangents are flattened to (y, z, x, w) per vertex. UVs and
  indices are copied.
- **Gather configuration.** Each public gather entry point resets the surface gatherer. It
  then sets a fixed split type, its filters and the worldspawn-layer flag.
- **Texture list.** `get_texture_list` gives one name per registered texture.

Modules:

- `LibMap` holds the data model: textures, entities, brushes, faces, layers, vertices and
  surfaces. It also holds the two map-data lookups the binding calls and the axis
  permutation.
- `Indices` holds the "append every index that passes" list, with its ordering and
  membership lemmas.
- `Classification` holds the functions that specify both dictionary queries, the
  property-map lemma and the worldspawn partition lemma.
- `Marshal` holds the per-surface mesh arrays, the tangent layout and the inverse with its
  round trip.
- `Gatherer` holds the gather parameters, the `SurfaceGatherer` class (reset plus setters)
  and the 64-to-32-bit entity-index cast.
- `Binding` holds the `Qodot` class. Its methods follow the source's loops, and each one is
  proved equal to the specifying function.

Vertex components are a type parameter. No floating-point arithmetic is modelled.

## Model

| member | source | states |
|---|---|---|
| `LibMap.FindWorldspawnLayer` | qodot.cpp:99 | returns -1 exactly when no registered layer uses the texture; otherwise a layer index whose texture is that texture |
| `LibMap.ToHostAxes` | qodot.cpp:111 | the (x,y,z)→(y,z,x) permutation is undone by `FromHostAxes`, so no component is lost or scaled |
| `Indices.IndicesWhere` | qodot.cpp:92-107 | an appended index list never has more entries than the sequence scanned, and every entry is a position in it |
| `Indices.IndicesWhereAscending` | qodot.cpp:92-107 | indices appended by a front-to-back scan are strictly ascending |
| `Indices.IndicesWhereMembers` | qodot.cpp:92-107 | a position is listed exactly when it is in range and its element passes the test |
| `Classification.NonLayerBrushIndicesSpec` | qodot.cpp:92-107 | an entity's `brush_indices` is strictly ascending, below `brush_count`, and holds b exactly when no face of brush b is on a worldspawn-layer texture |
| `Classification.LayerBrushIndicesSpec` | qodot.cpp:155-171 | a layer's `brush_indices` is strictly ascending, below worldspawn's `brush_count`, and holds b exactly when some face of brush b uses the layer's texture |
| `Classification.IsLayerBrushIff` | qodot.cpp:96-103 | a brush is a layer brush exactly when it uses the texture of some registered layer |
| `Classification.PropertyMapLastWins` | qodot.cpp:113-118 | the property dictionary has exactly the keys of the entity's properties, and a duplicated key takes the value of its last occurrence |
| `Classification.EntityDictsSpec` | qodot.cpp:76-126 | one dictionary per entity in entity order, with `brush_count` = the brush count, ascending non-layer `brush_indices` (both directions), the center recoverable by the inverse permutation, and the property dictionary |
| `Classification.LayerDictsForConcat` | qodot.cpp:141-176 | layer order is kept: the entries for layers a followed by b are those for a followed by those for b |
| `Classification.LayerDictsForSource` | qodot.cpp:141-176 | every reported layer entry is the texture name and brush list of some registered layer whose texture resolved |
| `Classification.LayerDictsForComplete` | qodot.cpp:141-176 | every registered layer whose texture resolves has its entry (texture name and brush list) among the reported ones |
| `Classification.LayerDictsForAllResolve` | qodot.cpp:141-176 | when every layer's texture resolves there is exactly one entry per layer, in layer order, with that layer's texture name and brush list |
| `Classification.LayerDictsHoldLayerBrushes` | qodot.cpp:141-176 | every brush a layer entry lists is a worldspawn brush index, and that brush is a layer brush |
| `Classification.LayerBrushesAreListed` | qodot.cpp:141-176 | when the layer textures worldspawn uses resolve, every worldspawn layer brush appears in some layer entry |
| `Classification.WorldspawnPartition` | qodot.cpp:76-179 | when every layer texture that some worldspawn face uses resolves (for instance when all layers resolve, or all face textures are registered), worldspawn's non-layer list and the union of the layer lists are disjoint and together cover every worldspawn brush index, and neither holds anything else |
| `Classification.PartitionAssumptionFromRegistry` | qodot.cpp:141-171 | the partition's assumption holds for every map whose worldspawn faces only name registered textures |
| `Marshal.FlattenTangents` | qodot.cpp:270-277 | the flattened tangent array has four components per vertex |
| `Marshal.FlattenTangentsAt` | qodot.cpp:272-276 | vertex v's tangent occupies slots 4v..4v+3 in the order y, z, x, w |
| `Marshal.MarshalSurfaceRoundTrip` | qodot.cpp:251-304 | the vertex, normal and UV arrays have one entry per vertex and the tangent array four; indices are copied verbatim; over exact components and without the position scaling, every engine vertex can be read back from the arrays |
| `Gatherer.ToInt32` | qodot.cpp:219 | the `(int)` cast yields a 32-bit value congruent to the input modulo 2^32, and the input itself when it already fits |
| `Gatherer.SurfaceGatherer.constructor` | qodot.h:15 | a new gatherer starts from its reset parameters |
| `Gatherer.SurfaceGatherer.ResetParams` | qodot.cpp:194 | every parameter returns to its reset value, whatever was set before |
| `Gatherer.SurfaceGatherer.SetSplitType` | qodot.cpp:195 | sets the split type and nothing else |
| `Gatherer.SurfaceGatherer.SetTextureFilter` | qodot.cpp:196 | sets the texture filter and nothing else |
| `Gatherer.SurfaceGatherer.SetBrushFilterTexture` | qodot.cpp:197 | sets the brush filter texture and nothing else |
| `Gatherer.SurfaceGatherer.SetFaceFilterTexture` | qodot.cpp:198 | sets the face filter texture and nothing else |
| `Gatherer.SurfaceGatherer.SetEntityIndexFilter` | qodot.cpp:219 | sets the entity index filter and nothing else |
| `Gatherer.SurfaceGatherer.SetWorldspawnLayerFilter` | qodot.cpp:199 | sets the worldspawn-layer flag and nothing else |
| `Binding.Qodot.constructor` | qodot.h:12-15 | the binding holds the given map data and a fresh gatherer at its reset parameters |
| `Binding.Qodot.GetTextureList` | qodot.cpp:14-29 | one name per registered texture, in registry order, each the name of the texture registered at that index |
| `Binding.Qodot.ScanForLayerFace` | qodot.cpp:96-103 | the face scan with early exit reports exactly whether some face is on a registered worldspawn-layer texture |
| `Binding.Qodot.ScanForTexture` | qodot.cpp:159-166 | the face scan with early exit reports exactly whether some face uses the layer's texture |
| `Binding.Qodot.GetEntityDicts` | qodot.cpp:76-126 | the nested entity/brush/face/property loops produce exactly the entity dictionaries specified by `EntityDicts` |
| `Binding.Qodot.GetWorldspawnLayerDicts` | qodot.cpp:128-179 | empty when no entity is loaded; otherwise the layer loop, skipping unresolved textures, produces exactly `LayerDicts` |
| `Binding.Qodot.GatherTextureSurfacesInternal` | qodot.cpp:189-202 | reset, then split ENTITY, the three texture filters and the layer flag as given; the entity filter keeps its reset value, whatever the gatherer held before |
| `Binding.Qodot.GatherTextureSurfaces` | qodot.cpp:181-183 | split ENTITY, the three texture filters as given, layer filter true, every other field at its reset value |
| `Binding.Qodot.GatherWorldspawnLayerSurfaces` | qodot.cpp:185-187 | split ENTITY, the three texture filters as given, layer filter false, every other field at its reset value |
| `Binding.Qodot.GatherConvexCollisionSurfaces` | qodot.cpp:216-223 | reset, then split BRUSH, the entity filter set to the 32-bit cast index and the layer flag as given; the texture filters keep their reset values |
| `Binding.Qodot.GatherConcaveCollisionSurfaces` | qodot.cpp:225-232 | reset, then split NONE, the entity filter set to the 32-bit cast index and the layer flag as given; the texture filters keep their reset values |
| `Binding.Qodot.GatherEntityConvexCollisionSurfaces` | qodot.cpp:204-206 | split BRUSH, entity filter set to the cast index, layer filter true, texture filters at their reset values |
| `Binding.Qodot.GatherEntityConcaveCollisionSurfaces` | qodot.cpp:208-210 | split NONE, entity filter set to the cast index, layer filter true, texture filters at their reset values |
| `Binding.Qodot.GatherWorldspawnLayerCollisionSurfaces` | qodot.cpp:212-214 | split BRUSH, entity filter set to the cast index, layer filter false, texture filters at their reset values |
| `Binding.Qodot.BuildMeshArrays` | qodot.cpp:251-304 | the per-vertex append loops build exactly the mesh arrays of `MarshalSurface` |
| `Binding.Qodot.FetchSurfaces` | qodot.cpp:234-309 | one slot per gathered surface, in order; a slot is empty exactly when its surface has no vertices, and otherwise holds that surface's marshalled arrays |

## Left out

- The libmap engine is not part of this model: map parsing, plane intersection, winding,
  triangulation, and UV and tangent derivation. `map_parser.h`, `geo_generator.h`,
  `surface_gatherer.h` and `map_data.h` are not part of this model, and the engine's
  arithmetic is floating point.
- `load_map`, `set_entity_definitions`, `set_worldspawn_layers` and `generate_geometry` only
  pass their arguments on to the engine, so they are not modelled.
- `_bind_methods` registers methods with Godot. It is not modelled.
- The marshalling into Godot types is not modelled: `Variant`, `Dictionary`, `Packed*Array`,
  `utf8()` / `parse_utf8`, and the unused nil slots of the `ARRAY_MAX` mesh array.
- `std::shared_ptr` ownership is not modelled. The map data is a value field of `Qodot`.
- The `vertex_colors` field of a brush is not modelled, and neither is a brush's `center`.
  The binding reads neither of them.
- `LibMap.FindWorldspawnLayer` stands in for the engine's layer lookup, which is not shown.
  The binding only compares its result with -1. The contract says that -1 means no
  registered layer uses the texture, and that any other result is the index of a layer that
  does. Which of several such layers is returned is not stated.
- `LibMap.GetTexture` stands in for the engine's texture lookup, which is not shown. It is
  modelled as an in-range lookup that fails outside the registry. It carries no contract of
  its own, because its body is the whole definition.
- `Marshal.MarshalSurfaceRoundTrip`: the round trip holds for the abstract component type
  only. The division of positions by `p_inverse_scale_factor` is left out. Godot stores
  positions, normals and UVs as 32-bit `real_t`, while the engine's tangents are 64-bit
  floats, so on real numbers the round trip is not exact.
- `Gatherer.SurfaceGatherer.constructor`: the gatherer the binding creates with
  `LMSurfaceGatherer(map_data)` is assumed to start at its reset parameters, because the
  engine's constructor is not shown. No contract depends on this, since every gather entry
  point resets the parameters first.
- The gather entry points do not call `surface_gatherer_run`, which belongs to the engine. Their
  contracts cover the parameters only. This applies to `Binding.Qodot.GatherTextureSurfaces`,
  `Binding.Qodot.GatherWorldspawnLayerSurfaces`, `Binding.Qodot.GatherEntityConvexCollisionSurfaces`,
  `Binding.Qodot.GatherEntityConcaveCollisionSurfaces`,
  `Binding.Qodot.GatherWorldspawnLayerCollisionSurfaces`,
  `Binding.Qodot.GatherTextureSurfacesInternal`, `Binding.Qodot.GatherConvexCollisionSurfaces`
  and `Binding.Qodot.GatherConcaveCollisionSurfaces`.
- `Gatherer.SurfaceGatherer.SetTextureFilter`: the filters keep the texture name. The
  engine may resolve names to texture indices inside the setter, and that code is not shown.
- `Gatherer.SurfaceGatherer.ResetParams`: the reset values are a constant of the gatherer,
  not fixed numbers, because the engine's reset routine is not shown.
- `Binding.Qodot.FetchSurfaces`: positions are not divided by `p_inverse_scale_factor`,
  because that is floating-point arithmetic. Only the axis permutation is modelled.
- `Binding.Qodot.FetchSurfaces`: the gathered surfaces are a parameter. In the source they
  come from `surface_gatherer_fetch`.
- `Binding.Qodot.BuildMeshArrays`: the indices are copied as unbounded integers. Narrowing
  them into `PackedInt32Array` is not modelled, because the engine's index type is not shown.
- `Binding.Qodot.GetWorldspawnLayerDicts`: the source tests whether the address of entity 0 is
  null. That address is null only when no entity array exists, so the model tests for an
  empty entity list.
