/** The Godot binding object: it holds the shared map data and the surface gatherer, and
    turns them into the host's dictionaries and mesh arrays. */
module Binding {
  import opened LibMap
  import opened Indices
  import opened Classification
  import opened Marshal
  import opened Gatherer

  class Qodot {
    /** The map data shared with the parser, generator and gatherer. */
    var mapData: MapData
    const gatherer: SurfaceGatherer

    constructor (mapData: MapData, resetParams: GatherParams)
      ensures this.mapData == mapData
      ensures fresh(gatherer) && gatherer.resetParams == resetParams && gatherer.Params() == resetParams
    {
      this.mapData := mapData;
      gatherer := new SurfaceGatherer(resetParams);
    }

    /** `get_texture_list`: one name per registered texture, in registry order. */
    method GetTextureList() returns (names: seq<string>)
      ensures |names| == |mapData.textures|
      ensures forall i :: 0 <= i < |names| ==> names[i] == mapData.textures[i].name
    {
      var textures := mapData.textures;
      names := [];
      for i := 0 to |textures|
        invariant |names| == i
        invariant forall k :: 0 <= k < i ==> names[k] == textures[k].name
      {
        names := names + [textures[i].name];
      }
    }

    /** Whether some face of `brush` is on a registered worldspawn-layer texture; the face
        loop stops at the first such face. */
    static method ScanForLayerFace(m: MapData, brush: Brush) returns (isLayerBrush: bool)
      ensures isLayerBrush == IsLayerBrush(m, brush)
    {
      isLayerBrush := false;
      var f := 0;
      while f < |brush.faces|
        invariant 0 <= f <= |brush.faces|
        invariant !isLayerBrush
        invariant forall g :: 0 <= g < f ==> FindWorldspawnLayer(m, brush.faces[g].textureIdx) == -1
      {
        if FindWorldspawnLayer(m, brush.faces[f].textureIdx) != -1 {
          isLayerBrush := true;
          break;
        }
        f := f + 1;
      }
    }

    /** Whether some face of `brush` uses texture `textureIdx`; the face loop stops at the
        first such face. */
    static method ScanForTexture(brush: Brush, textureIdx: int) returns (isLayerBrush: bool)
      ensures isLayerBrush == UsesTexture(brush, textureIdx)
    {
      isLayerBrush := false;
      var f := 0;
      while f < |brush.faces|
        invariant 0 <= f <= |brush.faces|
        invariant !isLayerBrush
        invariant forall g :: 0 <= g < f ==> brush.faces[g].textureIdx != textureIdx
      {
        if brush.faces[f].textureIdx == textureIdx {
          isLayerBrush := true;
          break;
        }
        f := f + 1;
      }
    }

    /** `get_entity_dicts`: one dictionary per entity, in entity order, built brush by brush
        and property by property. */
    method GetEntityDicts() returns (dicts: seq<EntityDict>)
      ensures dicts == EntityDicts(mapData)
    {
      var m := mapData;
      dicts := [];
      for i := 0 to |m.entities|
        invariant |dicts| == i
        invariant forall k :: 0 <= k < i ==> dicts[k] == EntityDictOf(m, m.entities[k])
      {
        var ent := m.entities[i];

        var brushIndices := [];
        for b := 0 to |ent.brushes|
          invariant brushIndices == NonLayerBrushIndices(m, ent.brushes[..b])
        {
          var isLayerBrush := ScanForLayerFace(m, ent.brushes[b]);
          if !isLayerBrush {
            brushIndices := brushIndices + [b];
          }
          NonLayerBrushIndicesStep(m, ent.brushes, b);
        }
        assert ent.brushes[..|ent.brushes|] == ent.brushes;

        var properties := map[];
        for p := 0 to |ent.properties|
          invariant properties == PropertyMap(ent.properties[..p])
        {
          var prop := ent.properties[p];
          properties := properties[prop.key := prop.value];
          assert ent.properties[..p + 1][..p] == ent.properties[..p];
        }
        assert ent.properties[..|ent.properties|] == ent.properties;

        var center := Vec3(ent.center.y, ent.center.z, ent.center.x);
        dicts := dicts + [EntityDict(|ent.brushes|, brushIndices, center, properties)];
      }
    }

    /** `get_worldspawn_layer_dicts`: nothing when no entity is loaded; otherwise, for each
        registered layer whose texture resolves, its texture name and the worldspawn brushes
        that use it. Layers whose texture does not resolve are skipped. */
    method GetWorldspawnLayerDicts() returns (dicts: seq<LayerDict>)
      ensures dicts == LayerDicts(mapData)
    {
      var m := mapData;
      dicts := [];
      if |m.entities| == 0 {
        return;
      }
      var worldspawn := m.entities[0];
      for l := 0 to |m.layers|
        invariant dicts == LayerDictsFor(m, m.layers[..l])
      {
        var layer := m.layers[l];
        assert m.layers[..l + 1][..l] == m.layers[..l];
        var tex := GetTexture(m, layer.textureIdx);
        if tex.None? {
          continue;
        }
        var brushIndices := [];
        for b := 0 to |worldspawn.brushes|
          invariant brushIndices == LayerBrushIndices(worldspawn.brushes[..b], layer.textureIdx)
        {
          var isLayerBrush := ScanForTexture(worldspawn.brushes[b], layer.textureIdx);
          if isLayerBrush {
            brushIndices := brushIndices + [b];
          }
          LayerBrushIndicesStep(worldspawn.brushes, layer.textureIdx, b);
        }
        assert worldspawn.brushes[..|worldspawn.brushes|] == worldspawn.brushes;
        dicts := dicts + [LayerDict(tex.value.name, brushIndices)];
      }
      assert m.layers[..|m.layers|] == m.layers;
    }

    /** `gather_texture_surfaces_internal`: reset, split per entity, set the three texture
        filters and the layer flag. */
    method GatherTextureSurfacesInternal(textureName: string, brushFilterTexture: string,
                                         faceFilterTexture: string, filterLayers: bool)
      modifies gatherer
      ensures gatherer.Params() == gatherer.resetParams.(
        splitType := SplitEntity, textureFilter := textureName, brushFilterTexture := brushFilterTexture,
        faceFilterTexture := faceFilterTexture, filterWorldspawnLayers := filterLayers)
    {
      gatherer.ResetParams();
      gatherer.SetSplitType(SplitEntity);
      gatherer.SetTextureFilter(textureName);
      gatherer.SetBrushFilterTexture(brushFilterTexture);
      gatherer.SetFaceFilterTexture(faceFilterTexture);
      gatherer.SetWorldspawnLayerFilter(filterLayers);
    }

    /** `gather_texture_surfaces`: visual geometry outside the worldspawn layers. */
    method GatherTextureSurfaces(textureName: string, brushFilterTexture: string, faceFilterTexture: string)
      modifies gatherer
      ensures gatherer.Params() == gatherer.resetParams.(
        splitType := SplitEntity, textureFilter := textureName, brushFilterTexture := brushFilterTexture,
        faceFilterTexture := faceFilterTexture, filterWorldspawnLayers := true)
    {
      GatherTextureSurfacesInternal(textureName, brushFilterTexture, faceFilterTexture, true);
    }

    /** `gather_worldspawn_layer_surfaces`: visual geometry of the worldspawn layers. */
    method GatherWorldspawnLayerSurfaces(textureName: string, brushFilterTexture: string, faceFilterTexture: string)
      modifies gatherer
      ensures gatherer.Params() == gatherer.resetParams.(
        splitType := SplitEntity, textureFilter := textureName, brushFilterTexture := brushFilterTexture,
        faceFilterTexture := faceFilterTexture, filterWorldspawnLayers := false)
    {
      GatherTextureSurfacesInternal(textureName, brushFilterTexture, faceFilterTexture, false);
    }

    /** `gather_convex_collision_surfaces`: reset, split per brush, filter on the entity
        (its index cast to 32 bits) and set the layer flag. */
    method GatherConvexCollisionSurfaces(entityIdx: int, filterLayers: bool)
      requires INT64_MIN <= entityIdx <= INT64_MAX
      modifies gatherer
      ensures gatherer.Params() == gatherer.resetParams.(
        splitType := SplitBrush, entityFilter := ToInt32(entityIdx), filterWorldspawnLayers := filterLayers)
    {
      gatherer.ResetParams();
      gatherer.SetSplitType(SplitBrush);
      gatherer.SetEntityIndexFilter(ToInt32(entityIdx));
      gatherer.SetWorldspawnLayerFilter(filterLayers);
    }

    /** `gather_concave_collision_surfaces`: as the convex case, but everything merged into
        one surface. */
    method GatherConcaveCollisionSurfaces(entityIdx: int, filterLayers: bool)
      requires INT64_MIN <= entityIdx <= INT64_MAX
      modifies gatherer
      ensures gatherer.Params() == gatherer.resetParams.(
        splitType := SplitNone, entityFilter := ToInt32(entityIdx), filterWorldspawnLayers := filterLayers)
    {
      gatherer.ResetParams();
      gatherer.SetSplitType(SplitNone);
      gatherer.SetEntityIndexFilter(ToInt32(entityIdx));
      gatherer.SetWorldspawnLayerFilter(filterLayers);
    }

    /** `gather_entity_convex_collision_surfaces`: one surface per brush of the entity,
        outside the worldspawn layers. */
    method GatherEntityConvexCollisionSurfaces(entityIdx: int)
      requires INT64_MIN <= entityIdx <= INT64_MAX
      modifies gatherer
      ensures gatherer.Params() == gatherer.resetParams.(
        splitType := SplitBrush, entityFilter := ToInt32(entityIdx), filterWorldspawnLayers := true)
    {
      GatherConvexCollisionSurfaces(entityIdx, true);
    }

    /** `gather_entity_concave_collision_surfaces`: one merged surface for the entity,
        outside the worldspawn layers. */
    method GatherEntityConcaveCollisionSurfaces(entityIdx: int)
      requires INT64_MIN <= entityIdx <= INT64_MAX
      modifies gatherer
      ensures gatherer.Params() == gatherer.resetParams.(
        splitType := SplitNone, entityFilter := ToInt32(entityIdx), filterWorldspawnLayers := true)
    {
      GatherConcaveCollisionSurfaces(entityIdx, true);
    }

    /** `gather_worldspawn_layer_collision_surfaces`: one surface per brush of the entity,
        inside the worldspawn layers. */
    method GatherWorldspawnLayerCollisionSurfaces(entityIdx: int)
      requires INT64_MIN <= entityIdx <= INT64_MAX
      modifies gatherer
      ensures gatherer.Params() == gatherer.resetParams.(
        splitType := SplitBrush, entityFilter := ToInt32(entityIdx), filterWorldspawnLayers := false)
    {
      GatherConvexCollisionSurfaces(entityIdx, false);
    }

    /** The arrays of one non-empty surface, filled by per-vertex appends. */
    static method BuildMeshArrays<S>(surf: Surface<S>) returns (arrays: MeshArrays<S>)
      ensures arrays == MarshalSurface(surf)
    {
      var vs := surf.vertices;

      var vertices := [];
      for v := 0 to |vs|
        invariant |vertices| == v
        invariant forall k :: 0 <= k < v ==> vertices[k] == ToHostAxes(vs[k].vertex)
      {
        vertices := vertices + [Vec3(vs[v].vertex.y, vs[v].vertex.z, vs[v].vertex.x)];
      }
      assert vertices == HostPositions(vs);

      var normals := [];
      for v := 0 to |vs|
        invariant |normals| == v
        invariant forall k :: 0 <= k < v ==> normals[k] == ToHostAxes(vs[k].normal)
      {
        normals := normals + [Vec3(vs[v].normal.y, vs[v].normal.z, vs[v].normal.x)];
      }
      assert normals == HostNormals(vs);

      var tangents := [];
      for v := 0 to |vs|
        invariant tangents == FlattenTangents(vs[..v])
      {
        FlattenTangentsStep(vs, v);
        var t := vs[v].tangent;
        tangents := tangents + [t.y];
        tangents := tangents + [t.z];
        tangents := tangents + [t.x];
        tangents := tangents + [t.w];
      }
      assert vs[..|vs|] == vs;

      var uvs := [];
      for v := 0 to |vs|
        invariant |uvs| == v
        invariant forall k :: 0 <= k < v ==> uvs[k] == vs[k].uv
      {
        uvs := uvs + [Vec2(vs[v].uv.u, vs[v].uv.v)];
      }
      assert uvs == VertexUVs(vs);

      var indices := [];
      for i := 0 to |surf.indices|
        invariant |indices| == i
        invariant forall k :: 0 <= k < i ==> indices[k] == surf.indices[k]
      {
        indices := indices + [surf.indices[i]];
      }
      assert indices == surf.indices;

      arrays := MeshArrays(vertices, normals, tangents, uvs, indices);
    }

    /** `fetch_surfaces`: one slot per gathered surface, in surface order; a surface with no
        vertices gives an empty slot, any other its marshalled arrays. */
    static method FetchSurfaces<S>(surfs: seq<Surface<S>>) returns (slots: seq<Option<MeshArrays<S>>>)
      ensures |slots| == |surfs|
      ensures forall s :: 0 <= s < |surfs| ==> (slots[s].None? <==> |surfs[s].vertices| == 0)
      ensures forall s :: 0 <= s < |surfs| && slots[s].Some? ==> slots[s].value == MarshalSurface(surfs[s])
    {
      slots := [];
      for s := 0 to |surfs|
        invariant |slots| == s
        invariant forall k :: 0 <= k < s ==> (slots[k].None? <==> |surfs[k].vertices| == 0)
        invariant forall k :: 0 <= k < s && slots[k].Some? ==> slots[k].value == MarshalSurface(surfs[k])
      {
        var surf := surfs[s];
        if |surf.vertices| == 0 {
          slots := slots + [None];
          continue;
        }
        var arrays := BuildMeshArrays(surf);
        slots := slots + [Some(arrays)];
      }
    }
  }
}
