/** What `get_entity_dicts` and `get_worldspawn_layer_dicts` report, as functions of the map
    data: which brushes are worldspawn-layer brushes, the per-entity and per-layer brush index
    lists, and the entity property dictionary. */
module Classification {
  import opened LibMap
  import opened Indices

  /** Some face of the brush uses a texture that is registered as a worldspawn layer. */
  predicate IsLayerBrush(m: MapData, brush: Brush)
  {
    exists f :: 0 <= f < |brush.faces| && FindWorldspawnLayer(m, brush.faces[f].textureIdx) != -1
  }

  /** Some face of the brush uses texture `textureIdx`. */
  predicate UsesTexture(brush: Brush, textureIdx: int)
  {
    exists f :: 0 <= f < |brush.faces| && brush.faces[f].textureIdx == textureIdx
  }

  function NotLayerBrush(m: MapData): Brush -> bool
  {
    b => !IsLayerBrush(m, b)
  }

  function UsesLayerTexture(textureIdx: int): Brush -> bool
  {
    b => UsesTexture(b, textureIdx)
  }

  /** An entity's `brush_indices`: the brushes that touch no worldspawn-layer texture. */
  function NonLayerBrushIndices(m: MapData, brushes: seq<Brush>): seq<int>
  {
    IndicesWhere(brushes, NotLayerBrush(m))
  }

  /** A layer's `brush_indices`: the brushes with a face on that layer's texture. */
  function LayerBrushIndices(brushes: seq<Brush>, textureIdx: int): seq<int>
  {
    IndicesWhere(brushes, UsesLayerTexture(textureIdx))
  }

  lemma NonLayerBrushIndicesStep(m: MapData, brushes: seq<Brush>, b: int)
    requires 0 <= b < |brushes|
    ensures NonLayerBrushIndices(m, brushes[..b + 1])
         == NonLayerBrushIndices(m, brushes[..b]) + (if IsLayerBrush(m, brushes[b]) then [] else [b])
  {
    IndicesWhereStep(brushes, b, NotLayerBrush(m));
  }

  lemma LayerBrushIndicesStep(brushes: seq<Brush>, textureIdx: int, b: int)
    requires 0 <= b < |brushes|
    ensures LayerBrushIndices(brushes[..b + 1], textureIdx)
         == LayerBrushIndices(brushes[..b], textureIdx) + (if UsesTexture(brushes[b], textureIdx) then [b] else [])
  {
    IndicesWhereStep(brushes, b, UsesLayerTexture(textureIdx));
  }

  /** The non-layer list is strictly ascending, within `brush_count`, and holds brush `b`
      exactly when no face of `b` is on a worldspawn-layer texture. */
  lemma NonLayerBrushIndicesSpec(m: MapData, brushes: seq<Brush>)
    ensures StrictlyAscending(NonLayerBrushIndices(m, brushes))
    ensures forall k :: 0 <= k < |NonLayerBrushIndices(m, brushes)| ==> 0 <= NonLayerBrushIndices(m, brushes)[k] < |brushes|
    ensures forall b :: b in NonLayerBrushIndices(m, brushes) <==> 0 <= b < |brushes| && !IsLayerBrush(m, brushes[b])
  {
    IndicesWhereAscending(brushes, NotLayerBrush(m));
    IndicesWhereMembers(brushes, NotLayerBrush(m));
  }

  /** A layer's list is strictly ascending, within `brush_count`, and holds brush `b` exactly
      when some face of `b` uses the layer's texture. */
  lemma LayerBrushIndicesSpec(brushes: seq<Brush>, textureIdx: int)
    ensures StrictlyAscending(LayerBrushIndices(brushes, textureIdx))
    ensures forall k :: 0 <= k < |LayerBrushIndices(brushes, textureIdx)| ==> 0 <= LayerBrushIndices(brushes, textureIdx)[k] < |brushes|
    ensures forall b :: b in LayerBrushIndices(brushes, textureIdx) <==> 0 <= b < |brushes| && UsesTexture(brushes[b], textureIdx)
  {
    IndicesWhereAscending(brushes, UsesLayerTexture(textureIdx));
    IndicesWhereMembers(brushes, UsesLayerTexture(textureIdx));
  }

  /** A brush is a layer brush exactly when it uses the texture of some registered layer. */
  lemma IsLayerBrushIff(m: MapData, brush: Brush)
    ensures IsLayerBrush(m, brush) <==> exists l :: 0 <= l < |m.layers| && UsesTexture(brush, m.layers[l].textureIdx)
  {
  }

  /** The property dictionary built by assigning each key/value pair in file order. */
  function PropertyMap(props: seq<Property>): map<string, string>
  {
    if props == [] then map[]
    else PropertyMap(props[..|props| - 1])[props[|props| - 1].key := props[|props| - 1].value]
  }

  /** A key is present exactly when some property has it, and its value is that of the last
      property with that key (later duplicates overwrite earlier ones). */
  lemma {:induction false} PropertyMapLastWins(props: seq<Property>)
    ensures forall k :: k in PropertyMap(props) <==> exists i :: 0 <= i < |props| && props[i].key == k
    ensures forall i :: 0 <= i < |props| && (forall j :: i < j < |props| ==> props[j].key != props[i].key) ==>
      PropertyMap(props)[props[i].key] == props[i].value
  {
    if props != [] {
      var init := props[..|props| - 1];
      PropertyMapLastWins(init);
      assert forall i :: 0 <= i < |init| ==> init[i] == props[i];
    }
  }

  /** One entry of `get_entity_dicts`. */
  datatype EntityDict = EntityDict(brushCount: int, brushIndices: seq<int>, center: Vec3<real>, properties: map<string, string>)

  function EntityDictOf(m: MapData, e: Entity): EntityDict
  {
    EntityDict(|e.brushes|, NonLayerBrushIndices(m, e.brushes), ToHostAxes(e.center), PropertyMap(e.properties))
  }

  /** `get_entity_dicts`: one dictionary per entity, in entity order. */
  function EntityDicts(m: MapData): seq<EntityDict>
  {
    seq(|m.entities|, i requires 0 <= i < |m.entities| => EntityDictOf(m, m.entities[i]))
  }

  /** Entity `i`'s dictionary reports its brush count, its non-layer brushes (ascending, in
      range, exactly those with no layer face), its permuted center and its properties. */
  lemma EntityDictsSpec(m: MapData, i: int)
    requires 0 <= i < |m.entities|
    ensures |EntityDicts(m)| == |m.entities|
    ensures EntityDicts(m)[i].brushCount == |m.entities[i].brushes|
    ensures StrictlyAscending(EntityDicts(m)[i].brushIndices)
    ensures forall b :: b in EntityDicts(m)[i].brushIndices <==>
      0 <= b < |m.entities[i].brushes| && !IsLayerBrush(m, m.entities[i].brushes[b])
    ensures FromHostAxes(EntityDicts(m)[i].center) == m.entities[i].center
    ensures EntityDicts(m)[i].properties == PropertyMap(m.entities[i].properties)
  {
    NonLayerBrushIndicesSpec(m, m.entities[i].brushes);
  }

  /** One entry of `get_worldspawn_layer_dicts`. */
  datatype LayerDict = LayerDict(texture: string, brushIndices: seq<int>)

  /** What one layer contributes: nothing when its texture does not resolve, otherwise the
      texture's name and the worldspawn brushes that use it. */
  function LayerEntry(m: MapData, layer: WorldspawnLayer): seq<LayerDict>
    requires m.entities != []
  {
    match GetTexture(m, layer.textureIdx)
    case None => []
    case Some(t) => [LayerDict(t.name, LayerBrushIndices(m.entities[0].brushes, layer.textureIdx))]
  }

  function LayerDictsFor(m: MapData, layers: seq<WorldspawnLayer>): (r: seq<LayerDict>)
    requires m.entities != []
    ensures |r| <= |layers|
  {
    if layers == [] then []
    else LayerDictsFor(m, layers[..|layers| - 1]) + LayerEntry(m, layers[|layers| - 1])
  }

  /** `get_worldspawn_layer_dicts`: empty with no entities, else the registered layers'
      entries in registration order. */
  function LayerDicts(m: MapData): seq<LayerDict>
  {
    if m.entities == [] then [] else LayerDictsFor(m, m.layers)
  }

  /** Layer order is kept: the entries for `a + b` are those for `a` followed by those for `b`. */
  lemma {:induction false} LayerDictsForConcat(m: MapData, a: seq<WorldspawnLayer>, b: seq<WorldspawnLayer>)
    requires m.entities != []
    ensures LayerDictsFor(m, a + b) == LayerDictsFor(m, a) + LayerDictsFor(m, b)
    decreases |b|
  {
    if b != [] {
      var b' := b[..|b| - 1];
      assert (a + b)[..|a + b| - 1] == a + b';
      LayerDictsForConcat(m, a, b');
    } else {
      assert a + b == a;
    }
  }

  /** Dictionary `d` is the entry that `layer` contributes when its texture resolves. */
  ghost predicate EntryOf(m: MapData, layer: WorldspawnLayer, d: LayerDict)
    requires m.entities != []
  {
    GetTexture(m, layer.textureIdx).Some? &&
    d == LayerDict(GetTexture(m, layer.textureIdx).value.name, LayerBrushIndices(m.entities[0].brushes, layer.textureIdx))
  }

  /** Every reported entry comes from some registered layer whose texture resolved. */
  lemma {:induction false} LayerDictsForSource(m: MapData, layers: seq<WorldspawnLayer>)
    requires m.entities != []
    ensures forall k :: 0 <= k < |LayerDictsFor(m, layers)| ==>
      exists l :: 0 <= l < |layers| && EntryOf(m, layers[l], LayerDictsFor(m, layers)[k])
  {
    if layers != [] {
      var init := layers[..|layers| - 1];
      var last := |layers| - 1;
      var r := LayerDictsFor(m, layers);
      assert r == LayerDictsFor(m, init) + LayerEntry(m, layers[last]);
      LayerDictsForSource(m, init);
      forall k | 0 <= k < |r|
        ensures exists l :: 0 <= l < |layers| && EntryOf(m, layers[l], r[k])
      {
        if k < |LayerDictsFor(m, init)| {
          var l :| 0 <= l < |init| && EntryOf(m, init[l], LayerDictsFor(m, init)[k]);
          assert init[l] == layers[l];
        } else {
          assert r[k] == LayerEntry(m, layers[last])[0];
          assert EntryOf(m, layers[last], r[k]);
        }
      }
    } else {
      assert LayerDictsFor(m, layers) == [];
    }
  }

  /** No layer whose texture resolves is skipped: its entry is reported. */
  lemma {:induction false} LayerDictsForComplete(m: MapData, layers: seq<WorldspawnLayer>, l: int)
    requires m.entities != []
    requires 0 <= l < |layers| && GetTexture(m, layers[l].textureIdx).Some?
    ensures exists k :: 0 <= k < |LayerDictsFor(m, layers)| && EntryOf(m, layers[l], LayerDictsFor(m, layers)[k])
  {
    var init := layers[..|layers| - 1];
    var prefix := LayerDictsFor(m, init);
    var e := LayerEntry(m, layers[|layers| - 1]);
    var r := LayerDictsFor(m, layers);
    assert r == prefix + e;
    if l < |layers| - 1 {
      assert init[l] == layers[l];
      LayerDictsForComplete(m, init, l);
      var k :| 0 <= k < |prefix| && EntryOf(m, init[l], prefix[k]);
      assert r[k] == prefix[k];
    } else {
      var t := GetTexture(m, layers[l].textureIdx).value;
      assert e == [LayerDict(t.name, LayerBrushIndices(m.entities[0].brushes, layers[l].textureIdx))];
      assert r[|prefix|] == e[0];
    }
  }

  /** When every layer's texture resolves, there is exactly one entry per layer, in order. */
  lemma {:induction false} LayerDictsForAllResolve(m: MapData, layers: seq<WorldspawnLayer>)
    requires m.entities != []
    requires forall l :: 0 <= l < |layers| ==> GetTexture(m, layers[l].textureIdx).Some?
    ensures |LayerDictsFor(m, layers)| == |layers|
    ensures forall l :: 0 <= l < |layers| ==>
      LayerDictsFor(m, layers)[l] == LayerDict(GetTexture(m, layers[l].textureIdx).value.name,
                                               LayerBrushIndices(m.entities[0].brushes, layers[l].textureIdx))
  {
    if layers != [] {
      var init := layers[..|layers| - 1];
      assert forall l :: 0 <= l < |init| ==> init[l] == layers[l];
      LayerDictsForAllResolve(m, init);
    }
  }

  /** Partition of worldspawn: as long as every layer whose texture some worldspawn face uses
      resolves (in particular when every layer resolves, or when every worldspawn face's
      texture is in the registry), each worldspawn brush is in the non-layer list exactly
      when it is in no layer's list, and both lists only hold worldspawn brush indices. */
  lemma WorldspawnPartition(m: MapData)
    requires m.entities != []
    requires forall l, b ::
      (0 <= l < |m.layers| && 0 <= b < |m.entities[0].brushes| &&
       UsesTexture(m.entities[0].brushes[b], m.layers[l].textureIdx))
      ==> GetTexture(m, m.layers[l].textureIdx).Some?
    ensures forall b :: b in EntityDicts(m)[0].brushIndices ==> 0 <= b < |m.entities[0].brushes|
    ensures forall k, b :: 0 <= k < |LayerDicts(m)| && b in LayerDicts(m)[k].brushIndices ==>
      0 <= b < |m.entities[0].brushes|
    ensures forall b :: 0 <= b < |m.entities[0].brushes| ==>
      (b in EntityDicts(m)[0].brushIndices <==>
       !exists k :: 0 <= k < |LayerDicts(m)| && b in LayerDicts(m)[k].brushIndices)
  {
    EntityDictsSpec(m, 0);
    LayerDictsHoldLayerBrushes(m);
    LayerBrushesAreListed(m);
  }

  /** Every brush a layer entry lists is a worldspawn brush that is a layer brush. */
  lemma LayerDictsHoldLayerBrushes(m: MapData)
    requires m.entities != []
    ensures forall k, b :: 0 <= k < |LayerDicts(m)| && b in LayerDicts(m)[k].brushIndices ==>
      0 <= b < |m.entities[0].brushes|
    ensures forall k, b :: 0 <= k < |LayerDicts(m)| && b in LayerDicts(m)[k].brushIndices ==>
      0 <= b < |m.entities[0].brushes| && IsLayerBrush(m, m.entities[0].brushes[b])
  {
    var ws := m.entities[0].brushes;
    var dicts := LayerDicts(m);
    assert dicts == LayerDictsFor(m, m.layers);
    LayerDictsForSource(m, m.layers);
    forall k, b | 0 <= k < |LayerDicts(m)| && b in LayerDicts(m)[k].brushIndices
      ensures 0 <= b < |m.entities[0].brushes| && IsLayerBrush(m, m.entities[0].brushes[b])
    {
      var l :| 0 <= l < |m.layers| && EntryOf(m, m.layers[l], dicts[k]);
      LayerBrushIndicesSpec(ws, m.layers[l].textureIdx);
      IsLayerBrushIff(m, ws[b]);
    }
  }

  /** Every worldspawn layer brush is listed by some layer entry, as long as the layer
      textures it uses resolve. */
  lemma LayerBrushesAreListed(m: MapData)
    requires m.entities != []
    requires forall l, b ::
      (0 <= l < |m.layers| && 0 <= b < |m.entities[0].brushes| &&
       UsesTexture(m.entities[0].brushes[b], m.layers[l].textureIdx))
      ==> GetTexture(m, m.layers[l].textureIdx).Some?
    ensures forall b :: 0 <= b < |m.entities[0].brushes| && IsLayerBrush(m, m.entities[0].brushes[b]) ==>
      exists k :: 0 <= k < |LayerDicts(m)| && b in LayerDicts(m)[k].brushIndices
  {
    var ws := m.entities[0].brushes;
    var dicts := LayerDicts(m);
    forall b | 0 <= b < |ws| && IsLayerBrush(m, ws[b])
      ensures exists k :: 0 <= k < |dicts| && b in dicts[k].brushIndices
    {
      IsLayerBrushIff(m, ws[b]);
      var l :| 0 <= l < |m.layers| && UsesTexture(ws[b], m.layers[l].textureIdx);
      LayerDictsForComplete(m, m.layers, l);
      var k :| 0 <= k < |dicts| && EntryOf(m, m.layers[l], dicts[k]);
      LayerBrushIndicesSpec(ws, m.layers[l].textureIdx);
    }
  }

  /** The partition's assumption holds whenever every worldspawn face's texture index is
      inside the texture registry, which is what parsing produces. */
  lemma PartitionAssumptionFromRegistry(m: MapData)
    requires m.entities != []
    requires forall b, f :: 0 <= b < |m.entities[0].brushes| && 0 <= f < |m.entities[0].brushes[b].faces| ==>
      0 <= m.entities[0].brushes[b].faces[f].textureIdx < |m.textures|
    ensures forall l, b ::
      (0 <= l < |m.layers| && 0 <= b < |m.entities[0].brushes| &&
       UsesTexture(m.entities[0].brushes[b], m.layers[l].textureIdx))
      ==> GetTexture(m, m.layers[l].textureIdx).Some?
  {
  }
}
