/**
 * The tiles of a runtime landscape (URuntimeLandscapeComponent) and the
 * landscape actor's part in adding and removing layers and in driving the
 * rebuild manager (ARuntimeLandscape).
 *
 * A tile keeps its initial heights, the set of its vertices in a hole and
 * the layers that affect it. When the manager starts a tile's rebuild, the
 * tile applies its layers to the buffer's heights; when the rebuild
 * finishes, the tile takes the buffer's vertices and the triangles that
 * avoid its holes, and hands the vegetation on as instance batches.
 * Tiles are named by their index in the landscape's tile list.
 */
module Landscape {
  import opened EngineTypes
  import opened Grid
  import opened Vegetation
  import opened Triangles
  import opened Rebuild
  import opened LandscapeLayers

  // ---- hole flags ----

  /** SetHoleFlagForVertex on the hole set: add the vertex for true, remove it for false */
  function HoleFlagApplied(holes: set<int>, vertexIndex: int, flag: bool): set<int>
  {
    if flag then holes + {vertexIndex} else holes - {vertexIndex}
  }

  /** The flag decides the vertex, no other vertex changes, and setting the same flag again changes nothing */
  lemma HoleFlagRules(holes: set<int>, vertexIndex: int, flag: bool)
    ensures var r := HoleFlagApplied(holes, vertexIndex, flag);
      (vertexIndex in r <==> flag) && r - {vertexIndex} == holes - {vertexIndex} &&
      HoleFlagApplied(r, vertexIndex, flag) == r
  {
  }

  /** The hole flags one vertex receives, applied in order */
  function HoleFlagsApplied(holes: set<int>, vertexIndex: int, flags: seq<bool>): set<int>
    decreases |flags|
  {
    if |flags| == 0 then holes
    else HoleFlagApplied(HoleFlagsApplied(holes, vertexIndex, flags[..|flags| - 1]), vertexIndex, flags[|flags| - 1])
  }

  /** The last flag decides the vertex, and no other vertex changes */
  lemma {:induction false} HoleFlagsLastWins(holes: set<int>, vertexIndex: int, flags: seq<bool>)
    ensures var r := HoleFlagsApplied(holes, vertexIndex, flags);
      (vertexIndex in r <==> if |flags| == 0 then vertexIndex in holes else flags[|flags| - 1]) &&
      r - {vertexIndex} == holes - {vertexIndex}
  {
    if |flags| > 0 {
      HoleFlagsLastWins(holes, vertexIndex, flags[..|flags| - 1]);
    }
  }

  // ---- the affecting layers ----

  predicate Distinct<T(==)>(s: seq<T>)
  {
    forall i, j :: 0 <= i < j < |s| ==> s[i] != s[j]
  }

  /** TSet::Add on the affecting layers */
  function LayerAdded(layers: seq<LayerComponent>, layer: LayerComponent): seq<LayerComponent>
  {
    if layer in layers then layers else layers + [layer]
  }

  /** TSet::Remove on the affecting layers */
  function LayerRemoved(layers: seq<LayerComponent>, layer: LayerComponent): seq<LayerComponent>
    decreases |layers|
  {
    if |layers| == 0 then []
    else
      var last := layers[|layers| - 1];
      LayerRemoved(layers[..|layers| - 1], layer) + (if last == layer then [] else [last])
  }

  lemma {:induction false} LayerRemovedMembers(layers: seq<LayerComponent>, layer: LayerComponent)
    ensures forall l :: l in LayerRemoved(layers, layer) <==> l in layers && l != layer
    ensures Distinct(layers) ==> Distinct(LayerRemoved(layers, layer))
  {
    if |layers| > 0 {
      var init := layers[..|layers| - 1];
      var last := layers[|layers| - 1];
      LayerRemovedMembers(init, layer);
      assert layers == init + [last];
      if Distinct(layers) {
        forall i, j | 0 <= i < j < |init|
          ensures init[i] != init[j]
        {
          assert init[i] == layers[i] && init[j] == layers[j];
        }
        forall k | 0 <= k < |init|
          ensures init[k] != last
        {
          assert init[k] == layers[k];
        }
        var r := LayerRemoved(init, layer);
        assert last !in r;
        if last != layer {
          forall i, j | 0 <= i < j < |r + [last]|
            ensures (r + [last])[i] != (r + [last])[j]
          {
            if j == |r| {
              assert (r + [last])[i] == r[i];
            } else {
              assert (r + [last])[i] == r[i] && (r + [last])[j] == r[j];
            }
          }
        }
      }
    }
  }

  lemma LayerAddedTwice(layers: seq<LayerComponent>, layer: LayerComponent)
    ensures LayerAdded(LayerAdded(layers, layer), layer) == LayerAdded(layers, layer)
  {
  }

  /** The layer sets of a row of tiles after the tiles in done have added the layer */
  function AddedAt(sets: seq<seq<LayerComponent>>, layer: LayerComponent, done: set<int>): (r: seq<seq<LayerComponent>>)
    ensures |r| == |sets|
    ensures forall i :: 0 <= i < |r| ==> r[i] == if i in done then LayerAdded(sets[i], layer) else sets[i]
  {
    seq(|sets|, i requires 0 <= i < |sets| => if i in done then LayerAdded(sets[i], layer) else sets[i])
  }

  /** Adding the layer to one more tile, even one that has it, extends done by that tile */
  lemma AddedAtStep(sets: seq<seq<LayerComponent>>, layer: LayerComponent, done: set<int>, t: int)
    requires 0 <= t < |sets|
    ensures var r := AddedAt(sets, layer, done);
      r[t := LayerAdded(r[t], layer)] == AddedAt(sets, layer, done + {t})
  {
    LayerAddedTwice(sets[t], layer);
  }

  /** The layer sets of a row of tiles after the first k have removed the layer */
  function RemovedBelow(sets: seq<seq<LayerComponent>>, layer: LayerComponent, k: int): (r: seq<seq<LayerComponent>>)
    ensures |r| == |sets|
    ensures forall i :: 0 <= i < |r| ==> r[i] == if i < k then LayerRemoved(sets[i], layer) else sets[i]
  {
    seq(|sets|, i requires 0 <= i < |sets| => if i < k then LayerRemoved(sets[i], layer) else sets[i])
  }

  /**
   * The affecting layers behave as a set: adding puts the layer in once
   * (adding again changes nothing), removing takes it out, every other
   * layer stays, and neither creates a duplicate.
   */
  lemma LayerSetRules(layers: seq<LayerComponent>, layer: LayerComponent)
    ensures forall l :: l in LayerAdded(layers, layer) <==> l in layers || l == layer
    ensures LayerAdded(LayerAdded(layers, layer), layer) == LayerAdded(layers, layer)
    ensures forall l :: l in LayerRemoved(layers, layer) <==> l in layers && l != layer
    ensures Distinct(layers) ==> Distinct(LayerAdded(layers, layer)) && Distinct(LayerRemoved(layers, layer))
  {
    LayerRemovedMembers(layers, layer);
  }

  // ---- applying the layers to a tile ----

  /** GetRelativeVertexLocation: the vertex's local coordinates times the quad side length */
  function RelativeVertexLocation(g: LandscapeGrid, vertexIndex: int): Vec2
    requires g.Valid()
  {
    var c := g.VertexCoordinatesWithinComponent(vertexIndex);
    Vec2(c.x as real * g.quadSideLength, c.y as real * g.quadSideLength)
  }

  /** On a square tile, vertex y * VX + x lies x quads right and y quads down from the tile's corner */
  lemma RelativeVertexLocationOfVertex(g: LandscapeGrid, x: int, y: int)
    requires g.Valid() && g.vertexAmountPerComponent.x == g.vertexAmountPerComponent.y
    requires 0 <= x < g.vertexAmountPerComponent.x && 0 <= y
    ensures RelativeVertexLocation(g, y * g.vertexAmountPerComponent.x + x) ==
      Vec2(x as real * g.quadSideLength, y as real * g.quadSideLength)
  {
    g.VertexIdSquareRoundTrip(x, y);
  }

  /** Where ApplyLayerData looks for a vertex: its relative location plus the tile's location */
  function VertexLocation(g: LandscapeGrid, location: Vec3, vertexIndex: int): Vec2
    requires g.Valid()
  {
    RelativeVertexLocation(g, vertexIndex).Add(location.XY())
  }

  /**
   * What the layers need from outside this model: each layer's inverse
   * transform, the square root, and the layer data's ApplyToVertices.
   */
  datatype LayerEnvironment = LayerEnvironment(localPointOf: (LayerComponent, Vec2) -> Vec2, sqrt: real -> real,
                                               apply: LayerDataApply)

  /** The heights, colours and hole set of a tile while its layers are applied */
  datatype TileValues = TileValues(heights: seq<real>, colors: seq<Color>, holes: set<int>)

  /** One vertex under one layer: ApplyLayerData at the vertex's location, then the hole flags it returned */
  function LayerVertexStep(layer: LayerComponent, g: LandscapeGrid, location: Vec3, env: LayerEnvironment,
                           p: TileValues, i: nat): (r: TileValues)
    reads layer
    requires layer.Valid() && g.Valid() && i < |p.heights| && i < |p.colors|
    ensures |r.heights| == |p.heights| && |r.colors| == |p.colors|
  {
    var at := VertexLocation(g, location, i);
    var v := layer.LayerDataResult(i, at, env.localPointOf(layer, at), env.sqrt, env.apply, p.heights[i], p.colors[i]);
    TileValues(p.heights[i := v.height], p.colors[i := v.color], HoleFlagsApplied(p.holes, i, v.holeFlags))
  }

  /** A step changes only its own vertex, and nothing at all when the vertex is outside the layer */
  lemma LayerVertexStepFrame(layer: LayerComponent, g: LandscapeGrid, location: Vec3, env: LayerEnvironment,
                             p: TileValues, i: nat)
    requires layer.Valid() && g.Valid() && i < |p.heights| && i < |p.colors|
    ensures var r := LayerVertexStep(layer, g, location, env, p, i);
      (forall j :: j != i ==> (j in r.holes <==> j in p.holes)) &&
      (forall j :: 0 <= j < |p.heights| && j != i ==> r.heights[j] == p.heights[j]) &&
      (forall j :: 0 <= j < |p.colors| && j != i ==> r.colors[j] == p.colors[j]) &&
      (!layer.IsAffectedByLayer(VertexLocation(g, location, i)) ==> r == p)
  {
    var at := VertexLocation(g, location, i);
    var v := layer.LayerDataResult(i, at, env.localPointOf(layer, at), env.sqrt, env.apply, p.heights[i], p.colors[i]);
    HoleFlagsLastWins(p.holes, i, v.holeFlags);
    var r := LayerVertexStep(layer, g, location, env, p, i);
    forall j | j != i
      ensures j in r.holes <==> j in p.holes
    {
      assert j in r.holes - {i} <==> j in p.holes - {i};
    }
    if !layer.IsAffectedByLayer(at) {
      layer.UnaffectedVertexUnchanged(i, at, env.localPointOf(layer, at), env.sqrt, env.apply, p.heights[i], p.colors[i]);
    }
  }

  /** One layer applied to the first n vertices of a tile at location, in vertex order */
  function LayerPass(layer: LayerComponent, g: LandscapeGrid, location: Vec3, env: LayerEnvironment,
                     d: TileValues, n: nat): (r: TileValues)
    reads layer
    requires layer.Valid() && g.Valid() && n <= |d.heights| && n <= |d.colors|
    ensures |r.heights| == |d.heights| && |r.colors| == |d.colors|
    decreases n
  {
    if n == 0 then d
    else LayerVertexStep(layer, g, location, env, LayerPass(layer, g, location, env, d, n - 1), n - 1)
  }

  predicate AllValid(layers: seq<LayerComponent>)
    reads layers
  {
    forall l :: l in layers ==> l.Valid()
  }

  /** The layers applied one after the other, each to the first n vertices */
  function LayersPass(layers: seq<LayerComponent>, g: LandscapeGrid, location: Vec3, env: LayerEnvironment,
                      d: TileValues, n: nat): (r: TileValues)
    reads layers
    requires AllValid(layers) && g.Valid() && n <= |d.heights| && n <= |d.colors|
    ensures |r.heights| == |d.heights| && |r.colors| == |d.colors|
    decreases |layers|
  {
    if |layers| == 0 then d
    else
      var before := LayersPass(layers[..|layers| - 1], g, location, env, d, n);
      LayerPass(layers[|layers| - 1], g, location, env, before, n)
  }

  /** Applying the first k + 1 layers is applying layer k after the first k */
  lemma LayersPassStep(layers: seq<LayerComponent>, g: LandscapeGrid, location: Vec3, env: LayerEnvironment,
                       d: TileValues, n: nat, k: int)
    requires AllValid(layers) && g.Valid() && n <= |d.heights| && n <= |d.colors| && 0 <= k < |layers|
    ensures AllValid(layers[..k]) && AllValid(layers[..k + 1]) && layers[k].Valid()
    ensures LayersPass(layers[..k + 1], g, location, env, d, n) ==
      LayerPass(layers[k], g, location, env, LayersPass(layers[..k], g, location, env, d, n), n)
  {
    assert layers[k] in layers;
    assert forall l :: l in layers[..k + 1] ==> l in layers;
    assert layers[..k + 1][..k] == layers[..k];
  }

  /** A layer only flags vertices it visits */
  lemma {:induction false} LayerPassHolesBelow(layer: LayerComponent, g: LandscapeGrid, location: Vec3,
                                               env: LayerEnvironment, d: TileValues, n: nat, bound: int)
    requires layer.Valid() && g.Valid() && n <= |d.heights| && n <= |d.colors| && n <= bound
    requires forall v :: v in d.holes ==> 0 <= v < bound
    ensures forall v :: v in LayerPass(layer, g, location, env, d, n).holes ==> 0 <= v < bound
  {
    if n > 0 {
      LayerPassHolesBelow(layer, g, location, env, d, n - 1, bound);
      LayerVertexStepFrame(layer, g, location, env, LayerPass(layer, g, location, env, d, n - 1), n - 1);
    }
  }

  lemma {:induction false} LayersPassHolesBelow(layers: seq<LayerComponent>, g: LandscapeGrid, location: Vec3,
                                                env: LayerEnvironment, d: TileValues, n: nat, bound: int)
    requires AllValid(layers) && g.Valid() && n <= |d.heights| && n <= |d.colors| && n <= bound
    requires forall v :: v in d.holes ==> 0 <= v < bound
    ensures forall v :: v in LayersPass(layers, g, location, env, d, n).holes ==> 0 <= v < bound
  {
    if |layers| > 0 {
      var before := LayersPass(layers[..|layers| - 1], g, location, env, d, n);
      LayersPassHolesBelow(layers[..|layers| - 1], g, location, env, d, n, bound);
      LayerPassHolesBelow(layers[|layers| - 1], g, location, env, before, n, bound);
    }
  }

  /** A vertex outside a layer's bounding box keeps its height, colour and hole flag through that layer */
  lemma {:induction false} LayerPassKeepsUntouched(layer: LayerComponent, g: LandscapeGrid, location: Vec3,
                                                   env: LayerEnvironment, d: TileValues, n: nat, j: int)
    requires layer.Valid() && g.Valid() && n <= |d.heights| && n <= |d.colors| && 0 <= j < |d.heights| && j < |d.colors|
    requires !layer.IsAffectedByLayer(VertexLocation(g, location, j))
    ensures var r := LayerPass(layer, g, location, env, d, n);
      r.heights[j] == d.heights[j] && r.colors[j] == d.colors[j] && (j in r.holes <==> j in d.holes)
  {
    if n > 0 {
      LayerPassKeepsUntouched(layer, g, location, env, d, n - 1, j);
      LayerVertexStepFrame(layer, g, location, env, LayerPass(layer, g, location, env, d, n - 1), n - 1);
    }
  }

  /** A vertex outside the bounding box of every layer keeps its height, colour and hole flag */
  lemma {:induction false} LayersPassKeepsUntouched(layers: seq<LayerComponent>, g: LandscapeGrid, location: Vec3,
                                                    env: LayerEnvironment, d: TileValues, n: nat, j: int)
    requires AllValid(layers) && g.Valid() && n <= |d.heights| && n <= |d.colors| && 0 <= j < |d.heights| && j < |d.colors|
    requires forall k :: 0 <= k < |layers| ==> !layers[k].IsAffectedByLayer(VertexLocation(g, location, j))
    ensures var r := LayersPass(layers, g, location, env, d, n);
      r.heights[j] == d.heights[j] && r.colors[j] == d.colors[j] && (j in r.holes <==> j in d.holes)
  {
    if |layers| > 0 {
      var before := LayersPass(layers[..|layers| - 1], g, location, env, d, n);
      LayersPassKeepsUntouched(layers[..|layers| - 1], g, location, env, d, n, j);
      LayerPassKeepsUntouched(layers[|layers| - 1], g, location, env, before, n, j);
    }
  }

  // ---- finishing a rebuild ----

  /** The mesh section a finished rebuild creates */
  datatype MeshSection = MeshSection(vertices: seq<Vec3>, triangles: seq<int>, normals: seq<Vec3>,
                                     uv0: seq<Vec2>, uv1: seq<Vec2>, colors: seq<Color>)

  const EmptyMesh: MeshSection := MeshSection([], [], [], [], [], [])

  /** The grass entries of one vertex that hold instances, in order: one AddInstances call each */
  function EntryBatches(entries: seq<Entry<nat, GrassVertexData>>): seq<GrassVertexData>
    decreases |entries|
  {
    if |entries| == 0 then []
    else
      var e := entries[|entries| - 1];
      EntryBatches(entries[..|entries| - 1]) + (if |e.value.transforms| == 0 then [] else [e.value])
  }

  /** The instance batches of a whole buffer, vertex by vertex */
  function GrassBatches(data: seq<AdditionalData>): seq<GrassVertexData>
    decreases |data|
  {
    if |data| == 0 then []
    else GrassBatches(data[..|data| - 1]) + EntryBatches(data[|data| - 1].grassData)
  }

  lemma {:induction false} EntryBatchesExact(entries: seq<Entry<nat, GrassVertexData>>)
    ensures forall b :: b in EntryBatches(entries) <==> |b.transforms| > 0 && exists j :: 0 <= j < |entries| && entries[j].value == b
  {
    if |entries| > 0 {
      var init := entries[..|entries| - 1];
      EntryBatchesExact(init);
      forall b: GrassVertexData | |b.transforms| > 0 && exists j :: 0 <= j < |entries| && entries[j].value == b
        ensures b in EntryBatches(entries)
      {
        var j :| 0 <= j < |entries| && entries[j].value == b;
        if j < |init| {
          assert init[j] == entries[j];
        }
      }
      forall b | b in EntryBatches(init)
        ensures exists j :: 0 <= j < |entries| && entries[j].value == b
      {
        var j :| 0 <= j < |init| && init[j].value == b;
        assert entries[j] == init[j];
      }
    }
  }

  /**
   * FinishRebuild adds instances only for grass entries with a non-empty
   * transform list, and for every such entry of every vertex.
   */
  lemma {:induction false} GrassBatchesExact(data: seq<AdditionalData>)
    ensures forall b :: b in GrassBatches(data) <==> (|b.transforms| > 0 &&
      exists i, j :: 0 <= i < |data| && 0 <= j < |data[i].grassData| && data[i].grassData[j].value == b)
  {
    if |data| > 0 {
      var init := data[..|data| - 1];
      var last := data[|data| - 1];
      GrassBatchesExact(init);
      EntryBatchesExact(last.grassData);
      forall b: GrassVertexData | |b.transforms| > 0 &&
        exists i, j :: 0 <= i < |data| && 0 <= j < |data[i].grassData| && data[i].grassData[j].value == b
        ensures b in GrassBatches(data)
      {
        var i, j :| 0 <= i < |data| && 0 <= j < |data[i].grassData| && data[i].grassData[j].value == b;
        if i < |init| {
          assert init[i] == data[i];
        }
      }
      forall b | b in GrassBatches(data)
        ensures exists i, j :: 0 <= i < |data| && 0 <= j < |data[i].grassData| && data[i].grassData[j].value == b
      {
        if b in GrassBatches(init) {
          var i, j :| 0 <= i < |init| && 0 <= j < |init[i].grassData| && init[i].grassData[j].value == b;
          assert data[i] == init[i];
        } else {
          var j :| 0 <= j < |last.grassData| && last.grassData[j].value == b;
          assert data[|data| - 1].grassData[j].value == b;
        }
      }
    }
  }

  /** FinishRebuild's triangles: the buffer's own list without holes, otherwise a list generated around them */
  function FinishedTriangles(g: LandscapeGrid, buffer: RebuildBuffer, holes: set<int>): seq<int>
  {
    if holes == {} then buffer.triangles
    else TriangleArray(g.componentResolution.x, g.componentResolution.y, Some(holes))
  }

  /** The mesh section FinishRebuild creates: the buffer's geometry, its triangles and one white colour per vertex */
  function FinishedMesh(g: LandscapeGrid, buffer: RebuildBuffer, holes: set<int>): MeshSection
  {
    MeshSection(buffer.verticesRelative, FinishedTriangles(g, buffer, holes), buffer.normals,
                buffer.uv0Coords, buffer.uv1Coords, seq(|buffer.verticesRelative|, _ => White))
  }

  /**
   * With a buffer holding the hole-free list, as the manager's always does,
   * the finished tile draws exactly the quads none of whose corners is in
   * its hole set.
   */
  lemma FinishedTrianglesAvoidHoles(g: LandscapeGrid, buffer: RebuildBuffer, holes: set<int>)
    requires buffer.triangles == TriangleArray(g.componentResolution.x, g.componentResolution.y, None)
    ensures FinishedTriangles(g, buffer, holes) == TriangleArray(g.componentResolution.x, g.componentResolution.y, Some(holes))
  {
    if holes == {} {
      TriangleArrayEmptyHoles(g.componentResolution.x, g.componentResolution.y);
    }
  }

  // ---- the manager's tiles ----

  /** The manager names only tiles of the landscape */
  predicate TilesInRange(s: ManagerState, n: int)
  {
    (s.currentComponent.Some? ==> 0 <= s.currentComponent.value < n) &&
    forall q :: q in s.rebuildQueue ==> 0 <= q < n
  }

  /** A rebuild of tile t is under way or queued */
  predicate RebuildPending(s: ManagerState, t: int)
  {
    s.currentComponent == Some(t) || t in s.rebuildQueue
  }

  /** QueueRebuild leaves the tile pending, keeps every pending tile pending and names only known tiles */
  lemma QueueRebuildMakesPending(g: LandscapeGrid, s: ManagerState, t: int, initialHeightsOf: int -> seq<real>, n: int)
    requires g.Valid()
    ensures var r := QueueRebuildSpec(g, s, t, initialHeightsOf);
      RebuildPending(r, t) && (forall u :: RebuildPending(s, u) ==> RebuildPending(r, u)) &&
      (TilesInRange(s, n) && 0 <= t < n ==> TilesInRange(r, n))
  {
  }

  /** StartRebuild keeps the current tile and the queue */
  lemma StartRebuildKeepsTiles(g: LandscapeGrid, s: ManagerState, initialHeights: seq<real>)
    requires g.Valid() && s.currentComponent.Some?
    ensures StartRebuildSpec(g, s, initialHeights).currentComponent == s.currentComponent
    ensures StartRebuildSpec(g, s, initialHeights).rebuildQueue == s.rebuildQueue
  {
  }

  /** A tick keeps the manager naming only known tiles */
  lemma TickKeepsTilesInRange(g: LandscapeGrid, s: ManagerState, initialHeightsOf: int -> seq<real>, n: int)
    requires g.Valid() && TilesInRange(s, n)
    ensures TilesInRange(TickSpec(g, s, initialHeightsOf), n)
  {
    if s.activeRunners >= 1 {
      TickWaitsForRunners(g, s, initialHeightsOf);
    } else if s.dataBuffer.rebuildState == BuildVertices {
      TickAfterVertexPhase(g, s, initialHeightsOf);
    } else if s.dataBuffer.rebuildState == BuildAdditionalData && |s.rebuildQueue| > 0 {
      TickAfterVegetationPhase(g, s, initialHeightsOf);
      var q := s.rebuildQueue;
      var t := q[|q| - 1];
      var s1 := s.(currentComponent := Some(t), rebuildQueue := q[..|q| - 1]);
      var r := TickSpec(g, s, initialHeightsOf);
      assert r == StartRebuildSpec(g, s1, initialHeightsOf(t));
      StartRebuildKeepsTiles(g, s1, initialHeightsOf(t));
      assert t in q;
      forall u | u in r.rebuildQueue
        ensures 0 <= u < n
      {
        assert u in q;
      }
    }
  }

  /** A tick after the vegetation phase with a matching next tile starts it with its heights */
  lemma TickStartsNext(g: LandscapeGrid, s: ManagerState, initialHeightsOf: int -> seq<real>)
    requires g.Valid() && s.activeRunners < 1 && s.dataBuffer.rebuildState == BuildAdditionalData
    requires |s.rebuildQueue| > 0
    requires |initialHeightsOf(s.rebuildQueue[|s.rebuildQueue| - 1])| == g.TotalVertexAmountPerComponent()
    ensures var t := s.rebuildQueue[|s.rebuildQueue| - 1];
      var r := TickSpec(g, s, initialHeightsOf);
      r.currentComponent == Some(t) && r.dataBuffer.heightValues == initialHeightsOf(t)
  {
    TickAfterVegetationPhase(g, s, initialHeightsOf);
    var q := s.rebuildQueue;
    var t := q[|q| - 1];
    var s1 := s.(currentComponent := Some(t), rebuildQueue := q[..|q| - 1]);
    assert TickSpec(g, s, initialHeightsOf) == StartRebuildSpec(g, s1, initialHeightsOf(t));
    StartRebuildHeightsMatch(g, s1, initialHeightsOf(t));
  }

  /** QueueRebuild on an idle manager with a matching height count starts the tile with its heights */
  lemma QueueRebuildStartsTile(g: LandscapeGrid, s: ManagerState, t: int, initialHeightsOf: int -> seq<real>)
    requires g.Valid() && s.currentComponent.None?
    requires |initialHeightsOf(t)| == g.TotalVertexAmountPerComponent()
    ensures var r := QueueRebuildSpec(g, s, t, initialHeightsOf);
      r.currentComponent == Some(t) && r.dataBuffer.heightValues == initialHeightsOf(t)
  {
    StartRebuildHeightsMatch(g, s.(currentComponent := Some(t)), initialHeightsOf(t));
  }

  /** The heights of the buffer replaced by ones of the same count */
  function WithHeights(s: ManagerState, heights: seq<real>): ManagerState
  {
    s.(dataBuffer := s.dataBuffer.(heightValues := heights))
  }

  /** Rewriting the buffer's heights in place keeps the manager's invariant */
  lemma WithHeightsKeepsValid(g: LandscapeGrid, s: ManagerState, heights: seq<real>, n: int)
    requires g.Valid() && StateValid(g, s) && |heights| == |s.dataBuffer.heightValues| && TilesInRange(s, n)
    ensures StateValid(g, WithHeights(s, heights)) && TilesInRange(WithHeights(s, heights), n)
    ensures forall t :: RebuildPending(WithHeights(s, heights), t) <==> RebuildPending(s, t)
    ensures PhaseInputsSized(g, s) ==> PhaseInputsSized(g, WithHeights(s, heights))
  {
  }

  /** Every tile's initial heights are the same constant list */
  function ConstantHeights(heights: seq<real>): int -> seq<real>
  {
    _ => heights
  }

  // ---- the tile ----

  class LandscapeComponent {
    /** ParentLandscape */
    const parentLandscape: RuntimeLandscape
    /** GetComponentLocation */
    const location: Vec3
    var initialHeightValues: seq<real>
    /** All vertices that are inside at least one hole */
    var verticesInHole: set<int>
    /** The layers affecting this tile, a set in insertion order */
    var affectingLayers: seq<LayerComponent>
    var index: int
    /** What the last finished rebuild handed to CreateMeshSection */
    var mesh: MeshSection
    /** The AddInstances calls of the last finished rebuild, in order */
    var grassBatches: seq<GrassVertexData>

    /** A new tile: no heights, no holes, no layers */
    constructor(parentLandscape: RuntimeLandscape, location: Vec3)
      ensures this.parentLandscape == parentLandscape && this.location == location
      ensures initialHeightValues == [] && verticesInHole == {} && affectingLayers == [] && index == 0
      ensures mesh == EmptyMesh && grassBatches == []
    {
      this.parentLandscape := parentLandscape;
      this.location := location;
      initialHeightValues := [];
      verticesInHole := {};
      affectingLayers := [];
      index := 0;
      mesh := EmptyMesh;
      grassBatches := [];
    }

    predicate LayersValid()
      reads this`affectingLayers, affectingLayers
    {
      AllValid(affectingLayers)
    }

    /** What the rebuild of this tile needs: a valid landscape that lists the tile at its index */
    predicate InLandscape()
      reads this, parentLandscape, parentLandscape.rebuildManager, parentLandscape.landscapeComponents
    {
      parentLandscape.Valid() && 0 <= index < |parentLandscape.landscapeComponents| &&
      parentLandscape.landscapeComponents[index] == this
    }

    method SetHoleFlagForVertex(vertexIndex: int, value: bool)
      modifies this`verticesInHole
      ensures verticesInHole == HoleFlagApplied(old(verticesInHole), vertexIndex, value)
      ensures vertexIndex in verticesInHole <==> value
      ensures verticesInHole - {vertexIndex} == old(verticesInHole) - {vertexIndex}
    {
      if value {
        verticesInHole := verticesInHole + {vertexIndex};
      } else {
        verticesInHole := verticesInHole - {vertexIndex};
      }
    }

    /** The SetHoleFlagForVertex calls the layer data makes for one vertex */
    method ApplyHoleFlags(vertexIndex: int, flags: seq<bool>)
      modifies this`verticesInHole
      ensures verticesInHole == HoleFlagsApplied(old(verticesInHole), vertexIndex, flags)
    {
      var k := 0;
      while k < |flags|
        invariant 0 <= k <= |flags|
        invariant verticesInHole == HoleFlagsApplied(old(verticesInHole), vertexIndex, flags[..k])
      {
        assert flags[..k + 1][..k] == flags[..k];
        SetHoleFlagForVertex(vertexIndex, flags[k]);
        k := k + 1;
      }
      assert flags[..|flags|] == flags;
    }

    /** GetRelativeVertexLocation */
    function GetRelativeVertexLocation(vertexIndex: int): (r: Vec2)
      requires parentLandscape.grid.Valid()
      ensures var c := parentLandscape.grid.VertexCoordinatesWithinComponent(vertexIndex);
        r == Vec2(c.x as real * parentLandscape.grid.quadSideLength, c.y as real * parentLandscape.grid.quadSideLength)
    {
      RelativeVertexLocation(parentLandscape.grid, vertexIndex)
    }

    /** What ApplyDataFromLayers leaves: the layers applied to the heights, over white colours and no holes */
    function LayersApplied(heights: seq<real>, env: LayerEnvironment): (r: TileValues)
      reads this`affectingLayers, this`initialHeightValues, affectingLayers
      requires parentLandscape.grid.Valid() && LayersValid() && |heights| == |initialHeightValues|
      ensures |r.heights| == |heights| && |r.colors| == |initialHeightValues|
    {
      var n := |initialHeightValues|;
      LayersPass(affectingLayers, parentLandscape.grid, location, env, TileValues(heights, seq(n, _ => White), {}), n)
    }

    /**
     * Vertices marked as holes are vertices of the tile, and a vertex
     * outside the bounding box of every affecting layer keeps its height,
     * stays white and is not in a hole.
     */
    lemma LayersAppliedBounds(heights: seq<real>, env: LayerEnvironment, j: int)
      requires parentLandscape.grid.Valid() && LayersValid() && |heights| == |initialHeightValues|
      ensures forall v :: v in LayersApplied(heights, env).holes ==> 0 <= v < |initialHeightValues|
      ensures (0 <= j < |heights| &&
        (forall k :: 0 <= k < |affectingLayers| ==>
           !affectingLayers[k].IsAffectedByLayer(VertexLocation(parentLandscape.grid, location, j)))) ==>
        var r := LayersApplied(heights, env);
        r.heights[j] == heights[j] && r.colors[j] == White && j !in r.holes
    {
      var n := |initialHeightValues|;
      var d := TileValues(heights, seq(n, _ => White), {});
      LayersPassHolesBelow(affectingLayers, parentLandscape.grid, location, env, d, n, n);
      if 0 <= j < |heights| &&
        (forall k :: 0 <= k < |affectingLayers| ==>
           !affectingLayers[k].IsAffectedByLayer(VertexLocation(parentLandscape.grid, location, j))) {
        LayersPassKeepsUntouched(affectingLayers, parentLandscape.grid, location, env, d, n, j);
      }
    }

    /** The inner loop of ApplyDataFromLayers: one layer over every vertex of the tile, in order */
    method ApplyLayerToVertices(layer: LayerComponent, heights: seq<real>, colors: seq<Color>, env: LayerEnvironment)
      returns (outHeights: seq<real>, outColors: seq<Color>)
      requires parentLandscape.grid.Valid() && layer.Valid()
      requires |heights| == |initialHeightValues| && |colors| == |initialHeightValues|
      modifies this`verticesInHole
      ensures TileValues(outHeights, outColors, verticesInHole) ==
        LayerPass(layer, parentLandscape.grid, location, env, TileValues(heights, colors, old(verticesInHole)),
                  |initialHeightValues|)
    {
      var g := parentLandscape.grid;
      var n := |initialHeightValues|;
      ghost var before := TileValues(heights, colors, verticesInHole);
      outHeights, outColors := heights, colors;
      var i := 0;
      while i < n
        invariant 0 <= i <= n
        invariant TileValues(outHeights, outColors, verticesInHole) == LayerPass(layer, g, location, env, before, i)
      {
        var at := GetRelativeVertexLocation(i).Add(location.XY());
        var h, c, flags := layer.ApplyLayerData(i, at, env.localPointOf(layer, at), env.sqrt, env.apply,
                                                outHeights[i], outColors[i]);
        outHeights := outHeights[i := h];
        outColors := outColors[i := c];
        ApplyHoleFlags(i, flags);
        i := i + 1;
      }
    }

    /** ApplyDataFromLayers: clear the holes, start all white, then each layer over every vertex in order */
    method ApplyDataFromLayers(heights: seq<real>, env: LayerEnvironment) returns (outHeights: seq<real>, outColors: seq<Color>)
      requires parentLandscape.grid.Valid() && LayersValid()
      requires |heights| == |initialHeightValues|
      modifies this`verticesInHole
      ensures TileValues(outHeights, outColors, verticesInHole) == LayersApplied(heights, env)
    {
      var g, layers := parentLandscape.grid, affectingLayers;
      var n := |initialHeightValues|;
      verticesInHole := {};
      outHeights := heights;
      outColors := seq(n, _ => White);
      ghost var start := TileValues(outHeights, outColors, verticesInHole);
      var k := 0;
      while k < |layers|
        invariant 0 <= k <= |layers|
        invariant |outHeights| == n && |outColors| == n
        invariant TileValues(outHeights, outColors, verticesInHole) == LayersPass(layers[..k], g, location, env, start, n)
      {
        outHeights, outColors := ApplyNextLayer(layers, k, start, outHeights, outColors, env);
        k := k + 1;
      }
      assert layers[..|layers|] == layers;
    }

    /** One round of that loop: layer k over every vertex, after the first k layers */
    method ApplyNextLayer(layers: seq<LayerComponent>, k: int, ghost start: TileValues, heights: seq<real>, colors: seq<Color>,
                          env: LayerEnvironment) returns (outHeights: seq<real>, outColors: seq<Color>)
      requires parentLandscape.grid.Valid() && AllValid(layers) && 0 <= k < |layers|
      requires |start.heights| == |initialHeightValues| && |start.colors| == |initialHeightValues|
      requires TileValues(heights, colors, verticesInHole) ==
        LayersPass(layers[..k], parentLandscape.grid, location, env, start, |initialHeightValues|)
      modifies this`verticesInHole
      ensures TileValues(outHeights, outColors, verticesInHole) ==
        LayersPass(layers[..k + 1], parentLandscape.grid, location, env, start, |initialHeightValues|)
    {
      LayersPassStep(layers, parentLandscape.grid, location, env, start, |initialHeightValues|, k);
      outHeights, outColors := ApplyLayerToVertices(layers[k], heights, colors, env);
    }

    /** Rebuild: queue this tile; if the manager starts it at once, StartRebuild applies the layers to the buffer */
    method Rebuild(env: LayerEnvironment) returns (started: bool)
      requires InLandscape() && LayersValid()
      modifies parentLandscape.rebuildManager, this`verticesInHole
      ensures InLandscape()
      ensures var m := parentLandscape.rebuildManager;
        var s := QueueRebuildSpec(parentLandscape.grid, old(m.State()), index, ConstantHeights(initialHeightValues));
        (started <==> old(m.currentComponent).None? &&
                      |initialHeightValues| == parentLandscape.grid.TotalVertexAmountPerComponent()) &&
        (started ==> m.State() == WithHeights(s, LayersApplied(initialHeightValues, env).heights) &&
                     verticesInHole == LayersApplied(initialHeightValues, env).holes) &&
        (!started ==> m.State() == s && verticesInHole == old(verticesInHole))
      ensures RebuildPending(parentLandscape.rebuildManager.State(), index)
      ensures forall t :: RebuildPending(old(parentLandscape.rebuildManager.State()), t) ==>
        RebuildPending(parentLandscape.rebuildManager.State(), t)
    {
      var m := parentLandscape.rebuildManager;
      var g := parentLandscape.grid;
      ghost var s0 := m.State();
      QueueRebuildMakesPending(g, s0, index, ConstantHeights(initialHeightValues), |parentLandscape.landscapeComponents|);
      started := m.QueueRebuild(index, ConstantHeights(initialHeightValues));
      assert InLandscape();
      if started {
        QueueRebuildStartsTile(g, s0, index, ConstantHeights(initialHeightValues));
        parentLandscape.StartTile(this, index, env);
      }
    }

    /** AddLandscapeLayer: add the layer to the set and queue a rebuild */
    method AddLandscapeLayer(layer: LayerComponent, env: LayerEnvironment)
      requires InLandscape() && LayersValid() && layer.Valid()
      modifies parentLandscape.rebuildManager, this`affectingLayers, this`verticesInHole
      ensures InLandscape() && LayersValid()
      ensures affectingLayers == LayerAdded(old(affectingLayers), layer)
      ensures RebuildPending(parentLandscape.rebuildManager.State(), index)
      ensures forall t :: RebuildPending(old(parentLandscape.rebuildManager.State()), t) ==>
        RebuildPending(parentLandscape.rebuildManager.State(), t)
    {
      affectingLayers := LayerAdded(affectingLayers, layer);
      var _ := Rebuild(env);
    }

    /** RemoveLandscapeLayer: take the layer out of the set and queue a rebuild, even when it was not there */
    method RemoveLandscapeLayer(layer: LayerComponent, env: LayerEnvironment)
      requires InLandscape() && LayersValid()
      modifies parentLandscape.rebuildManager, this`affectingLayers, this`verticesInHole
      ensures InLandscape() && LayersValid()
      ensures affectingLayers == LayerRemoved(old(affectingLayers), layer)
      ensures RebuildPending(parentLandscape.rebuildManager.State(), index)
      ensures forall t :: RebuildPending(old(parentLandscape.rebuildManager.State()), t) ==>
        RebuildPending(parentLandscape.rebuildManager.State(), t)
    {
      LayerRemovedMembers(affectingLayers, layer);
      affectingLayers := LayerRemoved(affectingLayers, layer);
      var _ := Rebuild(env);
    }

    /**
     * Initialize: the heights raised by the parent's height, the index set,
     * and a rebuild queued, with the raised heights as this tile's initial
     * heights; started says whether the manager started the tile at once.
     */
    method Initialize(componentIndex: int, heightValuesInitial: seq<real>, env: LayerEnvironment) returns (started: bool)
      requires InLandscape() && LayersValid() && componentIndex == index
      modifies parentLandscape.rebuildManager, this`initialHeightValues, this`index, this`verticesInHole
      ensures InLandscape() && index == componentIndex
      ensures |initialHeightValues| == |heightValuesInitial|
      ensures forall i :: 0 <= i < |heightValuesInitial| ==>
        initialHeightValues[i] == heightValuesInitial[i] + parentLandscape.parentHeight
      ensures var m := parentLandscape.rebuildManager;
        var s := QueueRebuildSpec(parentLandscape.grid, old(m.State()), index, ConstantHeights(initialHeightValues));
        (started <==> old(m.currentComponent).None? &&
                      |initialHeightValues| == parentLandscape.grid.TotalVertexAmountPerComponent()) &&
        (started ==> m.State() == WithHeights(s, LayersApplied(initialHeightValues, env).heights) &&
                     verticesInHole == LayersApplied(initialHeightValues, env).holes) &&
        (!started ==> m.State() == s && verticesInHole == old(verticesInHole))
      ensures RebuildPending(parentLandscape.rebuildManager.State(), index)
      ensures forall t :: RebuildPending(old(parentLandscape.rebuildManager.State()), t) ==>
        RebuildPending(parentLandscape.rebuildManager.State(), t)
    {
      var heights := [];
      var i := 0;
      while i < |heightValuesInitial|
        invariant 0 <= i <= |heightValuesInitial| && |heights| == i
        invariant forall j :: 0 <= j < i ==> heights[j] == heightValuesInitial[j] + parentLandscape.parentHeight
      {
        heights := heights + [heightValuesInitial[i] + parentLandscape.parentHeight];
        i := i + 1;
      }
      initialHeightValues := heights;
      index := componentIndex;
      started := Rebuild(env);
    }

    /** FinishRebuild's inner loop: AddInstances for each grass entry of one vertex that has instances */
    method AddVertexGrass(entries: seq<Entry<nat, GrassVertexData>>)
      modifies this`grassBatches
      ensures grassBatches == old(grassBatches) + EntryBatches(entries)
    {
      var j := 0;
      while j < |entries|
        invariant 0 <= j <= |entries|
        invariant grassBatches == old(grassBatches) + EntryBatches(entries[..j])
      {
        assert entries[..j + 1][..j] == entries[..j];
        if |entries[j].value.transforms| != 0 {
          grassBatches := grassBatches + [entries[j].value];
        }
        j := j + 1;
      }
      assert entries[..|entries|] == entries;
    }

    /** FinishRebuild: the instance batches, then the mesh section with white colours and hole-aware triangles */
    method FinishRebuild(buffer: RebuildBuffer)
      requires parentLandscape.rebuildManager.landscape == parentLandscape.grid
      modifies this`mesh, this`grassBatches
      ensures grassBatches == GrassBatches(buffer.additionalData)
      ensures mesh == FinishedMesh(parentLandscape.grid, buffer, verticesInHole)
    {
      var data := buffer.additionalData;
      grassBatches := [];
      var i := 0;
      while i < |data|
        invariant 0 <= i <= |data|
        invariant grassBatches == GrassBatches(data[..i])
      {
        assert data[..i + 1][..i] == data[..i];
        AddVertexGrass(data[i].grassData);
        i := i + 1;
      }
      assert data[..|data|] == data;
      var vertexColors := seq(|buffer.verticesRelative|, _ => White);
      var triangles;
      if verticesInHole == {} {
        triangles := buffer.triangles;
      } else {
        triangles := parentLandscape.rebuildManager.GenerateTriangleArray(Some(verticesInHole));
      }
      mesh := MeshSection(buffer.verticesRelative, triangles, buffer.normals, buffer.uv0Coords, buffer.uv1Coords,
                          vertexColors);
    }
  }

  // ---- the landscape ----

  class RuntimeLandscape {
    const grid: LandscapeGrid
    const parentHeight: real
    const rebuildManager: RebuildManager
    var landscapeComponents: seq<LandscapeComponent>

    /**
     * The landscape and its manager share one grid, there is one tile per
     * grid cell, tile i knows itself as index i of this landscape, and the
     * manager names only these tiles.
     */
    predicate Valid()
      reads this, rebuildManager, landscapeComponents
    {
      grid.Valid() && grid.TilesCoverExtent() && rebuildManager.landscape == grid && rebuildManager.Valid() &&
      |landscapeComponents| == grid.ComponentCount() &&
      (forall i :: 0 <= i < |landscapeComponents| ==>
         landscapeComponents[i].parentLandscape == this && landscapeComponents[i].index == i) &&
      TilesInRange(rebuildManager.State(), |landscapeComponents|)
    }

    /**
     * A landscape with a fresh manager and one new tile per grid cell at
     * the given locations (the heightfield import that fills in the
     * heights is not part of this model).
     */
    constructor(grid: LandscapeGrid, parentHeight: real, componentLocations: seq<Vec3>)
      requires grid.Valid() && grid.TilesCoverExtent() && |componentLocations| == grid.ComponentCount()
      ensures Valid() && this.grid == grid && this.parentHeight == parentHeight
      ensures fresh(rebuildManager) && rebuildManager.State() == ManagerState(None, [], EmptyBuffer, EmptyCache, false, 0, false)
      ensures forall i :: 0 <= i < |landscapeComponents| ==>
        (landscapeComponents[i].location == componentLocations[i] &&
         landscapeComponents[i].affectingLayers == [] && landscapeComponents[i].verticesInHole == {})
    {
      this.grid := grid;
      this.parentHeight := parentHeight;
      rebuildManager := new RebuildManager(grid);
      landscapeComponents := [];
      new;
      var i := 0;
      while i < |componentLocations|
        invariant 0 <= i <= |componentLocations| && |landscapeComponents| == i
        invariant rebuildManager.Valid() && rebuildManager.landscape == grid
        invariant rebuildManager.State() == ManagerState(None, [], EmptyBuffer, EmptyCache, false, 0, false)
        invariant forall j :: 0 <= j < i ==>
          (landscapeComponents[j].parentLandscape == this &&
           landscapeComponents[j].index == j && landscapeComponents[j].location == componentLocations[j] &&
           landscapeComponents[j].affectingLayers == [] && landscapeComponents[j].verticesInHole == {})
      {
        var c := new LandscapeComponent(this, componentLocations[i]);
        c.index := i;
        landscapeComponents := landscapeComponents + [c];
        i := i + 1;
      }
    }

    /** Each tile's initial heights, by index */
    function InitialHeightsOf(): (int -> seq<real>)
      reads this, landscapeComponents
    {
      var cs := landscapeComponents;
      var hs := seq(|cs|, i requires 0 <= i < |cs| reads cs => cs[i].initialHeightValues);
      t => if 0 <= t < |hs| then hs[t] else []
    }

    /** The affecting layers of every tile, in tile order */
    ghost function LayerSets(): (r: seq<seq<LayerComponent>>)
      reads this, landscapeComponents
      ensures |r| == |landscapeComponents|
      ensures forall i :: 0 <= i < |r| ==> r[i] == landscapeComponents[i].affectingLayers
    {
      var cs := landscapeComponents;
      seq(|cs|, i requires 0 <= i < |cs| reads cs => cs[i].affectingLayers)
    }

    /** GetComponentsInArea measures from the first tile's location */
    function StartLocation(): Vec2
      reads this, landscapeComponents
      requires |landscapeComponents| > 0
    {
      landscapeComponents[0].location.XY()
    }

    /** AddLandscapeLayer: the layer joins exactly the tiles its bounding box meets, each queued for a rebuild */
    method AddLandscapeLayer(layer: LayerComponent, env: LayerEnvironment) returns (tiles: seq<int>)
      requires Valid() && (forall c :: c in landscapeComponents ==> c.LayersValid()) && layer.Valid()
      requires layer.boundingBox.min.x <= layer.boundingBox.max.x && layer.boundingBox.min.y <= layer.boundingBox.max.y
      modifies rebuildManager, set c | c in landscapeComponents :: c`affectingLayers,
        set c | c in landscapeComponents :: c`verticesInHole
      ensures Valid() && (forall c :: c in landscapeComponents ==> c.LayersValid()) && landscapeComponents == old(landscapeComponents)
      ensures tiles == grid.ComponentsInAreaSpec(old(StartLocation()), layer.boundingBox)
      ensures forall i :: 0 <= i < |landscapeComponents| ==>
        landscapeComponents[i].affectingLayers ==
          if i in tiles then LayerAdded(old(landscapeComponents[i].affectingLayers), layer)
          else old(landscapeComponents[i].affectingLayers)
      ensures forall t :: t in tiles ==> RebuildPending(rebuildManager.State(), t)
    {
      tiles := ComponentsInArea(grid, StartLocation(), layer.boundingBox);
      forall t | t in tiles
        ensures 0 <= t < |landscapeComponents|
      {
        grid.ComponentsInAreaMembership(StartLocation(), layer.boundingBox, t);
      }
      AddLayerToTiles(layer, env, tiles);
    }

    /** The loop of AddLandscapeLayer: each listed tile adds the layer and queues its rebuild */
    method AddLayerToTiles(layer: LayerComponent, env: LayerEnvironment, tiles: seq<int>)
      requires Valid() && (forall c :: c in landscapeComponents ==> c.LayersValid()) && layer.Valid()
      requires forall t :: t in tiles ==> 0 <= t < |landscapeComponents|
      modifies rebuildManager, set c | c in landscapeComponents :: c`affectingLayers,
        set c | c in landscapeComponents :: c`verticesInHole
      ensures Valid() && (forall c :: c in landscapeComponents ==> c.LayersValid()) && landscapeComponents == old(landscapeComponents)
      ensures forall i :: 0 <= i < |landscapeComponents| ==>
        landscapeComponents[i].affectingLayers ==
          if i in tiles then LayerAdded(old(landscapeComponents[i].affectingLayers), layer)
          else old(landscapeComponents[i].affectingLayers)
      ensures forall t :: t in tiles ==> RebuildPending(rebuildManager.State(), t)
    {
      ghost var before := LayerSets();
      var k := 0;
      ghost var done: set<int> := {};
      while k < |tiles|
        invariant 0 <= k <= |tiles|
        invariant Valid() && (forall c :: c in landscapeComponents ==> c.LayersValid()) && landscapeComponents == old(landscapeComponents)
        invariant forall j :: 0 <= j < k ==> tiles[j] in done
        invariant forall t :: t in done ==> t in tiles && RebuildPending(rebuildManager.State(), t)
        invariant LayerSets() == AddedAt(before, layer, done)
      {
        done := AddLayerToListedTile(layer, env, tiles, k, before, done);
        k := k + 1;
      }
      forall i | i in tiles
        ensures i in done
      {
        var j :| 0 <= j < |tiles| && tiles[j] == i;
      }
    }

    /** One round of that loop: the k-th listed tile adds the layer, and joins the tiles done */
    method AddLayerToListedTile(layer: LayerComponent, env: LayerEnvironment, tiles: seq<int>, k: int,
                                ghost before: seq<seq<LayerComponent>>, ghost done: set<int>)
      returns (ghost doneAfter: set<int>)
      requires Valid() && (forall c :: c in landscapeComponents ==> c.LayersValid()) && layer.Valid()
      requires forall t :: t in tiles ==> 0 <= t < |landscapeComponents|
      requires 0 <= k < |tiles| && |before| == |landscapeComponents|
      requires forall j :: 0 <= j < k ==> tiles[j] in done
      requires forall t :: t in done ==> t in tiles && RebuildPending(rebuildManager.State(), t)
      requires LayerSets() == AddedAt(before, layer, done)
      modifies rebuildManager, set c | c in landscapeComponents :: c`affectingLayers,
        set c | c in landscapeComponents :: c`verticesInHole
      ensures Valid() && (forall c :: c in landscapeComponents ==> c.LayersValid()) && landscapeComponents == old(landscapeComponents)
      ensures forall j :: 0 <= j < k + 1 ==> tiles[j] in doneAfter
      ensures forall t :: t in doneAfter ==> t in tiles && RebuildPending(rebuildManager.State(), t)
      ensures LayerSets() == AddedAt(before, layer, doneAfter)
    {
      var t := tiles[k];
      assert t in tiles;
      AddedAtStep(before, layer, done, t);
      var tile := landscapeComponents[t];
      assert tile in landscapeComponents;
      AddLayerToTile(layer, env, tile, t);
      doneAfter := done + {t};
    }

    /** One tile of that loop: only tile t changes its layers, and it ends up pending */
    method AddLayerToTile(layer: LayerComponent, env: LayerEnvironment, tile: LandscapeComponent, t: int)
      requires Valid() && (forall c :: c in landscapeComponents ==> c.LayersValid()) && layer.Valid()
      requires 0 <= t < |landscapeComponents| && tile == landscapeComponents[t]
      modifies rebuildManager, tile`affectingLayers, tile`verticesInHole
      ensures Valid() && (forall c :: c in landscapeComponents ==> c.LayersValid()) && landscapeComponents == old(landscapeComponents)
      ensures LayerSets() == old(LayerSets())[t := LayerAdded(old(LayerSets())[t], layer)]
      ensures RebuildPending(rebuildManager.State(), t)
      ensures forall u :: RebuildPending(old(rebuildManager.State()), u) ==> RebuildPending(rebuildManager.State(), u)
    {
      tile.AddLandscapeLayer(layer, env);
    }

    /** RemoveLandscapeLayer: every tile drops the layer and is queued for a rebuild */
    method RemoveLandscapeLayer(layer: LayerComponent, env: LayerEnvironment)
      requires Valid() && (forall c :: c in landscapeComponents ==> c.LayersValid())
      modifies rebuildManager, set c | c in landscapeComponents :: c`affectingLayers,
        set c | c in landscapeComponents :: c`verticesInHole
      ensures Valid() && (forall c :: c in landscapeComponents ==> c.LayersValid()) && landscapeComponents == old(landscapeComponents)
      ensures forall i :: 0 <= i < |landscapeComponents| ==>
        landscapeComponents[i].affectingLayers == LayerRemoved(old(landscapeComponents[i].affectingLayers), layer)
      ensures forall t :: 0 <= t < |landscapeComponents| ==> RebuildPending(rebuildManager.State(), t)
    {
      ghost var before := LayerSets();
      var k := 0;
      while k < |landscapeComponents|
        invariant 0 <= k <= |landscapeComponents|
        invariant Valid() && (forall c :: c in landscapeComponents ==> c.LayersValid()) && landscapeComponents == old(landscapeComponents)
        invariant LayerSets() == RemovedBelow(before, layer, k)
        invariant forall t :: 0 <= t < k ==> RebuildPending(rebuildManager.State(), t)
      {
        var c := landscapeComponents[k];
        assert c in old(landscapeComponents);
        RemoveLayerFromTile(layer, env, c, k);
        k := k + 1;
      }
    }

    /** One tile of that loop: only tile t changes its layers, and it ends up pending */
    method RemoveLayerFromTile(layer: LayerComponent, env: LayerEnvironment, tile: LandscapeComponent, t: int)
      requires Valid() && (forall c :: c in landscapeComponents ==> c.LayersValid())
      requires 0 <= t < |landscapeComponents| && tile == landscapeComponents[t]
      modifies rebuildManager, tile`affectingLayers, tile`verticesInHole
      ensures Valid() && (forall c :: c in landscapeComponents ==> c.LayersValid()) && landscapeComponents == old(landscapeComponents)
      ensures LayerSets() == old(LayerSets())[t := LayerRemoved(old(LayerSets())[t], layer)]
      ensures RebuildPending(rebuildManager.State(), t)
      ensures forall u :: RebuildPending(old(rebuildManager.State()), u) ==> RebuildPending(rebuildManager.State(), u)
    {
      tile.RemoveLandscapeLayer(layer, env);
    }

    /** The initial heights of the tile at the end of the queue, the one a tick would start next */
    function NextHeights(): seq<real>
      reads this, rebuildManager, landscapeComponents
    {
      var q := rebuildManager.rebuildQueue;
      if |q| > 0 && 0 <= q[|q| - 1] < |landscapeComponents| then landscapeComponents[q[|q| - 1]].initialHeightValues
      else []
    }

    /**
     * The manager's TickComponent with the calls it makes into the tiles:
     * a finished tile takes the buffer it was built in, and a tile the
     * manager starts next applies its layers to the new buffer.
     */
    method TickRebuildManager(env: LayerEnvironment) returns (finished: Option<int>, started: bool)
      requires Valid() && (forall c :: c in landscapeComponents ==> c.LayersValid()) && rebuildManager.tickEnabled
      modifies rebuildManager, rebuildManager.additionalDataRunners,
        set c | c in landscapeComponents :: c`mesh, set c | c in landscapeComponents :: c`grassBatches,
        set c | c in landscapeComponents :: c`verticesInHole
      ensures Valid() && (forall c :: c in landscapeComponents ==> c.LayersValid()) && landscapeComponents == old(landscapeComponents)
      ensures finished == (if old(rebuildManager.activeRunners) < 1 &&
                              old(rebuildManager.dataBuffer.rebuildState) == BuildAdditionalData
                           then old(rebuildManager.currentComponent) else None)
      ensures finished.Some? ==>
        landscapeComponents[finished.value].mesh ==
          FinishedMesh(grid, old(rebuildManager.dataBuffer), old(landscapeComponents[finished.value].verticesInHole)) &&
        landscapeComponents[finished.value].grassBatches == GrassBatches(old(rebuildManager.dataBuffer).additionalData)
      ensures var s := TickSpec(grid, old(rebuildManager.State()), ConstantHeights(old(NextHeights())));
        !started ==> rebuildManager.State() == s
      ensures started <==> (finished.Some? && |old(rebuildManager.rebuildQueue)| > 0 &&
        |old(NextHeights())| == grid.TotalVertexAmountPerComponent())
      ensures started ==>
        var s := TickSpec(grid, old(rebuildManager.State()), ConstantHeights(old(NextHeights())));
        var t := old(rebuildManager.rebuildQueue)[|old(rebuildManager.rebuildQueue)| - 1];
        var c := landscapeComponents[t];
        0 <= t < |landscapeComponents| && rebuildManager.currentComponent == Some(t) &&
        rebuildManager.State() == WithHeights(s, c.LayersApplied(c.initialHeightValues, env).heights) &&
        c.verticesInHole == c.LayersApplied(c.initialHeightValues, env).holes
    {
      ghost var s0 := rebuildManager.State();
      var heights := NextHeights();
      finished, started := TickAndFinish(heights);
      if started {
        var t := rebuildManager.currentComponent.value;
        var tile := landscapeComponents[t];
        assert tile in old(landscapeComponents);
        StartTile(tile, t, env);
      }
    }

    /** The manager's tick with the given heights for the next tile, and the finished tile taking its buffer */
    method TickAndFinish(heights: seq<real>) returns (finished: Option<int>, started: bool)
      requires Valid() && (forall c :: c in landscapeComponents ==> c.LayersValid()) && rebuildManager.tickEnabled
      modifies rebuildManager, rebuildManager.additionalDataRunners,
        set c | c in landscapeComponents :: c`mesh, set c | c in landscapeComponents :: c`grassBatches
      ensures Valid() && (forall c :: c in landscapeComponents ==> c.LayersValid()) && landscapeComponents == old(landscapeComponents)
      ensures finished == (if old(rebuildManager.activeRunners) < 1 &&
                              old(rebuildManager.dataBuffer.rebuildState) == BuildAdditionalData
                           then old(rebuildManager.currentComponent) else None)
      ensures finished.Some? ==>
        (0 <= finished.value < |landscapeComponents| &&
         landscapeComponents[finished.value].mesh ==
           FinishedMesh(grid, old(rebuildManager.dataBuffer), landscapeComponents[finished.value].verticesInHole) &&
         landscapeComponents[finished.value].grassBatches == GrassBatches(old(rebuildManager.dataBuffer).additionalData))
      ensures rebuildManager.State() == TickSpec(grid, old(rebuildManager.State()), ConstantHeights(heights))
      ensures started <==> (finished.Some? && |old(rebuildManager.rebuildQueue)| > 0 &&
        |heights| == grid.TotalVertexAmountPerComponent())
      ensures started ==>
        var q := old(rebuildManager.rebuildQueue);
        rebuildManager.currentComponent == Some(q[|q| - 1]) && rebuildManager.dataBuffer.heightValues == heights
    {
      ghost var s0 := rebuildManager.State();
      var finishedBuffer;
      finished, finishedBuffer, started := rebuildManager.TickComponent(ConstantHeights(heights));
      TickKeepsTilesInRange(grid, s0, ConstantHeights(heights), |landscapeComponents|);
      if started {
        TickStartsNext(grid, s0, ConstantHeights(heights));
      }
      if finished.Some? {
        var tile := landscapeComponents[finished.value];
        assert tile in old(landscapeComponents);
        FinishTile(tile, finishedBuffer);
      }
    }

    /** FinishRebuild on a tile of this landscape */
    method FinishTile(tile: LandscapeComponent, buffer: RebuildBuffer)
      requires Valid() && tile in landscapeComponents
      modifies tile`mesh, tile`grassBatches
      ensures Valid()
      ensures tile.grassBatches == GrassBatches(buffer.additionalData)
      ensures tile.mesh == FinishedMesh(grid, buffer, tile.verticesInHole)
    {
      tile.FinishRebuild(buffer);
    }

    /** StartRebuild's call into the tile it started: the tile's layers applied to the buffer's heights */
    method StartTile(tile: LandscapeComponent, t: int, env: LayerEnvironment)
      requires Valid() && 0 <= t < |landscapeComponents| && tile == landscapeComponents[t] && tile.LayersValid()
      requires rebuildManager.dataBuffer.heightValues == tile.initialHeightValues
      modifies rebuildManager`dataBuffer, tile`verticesInHole
      ensures Valid()
      ensures rebuildManager.State() ==
        WithHeights(old(rebuildManager.State()), tile.LayersApplied(tile.initialHeightValues, env).heights)
      ensures tile.verticesInHole == tile.LayersApplied(tile.initialHeightValues, env).holes
    {
      var heights, colors := tile.ApplyDataFromLayers(rebuildManager.dataBuffer.heightValues, env);
      WithHeightsKeepsValid(grid, rebuildManager.State(), heights, |landscapeComponents|);
      rebuildManager.dataBuffer := rebuildManager.dataBuffer.(heightValues := heights);
    }
  }
}
