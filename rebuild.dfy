/**
 * The rebuild scheduler of a runtime landscape (URuntimeLandscapeRebuildManager)
 * and its per-row vegetation runners (FGenerateAdditionalVertexDataWorker).
 *
 * One tile is rebuilt at a time. Its rebuild runs in two phases: a single
 * vertex runner, then one vegetation runner per vertex row. The runners
 * report back by decrementing a counter, and the manager's tick moves on
 * once the counter has dropped below one. Tiles are named by their index.
 * The engine's thread pool is replaced by explicit calls: a queued runner
 * runs when its DoThreadedWork is called, and the vertex runner (whose body
 * is not part of this model) by FinishVertexRunner.
 */
module Rebuild {
  import opened EngineTypes
  import opened Grid
  import opened GroundTypes
  import opened Vegetation
  import opened Triangles

  /** ERuntimeLandscapeRebuildState; Idle is RLRS_None */
  datatype RebuildState = Idle | BuildVertices | BuildAdditionalData

  /** FRuntimeLandscapeRebuildBuffer (tangents are not modelled) */
  datatype RebuildBuffer = RebuildBuffer(
    heightValues: seq<real>,
    verticesRelative: seq<Vec3>,
    triangles: seq<int>,
    uv0Coords: seq<Vec2>,
    uv1Coords: seq<Vec2>,
    uv1Offset: Vec2,
    normals: seq<Vec3>,
    additionalData: seq<AdditionalData>,
    rebuildState: RebuildState)

  /** A default-constructed buffer: everything empty, state RLRS_None */
  const EmptyBuffer: RebuildBuffer := RebuildBuffer([], [], [], [], [], Vec2(0.0, 0.0), [], [], Idle)

  /** FGenerationDataCache */
  datatype GenerationDataCache = GenerationDataCache(uv1Scale: Vec2, vertexDistance: real, uvIncrement: real)

  const EmptyCache: GenerationDataCache := GenerationDataCache(Vec2(0.0, 0.0), 0.0, 0.0)

  /** InitializeGenerationCache: the UV1 scale of one tile, the quad side length and the UV step of one quad */
  function CacheFor(g: LandscapeGrid): GenerationDataCache
    requires g.Valid()
  {
    GenerationDataCache(Vec2(1.0 / g.componentAmount.x as real, 1.0 / g.componentAmount.y as real),
                        g.quadSideLength, 1.0 / g.componentResolution.x as real)
  }

  /**
   * InitializeBuffer: the per-vertex arrays sized to the tile's vertex count
   * (their uninitialised contents are zeros here), every vertex's grass
   * data empty, and the hole-free triangle list.
   */
  function InitialBuffer(g: LandscapeGrid): RebuildBuffer
    requires g.Valid()
  {
    var n := g.TotalVertexAmountPerComponent();
    RebuildBuffer(seq(n, _ => 0.0), seq(n, _ => Vec3(0.0, 0.0, 0.0)),
                  TriangleArray(g.componentResolution.x, g.componentResolution.y, None),
                  seq(n, _ => Vec2(0.0, 0.0)), seq(n, _ => Vec2(0.0, 0.0)), Vec2(0.0, 0.0), [],
                  seq(n, _ => Cleared), Idle)
  }

  /** A buffer sized for one tile of g and holding its hole-free triangle list */
  predicate SizedFor(b: RebuildBuffer, g: LandscapeGrid)
    requires g.Valid()
  {
    var n := g.TotalVertexAmountPerComponent();
    |b.heightValues| == n && |b.verticesRelative| == n && |b.uv0Coords| == n && |b.uv1Coords| == n &&
    |b.additionalData| == n && b.triangles == TriangleArray(g.componentResolution.x, g.componentResolution.y, None)
  }

  lemma InitialBufferIsSized(g: LandscapeGrid)
    requires g.Valid()
    ensures var b := InitialBuffer(g);
      SizedFor(b, g) && b.rebuildState == Idle &&
      forall i :: 0 <= i < |b.additionalData| ==> b.additionalData[i] == Cleared
  {
  }

  // ---- the rows of a tile ----

  /** The first vertex of row y: the vegetation runner of row y starts here */
  function RowStart(resX: int, y: int): int
  {
    y * (resX + 1)
  }

  /** Each row of ResX + 1 vertices lies inside the tile */
  lemma RowInsideTile(resX: int, resY: int, y: int)
    requires resX >= 0 && 0 <= y <= resY
    ensures 0 <= RowStart(resX, y) && RowStart(resX, y) + resX + 1 <= (resX + 1) * (resY + 1)
  {
    MulMonotone(0, y, resX + 1);
    MulMonotone(y + 1, resY + 1, resX + 1);
    assert (y + 1) * (resX + 1) == y * (resX + 1) + resX + 1;
  }

  /** The rows cover the tile's vertices, each vertex lying in exactly one row: row i / (ResX + 1) */
  lemma RowsPartitionTile(resX: int, resY: int, i: int)
    requires resX >= 0 && resY >= 0 && 0 <= i < (resX + 1) * (resY + 1)
    ensures 0 <= i / (resX + 1) <= resY
    ensures forall y :: 0 <= y <= resY ==> (RowStart(resX, y) <= i < RowStart(resX, y) + resX + 1 <==> y == i / (resX + 1))
  {
    var w, h := resX + 1, resY + 1;
    var r, m := i / w, i % w;
    DivModFacts(i, w);
    assert (resX + 1) * (resY + 1) == h * w;
    RowBelowHeight(w, h, r, m);
    forall y | 0 <= y <= resY
      ensures RowStart(resX, y) <= i < RowStart(resX, y) + resX + 1 <==> y == r
    {
      RowOfIndex(w, r, m, y);
    }
  }

  /** An index r * w + m below h * w, with 0 <= r and 0 <= m < w, is in one of the first h rows */
  lemma RowBelowHeight(w: int, h: int, r: int, m: int)
    requires w >= 1 && 0 <= m < w && 0 <= r && r * w + m < h * w
    ensures r < h
  {
    if r >= h {
      MulMonotone(h, r, w);
    }
  }

  /** The index r * w + m with 0 <= m < w lies in row y exactly when y is r */
  lemma RowOfIndex(w: int, r: int, m: int, y: int)
    requires w >= 1 && 0 <= m < w
    ensures y * w <= r * w + m < y * w + w <==> y == r
  {
    if y < r {
      MulMonotone(y + 1, r, w);
      assert (y + 1) * w == y * w + w;
    } else if y > r {
      MulMonotone(r + 1, y, w);
      assert (r + 1) * w == r * w + w;
    }
  }

  // ---- the manager's state and its transitions ----

  /** The manager's fields other than its runner objects; runnersCreated says AdditionalDataRunners is non-empty */
  datatype ManagerState = ManagerState(
    currentComponent: Option<int>,
    rebuildQueue: seq<int>,
    dataBuffer: RebuildBuffer,
    generationDataCache: GenerationDataCache,
    runnersCreated: bool,
    activeRunners: int,
    tickEnabled: bool)

  /** TArray::AddUnique */
  function AddUnique(q: seq<int>, t: int): seq<int>
  {
    if t in q then q else q + [t]
  }

  /** Initialize: buffer, cache and runners are set up only while no runner exists */
  function InitializeSpec(g: LandscapeGrid, s: ManagerState): ManagerState
    requires g.Valid()
  {
    if s.runnersCreated then s
    else s.(dataBuffer := InitialBuffer(g), generationDataCache := CacheFor(g), runnersCreated := true)
  }

  /** UV1Offset of a tile: the cache's UV1 scale times the tile's column and row */
  function UV1OffsetFor(g: LandscapeGrid, cache: GenerationDataCache, tile: int): Vec2
    requires g.Valid()
  {
    var c := g.ComponentCoordinates(tile);
    Vec2(cache.uv1Scale.x * c.x as real, cache.uv1Scale.y * c.y as real)
  }

  /**
   * StartRebuild for the current tile, given its initial heights: with a
   * height count other than the tile's vertex count it stops after setting
   * the UV1 offset; otherwise it enters the vertex phase with one runner and
   * turns ticking on.
   */
  function StartRebuildSpec(g: LandscapeGrid, s: ManagerState, initialHeights: seq<real>): ManagerState
    requires g.Valid() && s.currentComponent.Some?
  {
    var s1 := InitializeSpec(g, s);
    var s2 := s1.(dataBuffer := s1.dataBuffer.(uv1Offset := UV1OffsetFor(g, s1.generationDataCache, s.currentComponent.value)));
    if |initialHeights| != g.TotalVertexAmountPerComponent() then s2
    else s2.(dataBuffer := s2.dataBuffer.(rebuildState := BuildVertices, heightValues := initialHeights),
             activeRunners := 1, tickEnabled := true)
  }

  /** QueueRebuild: while a tile is being rebuilt, queue the tile once; otherwise start it */
  function QueueRebuildSpec(g: LandscapeGrid, s: ManagerState, t: int, initialHeightsOf: int -> seq<real>): ManagerState
    requires g.Valid()
  {
    if s.currentComponent.Some? then s.(rebuildQueue := AddUnique(s.rebuildQueue, t))
    else StartRebuildSpec(g, s.(currentComponent := Some(t)), initialHeightsOf(t))
  }

  /** RebuildNextInQueue: stop when the queue is empty, otherwise pop its LAST tile and start it */
  function RebuildNextSpec(g: LandscapeGrid, s: ManagerState, initialHeightsOf: int -> seq<real>): ManagerState
    requires g.Valid()
  {
    if |s.rebuildQueue| == 0 then s.(currentComponent := None, tickEnabled := false)
    else
      var t := s.rebuildQueue[|s.rebuildQueue| - 1];
      StartRebuildSpec(g, s.(currentComponent := Some(t), rebuildQueue := s.rebuildQueue[..|s.rebuildQueue| - 1]),
                       initialHeightsOf(t))
  }

  /** CancelRebuild */
  function CancelSpec(s: ManagerState): ManagerState
  {
    s.(currentComponent := None, activeRunners := 0, tickEnabled := false)
  }

  /** NotifyRunnerFinished of a vegetation runner */
  function NotifySpec(s: ManagerState): ManagerState
  {
    s.(activeRunners := s.activeRunners - 1)
  }

  /** What the vertex runner hands back before its finish notification: the tile's vertices, UVs and normals */
  function VertexRunnerFinishedSpec(s: ManagerState, vertices: seq<Vec3>, uv0: seq<Vec2>, uv1: seq<Vec2>,
                                    normals: seq<Vec3>): ManagerState
  {
    s.(dataBuffer := s.dataBuffer.(verticesRelative := vertices, uv0Coords := uv0, uv1Coords := uv1, normals := normals),
       activeRunners := s.activeRunners - 1)
  }

  /** StartGenerateAdditionalData: the vegetation phase, with one runner per vertex row */
  function StartGenerateAdditionalDataSpec(g: LandscapeGrid, s: ManagerState): ManagerState
  {
    s.(dataBuffer := s.dataBuffer.(rebuildState := BuildAdditionalData),
       activeRunners := g.componentResolution.y + 1)
  }

  /**
   * TickComponent: nothing while a runner is active; otherwise the vertex
   * phase is followed by the vegetation phase, and the vegetation phase by
   * the next tile in the queue (the finished tile is handed its buffer by
   * the caller).
   */
  function TickSpec(g: LandscapeGrid, s: ManagerState, initialHeightsOf: int -> seq<real>): ManagerState
    requires g.Valid()
  {
    if s.activeRunners >= 1 then s
    else match s.dataBuffer.rebuildState
      case BuildVertices => StartGenerateAdditionalDataSpec(g, s)
      case BuildAdditionalData => RebuildNextSpec(g, s, initialHeightsOf)
      case Idle => s
  }

  /**
   * What the manager keeps true: once runners exist the buffer is sized for
   * a tile and the cache is filled; a rebuild state is only set after that;
   * and ticking is on only with a current tile and a rebuild under way.
   */
  predicate StateValid(g: LandscapeGrid, s: ManagerState)
    requires g.Valid()
  {
    (s.runnersCreated ==> SizedFor(s.dataBuffer, g) && s.generationDataCache == CacheFor(g)) &&
    (s.dataBuffer.rebuildState != Idle ==> s.runnersCreated) &&
    (s.tickEnabled ==> s.currentComponent.Some? && s.dataBuffer.rebuildState != Idle)
  }

  /**
   * The vertex phase hands the vegetation phase a normal per vertex: the
   * normals are sized for a tile during the vegetation phase, and once the
   * vertex runner has finished a ticking vertex phase.
   */
  predicate PhaseInputsSized(g: LandscapeGrid, s: ManagerState)
    requires g.Valid()
  {
    var n := g.TotalVertexAmountPerComponent();
    (s.dataBuffer.rebuildState == BuildAdditionalData ==> |s.dataBuffer.normals| == n) &&
    (s.tickEnabled && s.dataBuffer.rebuildState == BuildVertices && s.activeRunners < 1 ==> |s.dataBuffer.normals| == n)
  }

  // ---- properties of the transitions ----

  /** Replacing the grass data by as many entries keeps the manager's invariant */
  lemma AdditionalDataKeepsValid(g: LandscapeGrid, s: ManagerState, additionalData: seq<AdditionalData>)
    requires g.Valid() && StateValid(g, s) && |additionalData| == |s.dataBuffer.additionalData|
    ensures StateValid(g, s.(dataBuffer := s.dataBuffer.(additionalData := additionalData)))
    ensures PhaseInputsSized(g, s) ==> PhaseInputsSized(g, s.(dataBuffer := s.dataBuffer.(additionalData := additionalData)))
  {
  }

  /** AddUnique adds the tile once: it ends up queued, the old queue is kept in front, and adding again changes nothing */
  lemma AddUniqueAddsOnce(q: seq<int>, t: int)
    ensures t in AddUnique(q, t)
    ensures AddUnique(q, t)[..|q|] == q
    ensures |AddUnique(q, t)| == |q| + (if t in q then 0 else 1)
    ensures AddUnique(AddUnique(q, t), t) == AddUnique(q, t)
  {
  }

  /** While a tile is current, QueueRebuild only queues the tile, once */
  lemma QueueRebuildWhileBusy(g: LandscapeGrid, s: ManagerState, t: int, initialHeightsOf: int -> seq<real>)
    requires g.Valid() && s.currentComponent.Some?
    ensures var r := QueueRebuildSpec(g, s, t, initialHeightsOf);
      r == s.(rebuildQueue := AddUnique(s.rebuildQueue, t)) &&
      QueueRebuildSpec(g, r, t, initialHeightsOf) == r
  {
    AddUniqueAddsOnce(s.rebuildQueue, t);
  }

  /** With no current tile, QueueRebuild makes the tile current and starts it without touching the queue */
  lemma QueueRebuildWhenIdle(g: LandscapeGrid, s: ManagerState, t: int, initialHeightsOf: int -> seq<real>)
    requires g.Valid() && s.currentComponent.None?
    ensures var r := QueueRebuildSpec(g, s, t, initialHeightsOf);
      r.currentComponent == Some(t) && r.rebuildQueue == s.rebuildQueue &&
      (|initialHeightsOf(t)| == g.TotalVertexAmountPerComponent() ==>
        r.dataBuffer.rebuildState == BuildVertices && r.dataBuffer.heightValues == initialHeightsOf(t) &&
        r.activeRunners == 1 && r.tickEnabled)
  {
  }

  /**
   * A height count other than the tile's vertex count leaves the tile
   * current and the rebuild state, heights, counter and ticking as they were
   * (once the runners exist).
   */
  lemma StartRebuildHeightMismatch(g: LandscapeGrid, s: ManagerState, initialHeights: seq<real>)
    requires g.Valid() && s.currentComponent.Some? && s.runnersCreated
    requires |initialHeights| != g.TotalVertexAmountPerComponent()
    ensures var r := StartRebuildSpec(g, s, initialHeights);
      r.currentComponent == s.currentComponent && r.rebuildQueue == s.rebuildQueue &&
      r.dataBuffer.rebuildState == s.dataBuffer.rebuildState && r.dataBuffer.heightValues == s.dataBuffer.heightValues &&
      r.activeRunners == s.activeRunners && r.tickEnabled == s.tickEnabled
  {
  }

  /** A matching height count starts the vertex phase with the tile's heights and one runner */
  lemma StartRebuildHeightsMatch(g: LandscapeGrid, s: ManagerState, initialHeights: seq<real>)
    requires g.Valid() && s.currentComponent.Some?
    requires |initialHeights| == g.TotalVertexAmountPerComponent()
    ensures var r := StartRebuildSpec(g, s, initialHeights);
      r.currentComponent == s.currentComponent && r.rebuildQueue == s.rebuildQueue &&
      r.dataBuffer.rebuildState == BuildVertices && r.dataBuffer.heightValues == initialHeights &&
      r.activeRunners == 1 && r.tickEnabled && r.runnersCreated
  {
  }

  /** Initialize does its work at most once */
  lemma InitializeRunsOnce(g: LandscapeGrid, s: ManagerState)
    requires g.Valid()
    ensures InitializeSpec(g, InitializeSpec(g, s)) == InitializeSpec(g, s)
    ensures s.runnersCreated ==> InitializeSpec(g, s) == s
  {
  }

  /** RebuildNextInQueue on an empty queue stops: no current tile, no ticking */
  lemma RebuildNextOnEmptyQueue(g: LandscapeGrid, s: ManagerState, initialHeightsOf: int -> seq<real>)
    requires g.Valid() && |s.rebuildQueue| == 0
    ensures var r := RebuildNextSpec(g, s, initialHeightsOf);
      r.currentComponent.None? && !r.tickEnabled && r.rebuildQueue == [] && r.activeRunners == s.activeRunners
  {
  }

  /** RebuildNextInQueue takes the most recently queued tile (last in, first out) and shortens the queue by one */
  lemma RebuildNextIsLastInFirstOut(g: LandscapeGrid, s: ManagerState, initialHeightsOf: int -> seq<real>)
    requires g.Valid() && |s.rebuildQueue| > 0
    ensures var r := RebuildNextSpec(g, s, initialHeightsOf);
      r.currentComponent == Some(s.rebuildQueue[|s.rebuildQueue| - 1]) &&
      r.rebuildQueue == s.rebuildQueue[..|s.rebuildQueue| - 1] && |r.rebuildQueue| == |s.rebuildQueue| - 1
  {
  }

  /** CancelRebuild drops the current tile and the counter but keeps the queue and the buffer */
  lemma CancelKeepsQueue(s: ManagerState)
    ensures var r := CancelSpec(s);
      r.currentComponent.None? && r.activeRunners == 0 && !r.tickEnabled &&
      r.rebuildQueue == s.rebuildQueue && r.dataBuffer == s.dataBuffer
  {
  }

  /** Each finished runner takes exactly one off the counter and changes nothing else */
  lemma NotifyDecrements(s: ManagerState)
    ensures NotifySpec(s).activeRunners == s.activeRunners - 1
    ensures NotifySpec(s).(activeRunners := s.activeRunners) == s
  {
  }

  /** The tick waits while any runner is active */
  lemma TickWaitsForRunners(g: LandscapeGrid, s: ManagerState, initialHeightsOf: int -> seq<real>)
    requires g.Valid() && s.activeRunners >= 1
    ensures TickSpec(g, s, initialHeightsOf) == s
  {
  }

  /** After the vertex phase the tick starts one vegetation runner per vertex row */
  lemma TickAfterVertexPhase(g: LandscapeGrid, s: ManagerState, initialHeightsOf: int -> seq<real>)
    requires g.Valid() && s.activeRunners < 1 && s.dataBuffer.rebuildState == BuildVertices
    ensures var r := TickSpec(g, s, initialHeightsOf);
      r.dataBuffer.rebuildState == BuildAdditionalData && r.activeRunners == g.componentResolution.y + 1 &&
      r.currentComponent == s.currentComponent && r.rebuildQueue == s.rebuildQueue
  {
  }

  /** After the vegetation phase the tick moves on to the next tile in the queue */
  lemma TickAfterVegetationPhase(g: LandscapeGrid, s: ManagerState, initialHeightsOf: int -> seq<real>)
    requires g.Valid() && s.activeRunners < 1 && s.dataBuffer.rebuildState == BuildAdditionalData
    ensures TickSpec(g, s, initialHeightsOf) == RebuildNextSpec(g, s, initialHeightsOf)
  {
  }

  lemma InitializeKeepsValid(g: LandscapeGrid, s: ManagerState)
    requires g.Valid() && StateValid(g, s)
    ensures StateValid(g, InitializeSpec(g, s)) && InitializeSpec(g, s).runnersCreated
    ensures PhaseInputsSized(g, s) ==> PhaseInputsSized(g, InitializeSpec(g, s))
  {
    InitialBufferIsSized(g);
  }

  lemma StartRebuildKeepsValid(g: LandscapeGrid, s: ManagerState, initialHeights: seq<real>)
    requires g.Valid() && StateValid(g, s) && s.currentComponent.Some?
    ensures StateValid(g, StartRebuildSpec(g, s, initialHeights))
    ensures PhaseInputsSized(g, s) ==> PhaseInputsSized(g, StartRebuildSpec(g, s, initialHeights))
  {
    InitializeKeepsValid(g, s);
  }

  /** Every transition keeps the manager's invariant */
  lemma TransitionsKeepValid(g: LandscapeGrid, s: ManagerState, t: int, initialHeightsOf: int -> seq<real>)
    requires g.Valid() && StateValid(g, s)
    ensures StateValid(g, QueueRebuildSpec(g, s, t, initialHeightsOf))
    ensures StateValid(g, RebuildNextSpec(g, s, initialHeightsOf))
    ensures StateValid(g, CancelSpec(s))
    ensures StateValid(g, NotifySpec(s))
    ensures s.dataBuffer.rebuildState != Idle ==> StateValid(g, StartGenerateAdditionalDataSpec(g, s))
    ensures StateValid(g, TickSpec(g, s, initialHeightsOf))
  {
    if s.currentComponent.None? {
      StartRebuildKeepsValid(g, s.(currentComponent := Some(t)), initialHeightsOf(t));
    }
    if |s.rebuildQueue| > 0 {
      var q := s.rebuildQueue;
      StartRebuildKeepsValid(g, s.(currentComponent := Some(q[|q| - 1]), rebuildQueue := q[..|q| - 1]),
                             initialHeightsOf(q[|q| - 1]));
    }
  }

  /** RebuildNextInQueue keeps the normals the vegetation phase reads sized */
  lemma RebuildNextKeepsPhaseInputs(g: LandscapeGrid, s: ManagerState, initialHeightsOf: int -> seq<real>)
    requires g.Valid() && StateValid(g, s) && PhaseInputsSized(g, s)
    ensures PhaseInputsSized(g, RebuildNextSpec(g, s, initialHeightsOf))
  {
    if |s.rebuildQueue| > 0 {
      var q := s.rebuildQueue;
      StartRebuildKeepsValid(g, s.(currentComponent := Some(q[|q| - 1]), rebuildQueue := q[..|q| - 1]),
                             initialHeightsOf(q[|q| - 1]));
    }
  }

  /**
   * Every transition keeps the normals the vegetation phase reads sized: a
   * vegetation runner's notification, the vertex runner's hand-over of a
   * normal per vertex, and the start of the vegetation phase on them.
   */
  lemma TransitionsKeepPhaseInputs(g: LandscapeGrid, s: ManagerState, t: int, initialHeightsOf: int -> seq<real>,
                                   vertices: seq<Vec3>, uv0: seq<Vec2>, uv1: seq<Vec2>, normals: seq<Vec3>)
    requires g.Valid() && StateValid(g, s) && PhaseInputsSized(g, s)
    ensures PhaseInputsSized(g, QueueRebuildSpec(g, s, t, initialHeightsOf))
    ensures PhaseInputsSized(g, RebuildNextSpec(g, s, initialHeightsOf))
    ensures PhaseInputsSized(g, CancelSpec(s))
    ensures s.dataBuffer.rebuildState == BuildAdditionalData ==> PhaseInputsSized(g, NotifySpec(s))
    ensures |normals| == g.TotalVertexAmountPerComponent() ==>
      PhaseInputsSized(g, VertexRunnerFinishedSpec(s, vertices, uv0, uv1, normals))
    ensures |s.dataBuffer.normals| == g.TotalVertexAmountPerComponent() ==>
      PhaseInputsSized(g, StartGenerateAdditionalDataSpec(g, s))
    ensures s.tickEnabled ==> PhaseInputsSized(g, TickSpec(g, s, initialHeightsOf))
  {
    if s.currentComponent.None? {
      StartRebuildKeepsValid(g, s.(currentComponent := Some(t)), initialHeightsOf(t));
    }
    RebuildNextKeepsPhaseInputs(g, s, initialHeightsOf);
  }

  /** The vertex runner's hand-over keeps the manager's invariant when its arrays are sized for a tile */
  lemma VertexRunnerFinishedKeepsValid(g: LandscapeGrid, s: ManagerState, vertices: seq<Vec3>, uv0: seq<Vec2>,
                                       uv1: seq<Vec2>, normals: seq<Vec3>)
    requires g.Valid() && StateValid(g, s)
    requires |vertices| == |uv0| == |uv1| == g.TotalVertexAmountPerComponent()
    ensures StateValid(g, VertexRunnerFinishedSpec(s, vertices, uv0, uv1, normals))
  {
  }

  /**
   * During the vegetation phase each vertex row lies inside the tile's grass
   * data, vertices and normals: what row y's runner reads and writes exists.
   */
  lemma VegetationRowInputsSized(g: LandscapeGrid, s: ManagerState, y: int)
    requires g.Valid() && StateValid(g, s) && PhaseInputsSized(g, s)
    requires s.dataBuffer.rebuildState == BuildAdditionalData && 0 <= y <= g.componentResolution.y
    ensures var b, e := s.dataBuffer, RowStart(g.componentResolution.x, y) + g.componentResolution.x + 1;
      0 <= RowStart(g.componentResolution.x, y) &&
      e <= |b.additionalData| && e <= |b.verticesRelative| && e <= |b.normals|
  {
    RowInsideTile(g.componentResolution.x, g.componentResolution.y, y);
  }

  /** One step of GenerateTriangleArray's inner loop: quad (x, y) adds its two triangles unless a corner is a hole */
  lemma QuadStep(resX: int, holes: Option<set<int>>, y: nat, x: nat, t1: int, t2: int, t3: int)
    requires t1 == y * (resX + 1) + x && t2 == t1 + resX + 1 && t3 == t1 + 1
    ensures var before := TriangleList(resX, KeptQuads(resX, holes, y) + KeptInRow(resX, holes, y, x));
      var after := TriangleList(resX, KeptQuads(resX, holes, y) + KeptInRow(resX, holes, y, x + 1));
      if holes.Some? && (t1 in holes.value || t2 in holes.value || t3 in holes.value || t2 + 1 in holes.value)
      then after == before
      else after == before + [t1, t2, t3] + [t3, t2, t2 + 1]
  {
    var q := IntVec2(x, y);
    var prefix := KeptQuads(resX, holes, y) + KeptInRow(resX, holes, y, x);
    KeptInRowStep(resX, holes, y, y, x);
    if QuadKept(resX, holes, q) {
      TriangleListAppend(resX, prefix, q);
      assert QuadTriangles(resX, q) == [t1, t2, t3] + [t3, t2, t2 + 1];
    } else {
      assert prefix + [] == prefix;
    }
  }

  // ---- what a vegetation runner reads ----

  /** Slope angles of a vertex normal in degrees (UKismetMathLibrary::GetSlopeDegreeAngles) */
  datatype Slope = Slope(roll: real, pitch: real)

  /**
   * What a vegetation runner reads from outside the manager: the landscape's
   * layer sets and height bands, the current tile's world location and the
   * landscape's area per quad; the engine's slope computation and the
   * random draws of each vertex are given as functions.
   */
  datatype VegetationInputs = VegetationInputs(
    layerSets: seq<LayerSet>,
    heightBands: seq<HeightBand>,
    componentLocation: Vec3,
    areaPerSquare: real,
    slopeOf: Vec3 -> Slope,
    draws: int -> VertexDraws)

  /**
   * The grass data GenerateGrassDataForVertex leaves at vertex i, the x-th
   * vertex of row y of the current tile: layer weights are looked up only
   * off the first row and column, and the height test uses the vertex's
   * world height.
   */
  function VertexData(g: LandscapeGrid, inputs: VegetationInputs, vertices: seq<Vec3>, normals: seq<Vec3>,
                      current: Option<int>, i: int, x: int, y: int): AdditionalData
    requires g.Valid()
    requires y != 0 && x != 0 ==> current.Some? && 0 <= i < |vertices| && i < |normals|
  {
    if y == 0 || x == 0 then Cleared
    else
      var slope := inputs.slopeOf(normals[i]);
      VertexDataSpec(y, x, LayerWeightsAt(g, inputs.layerSets, current.value, x, y), inputs.heightBands,
                     vertices[i].Add(inputs.componentLocation).z,
                     VertexSite(vertices[i], slope.roll, slope.pitch, inputs.areaPerSquare, g.quadSideLength), inputs.draws(i))
  }

  /** The grass data after a row runner has generated the first n vertices of row y, which starts at vertex start */
  function RowData(g: LandscapeGrid, inputs: VegetationInputs, b: RebuildBuffer, current: Option<int>,
                   start: int, y: int, n: int): (r: seq<AdditionalData>)
    requires g.Valid() && 0 <= start && 0 <= n && start + n <= |b.additionalData|
    requires y != 0 ==> current.Some? && start + n <= |b.verticesRelative| && start + n <= |b.normals|
    ensures |r| == |b.additionalData|
    decreases n
  {
    if n == 0 then b.additionalData
    else RowData(g, inputs, b, current, start, y, n - 1)[start + n - 1 :=
           VertexData(g, inputs, b.verticesRelative, b.normals, current, start + n - 1, n - 1, y)]
  }

  /** A row runner writes exactly the vertices of its row, vertex start + x getting the data of column x */
  lemma {:induction false} RowDataEntries(g: LandscapeGrid, inputs: VegetationInputs, b: RebuildBuffer, current: Option<int>,
                                          start: int, y: int, n: int)
    requires g.Valid() && 0 <= start && 0 <= n && start + n <= |b.additionalData|
    requires y != 0 ==> current.Some? && start + n <= |b.verticesRelative| && start + n <= |b.normals|
    ensures var r := RowData(g, inputs, b, current, start, y, n);
      |r| == |b.additionalData| &&
      forall i :: 0 <= i < |r| ==>
        r[i] == (if start <= i < start + n
                 then VertexData(g, inputs, b.verticesRelative, b.normals, current, i, i - start, y)
                 else b.additionalData[i])
    decreases n
  {
    if n > 0 {
      RowDataEntries(g, inputs, b, current, start, y, n - 1);
      var prev, r := RowData(g, inputs, b, current, start, y, n - 1), RowData(g, inputs, b, current, start, y, n);
      var last := start + n - 1;
      assert r == prev[last := VertexData(g, inputs, b.verticesRelative, b.normals, current, last, n - 1, y)];
      forall i | 0 <= i < |r|
        ensures r[i] == (if start <= i < start + n
                         then VertexData(g, inputs, b.verticesRelative, b.normals, current, i, i - start, y)
                         else b.additionalData[i])
      {
        if i != last {
          assert r[i] == prev[i];
        }
      }
    }
  }

  // ---- the manager ----

  class RebuildManager {
    /** The owning landscape's grid (Landscape) */
    const landscape: LandscapeGrid
    var currentComponent: Option<int>
    var rebuildQueue: seq<int>
    var dataBuffer: RebuildBuffer
    var generationDataCache: GenerationDataCache
    var additionalDataRunners: seq<AdditionalVertexDataWorker>
    var activeRunners: int
    var tickEnabled: bool

    function State(): ManagerState
      reads this
    {
      ManagerState(currentComponent, rebuildQueue, dataBuffer, generationDataCache,
                   |additionalDataRunners| > 0, activeRunners, tickEnabled)
    }

    /** The runners are this manager's, distinct, and one per vertex row once created */
    predicate RunnersValid()
      reads this
    {
      (forall i :: 0 <= i < |additionalDataRunners| ==> additionalDataRunners[i].rebuildManager == this) &&
      (forall i, j :: 0 <= i < j < |additionalDataRunners| ==> additionalDataRunners[i] != additionalDataRunners[j]) &&
      (|additionalDataRunners| == 0 || |additionalDataRunners| == landscape.componentResolution.y + 1)
    }

    predicate Valid()
      reads this
    {
      landscape.Valid() && RunnersValid() && StateValid(landscape, State()) && PhaseInputsSized(landscape, State())
    }

    /** A new manager: no tile, empty queue, default buffer, no runners, ticking off */
    constructor(landscape: LandscapeGrid)
      requires landscape.Valid()
      ensures this.landscape == landscape && Valid()
      ensures State() == ManagerState(None, [], EmptyBuffer, EmptyCache, false, 0, false)
    {
      this.landscape := landscape;
      currentComponent := None;
      rebuildQueue := [];
      dataBuffer := EmptyBuffer;
      generationDataCache := EmptyCache;
      additionalDataRunners := [];
      activeRunners := 0;
      tickEnabled := false;
    }

    /** GenerateTriangleArray: two triangles per quad, row by row, skipping quads with a corner in the hole set */
    method GenerateTriangleArray(holeIndices: Option<set<int>>) returns (result: seq<int>)
      ensures result == TriangleArray(landscape.componentResolution.x, landscape.componentResolution.y, holeIndices)
    {
      var resX := landscape.componentResolution.x;
      var resY := landscape.componentResolution.y;
      result := [];
      var y := 0;
      while y < resY
        invariant 0 <= y <= NonNeg(resY)
        invariant result == TriangleList(resX, KeptQuads(resX, holeIndices, y))
      {
        var x := 0;
        assert KeptQuads(resX, holeIndices, y) + KeptInRow(resX, holeIndices, y, 0) == KeptQuads(resX, holeIndices, y);
        while x < resX
          invariant 0 <= x <= NonNeg(resX)
          invariant result == TriangleList(resX, KeptQuads(resX, holeIndices, y) + KeptInRow(resX, holeIndices, y, x))
        {
          var t1 := y * (resX + 1) + x;
          var t2 := t1 + resX + 1;
          var t3 := t1 + 1;
          QuadStep(resX, holeIndices, y, x, t1, t2, t3);
          if holeIndices.Some? && (t1 in holeIndices.value || t2 in holeIndices.value || t3 in holeIndices.value
                                   || t2 + 1 in holeIndices.value) {
            x := x + 1;
            continue;
          }
          // the upper-left and the lower-right triangle
          result := result + [t1, t2, t3];
          result := result + [t3, t2, t2 + 1];
          x := x + 1;
        }
        y := y + 1;
      }
    }

    /** Every vertex row has its runner queued: runner y covers row y, starting at its first vertex */
    predicate RowsQueued()
      reads this, additionalDataRunners
    {
      forall y :: 0 <= y < |additionalDataRunners| ==>
        additionalDataRunners[y].yCoordinate == y &&
        additionalDataRunners[y].startIndex == RowStart(landscape.componentResolution.x, y) &&
        additionalDataRunners[y].uv1Offset == dataBuffer.uv1Offset
    }

    /** InitializeBuffer */
    method InitializeBuffer()
      requires landscape.Valid()
      modifies this`dataBuffer
      ensures dataBuffer == InitialBuffer(landscape)
    {
      var vertexAmount := landscape.TotalVertexAmountPerComponent();
      var buffer := EmptyBuffer;
      buffer := buffer.(heightValues := seq(vertexAmount, _ => 0.0),
                        verticesRelative := seq(vertexAmount, _ => Vec3(0.0, 0.0, 0.0)),
                        uv0Coords := seq(vertexAmount, _ => Vec2(0.0, 0.0)),
                        uv1Coords := seq(vertexAmount, _ => Vec2(0.0, 0.0)));
      // every vertex starts with empty grass data
      var additionalData: seq<AdditionalData> := [];
      var i := 0;
      while i < vertexAmount
        invariant 0 <= i <= vertexAmount
        invariant additionalData == seq(i, _ => Cleared)
      {
        additionalData := additionalData + [Cleared];
        i := i + 1;
      }
      var triangles := GenerateTriangleArray(None);
      dataBuffer := buffer.(additionalData := additionalData, triangles := triangles);
    }

    /** InitializeGenerationCache */
    method InitializeGenerationCache()
      requires landscape.Valid()
      modifies this`generationDataCache
      ensures generationDataCache == CacheFor(landscape)
    {
      generationDataCache := GenerationDataCache(
        Vec2(1.0 / landscape.componentAmount.x as real, 1.0 / landscape.componentAmount.y as real),
        landscape.quadSideLength, 1.0 / landscape.componentResolution.x as real);
    }

    /** InitializeRunners: one new vegetation runner per vertex row */
    method InitializeRunners()
      requires landscape.Valid() && |additionalDataRunners| == 0
      modifies this`additionalDataRunners
      ensures RunnersValid() && |additionalDataRunners| == landscape.componentResolution.y + 1
      ensures forall i :: 0 <= i < |additionalDataRunners| ==> fresh(additionalDataRunners[i])
    {
      var i := 0;
      while i < landscape.componentResolution.y + 1
        invariant 0 <= i <= landscape.componentResolution.y + 1 && |additionalDataRunners| == i
        invariant forall j :: 0 <= j < i ==> additionalDataRunners[j].rebuildManager == this && fresh(additionalDataRunners[j])
        invariant forall j, k :: 0 <= j < k < i ==> additionalDataRunners[j] != additionalDataRunners[k]
      {
        var runner := new AdditionalVertexDataWorker(this);
        additionalDataRunners := additionalDataRunners + [runner];
        i := i + 1;
      }
    }

    /** Initialize: the setup runs only while there are no runners */
    method Initialize()
      requires Valid()
      modifies this`dataBuffer, this`generationDataCache, this`additionalDataRunners
      ensures Valid() && State() == InitializeSpec(landscape, old(State()))
      ensures old(|additionalDataRunners|) > 0 ==> additionalDataRunners == old(additionalDataRunners)
      ensures forall i :: 0 <= i < |additionalDataRunners| ==>
        additionalDataRunners[i] in old(additionalDataRunners) || fresh(additionalDataRunners[i])
    {
      if |additionalDataRunners| == 0 {
        InitializeBuffer();
        InitializeGenerationCache();
        InitializeRunners();
        InitializeKeepsValid(landscape, old(State()));
      }
    }

    /**
     * StartRebuild of the current tile; started says whether its heights
     * were accepted, after which the tile's layers are applied to them.
     */
    method StartRebuild(initialHeights: seq<real>) returns (started: bool)
      requires Valid() && currentComponent.Some?
      modifies this`dataBuffer, this`generationDataCache, this`additionalDataRunners, this`activeRunners, this`tickEnabled
      ensures Valid() && State() == StartRebuildSpec(landscape, old(State()), initialHeights)
      ensures started <==> |initialHeights| == landscape.TotalVertexAmountPerComponent()
      ensures old(|additionalDataRunners|) > 0 ==> additionalDataRunners == old(additionalDataRunners)
      ensures forall i :: 0 <= i < |additionalDataRunners| ==>
        additionalDataRunners[i] in old(additionalDataRunners) || fresh(additionalDataRunners[i])
    {
      Initialize();
      started := StartInitializedRebuild(initialHeights);
    }

    /** The part of StartRebuild after initialization, which then changes nothing */
    method StartInitializedRebuild(initialHeights: seq<real>) returns (started: bool)
      requires Valid() && currentComponent.Some? && |additionalDataRunners| > 0
      modifies this`dataBuffer, this`activeRunners, this`tickEnabled
      ensures Valid() && State() == StartRebuildSpec(landscape, old(State()), initialHeights)
      ensures started <==> |initialHeights| == landscape.TotalVertexAmountPerComponent()
    {
      StartRebuildKeepsValid(landscape, State(), initialHeights);
      var sectionCoordinates := landscape.ComponentCoordinates(currentComponent.value);
      dataBuffer := dataBuffer.(uv1Offset := Vec2(generationDataCache.uv1Scale.x * sectionCoordinates.x as real,
                                                  generationDataCache.uv1Scale.y * sectionCoordinates.y as real));
      // the tile's heights must match its vertex count
      if |initialHeights| != landscape.TotalVertexAmountPerComponent() {
        return false;
      }
      dataBuffer := dataBuffer.(rebuildState := BuildVertices, heightValues := initialHeights);
      activeRunners := 1;
      tickEnabled := true;
      started := true;
    }

    /** QueueRebuild, given each tile's initial heights */
    method QueueRebuild(componentToRebuild: int, initialHeightsOf: int -> seq<real>) returns (started: bool)
      requires Valid()
      modifies this
      ensures Valid() && State() == QueueRebuildSpec(landscape, old(State()), componentToRebuild, initialHeightsOf)
      ensures started <==> (old(currentComponent).None? &&
                            |initialHeightsOf(componentToRebuild)| == landscape.TotalVertexAmountPerComponent())
      ensures forall i :: 0 <= i < |additionalDataRunners| ==>
        additionalDataRunners[i] in old(additionalDataRunners) || fresh(additionalDataRunners[i])
    {
      if currentComponent.Some? {
        rebuildQueue := AddUnique(rebuildQueue, componentToRebuild);
        started := false;
      } else {
        currentComponent := Some(componentToRebuild);
        started := StartRebuild(initialHeightsOf(componentToRebuild));
      }
    }

    /** RebuildNextInQueue: Pop takes the last queued tile */
    method RebuildNextInQueue(initialHeightsOf: int -> seq<real>) returns (started: bool)
      requires Valid()
      modifies this
      ensures Valid() && State() == RebuildNextSpec(landscape, old(State()), initialHeightsOf)
      ensures started <==> (|old(rebuildQueue)| > 0 &&
        |initialHeightsOf(old(rebuildQueue)[|old(rebuildQueue)| - 1])| == landscape.TotalVertexAmountPerComponent())
      ensures old(|additionalDataRunners|) > 0 ==> additionalDataRunners == old(additionalDataRunners)
      ensures forall i :: 0 <= i < |additionalDataRunners| ==>
        additionalDataRunners[i] in old(additionalDataRunners) || fresh(additionalDataRunners[i])
    {
      if |rebuildQueue| == 0 {
        currentComponent := None;
        tickEnabled := false;
        started := false;
      } else {
        var next := rebuildQueue[|rebuildQueue| - 1];
        rebuildQueue := rebuildQueue[..|rebuildQueue| - 1];
        currentComponent := Some(next);
        started := StartRebuild(initialHeightsOf(next));
      }
    }

    /** CancelRebuild */
    method CancelRebuild()
      requires Valid()
      modifies this`currentComponent, this`activeRunners, this`tickEnabled
      ensures Valid() && State() == CancelSpec(old(State()))
    {
      currentComponent := None;
      activeRunners := 0;
      tickEnabled := false;
    }

    /** NotifyRunnerFinished of a vegetation runner, which runs only in the vegetation phase */
    method NotifyRunnerFinished()
      requires Valid() && dataBuffer.rebuildState == BuildAdditionalData
      modifies this`activeRunners
      ensures Valid() && State() == NotifySpec(old(State()))
    {
      TransitionsKeepPhaseInputs(landscape, State(), 0, _ => [], [], [], [], []);
      activeRunners := activeRunners - 1;
    }

    /**
     * What the vertex runner hands back: the tile's relative vertices, UVs
     * and a normal per vertex, followed by its finish notification.
     */
    method FinishVertexRunner(vertices: seq<Vec3>, uv0: seq<Vec2>, uv1: seq<Vec2>, normals: seq<Vec3>)
      requires Valid() && |additionalDataRunners| > 0
      requires |vertices| == |uv0| == |uv1| == |normals| == landscape.TotalVertexAmountPerComponent()
      modifies this`dataBuffer, this`activeRunners
      ensures Valid() && State() == VertexRunnerFinishedSpec(old(State()), vertices, uv0, uv1, normals)
    {
      VertexRunnerFinishedKeepsValid(landscape, State(), vertices, uv0, uv1, normals);
      TransitionsKeepPhaseInputs(landscape, State(), 0, _ => [], vertices, uv0, uv1, normals);
      dataBuffer := dataBuffer.(verticesRelative := vertices, uv0Coords := uv0, uv1Coords := uv1, normals := normals);
      activeRunners := activeRunners - 1;
    }

    /** StartGenerateAdditionalData: row y's runner is queued with the row's first vertex */
    method StartGenerateAdditionalData()
      requires Valid() && dataBuffer.rebuildState != Idle
      requires |dataBuffer.normals| == landscape.TotalVertexAmountPerComponent()
      modifies this`dataBuffer, this`activeRunners, additionalDataRunners
      ensures Valid() && State() == StartGenerateAdditionalDataSpec(landscape, old(State()))
      ensures additionalDataRunners == old(additionalDataRunners) && RowsQueued()
    {
      dataBuffer := dataBuffer.(rebuildState := BuildAdditionalData);
      activeRunners := landscape.componentResolution.y + 1;
      QueueRowRunners();
    }

    /** The loop of StartGenerateAdditionalData: row y's runner gets row y's first vertex and the tile's UV1 offset */
    method QueueRowRunners()
      requires landscape.Valid() && RunnersValid() && |additionalDataRunners| == landscape.componentResolution.y + 1
      modifies additionalDataRunners
      ensures RowsQueued()
    {
      var vertexIndex := 0;
      var y := 0;
      while y < landscape.componentResolution.y + 1
        invariant 0 <= y <= landscape.componentResolution.y + 1 == |additionalDataRunners|
        invariant vertexIndex == RowStart(landscape.componentResolution.x, y)
        invariant forall j :: 0 <= j < y ==>
          additionalDataRunners[j].yCoordinate == j &&
          additionalDataRunners[j].startIndex == RowStart(landscape.componentResolution.x, j) &&
          additionalDataRunners[j].uv1Offset == dataBuffer.uv1Offset
        modifies additionalDataRunners
      {
        additionalDataRunners[y].QueueWork(y, vertexIndex, dataBuffer.uv1Offset);
        vertexIndex := vertexIndex + landscape.componentResolution.x + 1;
        y := y + 1;
      }
    }

    /**
     * TickComponent, run while ticking is on. When the vegetation phase has
     * finished, finished names the finished tile and finishedBuffer is the
     * buffer it is to be finished with; started says whether a next tile was
     * started.
     */
    method TickComponent(initialHeightsOf: int -> seq<real>)
      returns (finished: Option<int>, finishedBuffer: RebuildBuffer, started: bool)
      requires Valid() && tickEnabled
      modifies this, additionalDataRunners
      ensures Valid() && State() == TickSpec(landscape, old(State()), initialHeightsOf)
      ensures finished == (if old(activeRunners) < 1 && old(dataBuffer.rebuildState) == BuildAdditionalData
                           then old(currentComponent) else None)
      ensures finishedBuffer == old(dataBuffer)
      ensures started <==> (finished.Some? && |old(rebuildQueue)| > 0 &&
        |initialHeightsOf(old(rebuildQueue)[|old(rebuildQueue)| - 1])| == landscape.TotalVertexAmountPerComponent())
      ensures old(activeRunners) < 1 && old(dataBuffer.rebuildState) == BuildVertices ==> RowsQueued()
    {
      finished, finishedBuffer, started := None, dataBuffer, false;
      if activeRunners < 1 {
        match dataBuffer.rebuildState
        case BuildVertices =>
          StartGenerateAdditionalData();
        case BuildAdditionalData =>
          finished := currentComponent;
          started := RebuildNextInQueue(initialHeightsOf);
        case Idle =>
          assert false;
      }
    }
  }

  class AdditionalVertexDataWorker {
    var yCoordinate: int
    var startIndex: int
    var uv1Offset: Vec2
    const rebuildManager: RebuildManager

    constructor(rebuildManager: RebuildManager)
      ensures this.rebuildManager == rebuildManager
      ensures yCoordinate == 0 && startIndex == 0 && uv1Offset == Vec2(0.0, 0.0)
    {
      this.rebuildManager := rebuildManager;
      yCoordinate := 0;
      startIndex := 0;
      uv1Offset := Vec2(0.0, 0.0);
    }

    /** QueueWork: remember the row, its first vertex and the tile's UV1 offset */
    method QueueWork(y: int, vertexStartIndex: int, inUV1Offset: Vec2)
      modifies this
      ensures yCoordinate == y && startIndex == vertexStartIndex && uv1Offset == inUV1Offset
    {
      yCoordinate := y;
      startIndex := vertexStartIndex;
      uv1Offset := inUV1Offset;
    }

    /** Abandon cancels the manager's rebuild */
    method Abandon()
      requires rebuildManager.Valid()
      modifies rebuildManager`currentComponent, rebuildManager`activeRunners, rebuildManager`tickEnabled
      ensures rebuildManager.Valid() && rebuildManager.State() == CancelSpec(old(rebuildManager.State()))
    {
      rebuildManager.CancelRebuild();
    }

    /** GenerateGrassDataForVertex: the grass data of the x-th vertex of this runner's row */
    method GenerateGrassDataForVertex(vertexIndex: int, x: int, inputs: VegetationInputs)
      requires rebuildManager.landscape.Valid()
      requires 0 <= vertexIndex < |rebuildManager.dataBuffer.additionalData|
      requires yCoordinate != 0 && x != 0 ==>
        (rebuildManager.currentComponent.Some? &&
         vertexIndex < |rebuildManager.dataBuffer.verticesRelative| && vertexIndex < |rebuildManager.dataBuffer.normals|)
      modifies rebuildManager`dataBuffer
      ensures var b := old(rebuildManager.dataBuffer);
        rebuildManager.dataBuffer == b.(additionalData := b.additionalData[vertexIndex :=
          VertexData(rebuildManager.landscape, inputs, b.verticesRelative, b.normals, rebuildManager.currentComponent,
                     vertexIndex, x, yCoordinate)])
    {
      var manager := rebuildManager;
      var data := GrassDataForVertex(vertexIndex, x, inputs);
      manager.dataBuffer := manager.dataBuffer.(additionalData := manager.dataBuffer.additionalData[vertexIndex := data]);
    }

    /** The value GenerateGrassDataForVertex stores: cleared, then the selected grass's transforms if there is one */
    method GrassDataForVertex(vertexIndex: int, x: int, inputs: VegetationInputs) returns (data: AdditionalData)
      requires rebuildManager.landscape.Valid()
      requires yCoordinate != 0 && x != 0 ==>
        (rebuildManager.currentComponent.Some? &&
         0 <= vertexIndex < |rebuildManager.dataBuffer.verticesRelative| && vertexIndex < |rebuildManager.dataBuffer.normals|)
      ensures var b := rebuildManager.dataBuffer;
        data == VertexData(rebuildManager.landscape, inputs, b.verticesRelative, b.normals, rebuildManager.currentComponent,
                           vertexIndex, x, yCoordinate)
    {
      var manager := rebuildManager;
      data := Cleared;
      // the first row and column repeat the neighbouring tile's last row and column
      if yCoordinate == 0 || x == 0 {
        return;
      }
      var weights := GroundTypeLayerWeightsAtVertexCoordinates(manager.landscape, inputs.layerSets,
                                                               manager.currentComponent.value, x, yCoordinate);
      var highestWeight, selectedGrass := SelectGroundType(weights);
      // without a ground type, fall back to the height bands
      if selectedGrass.None? {
        var vertexHeight := manager.dataBuffer.verticesRelative[vertexIndex].Add(inputs.componentLocation).z;
        selectedGrass := SelectHeightBand(inputs.heightBands, vertexHeight);
        if selectedGrass.Some? {
          highestWeight := 1.0;
        }
      }
      if selectedGrass.Some? {
        var slope := inputs.slopeOf(manager.dataBuffer.normals[vertexIndex]);
        var site := VertexSite(manager.dataBuffer.verticesRelative[vertexIndex], slope.roll, slope.pitch,
                               inputs.areaPerSquare, manager.landscape.quadSideLength);
        data := GrassTransformsAtVertex(selectedGrass.value, site, highestWeight, inputs.draws(vertexIndex));
      }
    }

    /**
     * DoThreadedWork of a runner queued for row y of the vegetation phase:
     * every vertex of the row, then the finish notification.
     */
    method DoThreadedWork(inputs: VegetationInputs)
      requires rebuildManager.Valid() && rebuildManager.dataBuffer.rebuildState == BuildAdditionalData
      requires 0 <= yCoordinate <= rebuildManager.landscape.componentResolution.y
      requires startIndex == RowStart(rebuildManager.landscape.componentResolution.x, yCoordinate)
      requires yCoordinate != 0 ==> rebuildManager.currentComponent.Some?
      modifies rebuildManager`dataBuffer, rebuildManager`activeRunners
      ensures rebuildManager.Valid() && rebuildManager.activeRunners == old(rebuildManager.activeRunners) - 1
      ensures var b, e := old(rebuildManager.dataBuffer), startIndex + rebuildManager.landscape.componentResolution.x + 1;
        e <= |b.additionalData| && e <= |b.verticesRelative| && e <= |b.normals| &&
        rebuildManager.dataBuffer == b.(additionalData := RowData(rebuildManager.landscape, inputs, b,
          rebuildManager.currentComponent, startIndex, yCoordinate, rebuildManager.landscape.componentResolution.x + 1))
    {
      var manager := rebuildManager;
      VegetationRowInputsSized(manager.landscape, manager.State(), yCoordinate);
      GenerateRow(inputs);
      manager.NotifyRunnerFinished();
    }

    /** The loop of DoThreadedWork: the vertices of the row, left to right */
    method GenerateRow(inputs: VegetationInputs)
      requires rebuildManager.Valid()
      requires var b := rebuildManager.dataBuffer; var w := rebuildManager.landscape.componentResolution.x + 1;
        0 <= startIndex && startIndex + w <= |b.additionalData| &&
        (yCoordinate != 0 ==>
          (rebuildManager.currentComponent.Some? && startIndex + w <= |b.verticesRelative| && startIndex + w <= |b.normals|))
      modifies rebuildManager`dataBuffer
      ensures rebuildManager.Valid()
      ensures var b := old(rebuildManager.dataBuffer);
        rebuildManager.dataBuffer == b.(additionalData := RowData(rebuildManager.landscape, inputs, b,
          rebuildManager.currentComponent, startIndex, yCoordinate, rebuildManager.landscape.componentResolution.x + 1))
    {
      var manager := rebuildManager;
      ghost var b := manager.dataBuffer;
      ghost var current := manager.currentComponent;
      var g, y, start := manager.landscape, yCoordinate, startIndex;
      var w := g.componentResolution.x + 1;
      var vertexIndex := start;
      var x := 0;
      while x < w
        invariant 0 <= x <= w && vertexIndex == start + x
        invariant manager.currentComponent == current
        invariant manager.dataBuffer == b.(additionalData := RowData(g, inputs, b, current, start, y, x))
      {
        GenerateGrassDataForVertex(vertexIndex, x, inputs);
        vertexIndex := vertexIndex + 1;
        x := x + 1;
      }
      AdditionalDataKeepsValid(manager.landscape, old(manager.State()), manager.dataBuffer.additionalData);
    }
  }
}
