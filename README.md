# RuntimeEditableLandscape in Dafny

This project models the bookkeeping core of the Unreal plugin
RuntimeEditableLandscape and proves properties of it. The plugin splits a
landscape into a grid of square tiles (runtime landscape components). Layer
components (holes, height and colour changes) are placed on the landscape,
and each tile they touch is queued for a rebuild. A rebuild manager rebuilds
one tile at a time:

1. It fills a shared rebuild buffer with the tile's heights, after the tile
   has applied its layers.
2. A vertex phase fills the vertex data.
3. A vegetation phase runs one worker per vertex row and picks the grass of
   each vertex.
4. The tile then builds its mesh section and its grass instances from the
   buffer.

The modules follow the plugin's classes:

| file | module | models |
|---|---|---|
| `engine_types.dfy` | `EngineTypes` | FVector2D/FVector, FBox2D, FColor/FLinearColor, TArray search, TMap as an insertion-ordered entry list |
| `grid.dfy` | `Grid` | the grid arithmetic of `ARuntimeLandscape`: tile and vertex coordinates, tile bounds, `GetComponentsInArea` |
| `ground_types.dfy` | `GroundTypes` | `FRuntimeLandscapeGroundTypeLayerSet` and the ground-type weight lookup |
| `layers.dfy` | `LandscapeLayers` | `ULandscapeLayerComponent`: shape, smoothing offsets, smoothing factors, `ApplyLayerData` |
| `triangles.dfy` | `Triangles` | the specification of `GenerateTriangleArray` |
| `grass.dfy`, `vegetation.dfy` | `Grass`, `Vegetation` | grass settings, the per-vertex grass choice and instance generation |
| `rebuild.dfy` | `Rebuild` | `URuntimeLandscapeRebuildManager`, its buffer and the vegetation row worker |
| `runtime_landscape.dfy` | `Landscape` | `URuntimeLandscapeComponent` and `ARuntimeLandscape`'s layer add/remove and tick glue |

Modelling choices:

- **Tiles.** Tiles are named by their index, so the manager's current tile is
  an `Option<int>`.
- **The rebuild manager.** It is a class whose fields are the source's
  fields. Each operation is proved against a specification function on a
  `ManagerState` value (`QueueRebuildSpec`, `TickSpec`, …). The lemmas are
  about those functions.
- **Worker completion.** Each finished row runner is an explicit
  `NotifyRunnerFinished` call, and the vertex runner's finish is
  `FinishVertexRunner`, so the thread pool becomes a counter. The manager's
  invariant also records that the vertex phase leaves a normal per vertex
  for the vegetation phase.
- **Engine services become parameters.** These are the square root, the
  owner's transform, the random draws, the slope angles and the layer data
  objects' `ApplyToVertices`.
- **Floats.** Lengths, weights and factors are `real`.

Where the design description and the code differ, the model follows the code:

- `GetComponentsInArea` takes a tile when `column * size <= max.x` and
  `min.x < (column + 1) * size`. This is half-open on the minimum side, not
  a closed overlap.
- `GetVertexCoordinatesWithinComponent` takes the remainder by the vertex
  count along X but divides by the count along Y. It round-trips only on
  square tiles.
- `FLinearColor::Black` has alpha 1. `FBox2D::IsInside` is strict on all
  four sides. `FMath::Clamp` lets the lower bound win when the bounds cross.

## Model

| member | source | states |
|---|---|---|
| Grid.TruncatedRemainder | Source/RuntimeEditableLandscape/Private/RuntimeLandscape.cpp:278 | C++ `%` truncates toward zero: the remainder lies in [0, b) for a nonnegative dividend and in (-b, 0] otherwise |
| Grid.LandscapeGrid.TotalVertexAmountPerComponent | Source/RuntimeEditableLandscape/Public/RuntimeLandscape.h:132-135 | a tile has (ResX+1)*(ResY+1) vertices, at least 4 |
| Grid.LandscapeGrid.ComponentCoordinates | Source/RuntimeEditableLandscape/Private/RuntimeLandscape.cpp:276-280 | for a nonnegative id the column is below W, the row is nonnegative, and row*W + column is the id |
| Grid.LandscapeGrid.ComponentCoordinatesInGrid | Source/RuntimeEditableLandscape/Private/RuntimeLandscape.cpp:276-280 | the id of a tile of the landscape has its row below H |
| Grid.LandscapeGrid.ComponentIdRoundTrip | Source/RuntimeEditableLandscape/Private/RuntimeLandscape.cpp:276-280 | the coordinates of id row*W + column are (column, row) |
| Grid.LandscapeGrid.VertexCoordinatesWithinComponent | Source/RuntimeEditableLandscape/Private/RuntimeLandscape.cpp:282-287 | remainder by VX and quotient by VY: x below VX and y nonnegative for a nonnegative vertex id |
| Grid.LandscapeGrid.VertexCoordinatesSquareRoundTrip | Source/RuntimeEditableLandscape/Private/RuntimeLandscape.cpp:282-287 | on a square tile, the local coordinates of a vertex id map back to the id, with y inside the tile |
| Grid.LandscapeGrid.VertexIdSquareRoundTrip | Source/RuntimeEditableLandscape/Private/RuntimeLandscape.cpp:282-287 | on a square tile, vertex (x, y) has id y*VX + x and maps back to (x, y) |
| Grid.LandscapeGrid.VertexCoordinatesWithinLandscape | Source/RuntimeEditableLandscape/Private/RuntimeLandscape.cpp:289-298 | global vertex = ComponentResolution * tile coordinates + local vertex |
| Grid.LandscapeGrid.LandscapeVertexInRaster | Source/RuntimeEditableLandscape/Private/RuntimeLandscape.cpp:289-298 | every vertex of every tile falls on the (W*ResX+1) x (H*ResY+1) raster of the landscape |
| Grid.LandscapeGrid.RightNeighbourSharesVertices | Source/RuntimeEditableLandscape/Private/RuntimeLandscape.cpp:296-297 | a tile's last vertex column is the first vertex column of its right neighbour |
| Grid.LandscapeGrid.LowerNeighbourSharesVertices | Source/RuntimeEditableLandscape/Private/RuntimeLandscape.cpp:296-297 | a tile's last vertex row is the first vertex row of the tile below it |
| Grid.LandscapeGrid.SectionSizeOfCoveringTiles | Source/RuntimeEditableLandscape/Private/RuntimeLandscape.cpp:312 | when the tiles cover the extent, LandscapeSize / ComponentAmount is the tile size on both axes |
| Grid.LandscapeGrid.ComponentBounds | Source/RuntimeEditableLandscape/Private/RuntimeLandscape.cpp:310-319 | a tile's bounds are one section size wide and high |
| Grid.LandscapeGrid.ComponentBoundsInsideLandscape | Source/RuntimeEditableLandscape/Private/RuntimeLandscape.cpp:310-319 | the bounds of every tile lie inside [0, LandscapeSize] |
| Grid.LandscapeGrid.RightNeighbourSharesEdge | Source/RuntimeEditableLandscape/Private/RuntimeLandscape.cpp:316-318 | a tile and its right neighbour share their vertical edge and span the same rows |
| Grid.LandscapeGrid.LowerNeighbourSharesEdge | Source/RuntimeEditableLandscape/Private/RuntimeLandscape.cpp:316-318 | a tile and the tile below share their horizontal edge and span the same columns |
| Grid.LandscapeGrid.AreaRangeProper | Source/RuntimeEditableLandscape/Private/RuntimeLandscape.cpp:247-251 | for an area not rejected, the clamped column and row ranges lie in the grid and are at most one short of empty |
| Grid.LandscapeGrid.ColumnInRange | Source/RuntimeEditableLandscape/Private/RuntimeLandscape.cpp:247-248 | a column is in the clamped range iff it is in the grid and overlaps the area along X |
| Grid.LandscapeGrid.RowInRange | Source/RuntimeEditableLandscape/Private/RuntimeLandscape.cpp:250-251 | a row is in the clamped range iff it is in the grid and overlaps the area along Y |
| Grid.LandscapeGrid.TileInRangeIffMeets | Source/RuntimeEditableLandscape/Private/RuntimeLandscape.cpp:247-251 | a tile lies in the clamped rectangle iff it meets the area on both axes |
| Grid.LandscapeGrid.ComponentsInAreaMembership | Source/RuntimeEditableLandscape/Private/RuntimeLandscape.cpp:232-274 | a tile is returned iff the area is not strictly beyond an edge, the tile is in the landscape and it meets the area |
| Grid.LandscapeGrid.ComponentsInAreaOrdered | Source/RuntimeEditableLandscape/Private/RuntimeLandscape.cpp:263-270 | the result is strictly increasing: row-major order, no tile twice |
| Grid.LandscapeGrid.ComponentsInAreaCount | Source/RuntimeEditableLandscape/Private/RuntimeLandscape.cpp:254-272 | the result has ExpectedAmount tiles, or none when that is not positive |
| Grid.LandscapeGrid.AreaTouchingFarEdge | Source/RuntimeEditableLandscape/Private/RuntimeLandscape.cpp:236-241 | an area starting exactly at the far X edge is not rejected, yet no tile is returned |
| Grid.LandscapeGrid.AreaTouchingNearEdge | Source/RuntimeEditableLandscape/Private/RuntimeLandscape.cpp:236-241 | an area ending exactly at the near X edge is not rejected and returns the first-column tile of each row it meets |
| Grid.LandscapeGrid.NearEdgeRange | Source/RuntimeEditableLandscape/Private/RuntimeLandscape.cpp:247-251 | such an area clamps to the first column and to rows including each row it meets |
| Grid.LandscapeGrid.NearEdgeInside | Source/RuntimeEditableLandscape/Private/RuntimeLandscape.cpp:236-238 | an area ending at the near X edge and meeting a row passes the early rejection |
| Grid.TileRange.ExpectedAmountPositive | Source/RuntimeEditableLandscape/Private/RuntimeLandscape.cpp:254-259 | the expected amount of a proper range is positive iff neither the column nor the row range is empty |
| Grid.TileRange.SelectedMembership | Source/RuntimeEditableLandscape/Private/RuntimeLandscape.cpp:263-270 | a tile is collected iff it lies in the grid and in the range |
| Grid.TileRange.FirstColumnSelected | Source/RuntimeEditableLandscape/Private/RuntimeLandscape.cpp:263-270 | with only column 0 in range, the first tile of every row in range is collected |
| Grid.ComponentsInArea | Source/RuntimeEditableLandscape/Private/RuntimeLandscape.cpp:232-274 | the nested row/column loop returns exactly the specified tile list |
| GroundTypes.LayerSet.PixelIndexRoundTrip | Source/RuntimeEditableLandscape/Private/RuntimeLandscape.cpp:34-39 | pixel index X + Y*SizeX gives back X and Y by remainder and quotient |
| GroundTypes.LayerSet.PixelIndexInjective | Source/RuntimeEditableLandscape/Private/RuntimeLandscape.cpp:34-39 | distinct coordinates within the target width have distinct pixel indices |
| GroundTypes.LayerSet.ColorChannelMatchesReadBack | Source/RuntimeEditableLandscape/Public/RuntimeLandscape.h:58-79 | slot i < 4 (first occurrence) is drawn with the unit colour of channel i, the channel the weight lookup reads back for it |
| GroundTypes.LayerSet.ColorChannelForMissingLayer | Source/RuntimeEditableLandscape/Public/RuntimeLandscape.h:58-79 | a ground type not in the set is drawn with FLinearColor::Black |
| GroundTypes.NewLayerSet | Source/RuntimeEditableLandscape/Public/RuntimeLandscape.h:38-42 | a new layer set has exactly four null slots, no render target and no weights |
| GroundTypes.LayerSetForGroundType | Source/RuntimeEditableLandscape/Public/RuntimeLandscape.h:157-169 | the result is the first set holding the ground type, and None iff no set holds it |
| GroundTypes.SlotWeight | Source/RuntimeEditableLandscape/Private/RuntimeLandscape.cpp:221 | a channel byte divided by 255 lies in [0, 1] |
| GroundTypes.SlotWeightsLookup | Source/RuntimeEditableLandscape/Private/RuntimeLandscape.cpp:201-224 | after the slot loop a slot's weight is the channel of its last position; other keys keep their earlier weight |
| GroundTypes.SlotWeightsInUnitRange | Source/RuntimeEditableLandscape/Private/RuntimeLandscape.cpp:201-224 | the slot loop keeps every stored weight in [0, 1] |
| GroundTypes.LayerWeightsInUnitRange | Source/RuntimeEditableLandscape/Private/RuntimeLandscape.cpp:192-227 | every weight the lookup over the layer sets stores is in [0, 1] |
| GroundTypes.GroundTypeLayerWeightsAtVertexCoordinates | Source/RuntimeEditableLandscape/Private/RuntimeLandscape.cpp:184-230 | the nested loop builds exactly the specified weight map at the vertex's landscape coordinates |
| LandscapeLayers.ClampWithin | Source/RuntimeEditableLandscape/Private/LandscapeLayerComponent.cpp:138 | a clamp with ordered bounds lies between them and leaves a value already between them unchanged |
| LandscapeLayers.SmoothingOffsetsRules | Source/RuntimeEditableLandscape/Private/LandscapeLayerComponent.cpp:114-139 | the (inner, bounds) offsets are (S, 0) inwards, (0, S) outwards and (S/2, S/2) centred. The inner offset is clamped into [0, radius or smaller extent - 0.001], and the two never exceed S |
| LandscapeLayers.InnerBoxIsProper | Source/RuntimeEditableLandscape/Private/LandscapeLayerComponent.cpp:156-157 | a box layer's inner box (extent narrowed by the inner offset) is proper when the extent is at least the margin |
| LandscapeLayers.OffsetsGiveRingDistance | Source/RuntimeEditableLandscape/Private/LandscapeLayerComponent.cpp:214 | with the offsets of UpdateShape the source's check SmoothingDistance > 0 holds wherever the ring is reached |
| LandscapeLayers.SphereFactorInUnitRange | Source/RuntimeEditableLandscape/Private/LandscapeLayerComponent.cpp:197-221 | with the offsets of UpdateShape, a round layer rejects only points with d² ≥ (R+bounds)². Otherwise the factor is in [0, 1], as the source checks, and positive only in the ring |
| LandscapeLayers.BoxFactorRules | Source/RuntimeEditableLandscape/Private/LandscapeLayerComponent.cpp:186-194 | a box layer rejects a point iff its squared distance to the inner box is ≥ S², so always when S = 0. Otherwise the factor is in [0, 1) and is 0 iff the distance is 0 |
| LandscapeLayers.BoxFullEffectInside | Source/RuntimeEditableLandscape/Private/LandscapeLayerComponent.cpp:186-193 | on a proper inner box the full effect (factor 0) happens exactly inside the closed box |
| LandscapeLayers.LayerComponent.constructor | Source/RuntimeEditableLandscape/Public/LandscapeLayerComponent.h:38-92 | defaults: inwards smoothing over 200, box shape, radius 100, extent 100, empty boxes, zero offsets |
| LandscapeLayers.LayerComponent.UpdateShape | Source/RuntimeEditableLandscape/Private/LandscapeLayerComponent.cpp:105-158 | without a location nothing changes. Otherwise the offsets and boxes become ShapeBounds: a round layer keeps its inner box, and a box layer narrows it by the inner offset |
| LandscapeLayers.LayerComponent.SmoothingOffsetsOf | Source/RuntimeEditableLandscape/Private/LandscapeLayerComponent.cpp:114-139 | the switch on the direction followed by the clamp computes SmoothingOffsets |
| LandscapeLayers.LayerComponent.SetBoxes | Source/RuntimeEditableLandscape/Private/LandscapeLayerComponent.cpp:141-157 | the bounding box (and for a box layer the inner box) around the origin, from the stored offsets |
| LandscapeLayers.LayerComponent.OnRegister | Source/RuntimeEditableLandscape/Public/LandscapeLayerComponent.h:119-123 | OnRegister has exactly the effect of UpdateShape |
| LandscapeLayers.LayerComponent.UnaffectedVertexUnchanged | Source/RuntimeEditableLandscape/Private/LandscapeLayerComponent.cpp:61-84 | outside the bounding box, or where the smoothing rejects the point, height and colour stay and no hole flag is set |
| LandscapeLayers.LayerComponent.ApplyLayerData | Source/RuntimeEditableLandscape/Private/LandscapeLayerComponent.cpp:61-84 | the loop applies the non-null layer data objects in order with one smoothing factor, as LayerDataResult specifies |
| Triangles.TriangleArrayEmptyHoles | Source/RuntimeEditableLandscape/Private/Threads/RuntimeLandscapeRebuildManager.cpp:78-99 | an empty hole set gives the same triangles as no hole set |
| Triangles.TrianglesCount | Source/RuntimeEditableLandscape/Private/Threads/RuntimeLandscapeRebuildManager.cpp:101-109 | every drawn quad contributes exactly six entries |
| Triangles.TrianglesLayout | Source/RuntimeEditableLandscape/Private/Threads/RuntimeLandscapeRebuildManager.cpp:101-109 | entries 6i..6i+5 are T1, T2, T3, T3, T2, T2+1 of the i-th drawn quad |
| Triangles.KeptQuadsMembership | Source/RuntimeEditableLandscape/Private/Threads/RuntimeLandscapeRebuildManager.cpp:87-99 | a quad is drawn iff it lies in the tile and no hole set given holds one of its corners |
| Triangles.KeptQuadsIncreasing | Source/RuntimeEditableLandscape/Private/Threads/RuntimeLandscapeRebuildManager.cpp:87-90 | the drawn quads are in row-major order |
| Triangles.TriangleArrayWithoutHoles | Source/RuntimeEditableLandscape/Private/Threads/RuntimeLandscapeRebuildManager.cpp:87-110 | without holes the length is ResX*ResY*6 and entries 6(y*ResX+x)+k are the k-th corner of quad (x, y) |
| Triangles.TriangleEntryWithoutHoles | Source/RuntimeEditableLandscape/Private/Threads/RuntimeLandscapeRebuildManager.cpp:91-109 | the same for one quad and one corner, with the index in range |
| Triangles.QuadDrawnIffNoHoleCorner | Source/RuntimeEditableLandscape/Private/Threads/RuntimeLandscapeRebuildManager.cpp:95-99 | a quad's six entries occur as a run of the result iff none of T1, T2, T3, T2+1 is a hole |
| Triangles.TriangleRunsInRowMajorOrder | Source/RuntimeEditableLandscape/Private/Threads/RuntimeLandscapeRebuildManager.cpp:87-110 | the length is a multiple of 6 and the runs appear in increasing order of their first corner |
| Triangles.TriangleIndicesInTile | Source/RuntimeEditableLandscape/Private/Threads/RuntimeLandscapeRebuildManager.cpp:91-109 | every entry is a vertex of the tile: below (ResX+1)*(ResY+1) |
| Vegetation.NullSlotDereferencedAsWritten | Source/RuntimeEditableLandscape/Private/Threads/GenerateAdditionalVertexDataWorker.cpp:38-43 | a set with three null slots and an opaque pixel gives a null ground type weight 1, and the loop as written dereferences it |
| Vegetation.SelectByWeightAgreesAsWritten | Source/RuntimeEditableLandscape/Private/Threads/GenerateAdditionalVertexDataWorker.cpp:38-43 | where no null key exceeds the threshold, the null-skipping choice equals the loop as written |
| Vegetation.SelectByWeightIsLastMaximum | Source/RuntimeEditableLandscape/Private/Threads/GenerateAdditionalVertexDataWorker.cpp:31-44 | nothing is chosen iff no entry exceeds 0.2. Otherwise the choice is the greatest such weight, the last entry with it wins, and its grass is taken |
| Vegetation.SelectGroundType | Source/RuntimeEditableLandscape/Private/Threads/GenerateAdditionalVertexDataWorker.cpp:31-44 | the max-tracking loop computes SelectByWeight |
| Vegetation.NewHeightBandMissesGround | Source/RuntimeEditableLandscape/Public/RuntimeLandscape.h:89-94 | a height band with its default bounds holds no height at or below 0 |
| Vegetation.NewHeightBandHoldsAllHeights | Source/RuntimeEditableLandscape/Public/RuntimeLandscape.h:89-94 | with the lower bound -FLT_MAX a new band holds every height strictly between the float extremes |
| Vegetation.SelectByHeightIsLastMatch | Source/RuntimeEditableLandscape/Private/Threads/GenerateAdditionalVertexDataWorker.cpp:52-61 | no band is chosen iff no band strictly holds the height; otherwise the last band holding it wins |
| Vegetation.SelectHeightBand | Source/RuntimeEditableLandscape/Private/Threads/GenerateAdditionalVertexDataWorker.cpp:52-61 | the band loop computes SelectByHeight |
| Vegetation.VertexSelectionWeight | Source/RuntimeEditableLandscape/Private/Threads/GenerateAdditionalVertexDataWorker.cpp:22-70 | a selection happens only off the first row and column, with a weight above 0.2 |
| Vegetation.HeightBandsOnlyAsFallback | Source/RuntimeEditableLandscape/Private/Threads/GenerateAdditionalVertexDataWorker.cpp:46-62 | when some ground type is eligible the bands are ignored and the ground-type choice is used with its weight |
| Vegetation.NoGrassOnSharedEdges | Source/RuntimeEditableLandscape/Private/Threads/GenerateAdditionalVertexDataWorker.cpp:24-29 | a vertex on the first row or column is left with cleared data |
| Vegetation.InstanceCountRounds | Source/RuntimeEditableLandscape/Private/Threads/GenerateAdditionalVertexDataWorker.cpp:104-113 | the count is floor(x), plus one exactly when the draw is below the fraction, so it is within 1 of x |
| Vegetation.InstanceCountOfWholeTarget | Source/RuntimeEditableLandscape/Private/Threads/GenerateAdditionalVertexDataWorker.cpp:104-113 | a whole target gives exactly that many instances |
| Vegetation.RandRangeWithin | Source/RuntimeEditableLandscape/Private/Threads/GenerateAdditionalVertexDataWorker.cpp:162 | a draw in [0, 1] maps into the interval [min, max] |
| Vegetation.GrassScaleRules | Source/RuntimeEditableLandscape/Private/Threads/GenerateAdditionalVertexDataWorker.cpp:157-178 | Uniform gives X=Y=Z in range X; LockXY gives Y=X; Free draws each axis in its own range; other modes give (1,1,1) |
| Vegetation.GrassLocationNearVertex | Source/RuntimeEditableLandscape/Private/Threads/GenerateAdditionalVertexDataWorker.cpp:147-155 | an instance lies at the vertex height, within half a quad of the vertex along X and Y |
| Vegetation.VarietyTransforms | Source/RuntimeEditableLandscape/Private/Threads/GenerateAdditionalVertexDataWorker.cpp:115-133 | a variety gets max(count, 0) transforms, the k-th scaled by the k-th draw |
| Vegetation.PlaceInstances | Source/RuntimeEditableLandscape/Private/Threads/GenerateAdditionalVertexDataWorker.cpp:118-133 | the counting-down loop produces VarietyTransforms |
| Vegetation.VarietiesDataLookup | Source/RuntimeEditableLandscape/Private/Threads/GenerateAdditionalVertexDataWorker.cpp:100-134 | each mesh ends with the data of the last variety using it; meshes no variety uses keep their entry |
| Vegetation.GrassTransformsAtVertex | Source/RuntimeEditableLandscape/Private/Threads/GenerateAdditionalVertexDataWorker.cpp:73-135 | no grass type or too steep a slope leaves the data cleared; otherwise the variety loop builds GrassTransformsSpec |
| Vegetation.VarietyTransformsAtVertex | Source/RuntimeEditableLandscape/Private/Threads/GenerateAdditionalVertexDataWorker.cpp:102-133 | one variety's entry: the variety and its rounded number of placed instances |
| Rebuild.InitialBufferIsSized | Source/RuntimeEditableLandscape/Private/Threads/RuntimeLandscapeRebuildManager.cpp:54-72 | the new buffer's arrays have the tile's vertex count, triangles are the hole-free list, every grass entry is cleared, and the state is None |
| Rebuild.RowInsideTile | Source/RuntimeEditableLandscape/Private/Threads/RuntimeLandscapeRebuildManager.cpp:156-160 | row y's ResX+1 vertices starting at y*(ResX+1) lie inside the tile |
| Rebuild.RowsPartitionTile | Source/RuntimeEditableLandscape/Private/Threads/RuntimeLandscapeRebuildManager.cpp:152-160 | every vertex of the tile lies in exactly one row's range, row i/(ResX+1) |
| Rebuild.AddUniqueAddsOnce | Source/RuntimeEditableLandscape/Private/Threads/RuntimeLandscapeRebuildManager.cpp:23 | AddUnique keeps the queue as a prefix, adds the tile only if absent, and is idempotent |
| Rebuild.QueueRebuildWhileBusy | Source/RuntimeEditableLandscape/Private/Threads/RuntimeLandscapeRebuildManager.cpp:21-24 | with a current tile only the queue changes (AddUnique), and queueing again changes nothing |
| Rebuild.QueueRebuildWhenIdle | Source/RuntimeEditableLandscape/Private/Threads/RuntimeLandscapeRebuildManager.cpp:25-29 | with no current tile the tile becomes current, the queue is untouched, and the rebuild starts when its heights fit |
| Rebuild.StartRebuildHeightMismatch | Source/RuntimeEditableLandscape/Private/Threads/RuntimeLandscapeRebuildManager.cpp:128-134 | a wrong height count leaves the current tile, queue, state, heights, counter and ticking as they were |
| Rebuild.StartRebuildHeightsMatch | Source/RuntimeEditableLandscape/Private/Threads/RuntimeLandscapeRebuildManager.cpp:136-146 | otherwise: state BuildVertices, heights copied, one active runner, ticking on |
| Rebuild.InitializeRunsOnce | Source/RuntimeEditableLandscape/Public/Threads/RuntimeLandscapeRebuildManager.h:129-140 | Initialize is idempotent, and does nothing once runners exist |
| Rebuild.RebuildNextOnEmptyQueue | Source/RuntimeEditableLandscape/Public/Threads/RuntimeLandscapeRebuildManager.h:153-157 | an empty queue clears the current tile and turns ticking off |
| Rebuild.RebuildNextIsLastInFirstOut | Source/RuntimeEditableLandscape/Public/Threads/RuntimeLandscapeRebuildManager.h:158-162 | a non-empty queue makes its last tile current and drops it, shrinking by one |
| Rebuild.CancelKeepsQueue | Source/RuntimeEditableLandscape/Public/Threads/RuntimeLandscapeRebuildManager.h:165-170 | cancelling clears the tile, the counter and ticking, but keeps queue and buffer |
| Rebuild.NotifyDecrements | Source/RuntimeEditableLandscape/Public/Threads/RuntimeLandscapeRebuildManager.h:100-103 | a finished runner decrements the counter by one and changes nothing else |
| Rebuild.TickWaitsForRunners | Source/RuntimeEditableLandscape/Private/Threads/RuntimeLandscapeRebuildManager.cpp:166 | while a runner is active a tick changes nothing |
| Rebuild.TickAfterVertexPhase | Source/RuntimeEditableLandscape/Private/Threads/RuntimeLandscapeRebuildManager.cpp:170-172 | after the vertex phase a tick enters BuildAdditionalData with ResY+1 runners, same tile and queue |
| Rebuild.TickAfterVegetationPhase | Source/RuntimeEditableLandscape/Private/Threads/RuntimeLandscapeRebuildManager.cpp:173-176 | after the vegetation phase a tick moves to the next tile in the queue |
| Rebuild.InitializeKeepsValid | Source/RuntimeEditableLandscape/Public/Threads/RuntimeLandscapeRebuildManager.h:129-140 | Initialize establishes a sized buffer and a filled cache |
| Rebuild.StartRebuildKeepsValid | Source/RuntimeEditableLandscape/Private/Threads/RuntimeLandscapeRebuildManager.cpp:116-147 | StartRebuild keeps the manager invariant |
| Rebuild.TransitionsKeepValid | Source/RuntimeEditableLandscape/Private/Threads/RuntimeLandscapeRebuildManager.cpp:163-181 | queueing, next, cancel, notify, phase 2 and tick all keep the invariant: sized buffer, a state only once set up, and ticking only with a tile under way |
| Rebuild.VertexRunnerFinishedKeepsValid | Source/RuntimeEditableLandscape/Public/Threads/RuntimeLandscapeRebuildManager.h:105-108 | the vertex runner's hand-over of arrays sized for a tile keeps that invariant |
| Rebuild.RebuildNextKeepsPhaseInputs | Source/RuntimeEditableLandscape/Public/Threads/RuntimeLandscapeRebuildManager.h:151-163 | moving to the next queued tile keeps a normal per vertex during the vegetation phase and after a finished vertex phase |
| Rebuild.TransitionsKeepPhaseInputs | Source/RuntimeEditableLandscape/Private/Threads/RuntimeLandscapeRebuildManager.cpp:149-181 | that sizing of the normals survives queueing, next, cancel, a row runner's notify, the vertex runner's hand-over of a normal per vertex, phase 2 started on full normals, and a tick while ticking is on |
| Rebuild.VegetationRowInputsSized | Source/RuntimeEditableLandscape/Private/Threads/GenerateAdditionalVertexDataWorker.cpp:83 | during the vegetation phase row y's vertices lie inside the grass data, the vertices and the normals the row runner reads |
| Rebuild.RowDataEntries | Source/RuntimeEditableLandscape/Private/Threads/GenerateAdditionalVertexDataWorker.cpp:180-191 | a row runner writes exactly its row's entries, vertex start+x getting column x's data; all other entries stay |
| Rebuild.RebuildManager.constructor | Source/RuntimeEditableLandscape/Public/Threads/RuntimeLandscapeRebuildManager.h:113-127 | a new manager: no tile, empty queue, default buffer and cache, no runners, ticking off |
| Rebuild.RebuildManager.GenerateTriangleArray | Source/RuntimeEditableLandscape/Private/Threads/RuntimeLandscapeRebuildManager.cpp:74-114 | the nested quad loop produces TriangleArray(ResX, ResY, holes) |
| Rebuild.RebuildManager.InitializeBuffer | Source/RuntimeEditableLandscape/Private/Threads/RuntimeLandscapeRebuildManager.cpp:54-72 | the buffer becomes InitialBuffer |
| Rebuild.RebuildManager.InitializeGenerationCache | Source/RuntimeEditableLandscape/Private/Threads/RuntimeLandscapeRebuildManager.cpp:32-37 | the cache becomes 1/ComponentAmount, the quad side length and 1/ResX |
| Rebuild.RebuildManager.InitializeRunners | Source/RuntimeEditableLandscape/Private/Threads/RuntimeLandscapeRebuildManager.cpp:39-46 | ResY+1 new, distinct row runners of this manager |
| Rebuild.RebuildManager.Initialize | Source/RuntimeEditableLandscape/Public/Threads/RuntimeLandscapeRebuildManager.h:129-140 | buffer, cache and runners are set up only when no runner exists |
| Rebuild.RebuildManager.StartRebuild | Source/RuntimeEditableLandscape/Private/Threads/RuntimeLandscapeRebuildManager.cpp:116-147 | the new state is StartRebuildSpec, and it reports a start iff the heights fit |
| Rebuild.RebuildManager.StartInitializedRebuild | Source/RuntimeEditableLandscape/Private/Threads/RuntimeLandscapeRebuildManager.cpp:123-146 | the part of StartRebuild after Initialize: UV1 offset, height check, vertex phase |
| Rebuild.RebuildManager.QueueRebuild | Source/RuntimeEditableLandscape/Private/Threads/RuntimeLandscapeRebuildManager.cpp:19-30 | the new state is QueueRebuildSpec, and a start happens iff the manager was idle and the heights fit |
| Rebuild.RebuildManager.RebuildNextInQueue | Source/RuntimeEditableLandscape/Public/Threads/RuntimeLandscapeRebuildManager.h:151-163 | the new state is RebuildNextSpec (LIFO pop), and a start happens iff the queue was non-empty and the heights fit |
| Rebuild.RebuildManager.CancelRebuild | Source/RuntimeEditableLandscape/Public/Threads/RuntimeLandscapeRebuildManager.h:165-170 | the new state is CancelSpec |
| Rebuild.RebuildManager.NotifyRunnerFinished | Source/RuntimeEditableLandscape/Public/Threads/RuntimeLandscapeRebuildManager.h:100-103 | a row runner's finish during the vegetation phase drops the counter by one and changes nothing else |
| Rebuild.RebuildManager.FinishVertexRunner | Source/RuntimeEditableLandscape/Public/Threads/RuntimeLandscapeRebuildManager.h:105-108 | the vertex worker's result, a vertex, two UVs and a normal per vertex, fills the buffer, then the counter drops by one; the invariant, including the sized normals, is kept |
| Rebuild.RebuildManager.StartGenerateAdditionalData | Source/RuntimeEditableLandscape/Private/Threads/RuntimeLandscapeRebuildManager.cpp:149-161 | started on a normal per vertex, the state becomes BuildAdditionalData with ResY+1 runners, and runner y is queued for row y at y*(ResX+1) |
| Rebuild.RebuildManager.QueueRowRunners | Source/RuntimeEditableLandscape/Private/Threads/RuntimeLandscapeRebuildManager.cpp:156-160 | the loop queues runner y for row y, at index y*(ResX+1), with the buffer's UV1 offset |
| Rebuild.RebuildManager.TickComponent | Source/RuntimeEditableLandscape/Private/Threads/RuntimeLandscapeRebuildManager.cpp:163-181 | the new state is TickSpec. The finished tile and its buffer are reported only after the vegetation phase, and row runners are queued after the vertex phase |
| Rebuild.AdditionalVertexDataWorker.constructor | Source/RuntimeEditableLandscape/Private/Threads/GenerateAdditionalVertexDataWorker.cpp:11-15 | a new worker of the manager with row 0, start index 0 and zero UV offset |
| Rebuild.AdditionalVertexDataWorker.QueueWork | Source/RuntimeEditableLandscape/Public/Threads/GenerateAdditionalVertexDataWorker.h:36-42 | the worker takes the row, the start index and the UV1 offset |
| Rebuild.AdditionalVertexDataWorker.Abandon | Source/RuntimeEditableLandscape/Public/Threads/GenerateAdditionalVertexDataWorker.h:46-49 | abandoning cancels the manager's rebuild |
| Rebuild.AdditionalVertexDataWorker.GenerateGrassDataForVertex | Source/RuntimeEditableLandscape/Private/Threads/GenerateAdditionalVertexDataWorker.cpp:22-71 | only entry vertexIndex of the buffer changes, to VertexData for that vertex |
| Rebuild.AdditionalVertexDataWorker.GrassDataForVertex | Source/RuntimeEditableLandscape/Private/Threads/GenerateAdditionalVertexDataWorker.cpp:31-70 | weight choice, height fallback and transform generation compute VertexData |
| Rebuild.AdditionalVertexDataWorker.DoThreadedWork | Source/RuntimeEditableLandscape/Private/Threads/GenerateAdditionalVertexDataWorker.cpp:180-191 | run for its queued row y in the vegetation phase, the row lies inside the grass data, vertices and normals; the row's data become RowData, and the manager's counter drops by exactly one |
| Rebuild.AdditionalVertexDataWorker.GenerateRow | Source/RuntimeEditableLandscape/Private/Threads/GenerateAdditionalVertexDataWorker.cpp:183-188 | the loop over X = 0..ResX writes RowData |
| Landscape.HoleFlagRules | Source/RuntimeEditableLandscape/Public/RuntimeLandscapeComponent.h:30-40 | after a flag the vertex is a hole iff the flag is true, other vertices are unchanged, and repeating it changes nothing |
| Landscape.HoleFlagsLastWins | Source/RuntimeEditableLandscape/Public/RuntimeLandscapeComponent.h:30-40 | after several flags for one vertex the last one decides; other vertices are unchanged |
| Landscape.LayerRemovedMembers | Source/RuntimeEditableLandscape/Public/RuntimeLandscapeComponent.h:42-46 | removal leaves exactly the other layers and keeps them distinct |
| Landscape.LayerAddedTwice | Source/RuntimeEditableLandscape/Private/RuntimeLandscapeComponent.cpp:16-20 | adding a layer twice is adding it once |
| Landscape.LayerSetRules | Source/RuntimeEditableLandscape/Private/RuntimeLandscapeComponent.cpp:18 | set insertion and removal: membership, idempotence and distinctness |
| Landscape.RelativeVertexLocationOfVertex | Source/RuntimeEditableLandscape/Private/RuntimeLandscapeComponent.cpp:38-44 | on square tiles vertex (x, y) lies at (x, y) times the quad side length |
| Landscape.LayerVertexStepFrame | Source/RuntimeEditableLandscape/Private/RuntimeLandscapeComponent.cpp:85-89 | one ApplyLayerData call touches only its own vertex, and nothing when the layer does not affect it |
| Landscape.LayersPassHolesBelow | Source/RuntimeEditableLandscape/Private/RuntimeLandscapeComponent.cpp:83-90 | when every hole lies below a bound of at least the vertex count, the layer passes keep every hole below it |
| Landscape.LayerPassKeepsUntouched | Source/RuntimeEditableLandscape/Private/LandscapeLayerComponent.cpp:65-70 | a vertex outside a layer's bounding box keeps its height, colour and hole flag through that layer's pass |
| Landscape.LayersPassKeepsUntouched | Source/RuntimeEditableLandscape/Private/RuntimeLandscapeComponent.cpp:83-90 | the same through all layers when none affects the vertex |
| Landscape.EntryBatchesExact | Source/RuntimeEditableLandscape/Private/RuntimeLandscapeComponent.cpp:158-165 | a vertex's grass entries are added exactly when their transform list is non-empty |
| Landscape.GrassBatchesExact | Source/RuntimeEditableLandscape/Private/RuntimeLandscapeComponent.cpp:156-166 | over all vertices, exactly the non-empty grass entries become AddInstances calls |
| Landscape.FinishedTrianglesAvoidHoles | Source/RuntimeEditableLandscape/Private/RuntimeLandscapeComponent.cpp:217-225 | choosing the cached list without holes and regenerating otherwise yields the hole-aware triangle list either way |
| Landscape.QueueRebuildMakesPending | Source/RuntimeEditableLandscape/Private/Threads/RuntimeLandscapeRebuildManager.cpp:19-30 | a queued tile is current or queued afterwards, nothing pending is lost, and tile ids stay in range |
| Landscape.StartRebuildKeepsTiles | Source/RuntimeEditableLandscape/Private/Threads/RuntimeLandscapeRebuildManager.cpp:116-147 | StartRebuild changes neither the current tile nor the queue |
| Landscape.TickKeepsTilesInRange | Source/RuntimeEditableLandscape/Private/Threads/RuntimeLandscapeRebuildManager.cpp:163-181 | a tick names only tiles of the landscape |
| Landscape.TickStartsNext | Source/RuntimeEditableLandscape/Private/Threads/RuntimeLandscapeRebuildManager.cpp:173-176 | finishing a tile with a non-empty queue starts the last queued tile with its heights |
| Landscape.QueueRebuildStartsTile | Source/RuntimeEditableLandscape/Private/Threads/RuntimeLandscapeRebuildManager.cpp:25-29 | an idle manager starts a queued tile with fitting heights at once |
| Landscape.LandscapeComponent.constructor | Source/RuntimeEditableLandscape/Public/RuntimeLandscapeComponent.h:62-75 | a new tile has no heights, no holes, no layers and no mesh |
| Landscape.LandscapeComponent.SetHoleFlagForVertex | Source/RuntimeEditableLandscape/Public/RuntimeLandscapeComponent.h:30-40 | true adds the vertex, false removes it, and no other vertex changes |
| Landscape.LandscapeComponent.ApplyHoleFlags | Source/RuntimeEditableLandscape/Public/RuntimeLandscapeComponent.h:30-40 | the flags one layer returns for a vertex are applied in order |
| Landscape.LandscapeComponent.GetRelativeVertexLocation | Source/RuntimeEditableLandscape/Private/RuntimeLandscapeComponent.cpp:38-44 | local vertex coordinates times the quad side length |
| Landscape.LandscapeComponent.LayersAppliedBounds | Source/RuntimeEditableLandscape/Private/RuntimeLandscapeComponent.cpp:79-90 | every hole after the layers is a vertex of the tile. A vertex no layer affects keeps its height, is white and is not a hole |
| Landscape.LandscapeComponent.ApplyLayerToVertices | Source/RuntimeEditableLandscape/Private/RuntimeLandscapeComponent.cpp:85-89 | the vertex loop of one layer computes LayerPass |
| Landscape.LandscapeComponent.ApplyDataFromLayers | Source/RuntimeEditableLandscape/Private/RuntimeLandscapeComponent.cpp:77-91 | clearing holes, whitening colours and running every layer over every vertex yields LayersApplied |
| Landscape.LandscapeComponent.ApplyNextLayer | Source/RuntimeEditableLandscape/Private/RuntimeLandscapeComponent.cpp:83-90 | one more layer of the outer loop extends the pass by that layer |
| Landscape.LandscapeComponent.Rebuild | Source/RuntimeEditableLandscape/Private/RuntimeLandscapeComponent.cpp:72-75 | the tile is queued on the manager. If it starts, its layers are applied to the buffer heights, and the tile stays pending |
| Landscape.LandscapeComponent.AddLandscapeLayer | Source/RuntimeEditableLandscape/Private/RuntimeLandscapeComponent.cpp:16-20 | the layer is inserted (set semantics) and a rebuild of the tile is always pending |
| Landscape.LandscapeComponent.RemoveLandscapeLayer | Source/RuntimeEditableLandscape/Public/RuntimeLandscapeComponent.h:42-46 | the layer is removed, and a rebuild is pending even if the layer was absent |
| Landscape.LandscapeComponent.Initialize | Source/RuntimeEditableLandscape/Private/RuntimeLandscapeComponent.cpp:22-36 | the initial heights are the input heights plus the parent height. The rebuild is then queued exactly as `Rebuild` does it: the new manager state is QueueRebuildSpec on those heights (with the layered heights and holes when the tile starts at once), this tile is pending, and every tile pending before stays pending |
| Landscape.LandscapeComponent.AddVertexGrass | Source/RuntimeEditableLandscape/Private/RuntimeLandscapeComponent.cpp:158-165 | the loop over one vertex's entries adds exactly EntryBatches |
| Landscape.LandscapeComponent.FinishRebuild | Source/RuntimeEditableLandscape/Private/RuntimeLandscapeComponent.cpp:142-236 | the grass batches are those of the buffer's non-empty entries, and the mesh has the buffer's geometry, white colours and FinishedTriangles |
| Landscape.RuntimeLandscape.constructor | Source/RuntimeEditableLandscape/Private/RuntimeLandscape.cpp:377-412 | one new tile per grid cell, tile i with index i, no layers and no holes, and a fresh idle manager |
| Landscape.RuntimeLandscape.AddLandscapeLayer | Source/RuntimeEditableLandscape/Private/RuntimeLandscape.cpp:56-73 | exactly the tiles GetComponentsInArea returns for the layer's bounding box gain the layer and are pending a rebuild; others keep their layers |
| Landscape.RuntimeLandscape.AddLayerToTiles | Source/RuntimeEditableLandscape/Private/RuntimeLandscape.cpp:68-71 | the loop adds the layer to the listed tiles only, each left pending |
| Landscape.RuntimeLandscape.AddLayerToListedTile | Source/RuntimeEditableLandscape/Private/RuntimeLandscape.cpp:68-71 | one round of that loop extends the set of done tiles by the k-th |
| Landscape.RuntimeLandscape.AddLayerToTile | Source/RuntimeEditableLandscape/Private/RuntimeLandscape.cpp:70 | exactly tile t's layer set changes, by insertion, and t is pending |
| Landscape.RuntimeLandscape.RemoveLandscapeLayer | Source/RuntimeEditableLandscape/Private/RuntimeLandscape.cpp:176-182 | every tile loses the layer and every tile is pending a rebuild |
| Landscape.RuntimeLandscape.RemoveLayerFromTile | Source/RuntimeEditableLandscape/Private/RuntimeLandscape.cpp:180 | exactly tile t's layer set changes, by removal, and t is pending |
| Landscape.RuntimeLandscape.TickRebuildManager | Source/RuntimeEditableLandscape/Private/Threads/RuntimeLandscapeRebuildManager.cpp:163-181 | a finished tile takes FinishedMesh and the grass batches of the buffer. A started tile gets its layered heights in the buffer and its holes; otherwise the state is TickSpec |
| Landscape.RuntimeLandscape.TickAndFinish | Source/RuntimeEditableLandscape/Private/Threads/RuntimeLandscapeRebuildManager.cpp:173-176 | the manager's tick followed by FinishRebuild of the finished tile |
| Landscape.RuntimeLandscape.FinishTile | Source/RuntimeEditableLandscape/Private/Threads/RuntimeLandscapeRebuildManager.cpp:174 | the tile's FinishRebuild with the manager's buffer |
| Landscape.RuntimeLandscape.StartTile | Source/RuntimeEditableLandscape/Private/Threads/RuntimeLandscapeRebuildManager.cpp:137-142 | a started tile's layers are applied to the buffer heights, and its holes are recorded |

## Left out

- Threading: the thread pool, `std::atomic` and `IQueuedWork` scheduling are sequential calls here; each row runner's finish is a `NotifyRunnerFinished` call and the vertex runner's a `FinishVertexRunner` call. `InitializeRunners` creates the runner objects, but the thread pool it allocates is not modelled.
- The vertex-phase worker `FGenerateVerticesWorker` is not part of this model. `Rebuild.RebuildManager.FinishVertexRunner` stands in for it, taking its vertices, UVs and normals as arguments.
- GPU and render-target work is not modelled: `DrawGroundType`, `UpdateVertexLayerWeights`, `BakeLandscapeLayers`, `GetLayerNames` and the weight raster readback. The weight raster is an input array of each layer set.
- Engine lifecycle and editor hooks are not modelled: `BeginPlay`, `PostLoad`, `PreInitializeComponents`, `PostEditChangeProperty`, timers, delegates, `HandleBoundsChanged`, `ApplyToLandscape`, `RemoveFromLandscapes`, `SetBoundsComponent` and the owner-destroyed handlers.
- The heightfield import of `ARuntimeLandscape::Rebuild` and `InitializeFromLandscape` is not modelled: Chaos heightfield reads, actor bounds and float-truncated tile indices. `Landscape.RuntimeLandscape.constructor` builds the tiles directly from a grid and their locations. Tile heights reach the manager through `Initialize`.
- External collaborators are not modelled: `CreateMeshSection` is recorded as a `MeshSection` value, `FindOrAddGrassMesh`/`AddInstances` as a list of grass batches, and `RemoveFoliageAffectedByLayer`, `UpdateNavigation`, `DestroyComponent` and the debug colouring of `FinishRebuild` are left out.
- Each layer data object's `ApplyToLandscape` call in `ARuntimeLandscape::AddLandscapeLayer` (lines 62-65) is not modelled. The layer data types are not part of this model, and their `ApplyToVertices` is the `apply` parameter.
- Randomness, the square root and rotation math are parameters: `FMath::RandRange` draws, `Sqrt`, `InverseTransformLocation` (a point in the layer's frame), the owner's transform of a box extent, and the slope angles from `GetSlopeDegreeAngles`. Instance rotations and `MakeRotFromZ` are not modelled, and neither are the UV coordinates the vertex worker computes.
- IEEE float rounding: lengths, weights and factors are exact reals. Tile counts and resolutions, which the engine keeps in float vectors holding whole numbers, are integers.
- Tangents of the rebuild buffer are not modelled, and the uninitialised contents of the arrays `InitializeBuffer` sizes are zeros here.
- Tiles are named by index rather than by pointer; `ensure(ParentLandscape)` in `Initialize` and `ensure(LayerToAdd)` in `AddLandscapeLayer` cannot fail in the model.
- The `checkNoEntry` branches become the following: a tick in state None changes nothing, a layer of the default shape is never affected, and a slot index above 3 reads channel value 0.
- A tile's `AffectingLayers` set is a duplicate-free sequence in insertion order. After a removal the engine's `TSet` may iterate in a different order, and the model does not capture that order.
- Grid.ComponentsInArea: requires a proper query box (min ≤ max on both axes). With both axes inverted the source's final `check` fails; with one inverted it returns an empty list after a failed `ensure`.
- Grid.ComponentsInArea: requires `TilesCoverExtent`, i.e. square quads. `InitializeFromLandscape` takes the extent from the actor bounds and the quad side from the X axis alone, so along Y the tiles cover the extent only when `LandscapeSize.Y / MeshResolution.Y` equals that side. With non-square quads an area in the strip the tiles do not cover returns no tiles, which the model does not state.
- Landscape.LandscapeComponent.Initialize: requires the index it is given to be the tile's index already. In the engine `ARuntimeLandscape` creates the component, `Initialize` assigns `Index`, and the component is stored in `LandscapeComponents` only afterwards (RuntimeLandscape.cpp:391-416). The model assigns the index when `Landscape.RuntimeLandscape.constructor` builds the tiles, so that a tile's index always names its slot, and `Initialize`'s assignment of the index changes nothing.
- Landscape.RuntimeLandscape.constructor: requires `TilesCoverExtent` of its grid, so it assumes square quads for the reason above.
- Rebuild.RebuildManager.NotifyRunnerFinished: models the row-runner overload only, called during the vegetation phase. The vertex runner's overload is part of `FinishVertexRunner`.
- Rebuild.RebuildManager.StartGenerateAdditionalData: requires a normal per vertex. Only the tick calls it, after the vertex runner has handed its normals over, and the manager's invariant carries that.
- Rebuild.AdditionalVertexDataWorker.DoThreadedWork: requires a current tile for rows other than the first. A runner still working after `CancelRebuild` would dereference the cleared `CurrentComponent` in the engine, and the model does not cover that.
- Landscape.RuntimeLandscape.AddLandscapeLayer: requires the layer's bounding box to be proper, for the same reason.
- LandscapeLayers.LayerComponent.UpdateShape: keeps the smoothing invariant `Valid` only for a nonnegative radius and smoothing distance. The editor clamps the smoothing distance to at least 0; a negative radius is not handled.
- LandscapeLayers.SphereFactorInUnitRange: is proved for a nonnegative radius only.
- LandscapeLayers.LayerComponent.ApplyLayerData: requires `Valid`, i.e. the source's `check(SmoothingDistance > 0)` holds wherever a round layer's ring is reached.
- Rebuild.AdditionalVertexDataWorker.GenerateGrassDataForVertex: states the final contents of the vertex's entry. The early `ClearData` on the first row and column, and the clear before the transforms, are not visible separately.
- Landscape.RuntimeLandscape.TickRebuildManager: when the tick moves to the next queued tile, the heights the manager checks are that tile's initial heights (`NextHeights`), passed in as a constant function.
- UV1 offset and the generation cache are modelled; the vertex worker's use of them is not.

## Findings

| source | as written | input that shows it | evidently intended | confidence | as-written member | corrected member |
|---|---|---|---|---|---|---|
| Source/RuntimeEditableLandscape/Private/Threads/GenerateAdditionalVertexDataWorker.cpp:38-43 | the weight map holds one entry per slot of each layer set, null slots included. The selection loop reads `Key->GrassTypeSettings` of the winning entry without a null test | a layer set with one ground type and three null slots, whose weight pixel is (0, 0, 0, 255): the null key gets weight 1.0 > 0.2 and wins | null slots are skipped (or never added to the map), and only real ground types compete | medium, not executed | Vegetation.NullSlotDereferencedAsWritten | Vegetation.SelectByWeightIsLastMaximum |
| Source/RuntimeEditableLandscape/Public/RuntimeLandscape.h:91 | a new height band's `MinHeight` defaults to `FLT_MIN`, the smallest positive float, so the strict test `MinHeight < height` rejects every height ≤ 0 | a vertex at world height 0 or below with a default band: no band holds it | the lowest float, `-FLT_MAX` (`TNumericLimits<float>::Lowest()`), so that a default band holds every height | high, not executed | Vegetation.NewHeightBandMissesGround | Vegetation.NewHeightBandHoldsAllHeights |
