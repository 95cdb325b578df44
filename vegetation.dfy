/**
 * Per-vertex vegetation of a rebuilt tile (FGenerateAdditionalVertexDataWorker):
 * which grass a vertex grows, chosen from its ground-type weights or,
 * failing that, from the height bands, and how many instances of each
 * grass variety are placed around it. Random draws and the slope of the
 * vertex normal are inputs.
 */
module Vegetation {
  import opened EngineTypes
  import opened Grass
  import opened GroundTypes

  /** A ground type's weight must exceed this for its grass to be chosen */
  const WeightThreshold: real := 0.2

  /** The running choice: the weight to beat and the grass chosen so far (None: nothing applied yet) */
  datatype Choice = Choice(highestWeight: real, grass: Option<GrassTypeSettings>)

  const NoChoice: Choice := Choice(0.0, None)

  // ---- choosing by ground-type weight, as the code is written ----

  /** One step of the weight loop as written: an entry with a null key that wins dereferences null (None) */
  function WeightStepAsWritten(c: Choice, w: Weight): Option<Choice>
  {
    if w.value >= c.highestWeight && w.value > WeightThreshold then
      if w.key.None? then None else Some(Choice(w.value, Some(w.key.value.grass)))
    else Some(c)
  }

  /** The weight loop as written over the first n entries; None once a null key was dereferenced */
  function SelectByWeightAsWritten(weights: seq<Weight>, n: nat): Option<Choice>
    requires n <= |weights|
  {
    if n == 0 then Some(NoChoice)
    else match SelectByWeightAsWritten(weights, n - 1)
      case None => None
      case Some(c) => WeightStepAsWritten(c, weights[n - 1])
  }

  /**
   * A layer set whose fourth slot is empty and whose render target pixel is
   * opaque black (alpha 255) gives the null slot the weight 1, and the
   * weight loop as written then dereferences the null key.
   */
  lemma NullSlotDereferencedAsWritten(groundType: GroundType)
    ensures var layerSet := LayerSet(Some(RenderTarget(1)), [Some(groundType), None, None, None], [Color(0, 0, 0, 255)]);
      var weights := LayerWeights([layerSet], IntVec2(0, 0), 1);
      weights == [Entry(Some(groundType), 0.0), Entry(None, 1.0)] &&
      SelectByWeightAsWritten(weights, |weights|).None?
  {
    var layerSet := LayerSet(Some(RenderTarget(1)), [Some(groundType), None, None, None], [Color(0, 0, 0, 255)]);
    var pixel := Color(0, 0, 0, 255);
    assert layerSet.PixelIndexForCoordinates(IntVec2(0, 0)) == 0;
    var m1 := [Entry(Some(groundType), 0.0)];
    FirstIndexOfMissing(Keys<Slot, real>([]), Some(groundType));
    assert SlotWeights([], layerSet.groundTypes, pixel, 1) == m1;
    var m2 := m1 + [Entry(None, 0.0)];
    assert Keys(m1) == [Some(groundType)];
    FirstIndexOfMissing(Keys(m1), None);
    assert SlotWeights([], layerSet.groundTypes, pixel, 2) == m2;
    assert Keys(m2) == [Some(groundType), None];
    FirstIndexOfFindsFirst(Keys(m2), 1);
    assert SlotWeights([], layerSet.groundTypes, pixel, 3) == m2;
    var weights := m2[1 := Entry(None, 1.0)];
    assert SlotWeights([], layerSet.groundTypes, pixel, 4) == weights;
    assert SelectByWeightAsWritten(weights, 1) == Some(NoChoice);
  }

  // ---- choosing by ground-type weight, corrected ----

  /** A weight entry that can be chosen: a real ground type above the threshold */
  predicate Eligible(w: Weight)
  {
    w.key.Some? && w.value > WeightThreshold
  }

  /** One step of the weight loop, skipping null keys */
  function WeightStep(c: Choice, w: Weight): Choice
  {
    if Eligible(w) && w.value >= c.highestWeight then Choice(w.value, Some(w.key.value.grass)) else c
  }

  /** The weight loop over the first n entries */
  function SelectByWeight(weights: seq<Weight>, n: nat): Choice
    requires n <= |weights|
  {
    if n == 0 then NoChoice else WeightStep(SelectByWeight(weights, n - 1), weights[n - 1])
  }

  /** Where no null key would win, the corrected loop chooses what the loop as written chooses */
  lemma {:induction false} SelectByWeightAgreesAsWritten(weights: seq<Weight>, n: nat)
    requires n <= |weights|
    requires forall j :: 0 <= j < n && weights[j].key.None? ==> weights[j].value <= WeightThreshold
    ensures SelectByWeightAsWritten(weights, n) == Some(SelectByWeight(weights, n))
  {
    if n > 0 {
      SelectByWeightAgreesAsWritten(weights, n - 1);
    }
  }

  /**
   * The chosen grass belongs to the last entry of maximal weight among the
   * eligible ones, and nothing is chosen exactly when no entry is eligible.
   */
  lemma {:induction false} SelectByWeightIsLastMaximum(weights: seq<Weight>, n: nat)
    requires n <= |weights|
    ensures var c := SelectByWeight(weights, n);
      (c.grass.None? <==> forall j :: 0 <= j < n ==> !Eligible(weights[j])) &&
      (c.grass.None? ==> c.highestWeight == 0.0) &&
      (c.grass.Some? ==> exists i :: (0 <= i < n && Eligible(weights[i]) &&
        c.highestWeight == weights[i].value && c.grass == Some(weights[i].key.value.grass) &&
        (forall j :: 0 <= j < n && Eligible(weights[j]) ==> weights[j].value <= c.highestWeight) &&
        (forall j :: i < j < n && Eligible(weights[j]) ==> weights[j].value < c.highestWeight)))
  {
    if n > 0 {
      SelectByWeightIsLastMaximum(weights, n - 1);
      var prev := SelectByWeight(weights, n - 1);
      var w := weights[n - 1];
      if Eligible(w) && w.value >= prev.highestWeight {
        assert forall j :: 0 <= j < n - 1 && Eligible(weights[j]) ==> weights[j].value <= w.value;
      } else if prev.grass.Some? {
        var i :| 0 <= i < n - 1 && Eligible(weights[i]) &&
          prev.highestWeight == weights[i].value && prev.grass == Some(weights[i].key.value.grass) &&
          (forall j :: 0 <= j < n - 1 && Eligible(weights[j]) ==> weights[j].value <= prev.highestWeight) &&
          (forall j :: i < j < n - 1 && Eligible(weights[j]) ==> weights[j].value < prev.highestWeight);
        assert i < n;
      }
    }
  }

  /** The weight loop of GenerateGrassDataForVertex (null keys skipped) */
  method SelectGroundType(weights: seq<Weight>) returns (highestWeight: real, selectedGrass: Option<GrassTypeSettings>)
    ensures Choice(highestWeight, selectedGrass) == SelectByWeight(weights, |weights|)
  {
    highestWeight := 0.0;
    selectedGrass := None;
    var i := 0;
    while i < |weights|
      invariant 0 <= i <= |weights|
      invariant Choice(highestWeight, selectedGrass) == SelectByWeight(weights, i)
    {
      var layerWeightData := weights[i];
      if layerWeightData.key.Some? && layerWeightData.value >= highestWeight && layerWeightData.value > WeightThreshold {
        highestWeight := layerWeightData.value;
        selectedGrass := Some(layerWeightData.key.value.grass);
      }
      i := i + 1;
    }
  }

  // ---- choosing by height ----

  /** FHeightBasedLandscapeData */
  datatype HeightBand = HeightBand(minHeight: real, maxHeight: real, grass: GrassTypeSettings)

  /** FLT_MIN: the smallest positive normal float */
  const FltMin: real := 1.17549435e-38
  /** FLT_MAX */
  const FltMax: real := 3.40282347e38

  /** A band holds the heights strictly between its bounds */
  predicate InBand(band: HeightBand, height: real)
  {
    band.minHeight < height && band.maxHeight > height
  }

  /** The defaults of a new height band as written: the lower bound is FLT_MIN, a tiny positive number */
  function NewHeightBandAsWritten(grass: GrassTypeSettings): HeightBand
  {
    HeightBand(FltMin, FltMax, grass)
  }

  /** A new band as written holds no vertex at or below height 0 */
  lemma NewHeightBandMissesGround(grass: GrassTypeSettings, height: real)
    requires height <= 0.0
    ensures !InBand(NewHeightBandAsWritten(grass), height)
  {
  }

  /** The defaults of a new height band as intended: from the lowest float to the highest */
  function NewHeightBand(grass: GrassTypeSettings): HeightBand
  {
    HeightBand(-FltMax, FltMax, grass)
  }

  /** A new band holds every height a float can hold apart from the two extremes */
  lemma NewHeightBandHoldsAllHeights(grass: GrassTypeSettings, height: real)
    requires -FltMax < height < FltMax
    ensures InBand(NewHeightBand(grass), height)
  {
  }

  /** The band loop over the first n bands: the last band holding the height wins */
  function SelectByHeight(bands: seq<HeightBand>, height: real, n: nat): Option<GrassTypeSettings>
    requires n <= |bands|
  {
    if n == 0 then None
    else if InBand(bands[n - 1], height) then Some(bands[n - 1].grass)
    else SelectByHeight(bands, height, n - 1)
  }

  lemma {:induction false} SelectByHeightIsLastMatch(bands: seq<HeightBand>, height: real, n: nat)
    requires n <= |bands|
    ensures SelectByHeight(bands, height, n).None? <==> forall j :: 0 <= j < n ==> !InBand(bands[j], height)
    ensures SelectByHeight(bands, height, n).Some? ==> exists i :: (0 <= i < n && InBand(bands[i], height) &&
      SelectByHeight(bands, height, n) == Some(bands[i].grass) &&
      forall j :: i < j < n ==> !InBand(bands[j], height))
  {
    if n > 0 && !InBand(bands[n - 1], height) {
      SelectByHeightIsLastMatch(bands, height, n - 1);
    }
  }

  /** The height-band loop of GenerateGrassDataForVertex */
  method SelectHeightBand(bands: seq<HeightBand>, height: real) returns (selectedGrass: Option<GrassTypeSettings>)
    ensures selectedGrass == SelectByHeight(bands, height, |bands|)
  {
    selectedGrass := None;
    var i := 0;
    while i < |bands|
      invariant 0 <= i <= |bands|
      invariant selectedGrass == SelectByHeight(bands, height, i)
    {
      if bands[i].minHeight < height && bands[i].maxHeight > height {
        selectedGrass := Some(bands[i].grass);
      }
      i := i + 1;
    }
  }

  // ---- the grass of one vertex ----

  /** The grass a vertex grows and the weight it grows with */
  datatype VertexGrass = VertexGrass(grass: GrassTypeSettings, weight: real)

  /**
   * The selection of GenerateGrassDataForVertex: nothing on the first row
   * or column of a tile; otherwise the ground-type choice, and only when
   * that chose nothing, the height bands with weight 1.
   */
  function VertexSelection(yCoordinate: int, x: int, weights: seq<Weight>, bands: seq<HeightBand>, height: real): Option<VertexGrass>
  {
    if yCoordinate == 0 || x == 0 then None
    else
      var c := SelectByWeight(weights, |weights|);
      if c.grass.Some? then Some(VertexGrass(c.grass.value, c.highestWeight))
      else (match SelectByHeight(bands, height, |bands|)
        case None => None
        case Some(grass) => Some(VertexGrass(grass, 1.0)))
  }

  /** A selected vertex lies off the first row and column and its weight exceeds the threshold */
  lemma VertexSelectionWeight(yCoordinate: int, x: int, weights: seq<Weight>, bands: seq<HeightBand>, height: real)
    ensures var s := VertexSelection(yCoordinate, x, weights, bands, height);
      s.Some? ==> yCoordinate != 0 && x != 0 && WeightThreshold < s.value.weight
  {
    SelectByWeightIsLastMaximum(weights, |weights|);
  }

  /** The height bands decide only where no ground type is eligible */
  lemma HeightBandsOnlyAsFallback(yCoordinate: int, x: int, weights: seq<Weight>, bands: seq<HeightBand>, height: real)
    requires yCoordinate != 0 && x != 0
    requires exists j :: 0 <= j < |weights| && Eligible(weights[j])
    ensures var c := SelectByWeight(weights, |weights|);
      c.grass.Some? && VertexSelection(yCoordinate, x, weights, bands, height) == Some(VertexGrass(c.grass.value, c.highestWeight))
  {
    SelectByWeightIsLastMaximum(weights, |weights|);
  }

  // ---- instances of one variety ----

  /** The fractional instance count of a variety: area per quad times density per square metre times weight */
  function InstanceCountTarget(areaPerSquare: real, density: real, weight: real): real
  {
    areaPerSquare * density * 0.000001 * weight
  }

  /** The instance count: the floor of the target, plus one when the draw falls below the fractional part */
  function InstanceCount(target: real, draw: real): int
  {
    var whole := target.Floor;
    if draw < target - whole as real then whole + 1 else whole
  }

  /** The count rounds the target to a neighbouring whole number, up exactly when the draw is below the fraction */
  lemma InstanceCountRounds(target: real, draw: real)
    requires draw >= 0.0
    ensures var n := InstanceCount(target, draw);
      (n == target.Floor + 1 <==> draw < target - target.Floor as real) &&
      (n == target.Floor || n == target.Floor + 1) &&
      n as real - 1.0 < target < n as real + 1.0
  {
  }

  /** A whole target with a nonnegative draw is met exactly */
  lemma InstanceCountOfWholeTarget(target: int, draw: real)
    requires draw >= 0.0
    ensures InstanceCount(target as real, draw) == target
  {
  }

  /** FMath::RandRange over an interval, driven by a draw in [0, 1] */
  function RandRange(r: FloatInterval, draw: real): real
  {
    r.min + draw * (r.max - r.min)
  }

  lemma RandRangeWithin(r: FloatInterval, draw: real)
    requires r.min <= r.max && 0.0 <= draw <= 1.0
    ensures r.min <= RandRange(r, draw) <= r.max
  {
    var d := r.max - r.min;
    var u := draw;
    assert u * d >= 0.0 by {
      if u > 0.0 && d > 0.0 {
        ProductPositive(u, d);
      }
    }
    var v := 1.0 - u;
    assert v * d >= 0.0 by {
      if v > 0.0 && d > 0.0 {
        ProductPositive(v, d);
      }
    }
    assert v * d == d - u * d;
  }

  /** The unit draws behind one instance: its offset within the quad and its scale */
  datatype InstanceDraw = InstanceDraw(offsetX: real, offsetY: real, scaleX: real, scaleY: real, scaleZ: real)

  predicate UnitDraw(d: InstanceDraw)
  {
    0.0 <= d.offsetX <= 1.0 && 0.0 <= d.offsetY <= 1.0 &&
    0.0 <= d.scaleX <= 1.0 && 0.0 <= d.scaleY <= 1.0 && 0.0 <= d.scaleZ <= 1.0
  }

  /** GetRandomGrassScale */
  function GrassScale(variety: GrassVariety, d: InstanceDraw): Vec3
  {
    match variety.scaling
    case Uniform =>
      var s := RandRange(variety.scaleX, d.scaleX);
      Vec3(s, s, s)
    case Free => Vec3(RandRange(variety.scaleX, d.scaleX), RandRange(variety.scaleY, d.scaleY), RandRange(variety.scaleZ, d.scaleZ))
    case LockXY =>
      var s := RandRange(variety.scaleX, d.scaleX);
      Vec3(s, s, RandRange(variety.scaleZ, d.scaleZ))
    case Unsupported => Vec3(1.0, 1.0, 1.0)
  }

  predicate ProperIntervals(variety: GrassVariety)
  {
    variety.scaleX.min <= variety.scaleX.max && variety.scaleY.min <= variety.scaleY.max &&
    variety.scaleZ.min <= variety.scaleZ.max
  }

  predicate Within(r: FloatInterval, v: real)
  {
    r.min <= v <= r.max
  }

  /**
   * The scale rules: Uniform is one value on all axes, LockXY ties Y to X,
   * Free draws each axis from its own range, an unsupported mode is 1; every
   * drawn axis lies in the range it is drawn from.
   */
  lemma GrassScaleRules(variety: GrassVariety, d: InstanceDraw)
    requires ProperIntervals(variety) && UnitDraw(d)
    ensures var s := GrassScale(variety, d);
      (variety.scaling == Uniform ==> s.x == s.y == s.z && Within(variety.scaleX, s.x)) &&
      (variety.scaling == LockXY ==> s.y == s.x && Within(variety.scaleX, s.x) && Within(variety.scaleZ, s.z)) &&
      (variety.scaling == Free ==> Within(variety.scaleX, s.x) && Within(variety.scaleY, s.y) && Within(variety.scaleZ, s.z)) &&
      (variety.scaling == Unsupported ==> s == Vec3(1.0, 1.0, 1.0))
  {
    RandRangeWithin(variety.scaleX, d.scaleX);
    RandRangeWithin(variety.scaleY, d.scaleY);
    RandRangeWithin(variety.scaleZ, d.scaleZ);
  }

  /** The placement of an instance; its rotation is not part of the model */
  datatype InstanceTransform = InstanceTransform(location: Vec3, scale: Vec3)

  /** GetRandomGrassLocation: the vertex moved by up to half a quad along X and Y */
  function GrassLocation(vertex: Vec3, quadSideLength: real, d: InstanceDraw): Vec3
  {
    var posX := RandRange(FloatInterval(-0.5, 0.5), d.offsetX);
    var posY := RandRange(FloatInterval(-0.5, 0.5), d.offsetY);
    vertex.Add(Vec3(posX * quadSideLength, posY * quadSideLength, 0.0))
  }

  /** An instance stays at the vertex's height within the quad-sized square centred on the vertex */
  lemma GrassLocationNearVertex(vertex: Vec3, quadSideLength: real, d: InstanceDraw)
    requires quadSideLength >= 0.0 && UnitDraw(d)
    ensures var l := GrassLocation(vertex, quadSideLength, d);
      l.z == vertex.z &&
      Abs(l.x - vertex.x) <= 0.5 * quadSideLength && Abs(l.y - vertex.y) <= 0.5 * quadSideLength
  {
    var px := RandRange(FloatInterval(-0.5, 0.5), d.offsetX);
    var py := RandRange(FloatInterval(-0.5, 0.5), d.offsetY);
    RandRangeWithin(FloatInterval(-0.5, 0.5), d.offsetX);
    RandRangeWithin(FloatInterval(-0.5, 0.5), d.offsetY);
    OffsetWithinHalf(px, quadSideLength);
    OffsetWithinHalf(py, quadSideLength);
  }

  lemma OffsetWithinHalf(p: real, side: real)
    requires -0.5 <= p <= 0.5 && side >= 0.0
    ensures Abs(p * side) <= 0.5 * side
  {
    var a, b := 0.5 - p, 0.5 + p;
    assert a * side >= 0.0 by {
      if a > 0.0 && side > 0.0 {
        ProductPositive(a, side);
      }
    }
    assert b * side >= 0.0 by {
      if b > 0.0 && side > 0.0 {
        ProductPositive(b, side);
      }
    }
    assert a * side == 0.5 * side - p * side;
    assert b * side == 0.5 * side + p * side;
  }

  /** The instances of one variety: as many as the count says (none for a negative count) */
  function VarietyTransforms(vertex: Vec3, quadSideLength: real, variety: GrassVariety, count: int,
                             draws: nat -> InstanceDraw): (s: seq<InstanceTransform>)
    ensures |s| == if count > 0 then count else 0
    ensures forall k :: 0 <= k < |s| ==> s[k].scale == GrassScale(variety, draws(k))
  {
    if count <= 0 then []
    else (
      seq(count, k requires 0 <= k < count =>
        InstanceTransform(GrassLocation(vertex, quadSideLength, draws(k)), GrassScale(variety, draws(k)))))
  }

  /** The while loop of GenerateGrassTransformsAtVertex for one variety, counting down the remaining instances */
  method PlaceInstances(vertex: Vec3, quadSideLength: real, variety: GrassVariety, count: int,
                        draws: nat -> InstanceDraw) returns (transforms: seq<InstanceTransform>)
    ensures transforms == VarietyTransforms(vertex, quadSideLength, variety, count, draws)
  {
    transforms := [];
    var remainingInstanceCount := count;
    while remainingInstanceCount > 0
      invariant count > 0 ==> 0 <= remainingInstanceCount <= count
      invariant count <= 0 ==> remainingInstanceCount == count
      invariant |transforms| == if count > 0 then count - remainingInstanceCount else 0
      invariant forall k :: 0 <= k < |transforms| ==>
        transforms[k] == InstanceTransform(GrassLocation(vertex, quadSideLength, draws(k)), GrassScale(variety, draws(k)))
    {
      var d := draws(|transforms|);
      transforms := transforms + [InstanceTransform(GrassLocation(vertex, quadSideLength, d), GrassScale(variety, d))];
      remainingInstanceCount := remainingInstanceCount - 1;
    }
  }

  // ---- the grass data of one vertex ----

  /** FLandscapeGrassVertexData */
  datatype GrassVertexData = GrassVertexData(variety: GrassVariety, transforms: seq<InstanceTransform>)

  /** FLandscapeAdditionalData: grass data per mesh, in insertion order */
  datatype AdditionalData = AdditionalData(grassData: seq<Entry<nat, GrassVertexData>>)

  /** ClearData leaves no grass data */
  const Cleared: AdditionalData := AdditionalData([])

  /** What a vertex's grass transforms depend on besides the selection */
  datatype VertexSite = VertexSite(
    location: Vec3,             // the vertex relative to its tile
    roll: real, pitch: real,    // slope angles of the vertex normal, in degrees
    areaPerSquare: real,
    quadSideLength: real)

  /** The draws for one vertex: one per variety for the rounding, and per variety and instance for the placement */
  datatype VertexDraws = VertexDraws(countDraw: nat -> real, instanceDraw: nat -> nat -> InstanceDraw)

  /** The grass is rejected on a slope steeper than its maximum, when a maximum is set */
  predicate TooSteep(settings: GrassTypeSettings, site: VertexSite)
  {
    settings.maxSlopeAngle > 0.0 && (Abs(site.roll) > settings.maxSlopeAngle || Abs(site.pitch) > settings.maxSlopeAngle)
  }

  /** The entry of variety v after the rounding draw: FindOrAdd for its mesh, its transforms replaced */
  function VarietyEntry(site: VertexSite, weight: real, variety: GrassVariety, vi: nat, draws: VertexDraws): GrassVertexData
  {
    var count := InstanceCount(InstanceCountTarget(site.areaPerSquare, variety.density, weight), draws.countDraw(vi));
    GrassVertexData(variety, VarietyTransforms(site.location, site.quadSideLength, variety, count, draws.instanceDraw(vi)))
  }

  /** The grass data after the first n varieties */
  function VarietiesData(m: seq<Entry<nat, GrassVertexData>>, site: VertexSite, weight: real,
                         varieties: seq<GrassVariety>, draws: VertexDraws, n: nat): seq<Entry<nat, GrassVertexData>>
    requires n <= |varieties|
  {
    if n == 0 then m
    else MapAdd(VarietiesData(m, site, weight, varieties, draws, n - 1), varieties[n - 1].grassMesh,
                VarietyEntry(site, weight, varieties[n - 1], n - 1, draws))
  }

  /** Specification of GenerateGrassTransformsAtVertex applied to cleared data */
  function GrassTransformsSpec(settings: GrassTypeSettings, site: VertexSite, weight: real, draws: VertexDraws): AdditionalData
  {
    if settings.grassType.None? || TooSteep(settings, site) then Cleared
    else AdditionalData(VarietiesData([], site, weight, settings.grassType.value.varieties, draws,
                                      |settings.grassType.value.varieties|))
  }

  /**
   * Each mesh of the grass type ends up with the data of the last variety
   * using it, and with exactly the rounded instance count of that variety.
   */
  lemma {:induction false} VarietiesDataLookup(m: seq<Entry<nat, GrassVertexData>>, site: VertexSite, weight: real,
                                               varieties: seq<GrassVariety>, draws: VertexDraws, n: nat, mesh: nat)
    requires n <= |varieties|
    ensures var last := LastVarietyWithMesh(varieties, mesh, n);
      (last < 0 ==> Lookup(VarietiesData(m, site, weight, varieties, draws, n), mesh) == Lookup(m, mesh)) &&
      (last >= 0 ==> Lookup(VarietiesData(m, site, weight, varieties, draws, n), mesh) ==
                     Some(VarietyEntry(site, weight, varieties[last], last, draws)))
  {
    if n > 0 {
      VarietiesDataLookup(m, site, weight, varieties, draws, n - 1, mesh);
      var prev := VarietiesData(m, site, weight, varieties, draws, n - 1);
      var v := varieties[n - 1];
      var r := MapAdd(prev, v.grassMesh, VarietyEntry(site, weight, v, n - 1, draws));
      assert VarietiesData(m, site, weight, varieties, draws, n) == r;
      if v.grassMesh == mesh {
        assert LastVarietyWithMesh(varieties, mesh, n) == n - 1;
      } else {
        assert LastVarietyWithMesh(varieties, mesh, n) == LastVarietyWithMesh(varieties, mesh, n - 1);
        assert Lookup(r, mesh) == Lookup(prev, mesh);
      }
    }
  }

  /** The last of the first n varieties planting the mesh, or -1 */
  function LastVarietyWithMesh(varieties: seq<GrassVariety>, mesh: nat, n: nat): (r: int)
    requires n <= |varieties|
    ensures -1 <= r < n && (r >= 0 ==> varieties[r].grassMesh == mesh)
  {
    if n == 0 then -1
    else if varieties[n - 1].grassMesh == mesh then n - 1
    else LastVarietyWithMesh(varieties, mesh, n - 1)
  }

  /** GenerateGrassTransformsAtVertex on a cleared vertex: one entry per mesh, filled variety by variety */
  method GrassTransformsAtVertex(settings: GrassTypeSettings, site: VertexSite, weight: real, draws: VertexDraws)
    returns (data: AdditionalData)
    ensures data == GrassTransformsSpec(settings, site, weight, draws)
  {
    data := Cleared;
    if settings.grassType.None? {
      return;
    }
    if settings.maxSlopeAngle > 0.0 &&
       (Abs(site.roll) > settings.maxSlopeAngle || Abs(site.pitch) > settings.maxSlopeAngle) {
      return;
    }
    var varieties := settings.grassType.value.varieties;
    var v := 0;
    while v < |varieties|
      invariant 0 <= v <= |varieties|
      invariant data == AdditionalData(VarietiesData([], site, weight, varieties, draws, v))
    {
      var variety := varieties[v];
      var entry := VarietyTransformsAtVertex(site, weight, variety, v, draws);
      data := AdditionalData(MapAdd(data.grassData, variety.grassMesh, entry));
      v := v + 1;
    }
  }

  /** The body of that loop for variety v: round the instance count with its draw, then place the instances */
  method VarietyTransformsAtVertex(site: VertexSite, weight: real, variety: GrassVariety, v: nat, draws: VertexDraws)
    returns (entry: GrassVertexData)
    ensures entry == VarietyEntry(site, weight, variety, v, draws)
  {
    var instanceCount := InstanceCountTarget(site.areaPerSquare, variety.density, weight);
    var remainingInstanceCount := instanceCount.Floor;
    var remainder := instanceCount - remainingInstanceCount as real;
    if draws.countDraw(v) < remainder {
      remainingInstanceCount := remainingInstanceCount + 1;
    }
    var transforms := PlaceInstances(site.location, site.quadSideLength, variety, remainingInstanceCount, draws.instanceDraw(v));
    entry := GrassVertexData(variety, transforms);
  }

  /** The data GenerateGrassDataForVertex leaves at a vertex: cleared, then filled for the selection if any */
  function VertexDataSpec(yCoordinate: int, x: int, weights: seq<Weight>, bands: seq<HeightBand>, height: real,
                          site: VertexSite, draws: VertexDraws): AdditionalData
  {
    match VertexSelection(yCoordinate, x, weights, bands, height)
    case None => Cleared
    case Some(s) => GrassTransformsSpec(s.grass, site, s.weight, draws)
  }

  /** The first row and column of a tile never get grass: they repeat the neighbouring tile's last row or column */
  lemma NoGrassOnSharedEdges(x: int, weights: seq<Weight>, bands: seq<HeightBand>, height: real,
                             site: VertexSite, draws: VertexDraws, yCoordinate: int)
    requires yCoordinate == 0 || x == 0
    ensures VertexDataSpec(yCoordinate, x, weights, bands, height, site, draws) == Cleared
  {
  }
}
