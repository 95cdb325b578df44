/**
 * Ground-type layer sets of a runtime landscape: up to four ground types
 * share one render target, one per colour channel, and the per-vertex
 * weights are read back from the target's pixels. The weight map a vertex
 * gets is an insertion-ordered map (the engine's TMap), so a key added
 * twice keeps its first position and takes the later value.
 */
module GroundTypes {
  import opened EngineTypes
  import opened Grid
  import opened Grass

  /** A ULandscapeGroundTypeData asset: its identity and the grass it grows */
  datatype GroundType = GroundType(id: nat, grass: GrassTypeSettings)

  /** A slot of a layer set: None is a null pointer */
  type Slot = Option<GroundType>

  /** The render target of a layer set; only its width is read */
  datatype RenderTarget = RenderTarget(sizeX: int)

  /** FRuntimeLandscapeGroundTypeLayerSet */
  datatype LayerSet = LayerSet(renderTarget: Option<RenderTarget>, groundTypes: seq<Slot>, vertexLayerWeights: seq<Color>)
  {
    /** GetPixelIndexForCoordinates: row-major pixel of a landscape vertex in the render target */
    function PixelIndexForCoordinates(vertexCoords: IntVec2): int
      requires renderTarget.Some?
    {
      vertexCoords.x + vertexCoords.y * renderTarget.value.sizeX
    }

    /** Within the target's width, the pixel index gives back the vertex's column and row */
    lemma PixelIndexRoundTrip(vertexCoords: IntVec2)
      requires renderTarget.Some? && 0 <= vertexCoords.x < renderTarget.value.sizeX && vertexCoords.y >= 0
      ensures var p := PixelIndexForCoordinates(vertexCoords);
        p % renderTarget.value.sizeX == vertexCoords.x && p / renderTarget.value.sizeX == vertexCoords.y
    {
      DivModUnique(renderTarget.value.sizeX, vertexCoords.y, vertexCoords.x);
    }

    /** Pixels of distinct in-width vertices are distinct */
    lemma PixelIndexInjective(a: IntVec2, b: IntVec2)
      requires renderTarget.Some?
      requires 0 <= a.x < renderTarget.value.sizeX && a.y >= 0
      requires 0 <= b.x < renderTarget.value.sizeX && b.y >= 0
      requires PixelIndexForCoordinates(a) == PixelIndexForCoordinates(b)
      ensures a == b
    {
      PixelIndexRoundTrip(a);
      PixelIndexRoundTrip(b);
    }

    /** GetColorChannelForLayer: the unit colour of the channel the ground type's first slot maps to */
    function ColorChannelForLayer(groundType: Slot): LinearColor
    {
      match FirstIndexOf(groundTypes, groundType)
      case None => Black
      case Some(i) =>
        if i == 0 then LinearColor(1.0, 0.0, 0.0, 0.0)
        else if i == 1 then LinearColor(0.0, 1.0, 0.0, 0.0)
        else if i == 2 then LinearColor(0.0, 0.0, 1.0, 0.0)
        else if i == 3 then LinearColor(0.0, 0.0, 0.0, 1.0)
        else Black
    }

    /**
     * Drawing and reading back agree: the colour drawn for the ground type in
     * slot i (its first slot) is 1 exactly in the channel the weight lookup
     * reads for slot i, and 0 in the other three.
     */
    lemma ColorChannelMatchesReadBack(i: nat, channel: nat)
      requires i < 4 && i < |groundTypes| && channel < 4
      requires forall j :: 0 <= j < i ==> groundTypes[j] != groundTypes[i]
      ensures LinearChannel(ColorChannelForLayer(groundTypes[i]), channel) == if channel == i then 1.0 else 0.0
    {
      FirstIndexOfFindsFirst(groundTypes, i);
    }

    /** A ground type in no slot is drawn black, which leaves every weight channel but alpha at 0 */
    lemma ColorChannelForMissingLayer(groundType: Slot)
      requires groundType !in groundTypes
      ensures ColorChannelForLayer(groundType) == Black
    {
      FirstIndexOfMissing(groundTypes, groundType);
    }
  }

  /** The constructor: four null slots, no render target, no weights */
  function NewLayerSet(): (s: LayerSet)
    ensures |s.groundTypes| == 4 && forall i :: 0 <= i < 4 ==> s.groundTypes[i].None?
    ensures s.renderTarget.None? && s.vertexLayerWeights == []
  {
    LayerSet(None, [None, None, None, None], [])
  }

  /** One channel of a linear colour, in R, G, B, A order */
  function LinearChannel(c: LinearColor, channel: nat): real
  {
    if channel == 0 then c.r else if channel == 1 then c.g else if channel == 2 then c.b else c.a
  }

  /** The byte the weight lookup reads for slot `layerIndex`; a fifth slot or later reads 0 */
  function ChannelValue(c: Color, layerIndex: int): byte
  {
    if layerIndex == 0 then c.r
    else if layerIndex == 1 then c.g
    else if layerIndex == 2 then c.b
    else if layerIndex == 3 then c.a
    else 0
  }

  /**
   * TryGetLayerSetForGroundType: the position of the first layer set that
   * has the ground type in one of its slots, if any.
   */
  function LayerSetForGroundType(sets: seq<LayerSet>, groundType: Slot): (r: Option<nat>)
    ensures r.Some? ==> (r.value < |sets| && groundType in sets[r.value].groundTypes &&
      forall j :: 0 <= j < r.value ==> groundType !in sets[j].groundTypes)
    ensures r.None? <==> forall j :: 0 <= j < |sets| ==> groundType !in sets[j].groundTypes
  {
    if |sets| == 0 then None
    else if groundType in sets[0].groundTypes then Some(0)
    else match LayerSetForGroundType(sets[1..], groundType)
      case None => None
      case Some(i) => Some(i + 1)
  }

  /** One entry of a vertex's weight map: a (possibly null) ground type and its weight */
  type Weight = Entry<Slot, real>

  /** The weight the lookup stores for one slot: the channel byte scaled to [0, 1] */
  function SlotWeight(pixel: Color, layerIndex: int): (w: real)
    ensures 0.0 <= w <= 1.0
  {
    ChannelValue(pixel, layerIndex) as real / 255.0
  }

  /** The map after adding the first n slots of a layer set, slot i weighted by channel i of the pixel */
  function SlotWeights(m: seq<Weight>, slots: seq<Slot>, pixel: Color, n: nat): seq<Weight>
    requires n <= |slots|
  {
    if n == 0 then m else MapAdd(SlotWeights(m, slots, pixel, n - 1), slots[n - 1], SlotWeight(pixel, n - 1))
  }

  /** The last of the first n slots holding k */
  function LastIndexOf(slots: seq<Slot>, k: Slot, n: nat): int
    requires n <= |slots|
  {
    if n == 0 then -1 else if slots[n - 1] == k then n - 1 else LastIndexOf(slots, k, n - 1)
  }

  /**
   * After the first n slots, a key held by one of them has the weight of the
   * last slot holding it; every other key keeps its earlier value.
   */
  lemma {:induction false} SlotWeightsLookup(m: seq<Weight>, slots: seq<Slot>, pixel: Color, n: nat, k: Slot)
    requires n <= |slots|
    ensures k in slots[..n] ==> Lookup(SlotWeights(m, slots, pixel, n), k) == Some(SlotWeight(pixel, LastIndexOf(slots, k, n)))
    ensures k !in slots[..n] ==> Lookup(SlotWeights(m, slots, pixel, n), k) == Lookup(m, k)
  {
    if n > 0 {
      SlotWeightsLookup(m, slots, pixel, n - 1, k);
      assert slots[..n] == slots[..n - 1] + [slots[n - 1]];
    }
  }

  /** The contribution of one layer set: nothing without a render target or a pixel for the vertex */
  function SetWeights(m: seq<Weight>, layerSet: LayerSet, vertexCoords: IntVec2): seq<Weight>
  {
    if layerSet.renderTarget.None? then m
    else
      var p := layerSet.PixelIndexForCoordinates(vertexCoords);
      if 0 <= p < |layerSet.vertexLayerWeights| then
        SlotWeights(m, layerSet.groundTypes, layerSet.vertexLayerWeights[p], |layerSet.groundTypes|)
      else m
  }

  /** The weight map built from the first n layer sets */
  function LayerWeights(sets: seq<LayerSet>, vertexCoords: IntVec2, n: nat): seq<Weight>
    requires n <= |sets|
  {
    if n == 0 then [] else SetWeights(LayerWeights(sets, vertexCoords, n - 1), sets[n - 1], vertexCoords)
  }

  /** Specification of GetGroundTypeLayerWeightsAtVertexCoordinates */
  function LayerWeightsAt(g: LandscapeGrid, sets: seq<LayerSet>, sectionIndex: int, x: int, y: int): seq<Weight>
    requires g.Valid()
  {
    LayerWeights(sets, g.VertexCoordinatesWithinLandscape(sectionIndex, x, y), |sets|)
  }

  predicate AllWeightsInUnitRange(m: seq<Weight>)
  {
    forall i :: 0 <= i < |m| ==> 0.0 <= m[i].value <= 1.0
  }

  lemma {:induction false} SlotWeightsInUnitRange(m: seq<Weight>, slots: seq<Slot>, pixel: Color, n: nat)
    requires n <= |slots| && AllWeightsInUnitRange(m)
    ensures AllWeightsInUnitRange(SlotWeights(m, slots, pixel, n))
  {
    if n > 0 {
      var before := SlotWeights(m, slots, pixel, n - 1);
      SlotWeightsInUnitRange(m, slots, pixel, n - 1);
      MapAddInUnitRange(before, slots[n - 1], SlotWeight(pixel, n - 1));
    }
  }

  lemma MapAddInUnitRange(m: seq<Weight>, k: Slot, v: real)
    requires AllWeightsInUnitRange(m) && 0.0 <= v <= 1.0
    ensures AllWeightsInUnitRange(MapAdd(m, k, v))
  {
    FirstIndexOfSound(Keys(m), k);
  }

  /** Every weight of a vertex's map lies in [0, 1] */
  lemma {:induction false} LayerWeightsInUnitRange(sets: seq<LayerSet>, vertexCoords: IntVec2, n: nat)
    requires n <= |sets|
    ensures AllWeightsInUnitRange(LayerWeights(sets, vertexCoords, n))
  {
    if n > 0 {
      LayerWeightsInUnitRange(sets, vertexCoords, n - 1);
      var layerSet := sets[n - 1];
      if layerSet.renderTarget.Some? {
        var p := layerSet.PixelIndexForCoordinates(vertexCoords);
        if 0 <= p < |layerSet.vertexLayerWeights| {
          SlotWeightsInUnitRange(LayerWeights(sets, vertexCoords, n - 1), layerSet.groundTypes,
                                 layerSet.vertexLayerWeights[p], |layerSet.groundTypes|);
        }
      }
    }
  }

  /** GetGroundTypeLayerWeightsAtVertexCoordinates: walks the layer sets and their slots, adding one weight per slot */
  method GroundTypeLayerWeightsAtVertexCoordinates(g: LandscapeGrid, sets: seq<LayerSet>, sectionIndex: int, x: int, y: int)
    returns (result: seq<Weight>)
    requires g.Valid()
    ensures result == LayerWeightsAt(g, sets, sectionIndex, x, y)
  {
    var vertexCoordinates := g.VertexCoordinatesWithinLandscape(sectionIndex, x, y);
    result := [];
    var s := 0;
    while s < |sets|
      invariant 0 <= s <= |sets|
      invariant result == LayerWeights(sets, vertexCoordinates, s)
    {
      var layerSet := sets[s];
      if layerSet.renderTarget.Some? {
        var pixelIndex := layerSet.PixelIndexForCoordinates(vertexCoordinates);
        if 0 <= pixelIndex < |layerSet.vertexLayerWeights| {
          var colorAtPixel := layerSet.vertexLayerWeights[pixelIndex];
          var layerIndex := 0;
          while layerIndex < |layerSet.groundTypes|
            invariant 0 <= layerIndex <= |layerSet.groundTypes|
            invariant result == SlotWeights(LayerWeights(sets, vertexCoordinates, s), layerSet.groundTypes, colorAtPixel, layerIndex)
          {
            var value := ChannelValue(colorAtPixel, layerIndex);
            result := MapAdd(result, layerSet.groundTypes[layerIndex], value as real / 255.0);
            layerIndex := layerIndex + 1;
          }
        }
      }
      s := s + 1;
    }
  }
}
