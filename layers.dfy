/**
 * A landscape layer (ULandscapeLayerComponent): an area of round or box
 * shape whose layer data changes the heights, colours and holes of the
 * vertices inside it, faded out over a smoothing distance.
 *
 * The engine's transforms are parameters: UpdateShape is given the
 * rotated and scaled box extent, and the box smoothing is given the point
 * already in the layer's local frame. The square root of the sphere
 * smoothing is a parameter function as well.
 */
module LandscapeLayers {
  import opened EngineTypes

  /** ESmoothingDirection */
  datatype SmoothingDirection = Inwards | Outwards | Center

  /** ELayerShape */
  datatype LayerShape = Default | Box | Round

  const DefaultSmoothingDistance: real := 200.0
  const DefaultRadius: real := 100.0
  const DefaultExtent: Vec3 := Vec3(100.0, 100.0, 100.0)

  /** FBox2D(): both corners at the origin */
  const ZeroBox: Box2 := Box2(Vec2(0.0, 0.0), Vec2(0.0, 0.0))

  /** The gap UpdateShape keeps between the inner offset and the radius or half extent */
  const InnerMargin: real := 0.001

  /** FMath::Clamp: the lower bound wins when the bounds cross */
  function Clamp(x: real, lo: real, hi: real): real
  {
    if x < lo then lo else if x < hi then x else hi
  }

  function RealMin(a: real, b: real): real
  {
    if a <= b then a else b
  }

  lemma ClampWithin(x: real, lo: real, hi: real)
    requires lo <= hi
    ensures lo <= Clamp(x, lo, hi) <= hi
    ensures lo <= x <= hi ==> Clamp(x, lo, hi) == x
  {
  }

  /** The smoothing offsets: Inner shrinks the unsmoothed area, Bounds widens the affected area */
  datatype Offsets = Offsets(inner: real, bounds: real)

  /** The editable shape settings of a layer */
  datatype LayerSettings = LayerSettings(direction: SmoothingDirection, smoothingDistance: real,
                                         shape: LayerShape, radius: real, extent: Vec3)

  /** The largest inner offset UpdateShape allows: just under the radius, or under the smaller half extent */
  function MaxInnerOffset(st: LayerSettings): real
  {
    if st.shape == Round then st.radius - InnerMargin else RealMin(st.extent.x, st.extent.y) - InnerMargin
  }

  /** UpdateShape's offsets: the split of SmoothingDistance by direction, the inner one clamped unless outwards */
  function SmoothingOffsets(st: LayerSettings): Offsets
  {
    var s := st.smoothingDistance;
    match st.direction
    case Inwards => Offsets(Clamp(s, 0.0, MaxInnerOffset(st)), 0.0)
    case Outwards => Offsets(0.0, s)
    case Center => Offsets(Clamp(s * 0.5, 0.0, MaxInnerOffset(st)), s * 0.5)
  }

  /**
   * Inwards the smoothing goes to the inner offset, outwards to the bounds
   * offset, and centred half to each; the inner offset stays within
   * [0, MaxInnerOffset] whenever that range is not empty, and never
   * exceeds its share of a nonnegative smoothing distance.
   */
  lemma SmoothingOffsetsRules(st: LayerSettings)
    ensures var o := SmoothingOffsets(st); var s := st.smoothingDistance; var m := MaxInnerOffset(st);
      (st.direction == Inwards ==> o.bounds == 0.0 && (0.0 <= s <= m ==> o.inner == s)) &&
      (st.direction == Outwards ==> o.inner == 0.0 && o.bounds == s) &&
      (st.direction == Center ==> o.bounds == s / 2.0 && (0.0 <= s / 2.0 <= m ==> o.inner == s / 2.0)) &&
      (st.direction != Outwards && 0.0 <= m ==> 0.0 <= o.inner <= m) &&
      (s >= 0.0 ==> o.inner + o.bounds <= s)
  {
  }

  /** The shape state UpdateShape computes */
  datatype LayerBounds = LayerBounds(boundingBox: Box2, innerBox: Box2, boundsSmoothingOffset: real, innerSmoothingOffset: real)

  /** The box centred on c reaching r along each axis */
  function BoxAround(c: Vec2, rx: real, ry: real): Box2
  {
    Box2(Vec2(c.x - rx, c.y - ry), Vec2(c.x + rx, c.y + ry))
  }

  /**
   * UpdateShape at origin: a round layer's bounding box reaches the radius
   * plus the bounds offset and its inner box is kept; a box layer's
   * bounding box reaches the transformed extent widened by the bounds
   * offset, and its inner box the extent narrowed by the inner offset.
   */
  function ShapeBounds(st: LayerSettings, innerBox: Box2, origin: Vec3, transformExtent: Vec3 -> Vec3): LayerBounds
  {
    var o := SmoothingOffsets(st);
    var c := origin.XY();
    if st.shape == Round then
      var r := o.bounds + st.radius;
      LayerBounds(BoxAround(c, r, r), innerBox, o.bounds, o.inner)
    else
      var e := transformExtent(Vec3(st.extent.x + o.bounds, st.extent.y + o.bounds, st.extent.z + o.bounds));
      LayerBounds(BoxAround(c, e.x, e.y),
                  Box2(Vec2(c.x - st.extent.x + o.inner, c.y - st.extent.y + o.inner),
                       Vec2(c.x + st.extent.x - o.inner, c.y + st.extent.y - o.inner)),
                  o.bounds, o.inner)
  }

  /** A box layer's inner box is a proper box when its extent is at least the margin on both axes */
  lemma InnerBoxIsProper(st: LayerSettings, innerBox: Box2, origin: Vec3, transformExtent: Vec3 -> Vec3)
    requires st.shape != Round && st.smoothingDistance >= 0.0
    requires st.extent.x >= InnerMargin && st.extent.y >= InnerMargin
    ensures var b := ShapeBounds(st, innerBox, origin, transformExtent).innerBox;
      b.min.x <= b.max.x && b.min.y <= b.max.y
  {
    SmoothingOffsetsRules(st);
  }

  // ---- sphere smoothing ----

  /** The ring between the inner radius R - Inner and the outer radius R + Bounds, on squared distances */
  predicate InRing(radius: real, boundsOffset: real, innerOffset: real, distanceSqr: real)
  {
    Square(radius - innerOffset) <= distanceSqr < Square(radius + boundsOffset)
  }

  /** The source checks a positive smoothing distance wherever the ring is not empty */
  predicate RingHasDistance(radius: real, boundsOffset: real, innerOffset: real, smoothingDistance: real)
  {
    smoothingDistance > 0.0 || Square(radius + boundsOffset) <= Square(radius - innerOffset)
  }

  /**
   * TryCalculateSphereSmoothingFactor, given the distance d whose square is
   * distanceSqr: outside the outer radius nothing, inside the inner radius
   * the full effect, and in the ring a factor linear in the distance.
   */
  function SphereSmoothingFactor(radius: real, boundsOffset: real, innerOffset: real, smoothingDistance: real,
                                 distanceSqr: real, d: real): Option<real>
    requires RingHasDistance(radius, boundsOffset, innerOffset, smoothingDistance)
  {
    if distanceSqr >= Square(radius + boundsOffset) then None
    else if distanceSqr < Square(radius - innerOffset) then Some(0.0)
    else Some(Abs(d - (radius - innerOffset)) / smoothingDistance)
  }

  /** With the offsets of UpdateShape, a nonnegative radius and smoothing distance, the source's check holds */
  lemma OffsetsGiveRingDistance(st: LayerSettings)
    requires st.shape == Round && st.radius >= 0.0 && st.smoothingDistance >= 0.0
    ensures var o := SmoothingOffsets(st); RingHasDistance(st.radius, o.bounds, o.inner, st.smoothingDistance)
  {
    var o := SmoothingOffsets(st);
    RoundOffsetFacts(st);
    if st.smoothingDistance == 0.0 {
      var lo, hi := st.radius + o.bounds, st.radius - o.inner;
      SquareAtMost(lo, hi);
    }
  }

  /** The facts about the round offsets the sphere lemmas need */
  lemma RoundOffsetFacts(st: LayerSettings)
    requires st.shape == Round && st.radius >= 0.0 && st.smoothingDistance >= 0.0
    ensures var o := SmoothingOffsets(st);
      0.0 <= st.radius - o.inner && 0.0 <= st.radius + o.bounds && o.inner + o.bounds <= st.smoothingDistance &&
      (st.smoothingDistance == 0.0 ==> st.radius + o.bounds <= st.radius - o.inner)
  {
  }

  /**
   * The factor of a round layer lies in [0, 1], as the source checks: in
   * the ring the distance exceeds the inner radius by less than the
   * smoothing distance.
   */
  lemma SphereFactorInUnitRange(st: LayerSettings, distanceSqr: real, d: real)
    requires st.shape == Round && st.radius >= 0.0 && st.smoothingDistance >= 0.0
    requires d >= 0.0 && Square(d) == distanceSqr
    ensures var o := SmoothingOffsets(st);
      RingHasDistance(st.radius, o.bounds, o.inner, st.smoothingDistance) &&
      match SphereSmoothingFactor(st.radius, o.bounds, o.inner, st.smoothingDistance, distanceSqr, d)
      case None => distanceSqr >= Square(st.radius + o.bounds)
      case Some(f) => 0.0 <= f <= 1.0 && (f > 0.0 ==> InRing(st.radius, o.bounds, o.inner, distanceSqr))
  {
    var o := SmoothingOffsets(st);
    OffsetsGiveRingDistance(st);
    RoundOffsetFacts(st);
    var inner, outer := st.radius - o.inner, st.radius + o.bounds;
    if InRing(st.radius, o.bounds, o.inner, distanceSqr) {
      if d < inner {
        SquareLess(d, inner);
      }
      if d >= outer {
        SquareAtMost(outer, d);
      }
      assert inner <= d < outer;
      assert 0.0 <= d - inner < st.smoothingDistance;
      QuotientBelowOne(d - inner, st.smoothingDistance);
    }
  }

  // ---- box smoothing ----

  /**
   * TryCalculateBoxSmoothingFactor for a point in the layer's frame: not
   * affected at or beyond the smoothing distance from the inner box,
   * otherwise a factor quadratic in that distance.
   */
  function BoxSmoothingFactor(innerBox: Box2, smoothingDistance: real, point: Vec2): Option<real>
  {
    var distanceSqr := innerBox.SquaredDistanceToPoint(point);
    var smoothingDistanceSqr := Square(smoothingDistance);
    if distanceSqr >= smoothingDistanceSqr then None
    else Some(if distanceSqr == 0.0 then 0.0 else distanceSqr / smoothingDistanceSqr)
  }

  /**
   * A box layer affects a point exactly when its squared distance to the
   * inner box is below the squared smoothing distance, so never with a zero
   * smoothing distance; the factor lies in [0, 1) and is 0 exactly on the
   * inner box.
   */
  lemma BoxFactorRules(innerBox: Box2, smoothingDistance: real, point: Vec2)
    ensures var r := BoxSmoothingFactor(innerBox, smoothingDistance, point);
      var distanceSqr := innerBox.SquaredDistanceToPoint(point);
      (r.None? <==> distanceSqr >= Square(smoothingDistance)) &&
      (smoothingDistance == 0.0 ==> r.None?) &&
      (r.Some? ==> 0.0 <= r.value < 1.0 && (r.value == 0.0 <==> distanceSqr == 0.0))
  {
    var distanceSqr := innerBox.SquaredDistanceToPoint(point);
    var sq := Square(smoothingDistance);
    if distanceSqr < sq {
      QuotientBelowOne(distanceSqr, sq);
    }
  }

  /** On a proper inner box, the full effect (factor 0) is found exactly inside the closed box */
  lemma BoxFullEffectInside(innerBox: Box2, smoothingDistance: real, point: Vec2)
    requires innerBox.min.x <= innerBox.max.x && innerBox.min.y <= innerBox.max.y && smoothingDistance != 0.0
    ensures BoxSmoothingFactor(innerBox, smoothingDistance, point) == Some(0.0) <==>
      innerBox.min.x <= point.x <= innerBox.max.x && innerBox.min.y <= point.y <= innerBox.max.y
  {
    innerBox.SquaredDistanceZeroIffInside(point);
    BoxFactorRules(innerBox, smoothingDistance, point);
    var p, q := smoothingDistance, smoothingDistance;
    if smoothingDistance < 0.0 {
      SquarePositive(-smoothingDistance);
      assert Square(-smoothingDistance) == Square(smoothingDistance);
    } else {
      SquarePositive(smoothingDistance);
    }
  }

  // ---- the effect of the layer data ----

  /** What one layer data object does to a vertex: its new height and colour, and possibly a hole flag */
  datatype LayerDataEffect = LayerDataEffect(height: real, color: Color, holeFlag: Option<bool>)

  /**
   * ULandscapeLayerDataBase::ApplyToVertices, which is not part of this
   * model: given the data object's id, the vertex index, its height and
   * colour and the smoothing factor.
   */
  type LayerDataApply = (nat, int, real, Color, real) -> LayerDataEffect

  /** A vertex's height and colour, and the hole flags set for it in order */
  datatype VertexValues = VertexValues(height: real, color: Color, holeFlags: seq<bool>)

  /** The layer data objects applied in order, null entries skipped */
  function LayerDataApplied(layers: seq<Option<nat>>, apply: LayerDataApply, vertexIndex: int, factor: real,
                            v: VertexValues): VertexValues
    decreases |layers|
  {
    if |layers| == 0 then v
    else
      var before := LayerDataApplied(layers[..|layers| - 1], apply, vertexIndex, factor, v);
      match layers[|layers| - 1]
      case None => before
      case Some(id) =>
        var e := apply(id, vertexIndex, before.height, before.color, factor);
        VertexValues(e.height, e.color, before.holeFlags + (if e.holeFlag.Some? then [e.holeFlag.value] else []))
  }

  class LayerComponent {
    var smoothingDirection: SmoothingDirection
    var smoothingDistance: real
    var shape: LayerShape
    var radius: real
    var extent: Vec3
    /** The layer data objects (Layers), by id; None is a null entry */
    var layers: seq<Option<nat>>
    /** Where the bounds component or the owning actor is; None when the layer has neither */
    const origin: Option<Vec3>
    var boundingBox: Box2
    var innerBox: Box2
    var boundsSmoothingOffset: real
    var innerSmoothingOffset: real

    function Settings(): LayerSettings
      reads this
    {
      LayerSettings(smoothingDirection, smoothingDistance, shape, radius, extent)
    }

    function Bounds(): LayerBounds
      reads this
    {
      LayerBounds(boundingBox, innerBox, boundsSmoothingOffset, innerSmoothingOffset)
    }

    /** The source's smoothing check can not fail, and a layer without a location affects nothing */
    predicate Valid()
      reads this
    {
      (shape == Round ==> RingHasDistance(radius, boundsSmoothingOffset, innerSmoothingOffset, smoothingDistance)) &&
      (origin.None? ==> boundingBox == ZeroBox)
    }

    /** A new layer with the default settings: inwards smoothing over 200, a box of extent 100, radius 100 */
    constructor(origin: Option<Vec3>, layers: seq<Option<nat>>)
      ensures this.origin == origin && this.layers == layers
      ensures Settings() == LayerSettings(Inwards, DefaultSmoothingDistance, Box, DefaultRadius, DefaultExtent)
      ensures Bounds() == LayerBounds(ZeroBox, ZeroBox, 0.0, 0.0)
      ensures Valid()
    {
      this.origin := origin;
      this.layers := layers;
      smoothingDirection := Inwards;
      smoothingDistance := DefaultSmoothingDistance;
      shape := Box;
      radius := DefaultRadius;
      extent := DefaultExtent;
      boundingBox := ZeroBox;
      innerBox := ZeroBox;
      boundsSmoothingOffset := 0.0;
      innerSmoothingOffset := 0.0;
    }

    /** UpdateShape, given the owner's transform applied to a box extent */
    method UpdateShape(transformExtent: Vec3 -> Vec3)
      modifies this`boundingBox, this`innerBox, this`boundsSmoothingOffset, this`innerSmoothingOffset
      ensures origin.None? ==> Bounds() == old(Bounds())
      ensures origin.Some? ==> Bounds() == ShapeBounds(Settings(), old(innerBox), origin.value, transformExtent)
      ensures old(Valid()) && radius >= 0.0 && smoothingDistance >= 0.0 ==> Valid()
    {
      if origin.None? {
        return;
      }
      var o := origin.value;
      var inner, bounds := SmoothingOffsetsOf();
      if radius >= 0.0 && smoothingDistance >= 0.0 && shape == Round {
        OffsetsGiveRingDistance(Settings());
      }
      innerSmoothingOffset, boundsSmoothingOffset := inner, bounds;
      SetBoxes(o, transformExtent);
    }

    /** The second half of UpdateShape: the boxes around the origin, grown or shrunk by the offsets */
    method SetBoxes(o: Vec3, transformExtent: Vec3 -> Vec3)
      requires Offsets(innerSmoothingOffset, boundsSmoothingOffset) == SmoothingOffsets(Settings())
      modifies this`boundingBox, this`innerBox
      ensures Bounds() == ShapeBounds(Settings(), old(innerBox), o, transformExtent)
    {
      var inner, bounds := innerSmoothingOffset, boundsSmoothingOffset;
      if shape == Round {
        var r := bounds + radius;
        boundingBox := BoxAround(o.XY(), r, r);
        return;
      }
      var e := transformExtent(Vec3(extent.x + bounds, extent.y + bounds, extent.z + bounds));
      boundingBox := BoxAround(o.XY(), e.x, e.y);
      innerBox := Box2(Vec2(o.x - extent.x + inner, o.y - extent.y + inner),
                       Vec2(o.x + extent.x - inner, o.y + extent.y - inner));
    }

    /** The first half of UpdateShape: the smoothing distance split into the inner and the bounds offset */
    method SmoothingOffsetsOf() returns (inner: real, bounds: real)
      ensures Offsets(inner, bounds) == SmoothingOffsets(Settings())
    {
      match smoothingDirection {
        case Inwards =>
          inner, bounds := smoothingDistance, 0.0;
        case Outwards =>
          inner, bounds := 0.0, smoothingDistance;
        case Center =>
          inner, bounds := smoothingDistance * 0.5, smoothingDistance * 0.5;
      }
      // keep the inner offset below the radius or the half extent
      if smoothingDirection != Outwards {
        var maxOffset := if shape == Round then radius - InnerMargin else RealMin(extent.x, extent.y) - InnerMargin;
        inner := Clamp(inner, 0.0, maxOffset);
      }
    }

    /** OnRegister recomputes the shape */
    method OnRegister(transformExtent: Vec3 -> Vec3)
      modifies this`boundingBox, this`innerBox, this`boundsSmoothingOffset, this`innerSmoothingOffset
      ensures origin.None? ==> Bounds() == old(Bounds())
      ensures origin.Some? ==> Bounds() == ShapeBounds(Settings(), old(innerBox), origin.value, transformExtent)
      ensures old(Valid()) && radius >= 0.0 && smoothingDistance >= 0.0 ==> Valid()
    {
      UpdateShape(transformExtent);
    }

    /** IsAffectedByLayer: strictly inside the bounding box */
    predicate IsAffectedByLayer(location: Vec2)
      reads this
    {
      boundingBox.IsInside(location)
    }

    /**
     * TryCalculateSmoothingFactor by shape, given the location, the same
     * location in the layer's frame and the square root; a layer of the
     * default shape is never affected.
     */
    function SmoothingFactor(location: Vec2, localPoint: Vec2, sqrt: real -> real): Option<real>
      reads this
      requires Valid() && origin.Some?
    {
      var c := origin.value.XY();
      match shape
      case Box => BoxSmoothingFactor(innerBox, smoothingDistance, localPoint.Add(c))
      case Round =>
        var distanceSqr := location.Sub(c).SizeSquared();
        SphereSmoothingFactor(radius, boundsSmoothingOffset, innerSmoothingOffset, smoothingDistance,
                              distanceSqr, sqrt(distanceSqr))
      case Default => None
    }

    /** What ApplyLayerData leaves at a vertex */
    function LayerDataResult(vertexIndex: int, location: Vec2, localPoint: Vec2, sqrt: real -> real,
                             apply: LayerDataApply, height: real, color: Color): VertexValues
      reads this
      requires Valid()
    {
      var untouched := VertexValues(height, color, []);
      if !IsAffectedByLayer(location) then untouched
      else match SmoothingFactor(location, localPoint, sqrt)
        case None => untouched
        case Some(factor) => LayerDataApplied(layers, apply, vertexIndex, factor, untouched)
    }

    /** Outside the bounding box, or where the smoothing rejects the vertex, nothing changes */
    lemma UnaffectedVertexUnchanged(vertexIndex: int, location: Vec2, localPoint: Vec2, sqrt: real -> real,
                                    apply: LayerDataApply, height: real, color: Color)
      requires Valid()
      requires !IsAffectedByLayer(location) || (origin.Some? && SmoothingFactor(location, localPoint, sqrt).None?)
      ensures LayerDataResult(vertexIndex, location, localPoint, sqrt, apply, height, color) == VertexValues(height, color, [])
    {
    }

    /** ApplyLayerData for one vertex at the given location */
    method ApplyLayerData(vertexIndex: int, location: Vec2, localPoint: Vec2, sqrt: real -> real,
                          apply: LayerDataApply, height: real, color: Color)
      returns (outHeight: real, outColor: Color, holeFlags: seq<bool>)
      requires Valid()
      ensures VertexValues(outHeight, outColor, holeFlags) ==
        LayerDataResult(vertexIndex, location, localPoint, sqrt, apply, height, color)
    {
      outHeight, outColor, holeFlags := height, color, [];
      if !IsAffectedByLayer(location) {
        return;
      }
      var smoothingFactor := SmoothingFactor(location, localPoint, sqrt);
      if smoothingFactor.Some? {
        var i := 0;
        while i < |layers|
          invariant 0 <= i <= |layers|
          invariant VertexValues(outHeight, outColor, holeFlags) ==
            LayerDataApplied(layers[..i], apply, vertexIndex, smoothingFactor.value, VertexValues(height, color, []))
        {
          assert layers[..i + 1][..i] == layers[..i];
          if layers[i].Some? {
            var e := apply(layers[i].value, vertexIndex, outHeight, outColor, smoothingFactor.value);
            outHeight, outColor := e.height, e.color;
            if e.holeFlag.Some? {
              holeFlags := holeFlags + [e.holeFlag.value];
            }
          }
          i := i + 1;
        }
        assert layers[..|layers|] == layers;
      }
    }
  }
}
