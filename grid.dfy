/**
 * Grid addressing of a runtime landscape: the landscape is a row-major
 * grid of square tiles (components), each tile a row-major grid of
 * vertices. Tile ids, vertex ids and render-target pixels are all
 * addressed with the integer arithmetic of ARuntimeLandscape.
 */
module Grid {
  import opened EngineTypes

  /** C++ `a % b` with b > 0: truncates toward zero, so the remainder has the sign of a */
  function TruncatedRemainder(a: int, b: int): (r: int)
    requires b > 0
    ensures a >= 0 ==> 0 <= r < b && r == a % b
    ensures a < 0 ==> -b < r <= 0 && r == -((-a) % b)
  {
    if a >= 0 then a % b else -((-a) % b)
  }

  /** A multiple of w lies outside (-w, w) unless the multiplier is zero */
  lemma MultipleOutsideBand(x: int, w: int)
    requires w >= 1
    ensures x >= 1 ==> x * w >= w
    ensures x <= -1 ==> x * w <= -w
  {
    if x >= 1 {
      assert x * w == w + (x - 1) * w;
    } else if x <= -1 {
      assert x * w == -w + (x + 1) * w;
    }
  }

  /** q * w + m with 0 <= m < w has quotient q and remainder m */
  lemma DivModUnique(w: int, q: int, m: int)
    requires w >= 1 && 0 <= m < w
    ensures (q * w + m) / w == q && (q * w + m) % w == m
  {
    var t := q * w + m;
    var d := t / w;
    assert t == d * w + t % w;
    assert (q - d) * w == t % w - m;
    MultipleOutsideBand(q - d, w);
  }

  /** Multiplying by a nonnegative factor keeps an order */
  lemma MulMonotone(a: int, b: int, c: int)
    requires a <= b && c >= 0
    ensures a * c <= b * c
  {
    assert b * c - a * c == (b - a) * c;
  }

  /** Vertex k of cell s, with r quads per cell, lies on the raster of n cells */
  lemma CellVertexInRaster(s: int, n: int, r: int, k: int)
    requires 0 <= s < n && r >= 1 && 0 <= k <= r
    ensures 0 <= r * s + k <= n * r
  {
    MulMonotone(0, s, r);
    MulMonotone(s, n - 1, r);
    assert r * s == s * r;
    assert (n - 1) * r + r == n * r;
  }

  /** k <= floor(x / c) exactly when k * c <= x, for a positive c */
  lemma FloorDivAtLeast(x: real, c: real, k: int)
    requires c > 0.0
    ensures k <= (x / c).Floor <==> k as real * c <= x
  {
    var q := x / c;
    assert q * c == x;
    if k <= q.Floor {
      assert k as real <= q;
      assert k as real * c <= q * c;
    } else {
      assert k as real > q;
      assert k as real * c > q * c;
    }
  }

  /** An id lies in a w x h grid exactly when its row does */
  lemma TileIdInGrid(t: int, w: int, h: int)
    requires w >= 1 && h >= 1
    ensures 0 <= t < w * h <==> 0 <= t / w < h
  {
    var q, m := t / w, t % w;
    DivModFacts(t, w);
    assert w * h == h * w;
    if q >= 0 {
      MulMonotone(0, q, w);
      assert (q + 1) * w == q * w + w;
      if q < h {
        MulMonotone(q + 1, h, w);
      } else {
        MulMonotone(h, q, w);
      }
    }
  }

  lemma DivModFacts(i: int, w: int)
    requires w >= 1
    ensures i == (i / w) * w + i % w && 0 <= i % w < w
    ensures i >= 0 ==> i / w >= 0
  {
  }

  /** Cell c of n equal cells of a length l lies within [0, l] */
  lemma CellInside(c: int, n: int, l: real)
    requires 0 <= c < n && l > 0.0
    ensures 0.0 <= c as real * (l / n as real)
    ensures (c + 1) as real * (l / n as real) <= l
  {
    var s := l / n as real;
    assert n as real * s == l;
    assert (c + 1) as real <= n as real;
    assert l - (c + 1) as real * s == (n - c - 1) as real * s;
  }

  lemma NextCellStart(c: int, s: real)
    ensures (c + 1) as real * s - c as real * s == s
  {
  }

  /** A band [lo, hi] meeting cell c of n cells of size cs lies over the cells: lo below their end, hi past their start */
  lemma CellMeetsBand(c: int, n: int, cs: real, lo: real, hi: real)
    requires 0 <= c < n && cs > 0.0
    requires c as real * cs <= hi && lo < (c + 1) as real * cs
    ensures lo < n as real * cs && 0.0 <= hi
  {
    CellWithin(c, n, cs);
  }

  /** Cell c of n cells of side cs starts at or after 0 and ends at or before n * cs */
  lemma CellWithin(c: int, n: int, cs: real)
    requires 0 <= c < n && cs > 0.0
    ensures 0.0 <= c as real * cs
    ensures (c + 1) as real * cs <= n as real * cs
  {
    assert n as real * cs - (c + 1) as real * cs == (n - c - 1) as real * cs;
  }

  /**
   * One axis of the clamped range: from the first cell the interval
   * [lo, hi] reaches to the last, cut to the n cells of the grid. When the
   * interval meets [0, n * cs], the range is a (possibly empty) run of cells.
   */
  lemma AxisRangeProper(lo: real, hi: real, n: int, cs: real)
    requires cs > 0.0 && n >= 1 && lo <= hi && 0.0 <= hi && lo <= n as real * cs
    ensures 0 <= Max((lo / cs).Floor, 0) <= Min((hi / cs).Floor, n - 1) + 1
  {
    var a := (lo / cs).Floor;
    FloorDivAtLeast(lo, cs, a);
    FloorDivAtLeast(hi, cs, a);
    FloorDivAtLeast(hi, cs, 0);
    FloorDivAtLeast(lo, cs, n + 1);
    NextCellStart(n, cs);
  }

  /** An interval starting exactly at the far end n * cs of the grid reaches no cell */
  lemma AxisRangeEmptyPastEnd(lo: real, hi: real, n: int, cs: real)
    requires cs > 0.0 && lo == n as real * cs && lo <= hi
    ensures Min((hi / cs).Floor, n - 1) < Max((lo / cs).Floor, 0)
  {
    FloorDivAtLeast(lo, cs, n);
    FloorDivAtLeast(lo, cs, n + 1);
    NextCellStart(n, cs);
  }

  /** An interval ending exactly at the near end 0 of the grid reaches the first cell only */
  lemma AxisRangeFirstCell(lo: real, hi: real, n: int, cs: real)
    requires cs > 0.0 && n >= 1 && lo <= hi == 0.0
    ensures Max((lo / cs).Floor, 0) == 0 == Min((hi / cs).Floor, n - 1)
  {
    FloorDivAtLeast(lo, cs, 1);
    FloorDivAtLeast(hi, cs, 0);
    FloorDivAtLeast(hi, cs, 1);
  }

  function Max(a: int, b: int): int { if a >= b then a else b }
  function Min(a: int, b: int): int { if a <= b then a else b }

  /**
   * The sizes a runtime landscape derives from its parent landscape:
   * tiles per side, quads per tile side, vertices per tile side, the
   * overall extent, the side length of a (square) tile and of a quad.
   * The engine keeps the first two in float vectors; they always hold
   * whole numbers, so they are integers here.
   */
  datatype LandscapeGrid = LandscapeGrid(
    componentAmount: IntVec2,
    componentResolution: IntVec2,
    vertexAmountPerComponent: IntVec2,
    landscapeSize: Vec2,
    componentSize: real,
    quadSideLength: real)
  {
    /** A usable grid: at least one tile and one quad per side, one more vertex than quads per side, positive sizes */
    predicate Valid()
    {
      componentAmount.x >= 1 && componentAmount.y >= 1 &&
      componentResolution.x >= 1 && componentResolution.y >= 1 &&
      vertexAmountPerComponent == IntVec2(componentResolution.x + 1, componentResolution.y + 1) &&
      componentSize > 0.0 && quadSideLength > 0.0 &&
      landscapeSize.x > 0.0 && landscapeSize.y > 0.0
    }

    /**
     * The tiles exactly cover the landscape's extent. InitializeFromLandscape
     * takes the extent from the actor bounds and one quad side from the X
     * axis for both axes, so this holds along X when whole tiles span the
     * extent, and along Y only when the quads are square as well; the model
     * assumes both.
     */
    predicate TilesCoverExtent()
    {
      landscapeSize == Vec2(componentAmount.x as real * componentSize, componentAmount.y as real * componentSize)
    }

    function ComponentCount(): int
    {
      componentAmount.x * componentAmount.y
    }

    /** GetTotalVertexAmountPerComponent */
    function TotalVertexAmountPerComponent(): (n: int)
      requires Valid()
      ensures n == (componentResolution.x + 1) * (componentResolution.y + 1)
      ensures n >= 4
    {
      vertexAmountPerComponent.x * vertexAmountPerComponent.y
    }

    /** GetComponentCoordinates: column and row of a tile id */
    function ComponentCoordinates(sectionIndex: int): (c: IntVec2)
      requires Valid()
      ensures sectionIndex >= 0 ==>
        0 <= c.x < componentAmount.x && 0 <= c.y && c.y * componentAmount.x + c.x == sectionIndex
    {
      DivModFacts(sectionIndex, componentAmount.x);
      IntVec2(TruncatedRemainder(sectionIndex, componentAmount.x), sectionIndex / componentAmount.x)
    }

    /** Every tile id of the landscape has a column and a row inside the grid */
    lemma ComponentCoordinatesInGrid(sectionIndex: int)
      requires Valid() && 0 <= sectionIndex < ComponentCount()
      ensures 0 <= ComponentCoordinates(sectionIndex).y < componentAmount.y
    {
      var c := ComponentCoordinates(sectionIndex);
      MultipleOutsideBand(c.y - componentAmount.y + 1, componentAmount.x);
    }

    /** The id of the tile at (column, row) is row * W + column */
    lemma ComponentIdRoundTrip(column: int, row: int)
      requires Valid() && 0 <= column < componentAmount.x && 0 <= row
      ensures ComponentCoordinates(row * componentAmount.x + column) == IntVec2(column, row)
    {
      DivModUnique(componentAmount.x, row, column);
    }

    /** GetVertexCoordinatesWithinComponent: the remainder is taken by VX but the quotient by VY */
    function VertexCoordinatesWithinComponent(vertexIndex: int): (c: IntVec2)
      requires Valid()
      ensures vertexIndex >= 0 ==> 0 <= c.x < vertexAmountPerComponent.x && 0 <= c.y
    {
      DivModFacts(vertexIndex, vertexAmountPerComponent.y);
      IntVec2(TruncatedRemainder(vertexIndex, vertexAmountPerComponent.x),
              vertexIndex / vertexAmountPerComponent.y)
    }

    /** On square tiles the local coordinates of a vertex id are its row-major position */
    lemma VertexCoordinatesSquareRoundTrip(vertexIndex: int)
      requires Valid() && vertexAmountPerComponent.x == vertexAmountPerComponent.y
      requires 0 <= vertexIndex < TotalVertexAmountPerComponent()
      ensures var c := VertexCoordinatesWithinComponent(vertexIndex);
        c.y * vertexAmountPerComponent.x + c.x == vertexIndex && c.y < vertexAmountPerComponent.y
    {
      var w := vertexAmountPerComponent.x;
      var q, m := vertexIndex / w, vertexIndex % w;
      DivModFacts(vertexIndex, w);
      assert VertexCoordinatesWithinComponent(vertexIndex) == IntVec2(m, q);
      assert TotalVertexAmountPerComponent() == w * w;
      if q >= w {
        MulMonotone(w, q, w);
      }
    }

    /** The local vertex (x, y) of a square tile has id y * VX + x, and maps back to (x, y) */
    lemma VertexIdSquareRoundTrip(x: int, y: int)
      requires Valid() && vertexAmountPerComponent.x == vertexAmountPerComponent.y
      requires 0 <= x < vertexAmountPerComponent.x && 0 <= y
      ensures VertexCoordinatesWithinComponent(y * vertexAmountPerComponent.x + x) == IntVec2(x, y)
    {
      DivModUnique(vertexAmountPerComponent.x, y, x);
    }

    /** GetVertexCoordinatesWithinLandscape: tile offset in quads plus the local vertex coordinates */
    function VertexCoordinatesWithinLandscape(sectionIndex: int, x: int, y: int): (c: IntVec2)
      requires Valid()
      ensures sectionIndex >= 0 ==>
        c == IntVec2(componentResolution.x * (sectionIndex % componentAmount.x) + x,
                     componentResolution.y * (sectionIndex / componentAmount.x) + y)
    {
      var section := ComponentCoordinates(sectionIndex);
      IntVec2(componentResolution.x * section.x + x, componentResolution.y * section.y + y)
    }

    /** The vertices of every tile fall on the (W*ResX+1) x (H*ResY+1) landscape vertex raster */
    lemma LandscapeVertexInRaster(sectionIndex: int, x: int, y: int)
      requires Valid() && 0 <= sectionIndex < ComponentCount()
      requires 0 <= x <= componentResolution.x && 0 <= y <= componentResolution.y
      ensures var c := VertexCoordinatesWithinLandscape(sectionIndex, x, y);
        0 <= c.x <= componentAmount.x * componentResolution.x &&
        0 <= c.y <= componentAmount.y * componentResolution.y
    {
      var s := ComponentCoordinates(sectionIndex);
      ComponentCoordinatesInGrid(sectionIndex);
      CellVertexInRaster(s.x, componentAmount.x, componentResolution.x, x);
      CellVertexInRaster(s.y, componentAmount.y, componentResolution.y, y);
    }

    /** The last vertex column of a tile is the first vertex column of its right neighbour */
    lemma RightNeighbourSharesVertices(sectionIndex: int, y: int)
      requires Valid() && sectionIndex >= 0 && sectionIndex % componentAmount.x != componentAmount.x - 1
      ensures VertexCoordinatesWithinLandscape(sectionIndex, componentResolution.x, y)
           == VertexCoordinatesWithinLandscape(sectionIndex + 1, 0, y)
    {
      var w := componentAmount.x;
      var c := ComponentCoordinates(sectionIndex);
      DivModUnique(w, c.y, c.x + 1);
    }

    /** The last vertex row of a tile is the first vertex row of the tile below it */
    lemma LowerNeighbourSharesVertices(sectionIndex: int, x: int)
      requires Valid() && sectionIndex >= 0
      ensures VertexCoordinatesWithinLandscape(sectionIndex, x, componentResolution.y)
           == VertexCoordinatesWithinLandscape(sectionIndex + componentAmount.x, x, 0)
    {
      var w := componentAmount.x;
      var c := ComponentCoordinates(sectionIndex);
      assert sectionIndex + w == (c.y + 1) * w + c.x;
      DivModUnique(w, c.y + 1, c.x);
    }

    /** The side lengths of one tile: LandscapeSize / ComponentAmount */
    function SectionSize(): Vec2
      requires Valid()
    {
      Vec2(landscapeSize.x / componentAmount.x as real, landscapeSize.y / componentAmount.y as real)
    }

    /** When the tiles cover the extent, a tile's sides are the component size */
    lemma SectionSizeOfCoveringTiles()
      requires Valid() && TilesCoverExtent()
      ensures SectionSize() == Vec2(componentSize, componentSize)
    {
      var nx, ny := componentAmount.x as real, componentAmount.y as real;
      assert landscapeSize.x == nx * componentSize && landscapeSize.y == ny * componentSize;
      assert (nx * componentSize) / nx == componentSize;
      assert (ny * componentSize) / ny == componentSize;
    }

    /** GetComponentBounds: the tile's rectangle relative to the landscape origin */
    function ComponentBounds(sectionIndex: int): (b: Box2)
      requires Valid()
      ensures b.max.x - b.min.x == SectionSize().x && b.max.y - b.min.y == SectionSize().y
    {
      var size := SectionSize();
      var c := ComponentCoordinates(sectionIndex);
      NextCellStart(c.x, size.x);
      NextCellStart(c.y, size.y);
      Box2(Vec2(c.x as real * size.x, c.y as real * size.y),
           Vec2((c.x + 1) as real * size.x, (c.y + 1) as real * size.y))
    }

    /** Every tile of the landscape lies inside the landscape's extent */
    lemma ComponentBoundsInsideLandscape(sectionIndex: int)
      requires Valid() && 0 <= sectionIndex < ComponentCount()
      ensures var b := ComponentBounds(sectionIndex);
        0.0 <= b.min.x && b.max.x <= landscapeSize.x && 0.0 <= b.min.y && b.max.y <= landscapeSize.y
    {
      var c := ComponentCoordinates(sectionIndex);
      ComponentCoordinatesInGrid(sectionIndex);
      CellInside(c.x, componentAmount.x, landscapeSize.x);
      CellInside(c.y, componentAmount.y, landscapeSize.y);
    }

    /** A tile and its right neighbour share their vertical edge */
    lemma RightNeighbourSharesEdge(sectionIndex: int)
      requires Valid() && sectionIndex >= 0 && sectionIndex % componentAmount.x != componentAmount.x - 1
      ensures ComponentBounds(sectionIndex).max.x == ComponentBounds(sectionIndex + 1).min.x
      ensures ComponentBounds(sectionIndex).min.y == ComponentBounds(sectionIndex + 1).min.y
      ensures ComponentBounds(sectionIndex).max.y == ComponentBounds(sectionIndex + 1).max.y
    {
      var c := ComponentCoordinates(sectionIndex);
      DivModUnique(componentAmount.x, c.y, c.x + 1);
    }

    /** A tile and the tile below it share their horizontal edge */
    lemma LowerNeighbourSharesEdge(sectionIndex: int)
      requires Valid() && sectionIndex >= 0
      ensures ComponentBounds(sectionIndex).max.y == ComponentBounds(sectionIndex + componentAmount.x).min.y
      ensures ComponentBounds(sectionIndex).min.x == ComponentBounds(sectionIndex + componentAmount.x).min.x
      ensures ComponentBounds(sectionIndex).max.x == ComponentBounds(sectionIndex + componentAmount.x).max.x
    {
      var w := componentAmount.x;
      var c := ComponentCoordinates(sectionIndex);
      assert sectionIndex + w == (c.y + 1) * w + c.x;
      DivModUnique(w, c.y + 1, c.x);
    }

    // ---- GetComponentsInArea ----

    /** The early rejection: the area lies strictly beyond one of the landscape's edges */
    predicate AreaOutsideLandscape(start: Vec2, area: Box2)
    {
      area.min.x > start.x + landscapeSize.x || area.min.y > start.y + landscapeSize.y ||
      area.max.x < start.x || area.max.y < start.y
    }

    /** The clamped column and row range of an area, taken relative to the first tile's location */
    function AreaRange(start: Vec2, area: Box2): TileRange
      requires Valid()
    {
      var relMin := area.min.Sub(start);
      var relMax := area.max.Sub(start);
      TileRange(Max((relMin.x / componentSize).Floor, 0),
                Min((relMax.x / componentSize).Floor, componentAmount.x - 1),
                Max((relMin.y / componentSize).Floor, 0),
                Min((relMax.y / componentSize).Floor, componentAmount.y - 1))
    }

    /** Specification of GetComponentsInArea: tile ids in row-major order */
    function ComponentsInAreaSpec(start: Vec2, area: Box2): seq<int>
      requires Valid()
    {
      if AreaOutsideLandscape(start, area) then []
      else
        var r := AreaRange(start, area);
        r.Selected(componentAmount.x)
    }

    /** A tile meets the area: it overlaps it in both axes, closed at the tile's near side and open at its far side */
    predicate TileMeetsArea(sectionIndex: int, start: Vec2, area: Box2)
      requires Valid()
    {
      var c := ComponentCoordinates(sectionIndex);
      ColumnMeetsArea(c.x, start, area) && RowMeetsArea(c.y, start, area)
    }

    /** Column `column` overlaps the area along x */
    predicate ColumnMeetsArea(column: int, start: Vec2, area: Box2)
    {
      column as real * componentSize <= area.max.x - start.x && area.min.x - start.x < (column + 1) as real * componentSize
    }

    /** Row `row` overlaps the area along y */
    predicate RowMeetsArea(row: int, start: Vec2, area: Box2)
    {
      row as real * componentSize <= area.max.y - start.y && area.min.y - start.y < (row + 1) as real * componentSize
    }

    /** Under a proper area that is not rejected the clamped range is a proper (possibly empty) rectangle of the grid */
    lemma AreaRangeProper(start: Vec2, area: Box2)
      requires Valid() && TilesCoverExtent() && area.min.x <= area.max.x && area.min.y <= area.max.y
      requires !AreaOutsideLandscape(start, area)
      ensures AreaRange(start, area).Proper(componentAmount.x, componentAmount.y)
    {
      AxisRangeProper(area.min.x - start.x, area.max.x - start.x, componentAmount.x, componentSize);
      AxisRangeProper(area.min.y - start.y, area.max.y - start.y, componentAmount.y, componentSize);
    }

    /** A column lies in the clamped range exactly when it is a grid column that meets the area */
    lemma ColumnInRange(start: Vec2, area: Box2, column: int)
      requires Valid()
      ensures var r := AreaRange(start, area);
        r.minColumn <= column <= r.maxColumn <==> 0 <= column < componentAmount.x && ColumnMeetsArea(column, start, area)
    {
      FloorDivAtLeast(area.max.x - start.x, componentSize, column);
      FloorDivAtLeast(area.min.x - start.x, componentSize, column + 1);
    }

    /** A row lies in the clamped range exactly when it is a grid row that meets the area */
    lemma RowInRange(start: Vec2, area: Box2, row: int)
      requires Valid()
      ensures var r := AreaRange(start, area);
        r.minRow <= row <= r.maxRow <==> 0 <= row < componentAmount.y && RowMeetsArea(row, start, area)
    {
      FloorDivAtLeast(area.max.y - start.y, componentSize, row);
      FloorDivAtLeast(area.min.y - start.y, componentSize, row + 1);
    }

    /** A tile of the landscape lies in the clamped range exactly when it meets the area */
    lemma TileInRangeIffMeets(start: Vec2, area: Box2, sectionIndex: int)
      requires Valid() && 0 <= sectionIndex < ComponentCount()
      ensures AreaRange(start, area).Contains(componentAmount.x, sectionIndex) <==> TileMeetsArea(sectionIndex, start, area)
    {
      var w := componentAmount.x;
      var c := ComponentCoordinates(sectionIndex);
      ComponentCoordinatesInGrid(sectionIndex);
      DivModUnique(w, c.y, c.x);
      assert sectionIndex % w == c.x && sectionIndex / w == c.y;
      ColumnInRange(start, area, c.x);
      RowInRange(start, area, c.y);
      var r := AreaRange(start, area);
      assert r.Contains(w, sectionIndex) <==> r.minColumn <= c.x <= r.maxColumn && r.minRow <= c.y <= r.maxRow;
      assert TileMeetsArea(sectionIndex, start, area) <==> ColumnMeetsArea(c.x, start, area) && RowMeetsArea(c.y, start, area);
    }

    /**
     * The result holds exactly the tiles of the landscape that meet the
     * area, unless the area lies strictly beyond an edge.
     */
    lemma ComponentsInAreaMembership(start: Vec2, area: Box2, sectionIndex: int)
      requires Valid() && TilesCoverExtent() && area.min.x <= area.max.x && area.min.y <= area.max.y
      ensures sectionIndex in ComponentsInAreaSpec(start, area) <==>
        !AreaOutsideLandscape(start, area) && 0 <= sectionIndex < ComponentCount() &&
        TileMeetsArea(sectionIndex, start, area)
    {
      if !AreaOutsideLandscape(start, area) {
        var r := AreaRange(start, area);
        AreaRangeProper(start, area);
        r.SelectedMembership(componentAmount.x, componentAmount.y, sectionIndex);
        if 0 <= sectionIndex < ComponentCount() {
          TileInRangeIffMeets(start, area, sectionIndex);
        }
      }
    }

    /** The result is strictly increasing, so it is in row-major order and holds no tile twice */
    lemma ComponentsInAreaOrdered(start: Vec2, area: Box2)
      requires Valid() && TilesCoverExtent() && area.min.x <= area.max.x && area.min.y <= area.max.y
      ensures var s := ComponentsInAreaSpec(start, area);
        forall i, j :: 0 <= i < j < |s| ==> s[i] < s[j]
    {
      if !AreaOutsideLandscape(start, area) {
        AreaRangeProper(start, area);
        AreaRange(start, area).SelectedIncreasing(componentAmount.x, componentAmount.y);
      }
    }

    /** The result has as many tiles as the clamped rectangle: the count the source checks */
    lemma ComponentsInAreaCount(start: Vec2, area: Box2)
      requires Valid() && TilesCoverExtent() && area.min.x <= area.max.x && area.min.y <= area.max.y
      requires !AreaOutsideLandscape(start, area)
      ensures |ComponentsInAreaSpec(start, area)| == Max(AreaRange(start, area).ExpectedAmount(), 0)
    {
      AreaRangeProper(start, area);
      AreaRange(start, area).SelectedLength(componentAmount.x, componentAmount.y);
    }

    /** An area touching the far edge of the landscape from outside is not rejected, but meets no tile */
    lemma AreaTouchingFarEdge(start: Vec2, area: Box2)
      requires Valid() && TilesCoverExtent() && area.min.x <= area.max.x && area.min.y <= area.max.y
      requires area.min.x == start.x + landscapeSize.x
      requires start.y <= area.max.y && area.min.y <= start.y + landscapeSize.y
      ensures !AreaOutsideLandscape(start, area)
      ensures ComponentsInAreaSpec(start, area) == []
    {
      var lo, hi := area.min.x - start.x, area.max.x - start.x;
      assert lo == componentAmount.x as real * componentSize;
      assert lo <= hi;
      AxisRangeEmptyPastEnd(lo, hi, componentAmount.x, componentSize);
      AxisRangeProper(area.min.y - start.y, area.max.y - start.y, componentAmount.y, componentSize);
      var r := AreaRange(start, area);
      MulMonotone(r.maxColumn - r.minColumn + 1, 0, r.maxRow - r.minRow + 1);
    }

    /** An area touching the near edge from outside is not rejected and yields the first-column tiles it meets */
    lemma AreaTouchingNearEdge(start: Vec2, area: Box2, row: int)
      requires Valid() && TilesCoverExtent() && area.min.x <= area.max.x && area.min.y <= area.max.y
      requires area.max.x == start.x
      requires 0 <= row < componentAmount.y
      requires RowMeetsArea(row, start, area)
      ensures !AreaOutsideLandscape(start, area)
      ensures row * componentAmount.x in ComponentsInAreaSpec(start, area)
    {
      NearEdgeRange(start, area, row);
      var r := AreaRange(start, area);
      r.FirstColumnSelected(componentAmount.x, componentAmount.y, row);
    }

    /** The clamped range of such an area is the first column, over rows including the given one */
    lemma NearEdgeRange(start: Vec2, area: Box2, row: int)
      requires Valid() && TilesCoverExtent() && area.min.x <= area.max.x && area.min.y <= area.max.y
      requires area.max.x == start.x
      requires 0 <= row < componentAmount.y
      requires RowMeetsArea(row, start, area)
      ensures !AreaOutsideLandscape(start, area)
      ensures var r := AreaRange(start, area);
        r.Proper(componentAmount.x, componentAmount.y) && r.minColumn == 0 == r.maxColumn && r.minRow <= row <= r.maxRow
    {
      NearEdgeInside(start, area, row);
      AreaRangeProper(start, area);
      var lo, hi := area.min.x - start.x, area.max.x - start.x;
      assert hi == 0.0 && lo <= hi;
      AxisRangeFirstCell(lo, hi, componentAmount.x, componentSize);
      RowInRange(start, area, row);
    }

    lemma NearEdgeInside(start: Vec2, area: Box2, row: int)
      requires Valid() && TilesCoverExtent() && area.min.x <= area.max.x
      requires area.max.x == start.x
      requires 0 <= row < componentAmount.y
      requires RowMeetsArea(row, start, area)
      ensures !AreaOutsideLandscape(start, area)
    {
      CellMeetsBand(row, componentAmount.y, componentSize, area.min.y - start.y, area.max.y - start.y);
      CellWithin(0, componentAmount.x, componentSize);
    }
  }

  /** A clamped, inclusive range of tile columns and rows */
  datatype TileRange = TileRange(minColumn: int, maxColumn: int, minRow: int, maxRow: int)
  {
    /** The tile count GetComponentsInArea expects (and checks) */
    function ExpectedAmount(): int
    {
      (maxColumn - minColumn + 1) * (maxRow - minRow + 1)
    }

    /** Columns and rows within a w x h grid, each range at most one short of empty */
    predicate Proper(w: int, h: int)
    {
      0 <= minColumn <= maxColumn + 1 && maxColumn < w && 0 <= minRow <= maxRow + 1 && maxRow < h
    }

    /** Tile t of a w-wide grid lies in the range */
    predicate Contains(w: int, t: int)
      requires w >= 1
    {
      minColumn <= t % w <= maxColumn && minRow <= t / w <= maxRow
    }

    /** The tiles collected for a proper range: none when the expected amount is not positive */
    function Selected(w: int): seq<int>
    {
      if ExpectedAmount() > 0 then Tiles(w, maxRow + 1) else []
    }

    /** With the first column in range, the first tile of every row in range is selected */
    lemma FirstColumnSelected(w: int, h: int, row: int)
      requires w >= 1 && h >= 1 && Proper(w, h) && 0 <= row < h && minColumn == 0 == maxColumn && minRow <= row <= maxRow
      ensures row * w in Selected(w)
    {
      var t := row * w;
      DivModUnique(w, row, 0);
      assert t % w == 0 && t / w == row;
      TileIdInGrid(t, w, h);
      SelectedMembership(w, h, t);
    }

    lemma SelectedMembership(w: int, h: int, t: int)
      requires w >= 1 && h >= 1 && Proper(w, h)
      ensures t in Selected(w) <==> 0 <= t < w * h && Contains(w, t)
    {
      TilesMembership(w, maxRow + 1, t);
      TileIdInGrid(t, w, h);
      ExpectedAmountPositive(w, h);
    }

    /** A proper range has a positive expected amount exactly when neither of its ranges is empty */
    lemma ExpectedAmountPositive(w: int, h: int)
      requires Proper(w, h)
      ensures ExpectedAmount() > 0 <==> minColumn <= maxColumn && minRow <= maxRow
    {
      var columns, rows := maxColumn - minColumn + 1, maxRow - minRow + 1;
      assert ExpectedAmount() == columns * rows;
      if columns >= 1 && rows >= 1 {
        MultipleOutsideBand(columns, rows);
      } else {
        assert columns == 0 || rows == 0;
      }
    }

    function ColumnCount(): nat
    {
      if minColumn <= maxColumn then maxColumn - minColumn + 1 else 0
    }

    /** The ids of row y's tiles in the range, left to right */
    function RowTiles(w: int, y: int): (s: seq<int>)
      ensures |s| == ColumnCount()
    {
      seq(ColumnCount(), k => y * w + minColumn + k)
    }

    /** The ids of rows minRow .. rowEnd - 1 of the range, row by row */
    function Tiles(w: int, rowEnd: int): seq<int>
      decreases rowEnd - minRow
    {
      if rowEnd <= minRow then [] else Tiles(w, rowEnd - 1) + RowTiles(w, rowEnd - 1)
    }

    lemma {:induction false} TilesLength(w: int, rowEnd: int)
      requires minRow <= rowEnd
      ensures |Tiles(w, rowEnd)| == ColumnCount() * (rowEnd - minRow)
      decreases rowEnd - minRow
    {
      if rowEnd > minRow {
        TilesLength(w, rowEnd - 1);
        assert ColumnCount() * (rowEnd - minRow) == ColumnCount() * (rowEnd - 1 - minRow) + ColumnCount();
      }
    }

    lemma {:induction false} TilesMembership(w: int, rowEnd: int, t: int)
      requires 1 <= w && 0 <= minColumn && maxColumn < w
      ensures t in Tiles(w, rowEnd) <==>
        minRow <= t / w < rowEnd && minColumn <= t % w <= maxColumn
      decreases rowEnd - minRow
    {
      if rowEnd > minRow {
        TilesMembership(w, rowEnd - 1, t);
        var y := rowEnd - 1;
        var row := RowTiles(w, y);
        if t in row {
          var k :| 0 <= k < |row| && row[k] == t;
          DivModUnique(w, y, minColumn + k);
        }
        DivModFacts(t, w);
        if t / w == y && minColumn <= t % w <= maxColumn {
          assert row[t % w - minColumn] == t;
        }
      }
    }

    lemma {:induction false} TilesBelow(w: int, rowEnd: int)
      requires 1 <= w && 0 <= minColumn && maxColumn < w
      ensures forall i :: 0 <= i < |Tiles(w, rowEnd)| ==> Tiles(w, rowEnd)[i] < rowEnd * w
      decreases rowEnd - minRow
    {
      if rowEnd > minRow {
        TilesBelow(w, rowEnd - 1);
        var front := Tiles(w, rowEnd - 1);
        var row := RowTiles(w, rowEnd - 1);
        var base := (rowEnd - 1) * w;
        assert base + w == rowEnd * w;
        forall i | 0 <= i < |Tiles(w, rowEnd)|
          ensures Tiles(w, rowEnd)[i] < rowEnd * w
        {
          if i < |front| {
            assert Tiles(w, rowEnd)[i] == front[i];
          } else {
            var k := i - |front|;
            assert minColumn + k <= maxColumn;
            assert Tiles(w, rowEnd)[i] == row[k] == base + (minColumn + k);
          }
        }
      }
    }

    lemma {:induction false} TilesIncreasing(w: int, rowEnd: int)
      requires 1 <= w && 0 <= minColumn && maxColumn < w
      ensures forall i, j :: 0 <= i < j < |Tiles(w, rowEnd)| ==> Tiles(w, rowEnd)[i] < Tiles(w, rowEnd)[j]
      decreases rowEnd - minRow
    {
      if rowEnd > minRow {
        TilesIncreasing(w, rowEnd - 1);
        TilesBelow(w, rowEnd - 1);
        var front := Tiles(w, rowEnd - 1);
        var row := RowTiles(w, rowEnd - 1);
        var s := Tiles(w, rowEnd);
        assert s == front + row;
        var base := (rowEnd - 1) * w;
        forall i, j | 0 <= i < j < |s|
          ensures s[i] < s[j]
        {
          if j < |front| {
            assert s[i] == front[i] && s[j] == front[j];
          } else if i < |front| {
            assert s[i] == front[i] < base;
            assert s[j] == row[j - |front|] == base + (minColumn + j - |front|);
          } else {
            assert s[i] == row[i - |front|] && s[j] == row[j - |front|];
          }
        }
      }
    }

    lemma SelectedIncreasing(w: int, h: int)
      requires w >= 1 && Proper(w, h)
      ensures forall i, j :: 0 <= i < j < |Selected(w)| ==> Selected(w)[i] < Selected(w)[j]
    {
      if ExpectedAmount() > 0 {
        TilesIncreasing(w, maxRow + 1);
      }
    }

    lemma SelectedLength(w: int, h: int)
      requires w >= 1 && Proper(w, h)
      ensures |Selected(w)| == Max(ExpectedAmount(), 0)
    {
      if ExpectedAmount() > 0 {
        TilesLength(w, maxRow + 1);
      }
    }
  }

  /** GetComponentsInArea: the ids of the tiles meeting a proper area, collected row by row */
  method ComponentsInArea(g: LandscapeGrid, start: Vec2, area: Box2) returns (tiles: seq<int>)
    requires g.Valid() && g.TilesCoverExtent() && area.min.x <= area.max.x && area.min.y <= area.max.y
    ensures tiles == g.ComponentsInAreaSpec(start, area)
  {
    if g.AreaOutsideLandscape(start, area) {
      return [];
    }
    var r := g.AreaRange(start, area);
    g.AreaRangeProper(start, area);
    var expectedAmount := (r.maxColumn - r.minColumn + 1) * (r.maxRow - r.minRow + 1);
    if !(expectedAmount > 0) {
      return [];
    }
    tiles := [];
    var y := r.minRow;
    while y <= r.maxRow
      invariant r.minRow <= y <= r.maxRow + 1
      invariant tiles == r.Tiles(g.componentAmount.x, y)
    {
      var rowOffset := y * g.componentAmount.x;
      var x := r.minColumn;
      while x <= r.maxColumn
        invariant r.minColumn <= x <= r.maxColumn + 1
        invariant tiles == r.Tiles(g.componentAmount.x, y) + r.RowTiles(g.componentAmount.x, y)[..x - r.minColumn]
      {
        tiles := tiles + [rowOffset + x];
        x := x + 1;
      }
      assert r.RowTiles(g.componentAmount.x, y)[..x - r.minColumn] == r.RowTiles(g.componentAmount.x, y);
      y := y + 1;
    }
  }
}
