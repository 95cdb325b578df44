/**
 * The triangle index list of a tile mesh (GenerateTriangleArray). A tile of
 * ResX x ResY quads has (ResX + 1) x (ResY + 1) vertices numbered row by
 * row; every quad is drawn as two triangles, quads are visited row by row,
 * and a quad is skipped when a hole set is given and holds one of its four
 * corners.
 */
module Triangles {
  import opened EngineTypes
  import opened Grid

  function NonNeg(x: int): nat
  {
    if x > 0 then x else 0
  }

  /** T1: the vertex at the upper-left corner of quad q */
  function UpperLeft(resX: int, q: IntVec2): int
  {
    q.y * (resX + 1) + q.x
  }

  /** The six indices of a quad: triangle T1, T2, T3 and triangle T3, T2, T2 + 1 */
  function QuadTriangles(resX: int, q: IntVec2): (s: seq<int>)
    ensures |s| == 6
  {
    var t1 := UpperLeft(resX, q);
    var t2 := t1 + resX + 1;
    var t3 := t1 + 1;
    [t1, t2, t3, t3, t2, t2 + 1]
  }

  /** A quad is drawn unless a hole set is given that holds one of its corners T1, T2, T3 or T2 + 1 */
  predicate QuadKept(resX: int, holes: Option<set<int>>, q: IntVec2)
  {
    var t1 := UpperLeft(resX, q);
    var t2 := t1 + resX + 1;
    holes.None? || (t1 !in holes.value && t2 !in holes.value && t1 + 1 !in holes.value && t2 + 1 !in holes.value)
  }

  /** The drawn quads among the first n of row y, left to right */
  function KeptInRow(resX: int, holes: Option<set<int>>, y: int, n: nat): seq<IntVec2>
  {
    if n == 0 then []
    else KeptInRow(resX, holes, y, n - 1) + (if QuadKept(resX, holes, IntVec2(n - 1, y)) then [IntVec2(n - 1, y)] else [])
  }

  /** The drawn quads of the first n rows, row by row */
  function KeptQuads(resX: int, holes: Option<set<int>>, n: nat): seq<IntVec2>
  {
    if n == 0 then []
    else KeptQuads(resX, holes, n - 1) + KeptInRow(resX, holes, n - 1, NonNeg(resX))
  }

  /** The index list of a sequence of quads: six entries per quad */
  function TriangleList(resX: int, quads: seq<IntVec2>): seq<int>
  {
    if |quads| == 0 then []
    else TriangleList(resX, quads[..|quads| - 1]) + QuadTriangles(resX, quads[|quads| - 1])
  }

  /** Appending a quad appends its six indices */
  lemma TriangleListAppend(resX: int, quads: seq<IntVec2>, q: IntVec2)
    ensures TriangleList(resX, quads + [q]) == TriangleList(resX, quads) + QuadTriangles(resX, q)
  {
    assert (quads + [q])[..|quads|] == quads;
  }

  /** Quad x of row y joins the kept quads exactly when it is kept */
  lemma KeptInRowStep(resX: int, holes: Option<set<int>>, rows: nat, y: int, x: nat)
    ensures KeptQuads(resX, holes, rows) + KeptInRow(resX, holes, y, x + 1) ==
      KeptQuads(resX, holes, rows) + KeptInRow(resX, holes, y, x) + (if QuadKept(resX, holes, IntVec2(x, y)) then [IntVec2(x, y)] else [])
  {
  }

  /** What GenerateTriangleArray returns for a tile resolution and an optional hole set */
  function TriangleArray(resX: int, resY: int, holes: Option<set<int>>): seq<int>
  {
    TriangleList(resX, KeptQuads(resX, holes, NonNeg(resY)))
  }

  lemma {:induction false} KeptInRowEmptyHoles(resX: int, y: int, n: nat)
    ensures KeptInRow(resX, Some({}), y, n) == KeptInRow(resX, None, y, n)
  {
    if n > 0 {
      KeptInRowEmptyHoles(resX, y, n - 1);
    }
  }

  lemma {:induction false} KeptQuadsEmptyHoles(resX: int, n: nat)
    ensures KeptQuads(resX, Some({}), n) == KeptQuads(resX, None, n)
  {
    if n > 0 {
      KeptQuadsEmptyHoles(resX, n - 1);
      KeptInRowEmptyHoles(resX, n - 1, NonNeg(resX));
    }
  }

  /** An empty hole set draws the same triangles as no hole set */
  lemma TriangleArrayEmptyHoles(resX: int, resY: int)
    ensures TriangleArray(resX, resY, Some({})) == TriangleArray(resX, resY, None)
  {
    KeptQuadsEmptyHoles(resX, NonNeg(resY));
  }

  /** The six entries written for the i-th drawn quad */
  function Run(s: seq<int>, i: int): seq<int>
    requires 0 <= i && 6 * i + 6 <= |s|
  {
    s[6 * i..6 * i + 6]
  }

  /** Where entry k of quad q sits in a hole-free list: 6 * (y * ResX + x) + k */
  function HoleFreeEntry(resX: int, q: IntVec2, k: int): int
  {
    6 * (q.y * resX + q.x) + k
  }

  /** Quad p comes before quad q in row-major order */
  predicate Before(p: IntVec2, q: IntVec2)
  {
    p.y < q.y || (p.y == q.y && p.x < q.x)
  }

  // ---- the list is six entries per quad ----

  lemma {:induction false} TrianglesCount(resX: int, quads: seq<IntVec2>)
    ensures |TriangleList(resX, quads)| == 6 * |quads|
  {
    if |quads| > 0 {
      TrianglesCount(resX, quads[..|quads| - 1]);
    }
  }

  lemma {:induction false} TrianglesLayout(resX: int, quads: seq<IntVec2>)
    ensures |TriangleList(resX, quads)| == 6 * |quads|
    ensures forall i, k :: 0 <= i < |quads| && 0 <= k < 6 ==>
      TriangleList(resX, quads)[6 * i + k] == QuadTriangles(resX, quads[i])[k]
  {
    if |quads| > 0 {
      var n := |quads| - 1;
      var prefix := quads[..n];
      TrianglesLayout(resX, prefix);
      forall i, k | 0 <= i < |quads| && 0 <= k < 6
        ensures TriangleList(resX, quads)[6 * i + k] == QuadTriangles(resX, quads[i])[k]
      {
        if i < n {
          assert 6 * i + k < 6 * n;
          assert prefix[i] == quads[i];
        }
      }
    }
  }

  lemma RunOfQuad(resX: int, quads: seq<IntVec2>, i: int)
    requires 0 <= i < |quads|
    ensures 6 * i + 6 <= |TriangleList(resX, quads)|
    ensures Run(TriangleList(resX, quads), i) == QuadTriangles(resX, quads[i])
  {
    TrianglesLayout(resX, quads);
    var s := TriangleList(resX, quads);
    assert forall k :: 0 <= k < 6 ==> Run(s, i)[k] == s[6 * i + k];
  }

  // ---- which quads are drawn, and in which order ----

  lemma {:induction false} KeptInRowMembership(resX: int, holes: Option<set<int>>, y: int, n: nat, q: IntVec2)
    ensures q in KeptInRow(resX, holes, y, n) <==> q.y == y && 0 <= q.x < n && QuadKept(resX, holes, q)
  {
    if n > 0 {
      KeptInRowMembership(resX, holes, y, n - 1, q);
    }
  }

  lemma {:induction false} KeptQuadsMembership(resX: int, holes: Option<set<int>>, n: nat, q: IntVec2)
    ensures q in KeptQuads(resX, holes, n) <==> 0 <= q.x < resX && 0 <= q.y < n && QuadKept(resX, holes, q)
  {
    if n > 0 {
      KeptQuadsMembership(resX, holes, n - 1, q);
      KeptInRowMembership(resX, holes, n - 1, NonNeg(resX), q);
    }
  }

  lemma {:induction false} KeptInRowIncreasing(resX: int, holes: Option<set<int>>, y: int, n: nat)
    ensures forall i, j :: 0 <= i < j < |KeptInRow(resX, holes, y, n)| ==>
      KeptInRow(resX, holes, y, n)[i].x < KeptInRow(resX, holes, y, n)[j].x
  {
    if n > 0 {
      KeptInRowIncreasing(resX, holes, y, n - 1);
      var prefix := KeptInRow(resX, holes, y, n - 1);
      var row := KeptInRow(resX, holes, y, n);
      forall i, j | 0 <= i < j < |row|
        ensures row[i].x < row[j].x
      {
        if j < |prefix| {
          assert row[i] == prefix[i] && row[j] == prefix[j];
        } else {
          assert row[j] == IntVec2(n - 1, y);
          KeptInRowMembership(resX, holes, y, n - 1, prefix[i]);
          assert row[i] == prefix[i];
        }
      }
    }
  }

  lemma {:induction false} KeptQuadsIncreasing(resX: int, holes: Option<set<int>>, n: nat)
    ensures forall i, j :: 0 <= i < j < |KeptQuads(resX, holes, n)| ==>
      Before(KeptQuads(resX, holes, n)[i], KeptQuads(resX, holes, n)[j])
  {
    if n > 0 {
      KeptQuadsIncreasing(resX, holes, n - 1);
      var prefix := KeptQuads(resX, holes, n - 1);
      var row := KeptInRow(resX, holes, n - 1, NonNeg(resX));
      KeptInRowIncreasing(resX, holes, n - 1, NonNeg(resX));
      forall i | 0 <= i < |prefix|
        ensures prefix[i].y < n - 1
      {
        KeptQuadsMembership(resX, holes, n - 1, prefix[i]);
      }
      forall j | 0 <= j < |row|
        ensures row[j].y == n - 1
      {
        KeptInRowMembership(resX, holes, n - 1, NonNeg(resX), row[j]);
      }
    }
  }

  /** Without holes every quad of a row is drawn, left to right */
  lemma {:induction false} KeptInRowWithoutHoles(resX: int, y: int, n: nat)
    ensures |KeptInRow(resX, None, y, n)| == n
    ensures forall x :: 0 <= x < n ==> KeptInRow(resX, None, y, n)[x] == IntVec2(x, y)
  {
    if n > 0 {
      KeptInRowWithoutHoles(resX, y, n - 1);
    }
  }

  /** Row-major numbering of a w-wide grid of the given rows stays below rows * w */
  lemma RowMajorIndexInRange(x: int, y: int, w: int, rows: int)
    requires 0 <= x < w && 0 <= y < rows
    ensures 0 <= y * w + x < rows * w
  {
    MulMonotone(0, y, w);
    MulMonotone(y, rows - 1, w);
    assert rows * w == (rows - 1) * w + w;
  }

  lemma {:induction false} KeptQuadsCountWithoutHoles(resX: int, n: nat)
    requires resX >= 0
    ensures |KeptQuads(resX, None, n)| == n * resX
  {
    if n > 0 {
      KeptQuadsCountWithoutHoles(resX, n - 1);
      KeptInRowWithoutHoles(resX, n - 1, resX);
      assert n * resX == (n - 1) * resX + resX;
    }
  }

  /** Without holes quad (x, y) is the (y * ResX + x)-th quad drawn */
  lemma {:induction false} KeptQuadWithoutHoles(resX: int, n: nat, x: int, y: int)
    requires resX >= 0 && 0 <= x < resX && 0 <= y < n
    ensures |KeptQuads(resX, None, n)| == n * resX
    ensures 0 <= y * resX + x < n * resX && KeptQuads(resX, None, n)[y * resX + x] == IntVec2(x, y)
  {
    KeptQuadsCountWithoutHoles(resX, n);
    KeptQuadsCountWithoutHoles(resX, n - 1);
    RowMajorIndexInRange(x, y, resX, n);
    var prefix := KeptQuads(resX, None, n - 1);
    var all := KeptQuads(resX, None, n);
    var idx := y * resX + x;
    if y < n - 1 {
      KeptQuadWithoutHoles(resX, n - 1, x, y);
      assert all[idx] == prefix[idx];
    } else {
      KeptInRowWithoutHoles(resX, n - 1, resX);
      assert idx == |prefix| + x;
    }
  }

  /** Corners are distinct vertices of the tile: T1 of an in-range quad names the quad */
  lemma UpperLeftInjective(resX: int, p: IntVec2, q: IntVec2)
    requires 0 <= p.x < resX && 0 <= q.x < resX
    requires UpperLeft(resX, p) == UpperLeft(resX, q)
    ensures p == q
  {
    DivModUnique(resX + 1, p.y, p.x);
    DivModUnique(resX + 1, q.y, q.x);
  }

  lemma UpperLeftOrdered(resX: int, p: IntVec2, q: IntVec2)
    requires 0 <= p.x < resX && 0 <= q.x < resX && Before(p, q)
    ensures UpperLeft(resX, p) < UpperLeft(resX, q)
  {
    if p.y < q.y {
      MulMonotone(p.y + 1, q.y, resX + 1);
    }
  }

  // ---- the properties of GenerateTriangleArray ----

  /**
   * Without holes the list has 6 entries per quad and quad (x, y) occupies
   * entries 6 * (y * ResX + x) to 6 * (y * ResX + x) + 5.
   */
  lemma TriangleArrayWithoutHoles(resX: int, resY: int)
    requires resX >= 0 && resY >= 0
    ensures |TriangleArray(resX, resY, None)| == resX * resY * 6
    ensures forall x, y, k :: 0 <= x < resX && 0 <= y < resY && 0 <= k < 6 ==>
      HoleFreeEntry(resX, IntVec2(x, y), k) < |TriangleArray(resX, resY, None)| &&
      TriangleArray(resX, resY, None)[HoleFreeEntry(resX, IntVec2(x, y), k)] == QuadTriangles(resX, IntVec2(x, y))[k]
  {
    var quads := KeptQuads(resX, None, resY);
    KeptQuadsCountWithoutHoles(resX, resY);
    TrianglesCount(resX, quads);
    var count := resY * resX;
    assert |quads| == count;
    assert resX * resY == count;
    forall x, y, k | 0 <= x < resX && 0 <= y < resY && 0 <= k < 6
      ensures HoleFreeEntry(resX, IntVec2(x, y), k) < |TriangleArray(resX, resY, None)| &&
        TriangleArray(resX, resY, None)[HoleFreeEntry(resX, IntVec2(x, y), k)] == QuadTriangles(resX, IntVec2(x, y))[k]
    {
      TriangleEntryWithoutHoles(resX, resY, x, y, k);
    }
  }

  lemma TriangleEntryWithoutHoles(resX: int, resY: int, x: int, y: int, k: int)
    requires resX >= 0 && 0 <= x < resX && 0 <= y < resY && 0 <= k < 6
    ensures 0 <= HoleFreeEntry(resX, IntVec2(x, y), k) < |TriangleArray(resX, resY, None)|
    ensures TriangleArray(resX, resY, None)[HoleFreeEntry(resX, IntVec2(x, y), k)] == QuadTriangles(resX, IntVec2(x, y))[k]
  {
    var quads := KeptQuads(resX, None, resY);
    var s := TriangleArray(resX, resY, None);
    KeptQuadWithoutHoles(resX, resY, x, y);
    var idx := y * resX + x;
    RunOfQuad(resX, quads, idx);
    assert s[6 * idx + k] == Run(s, idx)[k];
  }

  /** A quad's six entries are in the list exactly when none of its corners is a hole */
  lemma QuadDrawnIffNoHoleCorner(resX: int, resY: int, holes: Option<set<int>>, q: IntVec2)
    requires 0 <= q.x < resX && 0 <= q.y < resY
    ensures var s := TriangleArray(resX, resY, holes);
      QuadKept(resX, holes, q) <==> exists i :: 0 <= i && 6 * i + 6 <= |s| && Run(s, i) == QuadTriangles(resX, q)
  {
    var quads := KeptQuads(resX, holes, NonNeg(resY));
    var s := TriangleArray(resX, resY, holes);
    TrianglesLayout(resX, quads);
    KeptQuadsMembership(resX, holes, NonNeg(resY), q);
    if QuadKept(resX, holes, q) {
      var i :| 0 <= i < |quads| && quads[i] == q;
      RunOfQuad(resX, quads, i);
    }
    if exists i :: 0 <= i && 6 * i + 6 <= |s| && Run(s, i) == QuadTriangles(resX, q) {
      var i :| 0 <= i && 6 * i + 6 <= |s| && Run(s, i) == QuadTriangles(resX, q);
      RunOfQuad(resX, quads, i);
      var p := quads[i];
      KeptQuadsMembership(resX, holes, NonNeg(resY), p);
      assert UpperLeft(resX, p) == QuadTriangles(resX, p)[0] == QuadTriangles(resX, q)[0] == UpperLeft(resX, q);
      UpperLeftInjective(resX, p, q);
    }
  }

  /** The drawn quads appear in row-major order: their T1 entries increase */
  lemma TriangleRunsInRowMajorOrder(resX: int, resY: int, holes: Option<set<int>>)
    ensures var s := TriangleArray(resX, resY, holes);
      |s| % 6 == 0 &&
      forall i, j :: 0 <= i < j && 6 * j + 6 <= |s| ==> Run(s, i)[0] < Run(s, j)[0]
  {
    var quads := KeptQuads(resX, holes, NonNeg(resY));
    var s := TriangleArray(resX, resY, holes);
    TrianglesLayout(resX, quads);
    KeptQuadsIncreasing(resX, holes, NonNeg(resY));
    forall i, j | 0 <= i < j && 6 * j + 6 <= |s|
      ensures Run(s, i)[0] < Run(s, j)[0]
    {
      RunOfQuad(resX, quads, i);
      RunOfQuad(resX, quads, j);
      KeptQuadsMembership(resX, holes, NonNeg(resY), quads[i]);
      KeptQuadsMembership(resX, holes, NonNeg(resY), quads[j]);
      UpperLeftOrdered(resX, quads[i], quads[j]);
    }
  }

  /** The largest corner of an in-range quad, T2 + 1, is still a vertex of the tile */
  lemma CornerInTile(resX: int, resY: int, q: IntVec2)
    requires 0 <= q.x < resX && 0 <= q.y < resY
    ensures 0 <= UpperLeft(resX, q) && UpperLeft(resX, q) + resX + 2 < (resX + 1) * (resY + 1)
  {
    MulMonotone(0, q.y, resX + 1);
    MulMonotone(q.y + 1, resY, resX + 1);
    assert (q.y + 1) * (resX + 1) == q.y * (resX + 1) + resX + 1;
    assert (resX + 1) * (resY + 1) == resY * (resX + 1) + resX + 1;
  }

  /** Entry i of the list belongs to the (i / 6)-th quad drawn */
  lemma EntryOfQuad(resX: int, quads: seq<IntVec2>, i: int)
    requires 0 <= i < |TriangleList(resX, quads)|
    ensures |TriangleList(resX, quads)| == 6 * |quads|
    ensures 0 <= i / 6 < |quads| && TriangleList(resX, quads)[i] == QuadTriangles(resX, quads[i / 6])[i % 6]
  {
    TrianglesLayout(resX, quads);
    var j, k := i / 6, i % 6;
    assert i == 6 * j + k;
  }

  /** Every entry names a vertex of the tile */
  lemma TriangleIndicesInTile(resX: int, resY: int, holes: Option<set<int>>)
    ensures var s := TriangleArray(resX, resY, holes);
      forall i :: 0 <= i < |s| ==> 0 <= s[i] < (resX + 1) * (resY + 1)
  {
    var quads := KeptQuads(resX, holes, NonNeg(resY));
    var s := TriangleArray(resX, resY, holes);
    var vertexCount := (resX + 1) * (resY + 1);
    forall i | 0 <= i < |s|
      ensures 0 <= s[i] < vertexCount
    {
      EntryOfQuad(resX, quads, i);
      var q := quads[i / 6];
      KeptQuadsMembership(resX, holes, NonNeg(resY), q);
      CornerInTile(resX, resY, q);
    }
  }
}
