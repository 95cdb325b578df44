/**
 * The small engine value types the landscape plugin computes with:
 * FVector2D, FVector, FBox2D, FColor and FLinearColor, modelled over
 * mathematical reals (no IEEE rounding) and bytes.
 */
module EngineTypes {

  datatype Option<+T> = None | Some(value: T)

  datatype Vec2 = Vec2(x: real, y: real)
  {
    function Add(o: Vec2): Vec2 { Vec2(x + o.x, y + o.y) }
    function Sub(o: Vec2): Vec2 { Vec2(x - o.x, y - o.y) }
    function SizeSquared(): real { x * x + y * y }
  }

  /** FIntVector2 */
  datatype IntVec2 = IntVec2(x: int, y: int)

  datatype Vec3 = Vec3(x: real, y: real, z: real)
  {
    function Add(o: Vec3): Vec3 { Vec3(x + o.x, y + o.y, z + o.z) }
    /** FVector2D(FVector): drops Z */
    function XY(): Vec2 { Vec2(x, y) }
  }

  /** FBox2D: an axis-aligned rectangle given by its two corners */
  datatype Box2 = Box2(min: Vec2, max: Vec2)
  {
    /** FBox2D::IsInside, which is strict on all four sides */
    predicate IsInside(p: Vec2)
    {
      min.x < p.x < max.x && min.y < p.y < max.y
    }

    /** FBox2D::ComputeSquaredDistanceToPoint: per axis, the squared gap to the box */
    function SquaredDistanceToPoint(p: Vec2): (d: real)
      ensures d >= 0.0
    {
      AxisDistanceSquared(min.x, max.x, p.x) + AxisDistanceSquared(min.y, max.y, p.y)
    }

    /** A proper box is at distance 0 from exactly the points of its closed area */
    lemma SquaredDistanceZeroIffInside(p: Vec2)
      requires min.x <= max.x && min.y <= max.y
      ensures SquaredDistanceToPoint(p) == 0.0 <==> min.x <= p.x <= max.x && min.y <= p.y <= max.y
    {
      AxisDistanceZeroIffInside(min.x, max.x, p.x);
      AxisDistanceZeroIffInside(min.y, max.y, p.y);
    }
  }

  /** FMath::Abs */
  function Abs(x: real): (r: real)
    ensures r >= 0.0 && (r == x || r == -x)
  {
    if x < 0.0 then -x else x
  }

  /** FMath::Square */
  function Square(x: real): real
  {
    x * x
  }

  lemma ProductPositive(p: real, q: real)
    requires p > 0.0 && q > 0.0
    ensures p * q > 0.0
  {
  }

  lemma SquarePositive(x: real)
    requires x > 0.0
    ensures Square(x) > 0.0
  {
    ProductPositive(x, x);
    calc {
      Square(x);
      x * x;
    >
      0.0;
    }
  }

  /** Squaring is strictly increasing on the nonnegative reals */
  lemma SquareLess(a: real, b: real)
    requires 0.0 <= a < b
    ensures Square(a) < Square(b)
  {
    var p, q := b - a, b + a;
    ProductPositive(p, q);
    calc {
      Square(b) - Square(a);
      b * b - a * a;
      p * q;
    >
      0.0;
    }
  }

  lemma SquareAtMost(a: real, b: real)
    requires 0.0 <= a <= b
    ensures Square(a) <= Square(b)
  {
    if a < b {
      SquareLess(a, b);
    }
  }

  /** A factor whose product with a positive number is positive is itself positive */
  lemma PositiveFactor(x: real, b: real)
    requires b > 0.0
    ensures x * b > 0.0 ==> x > 0.0
  {
    if x < 0.0 {
      ProductPositive(-x, b);
    }
  }

  /** A quotient of a nonnegative number by a larger one lies in [0, 1), and is 0 only for 0 */
  lemma QuotientBelowOne(a: real, b: real)
    requires 0.0 <= a < b
    ensures 0.0 <= a / b < 1.0
    ensures a / b == 0.0 <==> a == 0.0
  {
    var q := a / b;
    var t := 1.0 - q;
    assert q * b == a;
    assert t * b == b - a;
    PositiveFactor(t, b);
    PositiveFactor(q, b);
  }

  /** The squared gap from v to [lo, hi] along one axis */
  function AxisDistanceSquared(lo: real, hi: real, v: real): (d: real)
    ensures d >= 0.0
  {
    if v < lo then Square(lo - v)
    else if v > hi then Square(v - hi)
    else 0.0
  }

  lemma AxisDistanceZeroIffInside(lo: real, hi: real, v: real)
    requires lo <= hi
    ensures AxisDistanceSquared(lo, hi, v) == 0.0 <==> lo <= v <= hi
  {
    if v < lo {
      SquarePositive(lo - v);
    } else if v > hi {
      SquarePositive(v - hi);
    }
  }

  newtype byte = b: int | 0 <= b < 256

  /** FColor: four 8-bit channels */
  datatype Color = Color(r: byte, g: byte, b: byte, a: byte)

  /** FColor::White */
  const White: Color := Color(255, 255, 255, 255)

  /** FLinearColor: four real channels */
  datatype LinearColor = LinearColor(r: real, g: real, b: real, a: real)

  /** FLinearColor::Black: the engine builds it with three arguments, so alpha takes its default of 1 */
  const Black: LinearColor := LinearColor(0.0, 0.0, 0.0, 1.0)

  /** The first position of x in s (TArray::IndexOfByKey) */
  function FirstIndexOf<T(==)>(s: seq<T>, x: T): Option<nat>
  {
    if |s| == 0 then None
    else if s[0] == x then Some(0)
    else match FirstIndexOf(s[1..], x)
      case None => None
      case Some(i) => Some(i + 1)
  }

  lemma {:induction false} FirstIndexOfFindsFirst<T>(s: seq<T>, i: nat)
    requires i < |s| && forall j :: 0 <= j < i ==> s[j] != s[i]
    ensures FirstIndexOf(s, s[i]) == Some(i)
  {
    if i > 0 {
      FirstIndexOfFindsFirst(s[1..], i - 1);
    }
  }

  lemma {:induction false} FirstIndexOfMissing<T>(s: seq<T>, x: T)
    requires x !in s
    ensures FirstIndexOf(s, x) == None
  {
    if |s| > 0 {
      assert x !in s[1..];
      FirstIndexOfMissing(s[1..], x);
    }
  }

  /** An entry of an insertion-ordered map (the engine's TMap without removals) */
  datatype Entry<K, V> = Entry(key: K, value: V)

  /** The value stored for a key: the first entry with that key */
  function Lookup<K(==), V>(m: seq<Entry<K, V>>, k: K): Option<V>
  {
    if |m| == 0 then None
    else if m[0].key == k then Some(m[0].value)
    else Lookup(m[1..], k)
  }

  function Keys<K, V>(m: seq<Entry<K, V>>): seq<K>
  {
    seq(|m|, i requires 0 <= i < |m| => m[i].key)
  }

  /** TMap::Add: overwrite the value of a present key in place, otherwise append the entry */
  function MapAdd<K(==,!new), V>(m: seq<Entry<K, V>>, k: K, v: V): (r: seq<Entry<K, V>>)
    ensures Lookup(r, k) == Some(v)
    ensures forall k' :: k' != k ==> Lookup(r, k') == Lookup(m, k')
    ensures |r| == |m| + (if k in Keys(m) then 0 else 1)
    ensures Keys(r)[..|m|] == Keys(m)
  {
    assert forall j :: 0 <= j < |m| ==> Keys(m)[j] == m[j].key;
    match FirstIndexOf(Keys(m), k)
    case Some(i) =>
      FirstIndexOfSound(Keys(m), k);
      LookupUpdated(m, i, k, v);
      m[i := Entry(k, v)]
    case None =>
      FirstIndexOfSound(Keys(m), k);
      LookupAppended(m, k, v);
      m + [Entry(k, v)]
  }

  lemma {:induction false} FirstIndexOfSound<T>(s: seq<T>, x: T)
    ensures FirstIndexOf(s, x).Some? ==> (FirstIndexOf(s, x).value < |s| && s[FirstIndexOf(s, x).value] == x &&
      forall j :: 0 <= j < FirstIndexOf(s, x).value ==> s[j] != x)
    ensures FirstIndexOf(s, x).None? <==> x !in s
  {
    if |s| > 0 && s[0] != x {
      FirstIndexOfSound(s[1..], x);
      assert s == [s[0]] + s[1..];
    }
  }

  lemma {:induction false} LookupUpdated<K(!new), V>(m: seq<Entry<K, V>>, i: nat, k: K, v: V)
    requires i < |m| && m[i].key == k && forall j :: 0 <= j < i ==> m[j].key != k
    ensures Lookup(m[i := Entry(k, v)], k) == Some(v)
    ensures forall k' :: k' != k ==> Lookup(m[i := Entry(k, v)], k') == Lookup(m, k')
  {
    if i > 0 {
      LookupUpdated(m[1..], i - 1, k, v);
      assert m[i := Entry(k, v)][1..] == m[1..][i - 1 := Entry(k, v)];
    } else {
      forall k' | k' != k
        ensures Lookup(m[i := Entry(k, v)], k') == Lookup(m, k')
      {
        assert m[i := Entry(k, v)][1..] == m[1..];
      }
    }
  }

  lemma {:induction false} LookupAppended<K(!new), V>(m: seq<Entry<K, V>>, k: K, v: V)
    requires forall j :: 0 <= j < |m| ==> m[j].key != k
    ensures Lookup(m + [Entry(k, v)], k) == Some(v)
    ensures forall k' :: k' != k ==> Lookup(m + [Entry(k, v)], k') == Lookup(m, k')
  {
    if |m| > 0 {
      LookupAppended(m[1..], k, v);
      assert (m + [Entry(k, v)])[1..] == m[1..] + [Entry(k, v)];
    }
  }

}
