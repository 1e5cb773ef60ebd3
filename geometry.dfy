/**
 * The exact part of the math/geometry kernel of LightBaking.js: clamping,
 * colour scaling, vector algebra, barycentric coordinates, bounding boxes
 * and the selection over ray-intersection lists.
 */
module Geometry {
  import opened Common

  // ---------------------------------------------------------------------
  // Clamping (mathFun.clip) and colour helpers (THREE.Color extensions)
  // ---------------------------------------------------------------------

  /** `Math.max(lo, Math.min(n, hi))`. */
  function Clip(n: real, lo: real, hi: real): (r: real)
    ensures lo <= hi ==> lo <= r <= hi
    ensures lo <= n <= hi ==> r == n
    ensures n > hi ==> r == Max(lo, hi)
    ensures n < lo ==> r == lo
  {
    Max(lo, Min(n, hi))
  }

  predicate ChannelsIn(c: Rgb, lo: real, hi: real)
  {
    lo <= c.r <= hi && lo <= c.g <= hi && lo <= c.b <= hi
  }

  /** `Color.clip(i, j)`: clamps every channel. */
  function ColorClip(c: Rgb, lo: real, hi: real): (r: Rgb)
    ensures lo <= hi ==> ChannelsIn(r, lo, hi)
    ensures ChannelsIn(c, lo, hi) ==> r == c
  {
    Rgb(Clip(c.r, lo, hi), Clip(c.g, lo, hi), Clip(c.b, lo, hi))
  }

  function ColorAdd(a: Rgb, b: Rgb): Rgb
  {
    Rgb(a.r + b.r, a.g + b.g, a.b + b.b)
  }

  function ColorMultiply(a: Rgb, b: Rgb): Rgb
  {
    Rgb(a.r * b.r, a.g * b.g, a.b * b.b)
  }

  function ColorScale(c: Rgb, s: real): Rgb
  {
    Rgb(c.r * s, c.g * s, c.b * s)
  }

  /**
   * `Color.divideScalar`: multiplies by the inverse when the divisor is
   * non-zero and yields black for a zero divisor.
   */
  function DivideScalar(c: Rgb, s: real): (r: Rgb)
    ensures s == 0.0 ==> r == Black
    ensures s != 0.0 ==> ColorScale(r, s) == c
  {
    if s != 0.0 then ColorScale(c, 1.0 / s) else Black
  }

  // ---------------------------------------------------------------------
  // Vector algebra (mathFun)
  // ---------------------------------------------------------------------

  function Dot(a: Vec3, b: Vec3): real
  {
    a.x * b.x + a.y * b.y + a.z * b.z
  }

  function Sub(a: Vec3, b: Vec3): Vec3
  {
    Vec3(a.x - b.x, a.y - b.y, a.z - b.z)
  }

  function Add(a: Vec3, b: Vec3): Vec3
  {
    Vec3(a.x + b.x, a.y + b.y, a.z + b.z)
  }

  /** `vCrossVectors`: the result is orthogonal to both operands. */
  function Cross(a: Vec3, b: Vec3): (r: Vec3)
    ensures Dot(r, a) == 0.0 && Dot(r, b) == 0.0
  {
    Vec3(a.y * b.z - a.z * b.y, a.z * b.x - a.x * b.z, a.x * b.y - a.y * b.x)
  }

  lemma CrossAntiCommutes(a: Vec3, b: Vec3)
    ensures Add(Cross(a, b), Cross(b, a)) == Vec3(0.0, 0.0, 0.0)
  {
  }

  /** A 3x3 matrix as the 9-element column-major array the source uses. */
  type Mat3 = m: seq<real> | |m| == 9 witness [0.0, 0.0, 0.0, 0.0, 0.0, 0.0, 0.0, 0.0, 0.0]

  /** `vApplyMatrix3`: the matrix-vector product with `m` read column by column. */
  function ApplyMatrix3(v: Vec3, m: Mat3): Vec3
  {
    Vec3(m[0] * v.x + m[3] * v.y + m[6] * v.z,
         m[1] * v.x + m[4] * v.y + m[7] * v.z,
         m[2] * v.x + m[5] * v.y + m[8] * v.z)
  }

  /** `getScaleMatrix`: scales x and y by `s` and leaves z alone. */
  function ScaleMatrix(s: real): (r: Mat3)
    ensures forall v: Vec3 {:trigger ApplyMatrix3(v, r)} :: ApplyMatrix3(v, r) == Vec3(s * v.x, s * v.y, v.z)
  {
    [s, 0.0, 0.0, 0.0, s, 0.0, 0.0, 0.0, 1.0]
  }

  /** `scaleFace`: applies `m` to every point, keeping their order. */
  function ScaleFace(uvs: seq<Vec3>, m: Mat3): (r: seq<Vec3>)
    ensures |r| == |uvs|
    ensures forall i :: 0 <= i < |uvs| ==> r[i] == ApplyMatrix3(uvs[i], m)
  {
    seq(|uvs|, i requires 0 <= i < |uvs| => ApplyMatrix3(uvs[i], m))
  }

  /** Point `k` of a face scaled by `ScaleMatrix(s)`. */
  lemma ScaledPoint(uvs: seq<Vec3>, s: real, k: nat)
    requires k < |uvs|
    ensures ScaleFace(uvs, ScaleMatrix(s))[k] == Vec3(s * uvs[k].x, s * uvs[k].y, uvs[k].z)
  {
    var m := ScaleMatrix(s);
    assert ScaleFace(uvs, m)[k] == ApplyMatrix3(uvs[k], m);
  }

  /** Scaling a face by `s` and then by `1/s` gives the face back. */
  lemma ScaleFaceInverse(uvs: seq<Vec3>, s: real)
    requires s != 0.0
    ensures ScaleFace(ScaleFace(uvs, ScaleMatrix(s)), ScaleMatrix(1.0 / s)) == uvs
  {
    var mid := ScaleFace(uvs, ScaleMatrix(s));
    var back := ScaleFace(mid, ScaleMatrix(1.0 / s));
    forall i | 0 <= i < |uvs| ensures back[i] == uvs[i] {
      assert mid[i] == Vec3(s * uvs[i].x, s * uvs[i].y, uvs[i].z);
      assert back[i] == Vec3((1.0 / s) * (s * uvs[i].x), (1.0 / s) * (s * uvs[i].y), uvs[i].z);
    }
  }

  // ---------------------------------------------------------------------
  // Barycentric coordinates (baryFun)
  // ---------------------------------------------------------------------

  datatype Bary = Bary(l1: real, l2: real, l3: real)

  function Sum(b: Bary): real { b.l1 + b.l2 + b.l3 }

  predicate AllWithin(b: Bary, lo: real, hi: real)
  {
    lo <= b.l1 <= hi && lo <= b.l2 <= hi && lo <= b.l3 <= hi
  }

  /** The common denominator of `getBarycentricCoordinates`; zero for a degenerate triangle. */
  function Det(a: Vec2, b: Vec2, c: Vec2): real
  {
    (b.y - c.y) * (a.x - c.x) + (c.x - b.x) * (a.y - c.y)
  }

  function Lift(p: Vec2): Vec3 { Vec3(p.x, p.y, 0.0) }

  /** `calcLocalPoint`: the point with barycentric weights `bary` on triangle `a b c`. */
  function CalcLocalPoint(bary: Bary, a: Vec3, b: Vec3, c: Vec3): (r: Vec3)
    ensures bary == Bary(1.0, 0.0, 0.0) ==> r == a
    ensures bary == Bary(0.0, 1.0, 0.0) ==> r == b
    ensures bary == Bary(0.0, 0.0, 1.0) ==> r == c
  {
    Vec3(bary.l1 * a.x + bary.l2 * b.x + bary.l3 * c.x,
         bary.l1 * a.y + bary.l2 * b.y + bary.l3 * c.y,
         bary.l1 * a.z + bary.l2 * b.z + bary.l3 * c.z)
  }

  /** Weights summing to one make `calcLocalPoint` commute with translation. */
  lemma CalcLocalPointTranslates(bary: Bary, a: Vec3, b: Vec3, c: Vec3, t: Vec3)
    requires Sum(bary) == 1.0
    ensures CalcLocalPoint(bary, Add(a, t), Add(b, t), Add(c, t)) == Add(CalcLocalPoint(bary, a, b, c), t)
  {
    var l1, l2, l3 := bary.l1, bary.l2, bary.l3;
    assert l1 * (a.x + t.x) + l2 * (b.x + t.x) + l3 * (c.x + t.x)
        == (l1 * a.x + l2 * b.x + l3 * c.x) + (l1 + l2 + l3) * t.x;
    assert l1 * (a.y + t.y) + l2 * (b.y + t.y) + l3 * (c.y + t.y)
        == (l1 * a.y + l2 * b.y + l3 * c.y) + (l1 + l2 + l3) * t.y;
    assert l1 * (a.z + t.z) + l2 * (b.z + t.z) + l3 * (c.z + t.z)
        == (l1 * a.z + l2 * b.z + l3 * c.z) + (l1 + l2 + l3) * t.z;
  }

  /** The two numerators of `getBarycentricCoordinates`. */
  function Num1(a: Vec2, b: Vec2, c: Vec2, p: Vec2): real
  {
    (b.y - c.y) * (p.x - c.x) + (c.x - b.x) * (p.y - c.y)
  }

  function Num2(a: Vec2, b: Vec2, c: Vec2, p: Vec2): real
  {
    (c.y - a.y) * (p.x - c.x) + (a.x - c.x) * (p.y - c.y)
  }

  /** Cramer's rule: (Num1, Num2) / Det solves p - c = l1 (a - c) + l2 (b - c). */
  lemma CramerForward(a: Vec2, b: Vec2, c: Vec2, p: Vec2)
    ensures Num1(a, b, c, p) * (a.x - c.x) + Num2(a, b, c, p) * (b.x - c.x) == Det(a, b, c) * (p.x - c.x)
    ensures Num1(a, b, c, p) * (a.y - c.y) + Num2(a, b, c, p) * (b.y - c.y) == Det(a, b, c) * (p.y - c.y)
  {
    var a1, a2, b1, b2, p1, p2 := a.x - c.x, a.y - c.y, b.x - c.x, b.y - c.y, p.x - c.x, p.y - c.y;
    assert Num1(a, b, c, p) == b2 * p1 - b1 * p2;
    assert Num2(a, b, c, p) == a1 * p2 - a2 * p1;
    assert Det(a, b, c) == b2 * a1 - b1 * a2;
    assert (b2 * p1 - b1 * p2) * a1 + (a1 * p2 - a2 * p1) * b1 == (b2 * a1 - b1 * a2) * p1;
    assert (b2 * p1 - b1 * p2) * a2 + (a1 * p2 - a2 * p1) * b2 == (b2 * a1 - b1 * a2) * p2;
  }

  /**
   * `getBarycentricCoordinates`. A zero denominator makes the source divide
   * b2 zero (every coordinate becomes infinite or NaN); that case is None.
   */
  function BarycentricCoordinates(a: Vec2, b: Vec2, c: Vec2, p: Vec2): (r: Option<Bary>)
    ensures r.Some? <==> Det(a, b, c) != 0.0
    ensures r.Some? ==> Sum(r.value) == 1.0
    ensures r.Some? ==> CalcLocalPoint(r.value, Lift(a), Lift(b), Lift(c)) == Lift(p)
  {
    var d := Det(a, b, c);
    if d == 0.0 then None
    else
      var l1 := Num1(a, b, c, p) / d;
      var l2 := Num2(a, b, c, p) / d;
      CramerForward(a, b, c, p);
      assert l1 * (a.x - c.x) + l2 * (b.x - c.x) == p.x - c.x by {
        assert l1 * (a.x - c.x) + l2 * (b.x - c.x) == (Num1(a, b, c, p) * (a.x - c.x) + Num2(a, b, c, p) * (b.x - c.x)) / d;
      }
      assert l1 * (a.y - c.y) + l2 * (b.y - c.y) == p.y - c.y by {
        assert l1 * (a.y - c.y) + l2 * (b.y - c.y) == (Num1(a, b, c, p) * (a.y - c.y) + Num2(a, b, c, p) * (b.y - c.y)) / d;
      }
      Some(Bary(l1, l2, 1.0 - l1 - l2))
  }

  /** Barycentric coordinates recover the weights of any affine combination. */
  lemma {:induction false} BarycentricOfLocalPoint(a: Vec2, b: Vec2, c: Vec2, l: Bary)
    requires Det(a, b, c) != 0.0 && Sum(l) == 1.0
    ensures var q := CalcLocalPoint(l, Lift(a), Lift(b), Lift(c));
            BarycentricCoordinates(a, b, c, Vec2(q.x, q.y)) == Some(l)
  {
    var q := CalcLocalPoint(l, Lift(a), Lift(b), Lift(c));
    var p := Vec2(q.x, q.y);
    var d := Det(a, b, c);
    var a1, a2, b1, b2 := a.x - c.x, a.y - c.y, b.x - c.x, b.y - c.y;
    assert l.l3 == 1.0 - l.l1 - l.l2;
    assert p.x - c.x == l.l1 * a1 + l.l2 * b1;
    assert p.y - c.y == l.l1 * a2 + l.l2 * b2;
    assert Num1(a, b, c, p) == b2 * (l.l1 * a1 + l.l2 * b1) - b1 * (l.l1 * a2 + l.l2 * b2);
    assert Num1(a, b, c, p) == l.l1 * d;
    assert Num2(a, b, c, p) == a1 * (l.l1 * a2 + l.l2 * b2) - a2 * (l.l1 * a1 + l.l2 * b1);
    assert Num2(a, b, c, p) == l.l2 * d;
    assert Num1(a, b, c, p) / d == l.l1;
    assert Num2(a, b, c, p) / d == l.l2;
    assert BarycentricCoordinates(a, b, c, p) == Some(Bary(l.l1, l.l2, 1.0 - l.l1 - l.l2));
  }

  /** At the vertices the coordinates are the unit weights, at the centroid a third each. */
  lemma BarycentricAtVerticesAndCentroid(a: Vec2, b: Vec2, c: Vec2)
    requires Det(a, b, c) != 0.0
    ensures BarycentricCoordinates(a, b, c, a) == Some(Bary(1.0, 0.0, 0.0))
    ensures BarycentricCoordinates(a, b, c, b) == Some(Bary(0.0, 1.0, 0.0))
    ensures BarycentricCoordinates(a, b, c, c) == Some(Bary(0.0, 0.0, 1.0))
    ensures BarycentricCoordinates(a, b, c, Vec2((a.x + b.x + c.x) / 3.0, (a.y + b.y + c.y) / 3.0))
            == Some(Bary(1.0 / 3.0, 1.0 / 3.0, 1.0 / 3.0))
  {
    BarycentricOfLocalPoint(a, b, c, Bary(1.0, 0.0, 0.0));
    BarycentricOfLocalPoint(a, b, c, Bary(0.0, 1.0, 0.0));
    BarycentricOfLocalPoint(a, b, c, Bary(0.0, 0.0, 1.0));
    var third := Bary(1.0 / 3.0, 1.0 / 3.0, 1.0 / 3.0);
    BarycentricOfLocalPoint(a, b, c, third);
    var q := CalcLocalPoint(third, Lift(a), Lift(b), Lift(c));
    assert Vec2(q.x, q.y) == Vec2((a.x + b.x + c.x) / 3.0, (a.y + b.y + c.y) / 3.0);
  }

  /** The result of `pointInTriangleO`: the coordinates and the verdict. */
  datatype TriangleTest = TriangleTest(coords: Option<Bary>, inTri: bool)

  /** `pointInTriangleO`: every coordinate must lie in [-o, 1 + o]. */
  function PointInTriangleO(a: Vec2, b: Vec2, c: Vec2, p: Vec2, o: real): TriangleTest
  {
    var bary := BarycentricCoordinates(a, b, c, p);
    TriangleTest(bary, bary.Some? && AllWithin(bary.value, -o, 1.0 + o))
  }

  /**
   * Accepted points are exactly the affine combinations of the corners whose
   * weights lie in [-o, 1 + o]; a degenerate triangle accepts nothing.
   */
  lemma {:induction false} PointInTriangleCharacterised(a: Vec2, b: Vec2, c: Vec2, p: Vec2, o: real)
    ensures PointInTriangleO(a, b, c, p, o).inTri <==>
            Det(a, b, c) != 0.0 &&
            exists l: Bary {:trigger CalcLocalPoint(l, Lift(a), Lift(b), Lift(c))} ::
              Sum(l) == 1.0 && AllWithin(l, -o, 1.0 + o) && CalcLocalPoint(l, Lift(a), Lift(b), Lift(c)) == Lift(p)
  {
    var t := PointInTriangleO(a, b, c, p, o);
    if t.inTri {
      var l := t.coords.value;
      assert CalcLocalPoint(l, Lift(a), Lift(b), Lift(c)) == Lift(p);
    }
    if Det(a, b, c) != 0.0 &&
       exists l: Bary {:trigger CalcLocalPoint(l, Lift(a), Lift(b), Lift(c))} ::
         Sum(l) == 1.0 && AllWithin(l, -o, 1.0 + o) && CalcLocalPoint(l, Lift(a), Lift(b), Lift(c)) == Lift(p)
    {
      var l: Bary :| Sum(l) == 1.0 && AllWithin(l, -o, 1.0 + o) && CalcLocalPoint(l, Lift(a), Lift(b), Lift(c)) == Lift(p);
      BarycentricOfLocalPoint(a, b, c, l);
      assert Vec2(Lift(p).x, Lift(p).y) == p;
    }
  }

  /** A wider seam tolerance accepts at least the same points. */
  lemma PointInTriangleMonotone(a: Vec2, b: Vec2, c: Vec2, p: Vec2, o: real, o': real)
    requires o <= o' && PointInTriangleO(a, b, c, p, o).inTri
    ensures PointInTriangleO(a, b, c, p, o').inTri
  {
  }

  /** Moving `dx` along a row changes each numerator at a fixed rate. */
  lemma NumeratorsAlongRow(a: Vec2, b: Vec2, c: Vec2, y: real, x1: real, x2: real)
    ensures Num1(a, b, c, Vec2(x2, y)) - Num1(a, b, c, Vec2(x1, y)) == (b.y - c.y) * (x2 - x1)
    ensures Num2(a, b, c, Vec2(x2, y)) - Num2(a, b, c, Vec2(x1, y)) == (c.y - a.y) * (x2 - x1)
  {
  }

  lemma DivideSlope(n1: real, n2: real, k: real, dx: real, d: real)
    requires d != 0.0 && n2 - n1 == k * dx
    ensures n2 / d - n1 / d == (k / d) * dx
  {
    assert n2 / d - n1 / d == (n2 - n1) / d;
  }

  /** A quantity changing at one fixed rate `s` takes, between two points, a value between its two end values. */
  lemma {:induction false} BetweenAtFixedRate(f1: real, f2: real, f3: real, s: real, x1: real, x2: real, x3: real)
    requires x1 <= x2 <= x3
    requires f2 - f1 == s * (x2 - x1) && f3 - f2 == s * (x3 - x2)
    ensures Min(f1, f3) <= f2 <= Max(f1, f3)
  {
    if s >= 0.0 {
      assert s * (x2 - x1) >= 0.0 && s * (x3 - x2) >= 0.0;
    } else {
      assert s * (x2 - x1) <= 0.0 && s * (x3 - x2) <= 0.0;
    }
  }

  /** The rates at which the three barycentric coordinates change along a row. */
  function RowRates(a: Vec2, b: Vec2, c: Vec2): Bary
    requires Det(a, b, c) != 0.0
  {
    var d := Det(a, b, c);
    Bary((b.y - c.y) / d, (c.y - a.y) / d, -((b.y - c.y) / d + (c.y - a.y) / d))
  }

  /** Each coordinate of `q` differs from that of `p` by its rate in `s` times `dx`. */
  predicate ChangeAtRates(p: Bary, q: Bary, s: Bary, dx: real)
  {
    q.l1 - p.l1 == s.l1 * dx && q.l2 - p.l2 == s.l2 * dx && q.l3 - p.l3 == s.l3 * dx
  }

  /** Along a row the first coordinate changes at the rate of its numerator over `Det`. */
  lemma {:induction false} FirstCoordinateAlongRow(a: Vec2, b: Vec2, c: Vec2, y: real, x1: real, x2: real)
    requires Det(a, b, c) != 0.0
    ensures BarycentricCoordinates(a, b, c, Vec2(x2, y)).value.l1 - BarycentricCoordinates(a, b, c, Vec2(x1, y)).value.l1
            == RowRates(a, b, c).l1 * (x2 - x1)
  {
    var d := Det(a, b, c);
    var n1, n2 := Num1(a, b, c, Vec2(x1, y)), Num1(a, b, c, Vec2(x2, y));
    assert BarycentricCoordinates(a, b, c, Vec2(x1, y)).value.l1 == n1 / d;
    assert BarycentricCoordinates(a, b, c, Vec2(x2, y)).value.l1 == n2 / d;
    NumeratorsAlongRow(a, b, c, y, x1, x2);
    DivideSlope(n1, n2, b.y - c.y, x2 - x1, d);
  }

  /** Along a row the second coordinate changes at the rate of its numerator over `Det`. */
  lemma {:induction false} SecondCoordinateAlongRow(a: Vec2, b: Vec2, c: Vec2, y: real, x1: real, x2: real)
    requires Det(a, b, c) != 0.0
    ensures BarycentricCoordinates(a, b, c, Vec2(x2, y)).value.l2 - BarycentricCoordinates(a, b, c, Vec2(x1, y)).value.l2
            == RowRates(a, b, c).l2 * (x2 - x1)
  {
    var d := Det(a, b, c);
    var n1, n2 := Num2(a, b, c, Vec2(x1, y)), Num2(a, b, c, Vec2(x2, y));
    assert BarycentricCoordinates(a, b, c, Vec2(x1, y)).value.l2 == n1 / d;
    assert BarycentricCoordinates(a, b, c, Vec2(x2, y)).value.l2 == n2 / d;
    NumeratorsAlongRow(a, b, c, y, x1, x2);
    DivideSlope(n1, n2, c.y - a.y, x2 - x1, d);
  }

  /** Along a row the barycentric coordinates are affine in x, with the rates `RowRates`. */
  lemma {:induction false} CoordinatesAlongRow(a: Vec2, b: Vec2, c: Vec2, y: real, x1: real, x2: real)
    requires Det(a, b, c) != 0.0
    ensures ChangeAtRates(BarycentricCoordinates(a, b, c, Vec2(x1, y)).value,
                          BarycentricCoordinates(a, b, c, Vec2(x2, y)).value, RowRates(a, b, c), x2 - x1)
  {
    FirstCoordinateAlongRow(a, b, c, y, x1, x2);
    SecondCoordinateAlongRow(a, b, c, y, x1, x2);
    var p := BarycentricCoordinates(a, b, c, Vec2(x1, y)).value;
    var q := BarycentricCoordinates(a, b, c, Vec2(x2, y)).value;
    var s := RowRates(a, b, c);
    var dx := x2 - x1;
    assert p.l3 == 1.0 - p.l1 - p.l2 && q.l3 == 1.0 - q.l1 - q.l2;
    assert s.l3 * dx == -(s.l1 * dx + s.l2 * dx);
  }

  /** Coordinates changing at fixed rates stay within bounds their two end values keep. */
  lemma {:induction false} WithinBetween(p: Bary, q: Bary, r: Bary, s: Bary, x1: real, x2: real, x3: real, lo: real, hi: real)
    requires x1 <= x2 <= x3 && AllWithin(p, lo, hi) && AllWithin(r, lo, hi)
    requires ChangeAtRates(p, q, s, x2 - x1) && ChangeAtRates(q, r, s, x3 - x2)
    ensures AllWithin(q, lo, hi)
  {
    BetweenAtFixedRate(p.l1, q.l1, r.l1, s.l1, x1, x2, x3);
    BetweenAtFixedRate(p.l2, q.l2, r.l2, s.l2, x1, x2, x3);
    BetweenAtFixedRate(p.l3, q.l3, r.l3, s.l3, x1, x2, x3);
  }

  /**
   * Along one row the texels `pointInTriangleO` accepts are contiguous: a
   * texel between two accepted ones is accepted. Stopping a row at the
   * first rejected texel after an accepted one therefore misses none.
   */
  lemma {:induction false} AcceptedTexelsAreContiguous(a: Vec2, b: Vec2, c: Vec2, y: real, x1: real, x2: real, x3: real, o: real)
    requires x1 <= x2 <= x3
    requires PointInTriangleO(a, b, c, Vec2(x1, y), o).inTri && PointInTriangleO(a, b, c, Vec2(x3, y), o).inTri
    ensures PointInTriangleO(a, b, c, Vec2(x2, y), o).inTri
  {
    var p := BarycentricCoordinates(a, b, c, Vec2(x1, y)).value;
    var q := BarycentricCoordinates(a, b, c, Vec2(x2, y)).value;
    var r := BarycentricCoordinates(a, b, c, Vec2(x3, y)).value;
    CoordinatesAlongRow(a, b, c, y, x1, x2);
    CoordinatesAlongRow(a, b, c, y, x2, x3);
    WithinBetween(p, q, r, RowRates(a, b, c), x1, x2, x3, -o, 1.0 + o);
  }

  /**
   * `whereInBary` with the seam tolerance passed in: 1 inside the triangle,
   * 0 only in the tolerance band, -1 outside the widened triangle.
   */
  function WhereInBary(bary: Bary, o: real): (r: int)
    ensures r == -1 || r == 0 || r == 1
    ensures r >= 0 <==> AllWithin(bary, -o, 1.0 + o)
    ensures o >= 0.0 ==> (r == 1 <==> AllWithin(bary, 0.0, 1.0))
  {
    var inTri := AllWithin(bary, 0.0, 1.0);
    var inExtendedTri := AllWithin(bary, -o, 1.0 + o);
    if inTri && inExtendedTri then 1 else if inExtendedTri then 0 else -1
  }

  /** `whereInBary` never reports -1 for a texel that `pointInTriangleO` accepted. */
  lemma WhereInBaryAgreesWithTest(a: Vec2, b: Vec2, c: Vec2, p: Vec2, o: real)
    requires PointInTriangleO(a, b, c, p, o).inTri
    ensures WhereInBary(PointInTriangleO(a, b, c, p, o).coords.value, o) >= 0
  {
  }

  // ---------------------------------------------------------------------
  // Bounding boxes (getMaxima, findMeshMaxima)
  // ---------------------------------------------------------------------

  datatype Axis = X | Y | Z

  function Coord(v: Vec3, ax: Axis): real
  {
    match ax
    case X => v.x
    case Y => v.y
    case Z => v.z
  }

  /** The result of `getMaxima`; `Extent` is the source's `XD`, `YD`, `ZD`. */
  datatype Maxima = Maxima(xMin: real, xMax: real, yMin: real, yMax: real, zMin: real, zMax: real)
  {
    function Lo(ax: Axis): real
    {
      match ax
      case X => xMin
      case Y => yMin
      case Z => zMin
    }

    function Hi(ax: Axis): real
    {
      match ax
      case X => xMax
      case Y => yMax
      case Z => zMax
    }

    function Extent(ax: Axis): real { Hi(ax) - Lo(ax) }
  }

  /** One step of the `getMaxima` loop. */
  function Extend(m: Maxima, v: Vec3): Maxima
  {
    Maxima(if v.x < m.xMin then v.x else m.xMin, if v.x > m.xMax then v.x else m.xMax,
           if v.y < m.yMin then v.y else m.yMin, if v.y > m.yMax then v.y else m.yMax,
           if v.z < m.zMin then v.z else m.zMin, if v.z > m.zMax then v.z else m.zMax)
  }

  function PointBox(v: Vec3): Maxima
  {
    Maxima(v.x, v.x, v.y, v.y, v.z, v.z)
  }

  /** The box `getMaxima` computes, as a left fold over the points. */
  function BoxOf(vs: seq<Vec3>): Maxima
    requires |vs| > 0
  {
    if |vs| == 1 then PointBox(vs[0]) else Extend(BoxOf(vs[..|vs| - 1]), vs[|vs| - 1])
  }

  predicate Encloses(m: Maxima, v: Vec3)
  {
    m.xMin <= v.x <= m.xMax && m.yMin <= v.y <= m.yMax && m.zMin <= v.z <= m.zMax
  }

  predicate Attains(vs: seq<Vec3>, ax: Axis, bound: real)
  {
    exists i :: 0 <= i < |vs| && Coord(vs[i], ax) == bound
  }

  /** No point lies outside the box and, on every axis, both bounds are attained by a point. */
  lemma {:induction false} BoxOfIsTight(vs: seq<Vec3>, ax: Axis)
    requires |vs| > 0
    ensures forall i :: 0 <= i < |vs| ==> Encloses(BoxOf(vs), vs[i])
    ensures Attains(vs, ax, BoxOf(vs).Lo(ax)) && Attains(vs, ax, BoxOf(vs).Hi(ax))
  {
    if |vs| == 1 {
      assert Coord(vs[0], ax) == BoxOf(vs).Lo(ax) == BoxOf(vs).Hi(ax);
    } else {
      var last := |vs| - 1;
      var init := vs[..last];
      BoxOfIsTight(init, ax);
      assert forall i :: 0 <= i < |init| ==> vs[i] == init[i];
      var lo :| 0 <= lo < |init| && Coord(init[lo], ax) == BoxOf(init).Lo(ax);
      var hi :| 0 <= hi < |init| && Coord(init[hi], ax) == BoxOf(init).Hi(ax);
      if Coord(vs[last], ax) < BoxOf(init).Lo(ax) {
        assert Coord(vs[last], ax) == BoxOf(vs).Lo(ax);
      } else {
        assert Coord(vs[lo], ax) == BoxOf(vs).Lo(ax);
      }
      if Coord(vs[last], ax) > BoxOf(init).Hi(ax) {
        assert Coord(vs[last], ax) == BoxOf(vs).Hi(ax);
      } else {
        assert Coord(vs[hi], ax) == BoxOf(vs).Hi(ax);
      }
    }
  }

  /** `getMaxima`: the loop over the points, proved to compute `BoxOf`. */
  method GetMaxima(vecArr: seq<Vec3>) returns (maxima: Maxima)
    requires |vecArr| > 0
    ensures maxima == BoxOf(vecArr)
    ensures forall i :: 0 <= i < |vecArr| ==> Encloses(maxima, vecArr[i])
  {
    maxima := PointBox(vecArr[0]);
    var j := 1;
    while j < |vecArr|
      invariant 1 <= j <= |vecArr|
      invariant maxima == BoxOf(vecArr[..j])
    {
      assert vecArr[..j + 1][..j] == vecArr[..j];
      var v := vecArr[j];
      if v.x < maxima.xMin { maxima := maxima.(xMin := v.x); }
      if v.x > maxima.xMax { maxima := maxima.(xMax := v.x); }
      if v.y < maxima.yMin { maxima := maxima.(yMin := v.y); }
      if v.y > maxima.yMax { maxima := maxima.(yMax := v.y); }
      if v.z < maxima.zMin { maxima := maxima.(zMin := v.z); }
      if v.z > maxima.zMax { maxima := maxima.(zMax := v.z); }
      j := j + 1;
    }
    assert vecArr[..j] == vecArr;
    BoxOfIsTight(vecArr, X);
  }

  /**
   * One step of the `findMeshMaxima` loop: each axis independently takes the
   * face's bounds when the face is strictly wider on that axis.
   */
  function Widen(glob: Maxima, m: Maxima): (r: Maxima)
    ensures forall ax :: r.Lo(ax) == (if glob.Extent(ax) < m.Extent(ax) then m.Lo(ax) else glob.Lo(ax))
    ensures forall ax :: r.Hi(ax) == (if glob.Extent(ax) < m.Extent(ax) then m.Hi(ax) else glob.Hi(ax))
  {
    var wx := glob.Extent(X) < m.Extent(X);
    var wy := glob.Extent(Y) < m.Extent(Y);
    var wz := glob.Extent(Z) < m.Extent(Z);
    Maxima(if wx then m.xMin else glob.xMin, if wx then m.xMax else glob.xMax,
           if wy then m.yMin else glob.yMin, if wy then m.yMax else glob.yMax,
           if wz then m.zMin else glob.zMin, if wz then m.zMax else glob.zMax)
  }

  predicate NonEmptyFaces(flats: seq<seq<Vec3>>)
  {
    forall i :: 0 <= i < |flats| ==> |flats[i]| > 0
  }

  /** The box `findMeshMaxima` computes from already-flattened faces. */
  function MeshBoxOf(flats: seq<seq<Vec3>>): Maxima
    requires |flats| > 0 && NonEmptyFaces(flats)
  {
    if |flats| == 1 then BoxOf(flats[0]) else Widen(MeshBoxOf(flats[..|flats| - 1]), BoxOf(flats[|flats| - 1]))
  }

  /** On each axis a widened box has the extent of the wider of the two. */
  lemma WidenExtent(g: Maxima, m: Maxima, ax: Axis)
    ensures Widen(g, m).Extent(ax) == (if g.Extent(ax) < m.Extent(ax) then m.Extent(ax) else g.Extent(ax))
  {
  }

  /** On every axis the mesh box is at least as wide as every face. */
  lemma {:induction false} MeshBoxIsWidest(flats: seq<seq<Vec3>>, ax: Axis)
    requires |flats| > 0 && NonEmptyFaces(flats)
    ensures forall i :: 0 <= i < |flats| ==> BoxOf(flats[i]).Extent(ax) <= MeshBoxOf(flats).Extent(ax)
  {
    if |flats| > 1 {
      var last := |flats| - 1;
      var init := flats[..last];
      assert forall i :: 0 <= i < |init| ==> init[i] == flats[i];
      MeshBoxIsWidest(init, ax);
      var g, m := MeshBoxOf(init), BoxOf(flats[last]);
      assert MeshBoxOf(flats) == Widen(g, m);
      WidenExtent(g, m, ax);
    }
  }

  /** Face `k` has the mesh box's bounds on `ax`, and every face before it is strictly narrower there. */
  predicate FirstWidestAt(flats: seq<seq<Vec3>>, ax: Axis, k: nat)
    requires |flats| > 0 && NonEmptyFaces(flats)
  {
    k < |flats| &&
    BoxOf(flats[k]).Lo(ax) == MeshBoxOf(flats).Lo(ax) && BoxOf(flats[k]).Hi(ax) == MeshBoxOf(flats).Hi(ax) &&
    forall j :: 0 <= j < k ==> BoxOf(flats[j]).Extent(ax) < BoxOf(flats[k]).Extent(ax)
  }

  /** On every axis the mesh box has the bounds of the first face of largest extent, face `k`. */
  lemma {:induction false} MeshBoxIsFirst(flats: seq<seq<Vec3>>, ax: Axis) returns (k: nat)
    requires |flats| > 0 && NonEmptyFaces(flats)
    ensures FirstWidestAt(flats, ax, k)
  {
    if |flats| == 1 {
      assert BoxOf(flats[0]) == MeshBoxOf(flats);
      k := 0;
    } else {
      var init := flats[..|flats| - 1];
      assert forall i :: 0 <= i < |init| ==> init[i] == flats[i];
      k := MeshBoxIsFirst(init, ax);
      k := MeshBoxIsFirstStep(flats, ax, k);
    }
  }

  /** The inductive step: the last face takes over only when it is strictly wider. */
  lemma MeshBoxIsFirstStep(flats: seq<seq<Vec3>>, ax: Axis, k: nat) returns (k': nat)
    requires |flats| > 1 && NonEmptyFaces(flats)
    requires FirstWidestAt(flats[..|flats| - 1], ax, k)
    ensures FirstWidestAt(flats, ax, k')
  {
    var last := |flats| - 1;
    var init := flats[..last];
    assert forall i :: 0 <= i < |init| ==> init[i] == flats[i];
    var g, m := MeshBoxOf(init), BoxOf(flats[last]);
    assert MeshBoxOf(flats) == Widen(g, m);
    if g.Extent(ax) < m.Extent(ax) {
      MeshBoxIsWidest(init, ax);
      assert forall j :: 0 <= j < last ==> BoxOf(flats[j]).Extent(ax) < m.Extent(ax);
      k' := last;
    } else {
      k' := k;
    }
  }

  /**
   * On every axis the mesh box has the largest extent of any face, and its
   * bounds on that axis are those of the FIRST face attaining it (strict
   * comparison in the source).
   */
  lemma MeshBoxOfIsFirstWidest(flats: seq<seq<Vec3>>, ax: Axis)
    requires |flats| > 0 && NonEmptyFaces(flats)
    ensures forall i :: 0 <= i < |flats| ==> BoxOf(flats[i]).Extent(ax) <= MeshBoxOf(flats).Extent(ax)
    ensures exists i :: 0 <= i < |flats| &&
              BoxOf(flats[i]).Lo(ax) == MeshBoxOf(flats).Lo(ax) && BoxOf(flats[i]).Hi(ax) == MeshBoxOf(flats).Hi(ax) &&
              forall j :: 0 <= j < i ==> BoxOf(flats[j]).Extent(ax) < BoxOf(flats[i]).Extent(ax)
  {
    MeshBoxIsWidest(flats, ax);
    var k := MeshBoxIsFirst(flats, ax);
    assert FirstWidestAt(flats, ax, k);
  }

  /** The box of one more face is the box so far widened by that face's box. */
  lemma MeshBoxPrefixStep(flats: seq<seq<Vec3>>, i: nat)
    requires 1 <= i < |flats| && NonEmptyFaces(flats)
    ensures MeshBoxOf(flats[..i + 1]) == Widen(MeshBoxOf(flats[..i]), BoxOf(flats[i]))
  {
    assert flats[..i + 1][..i] == flats[..i];
  }

  /** `findMeshMaxima` over faces that were already flattened. */
  method FindMeshMaxima(flats: seq<seq<Vec3>>) returns (globMaxima: Maxima)
    requires |flats| > 0 && NonEmptyFaces(flats)
    ensures globMaxima == MeshBoxOf(flats)
  {
    globMaxima := GetMaxima(flats[0]);
    var i := 1;
    while i < |flats|
      invariant 1 <= i <= |flats|
      invariant globMaxima == MeshBoxOf(flats[..i])
    {
      MeshBoxPrefixStep(flats, i);
      var maxima := GetMaxima(flats[i]);
      ghost var glob := globMaxima;
      if globMaxima.Extent(X) < maxima.Extent(X) { globMaxima := globMaxima.(xMin := maxima.xMin, xMax := maxima.xMax); }
      if globMaxima.Extent(Y) < maxima.Extent(Y) { globMaxima := globMaxima.(yMin := maxima.yMin, yMax := maxima.yMax); }
      if globMaxima.Extent(Z) < maxima.Extent(Z) { globMaxima := globMaxima.(zMin := maxima.zMin, zMax := maxima.zMax); }
      assert globMaxima == Widen(glob, maxima);
      i := i + 1;
    }
    assert flats[..i] == flats;
  }

  // ---------------------------------------------------------------------
  // Intersection lists (closestIntersection, anyIntersectionBeforeLight)
  // ---------------------------------------------------------------------

  /** One ray hit as reported by the visibility oracle. */
  datatype Hit = Hit(distance: real, point: Vec3, faceIndex: int, objectId: int)

  /** The reducer of `closestIntersection`: keeps `prev` only when strictly closer. */
  function Closer(prev: Hit, curr: Hit): Hit
  {
    if prev.distance < curr.distance then prev else curr
  }

  /** `Intersections.reduce(Closer, Intersections[0])` over the first `n` hits. */
  function ReducePrefix(hits: seq<Hit>, n: nat): (r: Hit)
    requires 0 < |hits| && n <= |hits|
    ensures r in hits
    ensures forall j :: 0 <= j < n ==> r.distance <= hits[j].distance
  {
    if n == 0 then hits[0] else Closer(ReducePrefix(hits, n - 1), hits[n - 1])
  }

  /** The reduction ends on a hit after which every hit is strictly farther. */
  lemma {:induction false} ReducePrefixKeepsLastMinimum(hits: seq<Hit>, n: nat)
    requires 0 < |hits| && n <= |hits|
    ensures exists k :: 0 <= k < |hits| && hits[k] == ReducePrefix(hits, n) &&
              forall j :: k < j < n ==> ReducePrefix(hits, n).distance < hits[j].distance
  {
    if n == 0 {
      assert hits[0] == ReducePrefix(hits, n);
    } else {
      var prev := ReducePrefix(hits, n - 1);
      if prev.distance < hits[n - 1].distance {
        ReducePrefixKeepsLastMinimum(hits, n - 1);
        var k :| 0 <= k < |hits| && hits[k] == prev && forall j :: k < j < n - 1 ==> prev.distance < hits[j].distance;
        assert forall j :: k < j < n ==> prev.distance < hits[j].distance;
      } else {
        assert hits[n - 1] == ReducePrefix(hits, n);
      }
    }
  }

  /**
   * `closestIntersection`: undefined for an empty list; otherwise a hit of
   * least distance, the LAST one among equally close hits.
   */
  function ClosestIntersection(hits: seq<Hit>): (r: Option<Hit>)
    ensures r.None? <==> |hits| == 0
    ensures r.Some? ==> r.value in hits
    ensures r.Some? ==> forall j :: 0 <= j < |hits| ==> r.value.distance <= hits[j].distance
    ensures r.Some? ==> exists k :: 0 <= k < |hits| && hits[k] == r.value &&
                          forall j :: k < j < |hits| ==> r.value.distance < hits[j].distance
  {
    if |hits| == 0 then None
    else
      ReducePrefixKeepsLastMinimum(hits, |hits|);
      Some(ReducePrefix(hits, |hits|))
  }

  lemma ClosestOfSingleton(h: Hit)
    ensures ClosestIntersection([h]) == Some(h)
  {
  }

  /** `anyIntersectionBeforeLight`: `some` hit strictly closer than the light. */
  function AnyIntersectionBeforeLight(hits: seq<Hit>, lightDistance: real): (r: bool)
    ensures r <==> exists i :: 0 <= i < |hits| && hits[i].distance < lightDistance
  {
    if |hits| == 0 then false
    else hits[0].distance < lightDistance || AnyIntersectionBeforeLight(hits[1..], lightDistance)
  }

  /** A shadow ray is blocked exactly when the closest hit lies before the light. */
  lemma BlockedIffClosestBeforeLight(hits: seq<Hit>, lightDistance: real)
    requires |hits| > 0
    ensures AnyIntersectionBeforeLight(hits, lightDistance) <==> ClosestIntersection(hits).value.distance < lightDistance
  {
  }
}
