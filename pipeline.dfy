/**
 * The cube's transform pipeline: turn every point about the y axis, then every
 * point about the x axis, then lower the whole point set by its largest z so
 * that the highest point sits at depth 0.
 */
module Pipeline {
  import opened Rotation
  import Cube

  /** Applies `f` to every point, keeping the order: a list comprehension. */
  function MapPoints(ps: seq<Vec3>, f: Vec3 -> Vec3): (r: seq<Vec3>)
    ensures |r| == |ps|
    ensures forall i :: 0 <= i < |ps| ==> r[i] == f(ps[i])
  {
    if ps == [] then [] else [f(ps[0])] + MapPoints(ps[1..], f)
  }

  /** The largest z coordinate of a non-empty list of points. */
  function MaxZ(ps: seq<Vec3>): (m: real)
    requires |ps| > 0
    ensures forall i :: 0 <= i < |ps| ==> ps[i].z <= m
    ensures exists i :: 0 <= i < |ps| && ps[i].z == m
  {
    if |ps| == 1 then ps[0].z
    else
      var rest := MaxZ(ps[1..]);
      assert forall i :: 1 <= i < |ps| ==> ps[i] == ps[1..][i - 1];
      if ps[0].z >= rest then ps[0].z else rest
  }

  /** An attained upper bound of the z coordinates is the maximum. */
  lemma MaxZIsTheAttainedBound(ps: seq<Vec3>, m: real, k: int)
    requires 0 <= k < |ps| && ps[k].z == m
    requires forall i :: 0 <= i < |ps| ==> ps[i].z <= m
    ensures MaxZ(ps) == m
  {
  }

  /** Every point rotated about the y axis. */
  function RotateAllY(ps: seq<Vec3>, a: Angle): (r: seq<Vec3>)
    ensures |r| == |ps|
    ensures forall i :: 0 <= i < |ps| ==> r[i] == RotateY(ps[i], a)
  {
    MapPoints(ps, p => RotateY(p, a))
  }

  /** Every point rotated about the x axis. */
  function RotateAllX(ps: seq<Vec3>, a: Angle): (r: seq<Vec3>)
    ensures |r| == |ps|
    ensures forall i :: 0 <= i < |ps| ==> r[i] == RotateX(ps[i], a)
  {
    MapPoints(ps, p => RotateX(p, a))
  }

  /** Every point lowered by the largest z, so that the maximum depth becomes 0. */
  function Recentre(ps: seq<Vec3>): (r: seq<Vec3>)
    requires |ps| > 0
    ensures |r| == |ps|
    ensures forall i :: 0 <= i < |ps| ==> r[i] == Sub(ps[i], Vec3(0.0, 0.0, MaxZ(ps)))
  {
    var m := MaxZ(ps);
    MapPoints(ps, p => Sub(p, Vec3(0.0, 0.0, m)))
  }

  /**
   * Recentring keeps x and y, leaves every z at or below 0 and puts the top
   * point exactly at 0.
   */
  lemma RecentreProperties(ps: seq<Vec3>)
    requires |ps| > 0
    ensures forall i :: 0 <= i < |ps| ==> Recentre(ps)[i].x == ps[i].x && Recentre(ps)[i].y == ps[i].y
    ensures forall i :: 0 <= i < |ps| ==> Recentre(ps)[i].z <= 0.0
    ensures MaxZ(Recentre(ps)) == 0.0
  {
    var r := Recentre(ps);
    var m := MaxZ(ps);
    forall i | 0 <= i < |ps|
      ensures r[i].x == ps[i].x && r[i].y == ps[i].y && r[i].z == ps[i].z - m
    {
      assert r[i] == Sub(ps[i], Vec3(0.0, 0.0, m));
    }
    var k :| 0 <= k < |ps| && ps[k].z == m;
    MaxZIsTheAttainedBound(r, 0.0, k);
  }

  /** Recentring moves all points by the same amount, so differences between points are kept. */
  lemma RecentreKeepsDifferences(ps: seq<Vec3>, i: int, j: int)
    requires |ps| > 0
    requires 0 <= i < |ps| && 0 <= j < |ps|
    ensures Sub(Recentre(ps)[i], Recentre(ps)[j]) == Sub(ps[i], ps[j])
  {
    var m := Vec3(0.0, 0.0, MaxZ(ps));
    assert Recentre(ps)[i] == Sub(ps[i], m);
    assert Recentre(ps)[j] == Sub(ps[j], m);
  }

  /** The points after both rotations, in the pipeline's fixed order: y first, then x. */
  function Rotated(ps: seq<Vec3>, angleY: Angle, angleX: Angle): (r: seq<Vec3>)
    ensures |r| == |ps|
    ensures forall i :: 0 <= i < |ps| ==> r[i] == RotateX(RotateY(ps[i], angleY), angleX)
  {
    RotateAllX(RotateAllY(ps, angleY), angleX)
  }

  /** The whole pipeline. */
  function Transform(ps: seq<Vec3>, angleY: Angle, angleX: Angle): (r: seq<Vec3>)
    requires |ps| > 0
    ensures |r| == |ps|
    ensures MaxZ(r) == 0.0
    ensures forall i :: 0 <= i < |r| ==> r[i].z <= 0.0
  {
    RecentreProperties(Rotated(ps, angleY, angleX));
    Recentre(Rotated(ps, angleY, angleX))
  }

  /** The corner positions the cube scene draws for the given turns: the corner table through the pipeline. */
  function CubeScene(angleY: Angle, angleX: Angle): (r: seq<Vec3>)
    ensures |r| == |Cube.Vertices| == 8
  {
    Cube.HighAndTopCorners();
    Transform(Cube.Vertices, angleY, angleX)
  }

  /**
   * Point i of the output is input point i turned about y, then about x, then
   * lowered by the largest z of the turned points.
   */
  lemma TransformPointwise(ps: seq<Vec3>, angleY: Angle, angleX: Angle, i: int)
    requires 0 <= i < |ps|
    ensures Transform(ps, angleY, angleX)[i] ==
      Sub(RotateX(RotateY(ps[i], angleY), angleX), Vec3(0.0, 0.0, MaxZ(Rotated(ps, angleY, angleX))))
  {
  }

  /**
   * The two turns of the pipeline are one turn by the product of the two
   * matrices, the x-axis matrix on the left since it acts second.
   */
  lemma RotatedIsOneMatrix(ps: seq<Vec3>, angleY: Angle, angleX: Angle, i: int)
    requires 0 <= i < |ps|
    ensures Rotated(ps, angleY, angleX)[i] == Apply(Mul(MatrixX(angleX), MatrixY(angleY)), ps[i])
  {
    ApplyOfProduct(MatrixX(angleX), MatrixY(angleY), ps[i]);
  }

  /** With unit angles the pipeline is a rigid motion: all distances between points are kept. */
  lemma TransformIsRigid(ps: seq<Vec3>, angleY: Angle, angleX: Angle, i: int, j: int)
    requires IsUnit(angleY) && IsUnit(angleX)
    requires 0 <= i < |ps| && 0 <= j < |ps|
    ensures SqNorm(Sub(Transform(ps, angleY, angleX)[i], Transform(ps, angleY, angleX)[j]))
         == SqNorm(Sub(ps[i], ps[j]))
  {
    var turnedY := RotateAllY(ps, angleY);
    var turned := Rotated(ps, angleY, angleX);
    RecentreKeepsDifferences(turned, i, j);
    RotationsPreserveDistance(turnedY[i], turnedY[j], angleX);
    RotationsPreserveDistance(ps[i], ps[j], angleY);
  }

  /** An edge of {0,1}^3 has length 1. */
  lemma CubeEdgeHasUnitLength(p: Vec3, q: Vec3)
    requires Cube.IsCorner(p) && Cube.IsCorner(q) && Cube.IsEdge(p, q)
    ensures SqNorm(Sub(p, q)) == 1.0
  {
    SqNormOfDifference(p, q);
    EdgeStepsSumToOne(p, q);
  }

  lemma EdgeStepsSumToOne(p: Vec3, q: Vec3)
    requires Cube.IsCorner(p) && Cube.IsCorner(q) && Cube.IsEdge(p, q)
    ensures (p.x - q.x) * (p.x - q.x) + (p.y - q.y) * (p.y - q.y) + (p.z - q.z) * (p.z - q.z) == 1.0
  {
    StepSquare(p.x, q.x);
    StepSquare(p.y, q.y);
    StepSquare(p.z, q.z);
  }

  lemma SqNormOfDifference(p: Vec3, q: Vec3)
    ensures SqNorm(Sub(p, q))
         == (p.x - q.x) * (p.x - q.x) + (p.y - q.y) * (p.y - q.y) + (p.z - q.z) * (p.z - q.z)
  {
  }

  /** The squared step between two coordinates of {0, 1}. */
  lemma StepSquare(a: real, b: real)
    requires (a == 0.0 || a == 1.0) && (b == 0.0 || b == 1.0)
    ensures (a - b) * (a - b) == if a == b then 0.0 else 1.0
  {
    if a == b {
      assert a - b == 0.0;
    } else if a == 1.0 {
      assert a - b == 1.0;
    } else {
      assert a - b == -1.0;
    }
  }

  /** Every side of every quad of the corner table has length 1. */
  lemma QuadSideHasUnitLength(f: nat, k: nat)
    requires f < Cube.QuadCount && k < Cube.CornersPerQuad
    ensures SqNorm(Sub(Cube.Vertices[Cube.Quad(f)[k]], Cube.Vertices[Cube.Quad(f)[Cube.NextCorner(k)]])) == 1.0
  {
    var q := Cube.Quad(f);
    Cube.QuadSideIsEdge(f, k);
    Cube.VerticesAreDistinctCorners();
    CubeEdgeHasUnitLength(Cube.Vertices[q[k]], Cube.Vertices[q[Cube.NextCorner(k)]]);
  }

  /**
   * After the pipeline every side of every quad the renderer draws keeps its
   * length, so the unit sides of the corner table (`QuadSideHasUnitLength`)
   * stay of length 1: the cube is moved, not deformed.
   */
  lemma TransformedQuadSidesHaveUnitLength(ps: seq<Vec3>, angleY: Angle, angleX: Angle, f: nat, k: nat)
    requires IsUnit(angleY) && IsUnit(angleX)
    requires |ps| == |Cube.Vertices| && f < Cube.QuadCount && k < Cube.CornersPerQuad
    requires SqNorm(Sub(ps[Cube.Quad(f)[k]], ps[Cube.Quad(f)[Cube.NextCorner(k)]])) == 1.0
    ensures var c := Cube.QuadCorners(Transform(ps, angleY, angleX), f);
            SqNorm(Sub(c[k], c[Cube.NextCorner(k)])) == 1.0
  {
    var q := Cube.Quad(f);
    TransformIsRigid(ps, angleY, angleX, q[k], q[Cube.NextCorner(k)]);
  }

  /** Offsets along a direction `n` are linear: moving a point by `-m` moves its offset by `-n.m`. */
  lemma DotOfDifference(n: Vec3, r: Vec3, m: Vec3)
    ensures Dot(n, Sub(r, m)) == Dot(n, r) - Dot(n, m)
  {
  }

  /**
   * The pipeline carries offsets along `e` to offsets along `n`, the direction
   * `e` turned the same way as the points: point i's offset along `n` after the
   * pipeline is its offset along `e` before it, less the offset of the
   * recentring shift, which is the same for every point.
   */
  lemma TransformKeepsPlaneOffsets(ps: seq<Vec3>, angleY: Angle, angleX: Angle, e: Vec3, n: Vec3, i: int)
    requires IsUnit(angleY) && IsUnit(angleX) && 0 <= i < |ps|
    requires n == RotateX(RotateY(e, angleY), angleX)
    ensures Dot(n, Transform(ps, angleY, angleX)[i])
         == Dot(e, ps[i]) - Dot(n, Vec3(0.0, 0.0, MaxZ(Rotated(ps, angleY, angleX))))
  {
    TransformPointwise(ps, angleY, angleX, i);
    DotOfDifference(n, RotateX(RotateY(ps[i], angleY), angleX), Vec3(0.0, 0.0, MaxZ(Rotated(ps, angleY, angleX))));
    RotationsPreserveDot(RotateY(e, angleY), RotateY(ps[i], angleY), angleX);
    RotationsPreserveDot(e, ps[i], angleY);
  }

  /**
   * A quad whose corners sit on one plane (offset `d` along the unit normal
   * `e`) still sits on one plane after the pipeline: every corner has the same
   * offset along the turned normal `n`, which is again of unit length.
   */
  lemma TransformedQuadIsPlanar(ps: seq<Vec3>, angleY: Angle, angleX: Angle, f: nat, e: Vec3, d: real, n: Vec3)
    requires IsUnit(angleY) && IsUnit(angleX)
    requires |ps| == |Cube.Vertices| && f < Cube.QuadCount
    requires SqNorm(e) == 1.0
    requires forall k :: 0 <= k < Cube.CornersPerQuad ==> Dot(e, ps[Cube.Quad(f)[k]]) == d
    requires n == RotateX(RotateY(e, angleY), angleX)
    ensures SqNorm(n) == 1.0
    ensures var c := Cube.QuadCorners(Transform(ps, angleY, angleX), f);
            forall k :: 0 <= k < Cube.CornersPerQuad ==> Dot(n, c[k]) == Dot(n, c[0])
  {
    RotateYKeepsAxisAndLength(e, angleY);
    RotateXKeepsAxisAndLength(RotateY(e, angleY), angleX);
    var q := Cube.Quad(f);
    var c := Cube.QuadCorners(Transform(ps, angleY, angleX), f);
    var shift := Dot(n, Vec3(0.0, 0.0, MaxZ(Rotated(ps, angleY, angleX))));
    forall k | 0 <= k < Cube.CornersPerQuad
      ensures Dot(n, c[k]) == d - shift
    {
      TransformKeepsPlaneOffsets(ps, angleY, angleX, e, n, q[k]);
    }
  }

  /**
   * Every quad of the cube scene is flat for all unit angles: its four drawn
   * corners have one offset along the turned normal of its face.
   */
  lemma CubeQuadsArePlanar(angleY: Angle, angleX: Angle, f: nat, n: Vec3)
    requires IsUnit(angleY) && IsUnit(angleX) && f < Cube.QuadCount
    requires n == RotateX(RotateY(Cube.AxisVector(Cube.FacePlanes[f].axis), angleY), angleX)
    ensures SqNorm(n) == 1.0
    ensures var c := Cube.QuadCorners(CubeScene(angleY, angleX), f);
            forall k :: 0 <= k < Cube.CornersPerQuad ==> Dot(n, c[k]) == Dot(n, c[0])
  {
    Cube.QuadIsFaceAt(f);
    var p := Cube.FacePlanes[f];
    var e := Cube.AxisVector(p.axis);
    forall k | 0 <= k < Cube.CornersPerQuad
      ensures Dot(e, Cube.Vertices[Cube.Quad(f)[k]]) == p.value
    {
      Cube.CoordIsDot(Cube.Vertices[Cube.Quad(f)[k]], p.axis);
    }
    Cube.AxisVectorIsUnit(p.axis);
    TransformedQuadIsPlanar(Cube.Vertices, angleY, angleX, f, e, p.value, n);
  }

  /** For all unit angles every side of every quad of the cube scene has length 1. */
  lemma CubeQuadSidesHaveUnitLength(angleY: Angle, angleX: Angle, f: nat, k: nat)
    requires IsUnit(angleY) && IsUnit(angleX)
    requires f < Cube.QuadCount && k < Cube.CornersPerQuad
    ensures var c := Cube.QuadCorners(CubeScene(angleY, angleX), f);
            SqNorm(Sub(c[k], c[Cube.NextCorner(k)])) == 1.0
  {
    QuadSideHasUnitLength(f, k);
    TransformedQuadSidesHaveUnitLength(Cube.Vertices, angleY, angleX, f, k);
  }

  /** With both angles 0 the pipeline only lowers every point by the largest z. */
  lemma TransformWithoutTurn(ps: seq<Vec3>, i: int)
    requires 0 <= i < |ps|
    ensures Transform(ps, NoTurn, NoTurn)[i] == Sub(ps[i], Vec3(0.0, 0.0, MaxZ(ps)))
  {
    var turned := Rotated(ps, NoTurn, NoTurn);
    forall j | 0 <= j < |ps|
      ensures turned[j] == ps[j]
    {
      RotateByZeroIsIdentity(ps[j]);
      RotateByZeroIsIdentity(RotateY(ps[j], NoTurn));
    }
    assert turned == ps;
  }

  /** With both angles 0 the unit cube comes out translated by (0, 0, -1). */
  lemma CubeWithoutTurn(i: int)
    requires 0 <= i < |Cube.Vertices|
    ensures CubeScene(NoTurn, NoTurn)[i] == Sub(Cube.Vertices[i], Vec3(0.0, 0.0, 1.0))
  {
    Cube.VerticesAreDistinctCorners();
    MaxZIsTheAttainedBound(Cube.Vertices, 1.0, 7);
    TransformWithoutTurn(Cube.Vertices, i);
  }

  /** Turning by 45 degrees about y and then about x, written out for one point. */
  lemma RotatedAtQuarterPi(v: Vec3, a: Angle)
    requires IsQuarterPi(a)
    ensures RotateX(RotateY(v, a), a).x == a.c * (v.x + v.z)
    ensures RotateX(RotateY(v, a), a).y == a.c * v.y - (v.z - v.x) / 2.0
    ensures RotateX(RotateY(v, a), a).z == a.c * v.y + (v.z - v.x) / 2.0
  {
    var c := a.c;
    assert c * c == 0.5;
    var w := RotateY(v, a);
    assert w.x == c * v.x + c * v.z && w.y == v.y && w.z == c * v.z - c * v.x;
    var u := RotateX(w, a);
    calc {
      u.y;
      c * w.y - c * w.z;
      c * v.y - (c * c) * (v.z - v.x);
      c * v.y - (v.z - v.x) / 2.0;
    }
    calc {
      u.z;
      c * w.y + c * w.z;
      c * v.y + (c * c) * (v.z - v.x);
      c * v.y + (v.z - v.x) / 2.0;
    }
  }

  /** A corner turned by 45 degrees twice, giving `w`, rises to at most c + 1/2. */
  lemma QuarterPiDepthBound(v: Vec3, a: Angle, w: Vec3)
    requires IsQuarterPi(a) && Cube.IsCorner(v)
    requires w == RotateX(RotateY(v, a), a)
    ensures w.z <= a.c + 0.5
  {
    RotatedAtQuarterPi(v, a);
    CornerDepth(w.z, a.c, v);
  }

  /** Corner (0, 1, 1) turned by 45 degrees twice reaches height c + 1/2. */
  lemma QuarterPiHighestCorner(v: Vec3, a: Angle)
    requires IsQuarterPi(a) && v.x == 0.0 && v.y == 1.0 && v.z == 1.0
    ensures RotateX(RotateY(v, a), a).z == a.c + 0.5
  {
    RotatedAtQuarterPi(v, a);
  }

  /** A height h = c * y + (z - x) / 2 of a turned corner is at most c + 1/2, for any positive c. */
  lemma CornerDepth(h: real, c: real, v: Vec3)
    requires c > 0.0 && Cube.IsCorner(v)
    requires h == c * v.y + (v.z - v.x) / 2.0
    ensures h <= c + 0.5
  {
    if v.y == 1.0 {
      assert c * v.y == c;
    } else {
      assert v.y == 0.0;
      assert c * v.y == 0.0;
    }
  }

  /** Corner (1, 1, 1) turned by 45 degrees twice. */
  lemma QuarterPiTopCorner(v: Vec3, a: Angle)
    requires IsQuarterPi(a) && v.x == 1.0 && v.y == 1.0 && v.z == 1.0
    ensures RotateX(RotateY(v, a), a).x == 2.0 * a.c
    ensures RotateX(RotateY(v, a), a).y == a.c
    ensures RotateX(RotateY(v, a), a).z == a.c
  {
    RotatedAtQuarterPi(v, a);
  }

  /**
   * The scene as drawn: eight unit-cube corners with (0, 1, 1) at index 5 and
   * (1, 1, 1) at index 7, as in the corner table (`Cube.HighAndTopCorners`,
   * `Cube.VerticesAreDistinctCorners`), turned 45 degrees about y and then 45
   * degrees about x and recentred. Corner (0, 1, 1) ends highest, at depth 0,
   * and corner (1, 1, 1) lands at (2c, c, -1/2) where c = cos 45 degrees.
   */
  lemma CornersAtQuarterPi(vs: seq<Vec3>, a: Angle)
    requires IsQuarterPi(a)
    requires |vs| == 8 && forall i :: 0 <= i < |vs| ==> Cube.IsCorner(vs[i])
    requires vs[5].x == 0.0 && vs[5].y == 1.0 && vs[5].z == 1.0
    requires vs[7].x == 1.0 && vs[7].y == 1.0 && vs[7].z == 1.0
    ensures Transform(vs, a, a)[5].z == 0.0
    ensures Transform(vs, a, a)[7].x == 2.0 * a.c
    ensures Transform(vs, a, a)[7].y == a.c
    ensures Transform(vs, a, a)[7].z == -0.5
  {
    HighestCornerAtZero(vs, a, Transform(vs, a, a));
    TopCornerAtQuarterPi(vs, a, Transform(vs, a, a));
  }

  /**
   * The cube scene at 45 degrees about both axes: corner (0, 1, 1) is drawn at
   * depth 0 and corner (1, 1, 1) at (2c, c, -1/2).
   */
  lemma CubeAtQuarterPi(a: Angle, r: seq<Vec3>)
    requires IsQuarterPi(a)
    requires r == CubeScene(a, a)
    ensures r[5].z == 0.0
    ensures r[7].x == 2.0 * a.c && r[7].y == a.c && r[7].z == -0.5
  {
    Cube.VerticesAreDistinctCorners();
    Cube.HighAndTopCorners();
    CornersAtQuarterPi(Cube.Vertices, a);
  }

  /** Recentring brings the highest turned corner to depth 0 in the scene `r`. */
  lemma HighestCornerAtZero(vs: seq<Vec3>, a: Angle, r: seq<Vec3>)
    requires IsQuarterPi(a)
    requires |vs| == 8 && forall i :: 0 <= i < |vs| ==> Cube.IsCorner(vs[i])
    requires vs[5].x == 0.0 && vs[5].y == 1.0 && vs[5].z == 1.0
    requires r == Transform(vs, a, a)
    ensures r[5].z == 0.0
  {
    CornersMaxDepth(vs, a);
    QuarterPiHighestCorner(vs[5], a);
    TransformPointwise(vs, a, a, 5);
  }

  /** Corner (1, 1, 1) ends at (2c, c, -1/2) in the recentred scene `r`. */
  lemma TopCornerAtQuarterPi(vs: seq<Vec3>, a: Angle, r: seq<Vec3>)
    requires IsQuarterPi(a)
    requires |vs| == 8 && forall i :: 0 <= i < |vs| ==> Cube.IsCorner(vs[i])
    requires vs[5].x == 0.0 && vs[5].y == 1.0 && vs[5].z == 1.0
    requires vs[7].x == 1.0 && vs[7].y == 1.0 && vs[7].z == 1.0
    requires r == Transform(vs, a, a)
    ensures r[7].x == 2.0 * a.c && r[7].y == a.c && r[7].z == -0.5
  {
    CornersMaxDepth(vs, a);
    QuarterPiTopCorner(vs[7], a);
    TransformPointwise(vs, a, a, 7);
  }

  /** The highest of the turned corners is (0, 1, 1), at height c + 1/2. */
  lemma CornersMaxDepth(vs: seq<Vec3>, a: Angle)
    requires IsQuarterPi(a)
    requires |vs| == 8 && forall i :: 0 <= i < |vs| ==> Cube.IsCorner(vs[i])
    requires vs[5].x == 0.0 && vs[5].y == 1.0 && vs[5].z == 1.0
    ensures MaxZ(Rotated(vs, a, a)) == a.c + 0.5
  {
    CornersBelow(vs, a);
    QuarterPiHighestCorner(vs[5], a);
    MaxZIsTheAttainedBound(Rotated(vs, a, a), a.c + 0.5, 5);
  }

  /** No turned corner rises above c + 1/2. */
  lemma CornersBelow(vs: seq<Vec3>, a: Angle)
    requires IsQuarterPi(a)
    requires forall i :: 0 <= i < |vs| ==> Cube.IsCorner(vs[i])
    ensures forall i :: 0 <= i < |vs| ==> Rotated(vs, a, a)[i].z <= a.c + 0.5
  {
    forall i | 0 <= i < |vs|
      ensures Rotated(vs, a, a)[i].z <= a.c + 0.5
    {
      QuarterPiDepthBound(vs[i], a, Rotated(vs, a, a)[i]);
    }
  }
}
