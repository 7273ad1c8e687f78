/**
 * Vectors, 3x3 matrices and the two rotation operators used to turn the
 * wireframe cube.  Coordinates are reals; an angle is represented by the pair
 * (c, s) that stands for (cos t, sin t), so the trigonometry is left to the
 * caller and only the algebra of the rotation is modelled.
 */
module Rotation {

  /** A 3-vector (x, y, z). */
  datatype Vec3 = Vec3(x: real, y: real, z: real)

  /** Componentwise difference, the `-` of two vectors. */
  function Sub(a: Vec3, b: Vec3): Vec3
  {
    Vec3(a.x - b.x, a.y - b.y, a.z - b.z)
  }

  function Dot(a: Vec3, b: Vec3): real
  {
    a.x * b.x + a.y * b.y + a.z * b.z
  }

  /** The cross product; its direction follows the right-hand rule. */
  function Cross(a: Vec3, b: Vec3): Vec3
  {
    Vec3(a.y * b.z - a.z * b.y, a.z * b.x - a.x * b.z, a.x * b.y - a.y * b.x)
  }

  /** Squared Euclidean length. */
  function SqNorm(v: Vec3): real
  {
    Dot(v, v)
  }

  /** An angle given by its cosine `c` and sine `s`. */
  datatype Angle = Angle(c: real, s: real)

  /** The pair lies on the unit circle, as (cos t, sin t) does. */
  predicate IsUnit(a: Angle)
  {
    a.c * a.c + a.s * a.s == 1.0
  }

  /** The angle 0. */
  const NoTurn: Angle := Angle(1.0, 0.0)

  /** The angle -t, given t. */
  function Negate(a: Angle): (r: Angle)
    ensures IsUnit(r) <==> IsUnit(a)
    ensures r.c == a.c && r.s + a.s == 0.0
  {
    Angle(a.c, -a.s)
  }

  /** The angle 45 degrees: cosine and sine are equal and positive. */
  predicate IsQuarterPi(a: Angle)
  {
    IsUnit(a) && a.c == a.s && a.c > 0.0
  }

  /** A 3x3 matrix given by its rows. */
  datatype Mat3 = Mat3(r0: Vec3, r1: Vec3, r2: Vec3)

  const Identity: Mat3 := Mat3(Vec3(1.0, 0.0, 0.0), Vec3(0.0, 1.0, 0.0), Vec3(0.0, 0.0, 1.0))

  /** Matrix times column vector: each coordinate is a row dotted with `v`. */
  function Apply(m: Mat3, v: Vec3): Vec3
  {
    Vec3(Dot(m.r0, v), Dot(m.r1, v), Dot(m.r2, v))
  }

  function Transpose(m: Mat3): Mat3
  {
    Mat3(Vec3(m.r0.x, m.r1.x, m.r2.x),
         Vec3(m.r0.y, m.r1.y, m.r2.y),
         Vec3(m.r0.z, m.r1.z, m.r2.z))
  }

  /** Matrix product: entry (i, j) is row i of `a` dotted with column j of `b`. */
  function Mul(a: Mat3, b: Mat3): Mat3
  {
    var t := Transpose(b);
    Mat3(Vec3(Dot(a.r0, t.r0), Dot(a.r0, t.r1), Dot(a.r0, t.r2)),
         Vec3(Dot(a.r1, t.r0), Dot(a.r1, t.r1), Dot(a.r1, t.r2)),
         Vec3(Dot(a.r2, t.r0), Dot(a.r2, t.r1), Dot(a.r2, t.r2)))
  }

  /** Determinant, by expansion along the first row. */
  function Det(m: Mat3): real
  {
    m.r0.x * (m.r1.y * m.r2.z - m.r1.z * m.r2.y)
    - m.r0.y * (m.r1.x * m.r2.z - m.r1.z * m.r2.x)
    + m.r0.z * (m.r1.x * m.r2.y - m.r1.y * m.r2.x)
  }

  /** A rotation: orthonormal (its transpose is its inverse) with determinant 1. */
  predicate IsRotation(m: Mat3)
  {
    Mul(Transpose(m), m) == Identity && Mul(m, Transpose(m)) == Identity && Det(m) == 1.0
  }

  /** The matrix of a rotation about the x axis. */
  function MatrixX(a: Angle): Mat3
  {
    Mat3(Vec3(1.0, 0.0, 0.0),
         Vec3(0.0, a.c, -a.s),
         Vec3(0.0, a.s, a.c))
  }

  /** The matrix of a rotation about the y axis. */
  function MatrixY(a: Angle): Mat3
  {
    Mat3(Vec3(a.c, 0.0, a.s),
         Vec3(0.0, 1.0, 0.0),
         Vec3(-a.s, 0.0, a.c))
  }

  /** Rotate `v` about the x axis. */
  function RotateX(v: Vec3, a: Angle): Vec3
  {
    Apply(MatrixX(a), v)
  }

  /** Rotate `v` about the y axis. */
  function RotateY(v: Vec3, a: Angle): Vec3
  {
    Apply(MatrixY(a), v)
  }

  /** The x-rotation matrix turns the y axis to (0, c, s), towards z. */
  lemma MatrixXTurnsYTowardsZ(a: Angle)
    ensures Apply(MatrixX(a), Vec3(0.0, 1.0, 0.0)) == Vec3(0.0, a.c, a.s)
  {
  }

  /** The y-rotation matrix turns the z axis to (s, 0, c), towards x. */
  lemma MatrixYTurnsZTowardsX(a: Angle)
    ensures Apply(MatrixY(a), Vec3(0.0, 0.0, 1.0)) == Vec3(a.s, 0.0, a.c)
  {
  }

  /**
   * Applying a product of matrices is applying its factors one after the
   * other, right factor first: so turning every point by one matrix and then
   * by another is turning it by their product.
   */
  lemma ApplyOfProduct(m: Mat3, n: Mat3, v: Vec3)
    ensures Apply(Mul(m, n), v) == Apply(m, Apply(n, v))
  {
    var t := Transpose(n);
    var w := Apply(n, v);
    ApplyRowOfProduct(m.r0, t, v);
    ApplyRowOfProduct(m.r1, t, v);
    ApplyRowOfProduct(m.r2, t, v);
  }

  /** One row of `ApplyOfProduct`: the row `r` of the left factor against the columns of the right. */
  lemma ApplyRowOfProduct(r: Vec3, t: Mat3, v: Vec3)
    ensures Dot(Vec3(Dot(r, t.r0), Dot(r, t.r1), Dot(r, t.r2)), v)
         == Dot(r, Apply(Transpose(t), v))
  {
    calc {
      Dot(Vec3(Dot(r, t.r0), Dot(r, t.r1), Dot(r, t.r2)), v);
      (r.x * t.r0.x + r.y * t.r0.y + r.z * t.r0.z) * v.x
        + (r.x * t.r1.x + r.y * t.r1.y + r.z * t.r1.z) * v.y
        + (r.x * t.r2.x + r.y * t.r2.y + r.z * t.r2.z) * v.z;
      r.x * (t.r0.x * v.x + t.r1.x * v.y + t.r2.x * v.z)
        + r.y * (t.r0.y * v.x + t.r1.y * v.y + t.r2.y * v.z)
        + r.z * (t.r0.z * v.x + t.r1.z * v.y + t.r2.z * v.z);
      Dot(r, Apply(Transpose(t), v));
    }
  }

  /** A turn about x keeps the x coordinate and, for a unit angle, the length. */
  lemma RotateXKeepsAxisAndLength(v: Vec3, a: Angle)
    ensures RotateX(v, a).x == v.x
    ensures IsUnit(a) ==> SqNorm(RotateX(v, a)) == SqNorm(v)
  {
    var r := RotateX(v, a);
    assert r == Vec3(v.x, a.c * v.y - a.s * v.z, a.s * v.y + a.c * v.z);
    if IsUnit(a) {
      calc {
        SqNorm(r);
        v.x * v.x + (a.c * v.y - a.s * v.z) * (a.c * v.y - a.s * v.z)
                  + (a.s * v.y + a.c * v.z) * (a.s * v.y + a.c * v.z);
        v.x * v.x + (a.c * a.c + a.s * a.s) * (v.y * v.y + v.z * v.z);
        SqNorm(v);
      }
    }
  }

  /** A turn about y keeps the y coordinate and, for a unit angle, the length. */
  lemma RotateYKeepsAxisAndLength(v: Vec3, a: Angle)
    ensures RotateY(v, a).y == v.y
    ensures IsUnit(a) ==> SqNorm(RotateY(v, a)) == SqNorm(v)
  {
    var r := RotateY(v, a);
    assert r == Vec3(a.c * v.x + a.s * v.z, v.y, a.c * v.z - a.s * v.x);
    if IsUnit(a) {
      calc {
        SqNorm(r);
        (a.c * v.x + a.s * v.z) * (a.c * v.x + a.s * v.z) + v.y * v.y
          + (a.c * v.z - a.s * v.x) * (a.c * v.z - a.s * v.x);
        (a.c * a.c + a.s * a.s) * (v.x * v.x + v.z * v.z) + v.y * v.y;
        SqNorm(v);
      }
    }
  }

  /** The x-rotation matrix is a proper rotation for every angle on the unit circle. */
  lemma MatrixXIsRotation(a: Angle)
    requires IsUnit(a)
    ensures IsRotation(MatrixX(a))
  {
    MatrixXProducts(a);
    assert Diagonal(1.0, a.c * a.c + a.s * a.s, a.c * a.c + a.s * a.s) == Identity;
  }

  /** The y-rotation matrix is a proper rotation for every angle on the unit circle. */
  lemma MatrixYIsRotation(a: Angle)
    requires IsUnit(a)
    ensures IsRotation(MatrixY(a))
  {
    MatrixYProducts(a);
    assert Diagonal(a.c * a.c + a.s * a.s, 1.0, a.c * a.c + a.s * a.s) == Identity;
  }

  /** The diagonal matrix with entries `d0`, `d1`, `d2`. */
  function Diagonal(d0: real, d1: real, d2: real): Mat3
  {
    Mat3(Vec3(d0, 0.0, 0.0), Vec3(0.0, d1, 0.0), Vec3(0.0, 0.0, d2))
  }

  /** Both products of the x-rotation matrix with its transpose, and its determinant, as polynomials in c and s. */
  lemma MatrixXProducts(a: Angle)
    ensures Mul(Transpose(MatrixX(a)), MatrixX(a)) == Diagonal(1.0, a.c * a.c + a.s * a.s, a.c * a.c + a.s * a.s)
    ensures Mul(MatrixX(a), Transpose(MatrixX(a))) == Diagonal(1.0, a.c * a.c + a.s * a.s, a.c * a.c + a.s * a.s)
    ensures Det(MatrixX(a)) == a.c * a.c + a.s * a.s
  {
    var (c, s) := (a.c, a.s);
    assert Transpose(MatrixX(a)) == Mat3(Vec3(1.0, 0.0, 0.0), Vec3(0.0, c, s), Vec3(0.0, -s, c));
    assert -c * s + s * c == 0.0 && c * s - s * c == 0.0;
  }

  /** Both products of the y-rotation matrix with its transpose, and its determinant, as polynomials in c and s. */
  lemma MatrixYProducts(a: Angle)
    ensures Mul(Transpose(MatrixY(a)), MatrixY(a)) == Diagonal(a.c * a.c + a.s * a.s, 1.0, a.c * a.c + a.s * a.s)
    ensures Mul(MatrixY(a), Transpose(MatrixY(a))) == Diagonal(a.c * a.c + a.s * a.s, 1.0, a.c * a.c + a.s * a.s)
    ensures Det(MatrixY(a)) == a.c * a.c + a.s * a.s
  {
    var (c, s) := (a.c, a.s);
    assert Transpose(MatrixY(a)) == Mat3(Vec3(c, 0.0, -s), Vec3(0.0, 1.0, 0.0), Vec3(s, 0.0, c));
    assert -c * s + s * c == 0.0 && c * s - s * c == 0.0;
  }

  /** The matrix of -t is the transpose (so the inverse) of the matrix of t. */
  lemma NegatedMatrixIsTranspose(a: Angle)
    ensures MatrixX(Negate(a)) == Transpose(MatrixX(a))
    ensures MatrixY(Negate(a)) == Transpose(MatrixY(a))
  {
  }

  /** Turning by the angle 0 changes nothing. */
  lemma RotateByZeroIsIdentity(v: Vec3)
    ensures RotateX(v, NoTurn) == v
    ensures RotateY(v, NoTurn) == v
  {
  }

  /** Turning by t and then by -t gives back the vector exactly. */
  lemma RotateXThenBack(v: Vec3, a: Angle)
    requires IsUnit(a)
    ensures RotateX(RotateX(v, a), Negate(a)) == v
  {
    var w := RotateX(v, a);
    var u := RotateX(w, Negate(a));
    calc {
      u.y;
      a.c * (a.c * v.y - a.s * v.z) + a.s * (a.s * v.y + a.c * v.z);
      (a.c * a.c + a.s * a.s) * v.y;
      v.y;
    }
    calc {
      u.z;
      -a.s * (a.c * v.y - a.s * v.z) + a.c * (a.s * v.y + a.c * v.z);
      (a.c * a.c + a.s * a.s) * v.z;
      v.z;
    }
  }

  /** Turning by t and then by -t gives back the vector exactly. */
  lemma RotateYThenBack(v: Vec3, a: Angle)
    requires IsUnit(a)
    ensures RotateY(RotateY(v, a), Negate(a)) == v
  {
    var w := RotateY(v, a);
    var u := RotateY(w, Negate(a));
    calc {
      u.x;
      a.c * (a.c * v.x + a.s * v.z) - a.s * (a.c * v.z - a.s * v.x);
      (a.c * a.c + a.s * a.s) * v.x;
      v.x;
    }
    calc {
      u.z;
      a.s * (a.c * v.x + a.s * v.z) + a.c * (a.c * v.z - a.s * v.x);
      (a.c * a.c + a.s * a.s) * v.z;
      v.z;
    }
  }

  /** Rotations are linear, so they carry differences of points to differences of images. */
  lemma RotationsPreserveDifferences(p: Vec3, q: Vec3, a: Angle)
    ensures RotateX(Sub(p, q), a) == Sub(RotateX(p, a), RotateX(q, a))
    ensures RotateY(Sub(p, q), a) == Sub(RotateY(p, a), RotateY(q, a))
  {
  }

  /** Rotations by unit angles keep the distance between any two points. */
  lemma RotationsPreserveDistance(p: Vec3, q: Vec3, a: Angle)
    requires IsUnit(a)
    ensures SqNorm(Sub(RotateX(p, a), RotateX(q, a))) == SqNorm(Sub(p, q))
    ensures SqNorm(Sub(RotateY(p, a), RotateY(q, a))) == SqNorm(Sub(p, q))
  {
    RotationsPreserveDifferences(p, q, a);
    RotateXKeepsAxisAndLength(Sub(p, q), a);
    RotateYKeepsAxisAndLength(Sub(p, q), a);
  }

  /** The dot product of two vectors turned about x, as a polynomial in c and s. */
  lemma DotAfterRotateX(p: Vec3, q: Vec3, a: Angle)
    ensures Dot(RotateX(p, a), RotateX(q, a)) == p.x * q.x + (a.c * a.c + a.s * a.s) * (p.y * q.y + p.z * q.z)
  {
    var (c, s) := (a.c, a.s);
    assert RotateX(p, a) == Vec3(p.x, c * p.y - s * p.z, s * p.y + c * p.z);
    assert RotateX(q, a) == Vec3(q.x, c * q.y - s * q.z, s * q.y + c * q.z);
    calc {
      Dot(RotateX(p, a), RotateX(q, a));
      p.x * q.x + (c * p.y - s * p.z) * (c * q.y - s * q.z) + (s * p.y + c * p.z) * (s * q.y + c * q.z);
      p.x * q.x + (c * c + s * s) * (p.y * q.y + p.z * q.z);
    }
  }

  /** The dot product of two vectors turned about y, as a polynomial in c and s. */
  lemma DotAfterRotateY(p: Vec3, q: Vec3, a: Angle)
    ensures Dot(RotateY(p, a), RotateY(q, a)) == p.y * q.y + (a.c * a.c + a.s * a.s) * (p.x * q.x + p.z * q.z)
  {
    var (c, s) := (a.c, a.s);
    assert RotateY(p, a) == Vec3(c * p.x + s * p.z, p.y, c * p.z - s * p.x);
    assert RotateY(q, a) == Vec3(c * q.x + s * q.z, q.y, c * q.z - s * q.x);
    calc {
      Dot(RotateY(p, a), RotateY(q, a));
      (c * p.x + s * p.z) * (c * q.x + s * q.z) + p.y * q.y + (c * p.z - s * p.x) * (c * q.z - s * q.x);
      p.y * q.y + (c * c + s * s) * (p.x * q.x + p.z * q.z);
    }
  }

  /** Rotations by unit angles keep dot products, so they keep angles as well as lengths. */
  lemma RotationsPreserveDot(p: Vec3, q: Vec3, a: Angle)
    requires IsUnit(a)
    ensures Dot(RotateX(p, a), RotateX(q, a)) == Dot(p, q)
    ensures Dot(RotateY(p, a), RotateY(q, a)) == Dot(p, q)
  {
    DotAfterRotateX(p, q, a);
    DotAfterRotateY(p, q, a);
    ScaleByOne(a.c * a.c + a.s * a.s, p.y * q.y + p.z * q.z);
    ScaleByOne(a.c * a.c + a.s * a.s, p.x * q.x + p.z * q.z);
  }

  lemma ScaleByOne(one: real, t: real)
    requires one == 1.0
    ensures one * t == t
  {
  }

  /**
   * The order of the two rotations matters: turning the x unit vector about y
   * and then about x lands elsewhere than the reverse order unless the angle
   * makes no turn (its sine is 0).
   */
  lemma RotationOrderMatters(a: Angle)
    ensures var e := Vec3(1.0, 0.0, 0.0);
            RotateX(RotateY(e, a), a) == RotateY(RotateX(e, a), a) <==> a.s == 0.0
  {
    var (c, s) := (a.c, a.s);
    var e := Vec3(1.0, 0.0, 0.0);
    var yThenX := RotateX(RotateY(e, a), a);
    var xThenY := RotateY(RotateX(e, a), a);
    assert RotateY(e, a) == Vec3(c, 0.0, -s);
    assert yThenX == Vec3(c, s * s, -c * s);
    assert RotateX(e, a) == e;
    assert xThenY == Vec3(c, 0.0, -s);
    if s != 0.0 {
      SquareOfNonZeroIsPositive(s);
      assert yThenX.y != xThenY.y;
    }
  }

  lemma SquareOfNonZeroIsPositive(s: real)
    requires s != 0.0
    ensures s * s > 0.0
  {
    if s < 0.0 {
      assert s * s == (-s) * (-s);
    }
  }
}
