/**
 * The fixed geometry of the wireframe cube: its eight corners, the colour of
 * each corner and the 24-entry index table that the quad draw call walks, four
 * indices per face.
 */
module Cube {
  import opened Rotation

  /** The corners of the unit cube, in the order the draw call indexes them. */
  const Vertices: seq<Vec3> := [
    Vec3(0.0, 0.0, 0.0),
    Vec3(0.0, 1.0, 0.0),
    Vec3(1.0, 0.0, 0.0),
    Vec3(1.0, 1.0, 0.0),
    Vec3(0.0, 0.0, 1.0),
    Vec3(0.0, 1.0, 1.0),
    Vec3(1.0, 0.0, 1.0),
    Vec3(1.0, 1.0, 1.0)
  ]

  /** A colour with alpha. */
  datatype Rgba = Rgba(r: real, g: real, b: real, a: real)

  const Red: Rgba := Rgba(1.0, 0.0, 0.0, 0.9)
  const Blue: Rgba := Rgba(0.0, 0.0, 1.0, 0.9)

  /** The per-corner colour array handed to the renderer beside the vertices. */
  const Colors: seq<Rgba> := [Red, Red, Blue, Blue, Red, Red, Blue, Blue]

  /** The face index table: each group of four names the corners of one quad. */
  const FaceIndices: seq<int> := [
    6, 2, 3, 7,
    5, 1, 0, 4,
    7, 3, 1, 5,
    4, 0, 2, 6,
    2, 0, 1, 3,
    7, 5, 4, 6
  ]

  /** The element count passed to the quad draw call. */
  const IndexCount: int := 24

  /** Quads consume their indices four at a time. */
  const CornersPerQuad: int := 4

  /** The number of quads the draw call produces. */
  const QuadCount: int := 6

  /** Bit number `k` of `i`, as a coordinate 0.0 or 1.0. */
  function Bit(i: nat, k: nat): (b: real)
    ensures b == 0.0 || b == 1.0
  {
    if k == 0 then (i % 2) as real else Bit(i / 2, k - 1)
  }

  /** A point of {0,1}^3. */
  predicate IsCorner(v: Vec3)
  {
    (v.x == 0.0 || v.x == 1.0) && (v.y == 0.0 || v.y == 1.0) && (v.z == 0.0 || v.z == 1.0)
  }

  /**
   * The corner list enumerates {0,1}^3 in binary: entry i has y = bit 0,
   * x = bit 1 and z = bit 2 of i.
   */
  lemma VerticesEnumerateCorners()
    ensures |Vertices| == 8
    ensures forall i :: 0 <= i < 8 ==> Vertices[i] == Vec3(Bit(i, 1), Bit(i, 0), Bit(i, 2))
  {
    forall i | 0 <= i < 8
      ensures Vertices[i] == Vec3(Bit(i, 1), Bit(i, 0), Bit(i, 2))
    {
      if i == 0 {
        assert Bit(0, 0) == 0.0 && Bit(0, 1) == 0.0 && Bit(0, 2) == 0.0;
      } else if i == 1 {
        assert Bit(1, 0) == 1.0 && Bit(1, 1) == 0.0 && Bit(1, 2) == 0.0;
      } else if i == 2 {
        assert Bit(2, 0) == 0.0 && Bit(2, 1) == 1.0 && Bit(2, 2) == 0.0;
      } else if i == 3 {
        assert Bit(3, 0) == 1.0 && Bit(3, 1) == 1.0 && Bit(3, 2) == 0.0;
      } else if i == 4 {
        assert Bit(4, 0) == 0.0 && Bit(4, 1) == 0.0 && Bit(4, 2) == 1.0;
      } else if i == 5 {
        assert Bit(5, 0) == 1.0 && Bit(5, 1) == 0.0 && Bit(5, 2) == 1.0;
      } else if i == 6 {
        assert Bit(6, 0) == 0.0 && Bit(6, 1) == 1.0 && Bit(6, 2) == 1.0;
      } else {
        assert Bit(7, 0) == 1.0 && Bit(7, 1) == 1.0 && Bit(7, 2) == 1.0;
      }
    }
  }

  /** The eight corners are pairwise distinct and all lie in {0,1}^3. */
  lemma VerticesAreDistinctCorners()
    ensures forall i :: 0 <= i < |Vertices| ==> IsCorner(Vertices[i])
    ensures forall i, j :: 0 <= i < j < |Vertices| ==> Vertices[i] != Vertices[j]
  {
  }

  /** The coordinates of corners 5, (0, 1, 1), and 7, (1, 1, 1). */
  lemma HighAndTopCorners()
    ensures |Vertices| == 8
    ensures Vertices[5].x == 0.0 && Vertices[5].y == 1.0 && Vertices[5].z == 1.0
    ensures Vertices[7].x == 1.0 && Vertices[7].y == 1.0 && Vertices[7].z == 1.0
  {
  }

  /** One colour per corner: red on the x = 0 side, blue on the x = 1 side. */
  lemma ColorsMatchVertices()
    ensures |Colors| == |Vertices|
    ensures forall i :: 0 <= i < |Colors| ==> Colors[i] == (if Vertices[i].x == 0.0 then Red else Blue)
  {
  }

  /**
   * The index table has exactly as many entries as the draw call reads, splits
   * into whole quads, and names only existing corners.
   */
  lemma IndexTableWellFormed()
    ensures |FaceIndices| == IndexCount
    ensures IndexCount == QuadCount * CornersPerQuad
    ensures forall i :: 0 <= i < |FaceIndices| ==> 0 <= FaceIndices[i] < |Vertices|
  {
  }

  /** The four table entries of quad `f`. */
  function Quad(f: nat): (q: seq<int>)
    requires f < QuadCount
    ensures |q| == CornersPerQuad
    ensures forall k :: 0 <= k < |q| ==> 0 <= q[k] < |Vertices|
  {
    IndexTableWellFormed();
    FaceIndices[CornersPerQuad * f .. CornersPerQuad * f + CornersPerQuad]
  }

  /** The points the renderer resolves quad `f` to: entry i of the table names `points[i]`. */
  function QuadCorners(points: seq<Vec3>, f: nat): (corners: seq<Vec3>)
    requires |points| == |Vertices| && f < QuadCount
    ensures |corners| == CornersPerQuad
    ensures forall k :: 0 <= k < CornersPerQuad ==> corners[k] == points[Quad(f)[k]]
  {
    var q := Quad(f);
    [points[q[0]], points[q[1]], points[q[2]], points[q[3]]]
  }

  datatype Axis = AxisX | AxisY | AxisZ

  function Coord(v: Vec3, axis: Axis): real
  {
    match axis
    case AxisX => v.x
    case AxisY => v.y
    case AxisZ => v.z
  }

  /** The plane where coordinate `axis` equals `value`. */
  datatype Plane = Plane(axis: Axis, value: real)

  /** The face planes of the six quads, in table order. */
  const FacePlanes: seq<Plane> := [
    Plane(AxisX, 1.0), Plane(AxisX, 0.0),
    Plane(AxisY, 1.0), Plane(AxisY, 0.0),
    Plane(AxisZ, 0.0), Plane(AxisZ, 1.0)
  ]

  /**
   * Quad `f` is exactly the face on plane `FacePlanes[f]`: four distinct
   * corners, all on the plane, and every corner on the plane among them.
   */
  predicate QuadIsFace(f: nat)
    requires f < QuadCount && f < |FacePlanes|
  {
    var q := Quad(f);
    var p := FacePlanes[f];
    (forall k, l :: 0 <= k < l < CornersPerQuad ==> q[k] != q[l]) &&
    (forall k :: 0 <= k < CornersPerQuad ==> Coord(Vertices[q[k]], p.axis) == p.value) &&
    (forall i :: 0 <= i < |Vertices| && Coord(Vertices[i], p.axis) == p.value ==> i in q)
  }

  /** Two corners joined by an edge of the cube: they differ in exactly one coordinate. */
  predicate IsEdge(a: Vec3, b: Vec3)
  {
    (a.x != b.x && a.y == b.y && a.z == b.z) ||
    (a.x == b.x && a.y != b.y && a.z == b.z) ||
    (a.x == b.x && a.y == b.y && a.z != b.z)
  }

  /**
   * Quad `f` goes round its face along cube edges, so the four corners are
   * drawn in an order that makes a square rather than a bow tie.
   */
  predicate QuadFollowsEdges(f: nat)
    requires f < QuadCount
  {
    var c := QuadCorners(Vertices, f);
    IsEdge(c[0], c[1]) && IsEdge(c[1], c[2]) && IsEdge(c[2], c[3]) && IsEdge(c[3], c[0])
  }

  /** The six quads are the six faces of the cube, each on its own plane. */
  lemma QuadsAreTheSixFaces()
    ensures |FacePlanes| == QuadCount
    ensures forall f :: 0 <= f < QuadCount ==> QuadIsFace(f)
    ensures forall f, g :: 0 <= f < g < QuadCount ==> FacePlanes[f] != FacePlanes[g]
    ensures forall f :: 0 <= f < QuadCount ==> FacePlanes[f].value == 0.0 || FacePlanes[f].value == 1.0
  {
    forall f | 0 <= f < QuadCount
      ensures QuadIsFace(f)
    {
      QuadIsFaceAt(f);
    }
  }

  lemma QuadIsFaceAt(f: nat)
    requires f < QuadCount
    ensures |FacePlanes| == QuadCount && QuadIsFace(f) && QuadFollowsEdges(f)
  {
    if f == 0 {
      QuadIsFaceXOne();
      QuadEdgesXOne();
    } else if f == 1 {
      QuadIsFaceXZero();
      QuadEdgesXZero();
    } else if f == 2 {
      QuadIsFaceYOne();
      QuadEdgesYOne();
    } else if f == 3 {
      QuadIsFaceYZero();
      QuadEdgesYZero();
    } else if f == 4 {
      QuadIsFaceZZero();
      QuadEdgesZZero();
    } else {
      QuadIsFaceZOne();
      QuadEdgesZOne();
    }
  }

  /** Quad 0 is the face x = 1. */
  lemma QuadIsFaceXOne()
    ensures |FacePlanes| == QuadCount && QuadIsFace(0)
  {
    assert FaceIndices[0..4] == [6, 2, 3, 7];
    VerticesOnPlaneXOne();
  }

  lemma VerticesOnPlaneXOne()
    ensures forall i :: 0 <= i < |Vertices| && Coord(Vertices[i], AxisX) == 1.0 ==> i in [6, 2, 3, 7]
  {
    VerticesEnumerateCorners();
  }

  /** Quad 0 is drawn along the edges of its face. */
  lemma QuadEdgesXOne()
    ensures QuadFollowsEdges(0)
  {
    assert FaceIndices[0..4] == [6, 2, 3, 7];
  }

  /** Quad 1 is the face x = 0. */
  lemma QuadIsFaceXZero()
    ensures |FacePlanes| == QuadCount && QuadIsFace(1)
  {
    assert FaceIndices[4..8] == [5, 1, 0, 4];
    VerticesOnPlaneXZero();
  }

  lemma VerticesOnPlaneXZero()
    ensures forall i :: 0 <= i < |Vertices| && Coord(Vertices[i], AxisX) == 0.0 ==> i in [5, 1, 0, 4]
  {
    VerticesEnumerateCorners();
  }

  /** Quad 1 is drawn along the edges of its face. */
  lemma QuadEdgesXZero()
    ensures QuadFollowsEdges(1)
  {
    assert FaceIndices[4..8] == [5, 1, 0, 4];
  }

  /** Quad 2 is the face y = 1. */
  lemma QuadIsFaceYOne()
    ensures |FacePlanes| == QuadCount && QuadIsFace(2)
  {
    assert FaceIndices[8..12] == [7, 3, 1, 5];
    VerticesOnPlaneYOne();
  }

  lemma VerticesOnPlaneYOne()
    ensures forall i :: 0 <= i < |Vertices| && Coord(Vertices[i], AxisY) == 1.0 ==> i in [7, 3, 1, 5]
  {
    VerticesEnumerateCorners();
  }

  /** Quad 2 is drawn along the edges of its face. */
  lemma QuadEdgesYOne()
    ensures QuadFollowsEdges(2)
  {
    assert FaceIndices[8..12] == [7, 3, 1, 5];
  }

  /** Quad 3 is the face y = 0. */
  lemma QuadIsFaceYZero()
    ensures |FacePlanes| == QuadCount && QuadIsFace(3)
  {
    assert FaceIndices[12..16] == [4, 0, 2, 6];
    VerticesOnPlaneYZero();
  }

  lemma VerticesOnPlaneYZero()
    ensures forall i :: 0 <= i < |Vertices| && Coord(Vertices[i], AxisY) == 0.0 ==> i in [4, 0, 2, 6]
  {
    VerticesEnumerateCorners();
  }

  /** Quad 3 is drawn along the edges of its face. */
  lemma QuadEdgesYZero()
    ensures QuadFollowsEdges(3)
  {
    assert FaceIndices[12..16] == [4, 0, 2, 6];
  }

  /** Quad 4 is the face z = 0. */
  lemma QuadIsFaceZZero()
    ensures |FacePlanes| == QuadCount && QuadIsFace(4)
  {
    assert FaceIndices[16..20] == [2, 0, 1, 3];
    VerticesOnPlaneZZero();
  }

  lemma VerticesOnPlaneZZero()
    ensures forall i :: 0 <= i < |Vertices| && Coord(Vertices[i], AxisZ) == 0.0 ==> i in [2, 0, 1, 3]
  {
    VerticesEnumerateCorners();
  }

  /** Quad 4 is drawn along the edges of its face. */
  lemma QuadEdgesZZero()
    ensures QuadFollowsEdges(4)
  {
    assert FaceIndices[16..20] == [2, 0, 1, 3];
  }

  /** Quad 5 is the face z = 1. */
  lemma QuadIsFaceZOne()
    ensures |FacePlanes| == QuadCount && QuadIsFace(5)
  {
    assert FaceIndices[20..24] == [7, 5, 4, 6];
    VerticesOnPlaneZOne();
  }

  lemma VerticesOnPlaneZOne()
    ensures forall i :: 0 <= i < |Vertices| && Coord(Vertices[i], AxisZ) == 1.0 ==> i in [7, 5, 4, 6]
  {
    VerticesEnumerateCorners();
  }

  /** Quad 5 is drawn along the edges of its face. */
  lemma QuadEdgesZOne()
    ensures QuadFollowsEdges(5)
  {
    assert FaceIndices[20..24] == [7, 5, 4, 6];
  }

  /** Every quad is drawn along the edges of its face. */
  lemma QuadsFollowEdges()
    ensures forall f :: 0 <= f < QuadCount ==> QuadFollowsEdges(f)
  {
    forall f | 0 <= f < QuadCount
      ensures QuadFollowsEdges(f)
    {
      QuadIsFaceAt(f);
    }
  }

  /** Side k of quad f, from its corner k to the next one round the quad, is an edge of the cube. */
  lemma QuadSideIsEdge(f: nat, k: nat)
    requires f < QuadCount && k < CornersPerQuad
    ensures IsEdge(Vertices[Quad(f)[k]], Vertices[Quad(f)[NextCorner(k)]])
  {
    QuadIsFaceAt(f);
    var c := QuadCorners(Vertices, f);
    assert c[k] == Vertices[Quad(f)[k]];
    assert c[NextCorner(k)] == Vertices[Quad(f)[NextCorner(k)]];
    assert IsEdge(c[k], c[NextCorner(k)]) by {
      SidesOfEdgeWalk(c, k);
    }
  }

  /** The corner after corner `k` going round a quad. */
  function NextCorner(k: nat): (n: nat)
    requires k < CornersPerQuad
    ensures n < CornersPerQuad
    ensures n == (k + 1) % CornersPerQuad
  {
    if k == CornersPerQuad - 1 then 0 else k + 1
  }

  lemma SidesOfEdgeWalk(c: seq<Vec3>, k: nat)
    requires |c| == CornersPerQuad && k < CornersPerQuad
    requires IsEdge(c[0], c[1]) && IsEdge(c[1], c[2]) && IsEdge(c[2], c[3]) && IsEdge(c[3], c[0])
    ensures IsEdge(c[k], c[NextCorner(k)])
  {
  }

  /** The unit vector along `axis`. */
  function AxisVector(axis: Axis): Vec3
  {
    match axis
    case AxisX => Vec3(1.0, 0.0, 0.0)
    case AxisY => Vec3(0.0, 1.0, 0.0)
    case AxisZ => Vec3(0.0, 0.0, 1.0)
  }

  /** A coordinate is the offset along its axis. */
  lemma CoordIsDot(v: Vec3, axis: Axis)
    ensures Coord(v, axis) == Dot(AxisVector(axis), v)
  {
  }

  lemma AxisVectorIsUnit(axis: Axis)
    ensures SqNorm(AxisVector(axis)) == 1.0
  {
  }

  /**
   * The outward unit normal of the cube face on plane `p`: along the axis for
   * the face at 1, against it for the face at 0.
   */
  function OutwardNormal(p: Plane): Vec3
  {
    var e := AxisVector(p.axis);
    if p.value == 1.0 then e else Vec3(-e.x, -e.y, -e.z)
  }

  /**
   * The turn a walk makes at `q`, coming from `p` and going on to `r`: the cross
   * product of the two sides. Seen from the side it points to, the walk turns
   * counter-clockwise.
   */
  function Turn(p: Vec3, q: Vec3, r: Vec3): Vec3
  {
    Cross(Sub(q, p), Sub(r, q))
  }

  /**
   * Quad `f` winds counter-clockwise seen from outside the cube: at every
   * corner the turn is the outward normal of its face.
   */
  predicate WindsOutward(f: nat)
    requires f < QuadCount && f < |FacePlanes|
  {
    var c := QuadCorners(Vertices, f);
    forall k :: 0 <= k < CornersPerQuad ==>
      Turn(c[k], c[NextCorner(k)], c[NextCorner(NextCorner(k))]) == OutwardNormal(FacePlanes[f])
  }

  /** All six quads wind the same way: counter-clockwise seen from outside. */
  lemma QuadsWindOutward()
    ensures |FacePlanes| == QuadCount
    ensures forall f :: 0 <= f < QuadCount ==> WindsOutward(f)
  {
    forall f | 0 <= f < QuadCount
      ensures WindsOutward(f)
    {
      QuadWindsAt(f);
    }
  }

  lemma QuadWindsAt(f: nat)
    requires f < QuadCount
    ensures |FacePlanes| == QuadCount && WindsOutward(f)
  {
    forall k | 0 <= k < CornersPerQuad
      ensures var c := QuadCorners(Vertices, f);
              Turn(c[k], c[NextCorner(k)], c[NextCorner(NextCorner(k))]) == OutwardNormal(FacePlanes[f])
    {
      TurnAt(f, k);
    }
  }

  /** The turn quad `f` makes at its corner `k` is the outward normal of its face. */
  lemma TurnAt(f: nat, k: nat)
    requires f < QuadCount && k < CornersPerQuad
    ensures |FacePlanes| == QuadCount
    ensures var c := QuadCorners(Vertices, f);
            Turn(c[k], c[NextCorner(k)], c[NextCorner(NextCorner(k))]) == OutwardNormal(FacePlanes[f])
  {
    if f == 0 {
      TurnXOne(k);
    } else if f == 1 {
      TurnXZero(k);
    } else if f == 2 {
      TurnYOne(k);
    } else if f == 3 {
      TurnYZero(k);
    } else if f == 4 {
      TurnZZero(k);
    } else {
      TurnZOne(k);
    }
  }

  /** Quad 0 visits the corners of the face x = 1 in this order. */
  lemma CornersXOne()
    ensures QuadCorners(Vertices, 0) == [Vec3(1.0, 0.0, 1.0), Vec3(1.0, 0.0, 0.0), Vec3(1.0, 1.0, 0.0), Vec3(1.0, 1.0, 1.0)]
  {
    assert FaceIndices[0..4] == [6, 2, 3, 7];
  }

  /** At each corner, quad 0 turns about +x, the outward normal of its face. */
  lemma TurnXOne(k: nat)
    requires k < CornersPerQuad
    ensures var c := QuadCorners(Vertices, 0);
            Turn(c[k], c[NextCorner(k)], c[NextCorner(NextCorner(k))]) == Vec3(1.0, 0.0, 0.0)
  {
    CornersXOne();
    SideTurnsXOne(k);
  }

  /** The cross product of each side of quad 0 with the next. */
  lemma SideTurnsXOne(k: nat)
    requires k < CornersPerQuad
    ensures k == 0 ==> Cross(Vec3(0.0, 0.0, -1.0), Vec3(0.0, 1.0, 0.0)) == Vec3(1.0, 0.0, 0.0)
    ensures k == 1 ==> Cross(Vec3(0.0, 1.0, 0.0), Vec3(0.0, 0.0, 1.0)) == Vec3(1.0, 0.0, 0.0)
    ensures k == 2 ==> Cross(Vec3(0.0, 0.0, 1.0), Vec3(0.0, -1.0, 0.0)) == Vec3(1.0, 0.0, 0.0)
    ensures k == 3 ==> Cross(Vec3(0.0, -1.0, 0.0), Vec3(0.0, 0.0, -1.0)) == Vec3(1.0, 0.0, 0.0)
  {
  }

  /** Quad 1 visits the corners of the face x = 0 in this order. */
  lemma CornersXZero()
    ensures QuadCorners(Vertices, 1) == [Vec3(0.0, 1.0, 1.0), Vec3(0.0, 1.0, 0.0), Vec3(0.0, 0.0, 0.0), Vec3(0.0, 0.0, 1.0)]
  {
    assert FaceIndices[4..8] == [5, 1, 0, 4];
  }

  /** At each corner, quad 1 turns about -x, the outward normal of its face. */
  lemma TurnXZero(k: nat)
    requires k < CornersPerQuad
    ensures var c := QuadCorners(Vertices, 1);
            Turn(c[k], c[NextCorner(k)], c[NextCorner(NextCorner(k))]) == Vec3(-1.0, 0.0, 0.0)
  {
    CornersXZero();
    SideTurnsXZero(k);
  }

  /** The cross product of each side of quad 1 with the next. */
  lemma SideTurnsXZero(k: nat)
    requires k < CornersPerQuad
    ensures k == 0 ==> Cross(Vec3(0.0, 0.0, -1.0), Vec3(0.0, -1.0, 0.0)) == Vec3(-1.0, 0.0, 0.0)
    ensures k == 1 ==> Cross(Vec3(0.0, -1.0, 0.0), Vec3(0.0, 0.0, 1.0)) == Vec3(-1.0, 0.0, 0.0)
    ensures k == 2 ==> Cross(Vec3(0.0, 0.0, 1.0), Vec3(0.0, 1.0, 0.0)) == Vec3(-1.0, 0.0, 0.0)
    ensures k == 3 ==> Cross(Vec3(0.0, 1.0, 0.0), Vec3(0.0, 0.0, -1.0)) == Vec3(-1.0, 0.0, 0.0)
  {
  }

  /** Quad 2 visits the corners of the face y = 1 in this order. */
  lemma CornersYOne()
    ensures QuadCorners(Vertices, 2) == [Vec3(1.0, 1.0, 1.0), Vec3(1.0, 1.0, 0.0), Vec3(0.0, 1.0, 0.0), Vec3(0.0, 1.0, 1.0)]
  {
    assert FaceIndices[8..12] == [7, 3, 1, 5];
  }

  /** At each corner, quad 2 turns about +y, the outward normal of its face. */
  lemma TurnYOne(k: nat)
    requires k < CornersPerQuad
    ensures var c := QuadCorners(Vertices, 2);
            Turn(c[k], c[NextCorner(k)], c[NextCorner(NextCorner(k))]) == Vec3(0.0, 1.0, 0.0)
  {
    CornersYOne();
    SideTurnsYOne(k);
  }

  /** The cross product of each side of quad 2 with the next. */
  lemma SideTurnsYOne(k: nat)
    requires k < CornersPerQuad
    ensures k == 0 ==> Cross(Vec3(0.0, 0.0, -1.0), Vec3(-1.0, 0.0, 0.0)) == Vec3(0.0, 1.0, 0.0)
    ensures k == 1 ==> Cross(Vec3(-1.0, 0.0, 0.0), Vec3(0.0, 0.0, 1.0)) == Vec3(0.0, 1.0, 0.0)
    ensures k == 2 ==> Cross(Vec3(0.0, 0.0, 1.0), Vec3(1.0, 0.0, 0.0)) == Vec3(0.0, 1.0, 0.0)
    ensures k == 3 ==> Cross(Vec3(1.0, 0.0, 0.0), Vec3(0.0, 0.0, -1.0)) == Vec3(0.0, 1.0, 0.0)
  {
  }

  /** Quad 3 visits the corners of the face y = 0 in this order. */
  lemma CornersYZero()
    ensures QuadCorners(Vertices, 3) == [Vec3(0.0, 0.0, 1.0), Vec3(0.0, 0.0, 0.0), Vec3(1.0, 0.0, 0.0), Vec3(1.0, 0.0, 1.0)]
  {
    assert FaceIndices[12..16] == [4, 0, 2, 6];
  }

  /** At each corner, quad 3 turns about -y, the outward normal of its face. */
  lemma TurnYZero(k: nat)
    requires k < CornersPerQuad
    ensures var c := QuadCorners(Vertices, 3);
            Turn(c[k], c[NextCorner(k)], c[NextCorner(NextCorner(k))]) == Vec3(0.0, -1.0, 0.0)
  {
    CornersYZero();
    SideTurnsYZero(k);
  }

  /** The cross product of each side of quad 3 with the next. */
  lemma SideTurnsYZero(k: nat)
    requires k < CornersPerQuad
    ensures k == 0 ==> Cross(Vec3(0.0, 0.0, -1.0), Vec3(1.0, 0.0, 0.0)) == Vec3(0.0, -1.0, 0.0)
    ensures k == 1 ==> Cross(Vec3(1.0, 0.0, 0.0), Vec3(0.0, 0.0, 1.0)) == Vec3(0.0, -1.0, 0.0)
    ensures k == 2 ==> Cross(Vec3(0.0, 0.0, 1.0), Vec3(-1.0, 0.0, 0.0)) == Vec3(0.0, -1.0, 0.0)
    ensures k == 3 ==> Cross(Vec3(-1.0, 0.0, 0.0), Vec3(0.0, 0.0, -1.0)) == Vec3(0.0, -1.0, 0.0)
  {
  }

  /** Quad 4 visits the corners of the face z = 0 in this order. */
  lemma CornersZZero()
    ensures QuadCorners(Vertices, 4) == [Vec3(1.0, 0.0, 0.0), Vec3(0.0, 0.0, 0.0), Vec3(0.0, 1.0, 0.0), Vec3(1.0, 1.0, 0.0)]
  {
    assert FaceIndices[16..20] == [2, 0, 1, 3];
  }

  /** At each corner, quad 4 turns about -z, the outward normal of its face. */
  lemma TurnZZero(k: nat)
    requires k < CornersPerQuad
    ensures var c := QuadCorners(Vertices, 4);
            Turn(c[k], c[NextCorner(k)], c[NextCorner(NextCorner(k))]) == Vec3(0.0, 0.0, -1.0)
  {
    CornersZZero();
    SideTurnsZZero(k);
  }

  /** The cross product of each side of quad 4 with the next. */
  lemma SideTurnsZZero(k: nat)
    requires k < CornersPerQuad
    ensures k == 0 ==> Cross(Vec3(-1.0, 0.0, 0.0), Vec3(0.0, 1.0, 0.0)) == Vec3(0.0, 0.0, -1.0)
    ensures k == 1 ==> Cross(Vec3(0.0, 1.0, 0.0), Vec3(1.0, 0.0, 0.0)) == Vec3(0.0, 0.0, -1.0)
    ensures k == 2 ==> Cross(Vec3(1.0, 0.0, 0.0), Vec3(0.0, -1.0, 0.0)) == Vec3(0.0, 0.0, -1.0)
    ensures k == 3 ==> Cross(Vec3(0.0, -1.0, 0.0), Vec3(-1.0, 0.0, 0.0)) == Vec3(0.0, 0.0, -1.0)
  {
  }

  /** Quad 5 visits the corners of the face z = 1 in this order. */
  lemma CornersZOne()
    ensures QuadCorners(Vertices, 5) == [Vec3(1.0, 1.0, 1.0), Vec3(0.0, 1.0, 1.0), Vec3(0.0, 0.0, 1.0), Vec3(1.0, 0.0, 1.0)]
  {
    assert FaceIndices[20..24] == [7, 5, 4, 6];
  }

  /** At each corner, quad 5 turns about +z, the outward normal of its face. */
  lemma TurnZOne(k: nat)
    requires k < CornersPerQuad
    ensures var c := QuadCorners(Vertices, 5);
            Turn(c[k], c[NextCorner(k)], c[NextCorner(NextCorner(k))]) == Vec3(0.0, 0.0, 1.0)
  {
    CornersZOne();
    SideTurnsZOne(k);
  }

  /** The cross product of each side of quad 5 with the next. */
  lemma SideTurnsZOne(k: nat)
    requires k < CornersPerQuad
    ensures k == 0 ==> Cross(Vec3(-1.0, 0.0, 0.0), Vec3(0.0, -1.0, 0.0)) == Vec3(0.0, 0.0, 1.0)
    ensures k == 1 ==> Cross(Vec3(0.0, -1.0, 0.0), Vec3(1.0, 0.0, 0.0)) == Vec3(0.0, 0.0, 1.0)
    ensures k == 2 ==> Cross(Vec3(1.0, 0.0, 0.0), Vec3(0.0, 1.0, 0.0)) == Vec3(0.0, 0.0, 1.0)
    ensures k == 3 ==> Cross(Vec3(0.0, 1.0, 0.0), Vec3(-1.0, 0.0, 0.0)) == Vec3(0.0, 0.0, 1.0)
  {
  }
}
