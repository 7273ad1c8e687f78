/**
 * Conversion of a mouse position in window pixels (origin top-left, y down)
 * to a point of the world rectangle (origin in the middle, y up).
 */
module WorldCoordinates {
  import opened Consts

  /** A point of the world plane. */
  datatype Coordinate = Coordinate(x: real, y: real)

  /**
   * The world point under pixel (`sx`, `sy`) of a `width` by `height` window:
   * each axis is scaled from the window size to the world size and shifted to
   * the world minimum, and the y axis is flipped.
   */
  function ToWorld(sx: int, sy: int, width: int, height: int): (r: Coordinate)
    requires width > 0 && height > 0
    ensures 0 <= sx <= width ==> WorldMinX <= r.x <= WorldMaxX
    ensures 0 <= sy <= height ==> WorldMinY <= r.y <= WorldMaxY
  {
    ScaleInRange(sx as real, width as real, WorldMinX, WorldMaxX);
    ScaleInRange((height - sy) as real, height as real, WorldMinY, WorldMaxY);
    Coordinate(
      (sx as real / width as real) * (WorldMaxX - WorldMinX) + WorldMinX,
      ((height - sy) as real / height as real) * (WorldMaxY - WorldMinY) + WorldMinY)
  }

  /** The world point back to (fractional) window pixels; the inverse of `ToWorld`. */
  function ToScreen(c: Coordinate, width: int, height: int): (r: (real, real))
    requires width > 0 && height > 0
  {
    ((c.x - WorldMinX) / WorldWidth() * width as real,
     height as real - (c.y - WorldMinY) / WorldHeight() * height as real)
  }

  /** `ToWorld` on one axis: the fraction `p / n` of the way from `lo` to `hi`. */
  function Scale(p: real, n: real, lo: real, hi: real): real
    requires n > 0.0
  {
    (p / n) * (hi - lo) + lo
  }

  lemma ToWorldByAxis(sx: int, sy: int, width: int, height: int)
    requires width > 0 && height > 0
    ensures ToWorld(sx, sy, width, height).x == Scale(sx as real, width as real, WorldMinX, WorldMaxX)
    ensures ToWorld(sx, sy, width, height).y == Scale((height - sy) as real, height as real, WorldMinY, WorldMaxY)
  {
  }

  /** Scaling maps 0 to `lo` and `n` to `hi`, strictly increasing in between when `lo < hi`. */
  lemma ScaleEnds(n: real, lo: real, hi: real)
    requires n > 0.0
    ensures Scale(0.0, n, lo, hi) == lo
    ensures Scale(n, n, lo, hi) == hi
  {
  }

  lemma ScaleMonotone(p: real, q: real, n: real, lo: real, hi: real)
    requires n > 0.0 && lo < hi
    ensures p < q <==> Scale(p, n, lo, hi) < Scale(q, n, lo, hi)
  {
    var k := hi - lo;
    assert Scale(q, n, lo, hi) - Scale(p, n, lo, hi) == ((q - p) / n) * k;
    if p < q {
      assert (q - p) / n > 0.0;
    } else {
      assert (q - p) / n <= 0.0;
    }
  }

  lemma ScaleInRange(p: real, n: real, lo: real, hi: real)
    requires n > 0.0 && lo < hi
    ensures 0.0 <= p <= n <==> lo <= Scale(p, n, lo, hi) <= hi
  {
    ScaleEnds(n, lo, hi);
    ScaleMonotone(p, 0.0, n, lo, hi);
    ScaleMonotone(n, p, n, lo, hi);
  }

  lemma ScaleRoundTrip(p: real, n: real, lo: real, hi: real)
    requires n > 0.0 && lo < hi
    ensures (Scale(p, n, lo, hi) - lo) / (hi - lo) * n == p
  {
    var k := hi - lo;
    assert Scale(p, n, lo, hi) - lo == (p / n) * k;
    assert (p / n) * k / k == p / n;
    assert (p / n) * n == p;
  }

  /** The window's corners go to the world rectangle's corners, and its centre to the origin. */
  lemma CornersToCorners(width: int, height: int)
    requires width > 0 && height > 0
    ensures ToWorld(0, height, width, height) == Coordinate(WorldMinX, WorldMinY)
    ensures ToWorld(width, 0, width, height) == Coordinate(WorldMaxX, WorldMaxY)
    ensures ToWorld(0, 0, width, height) == Coordinate(WorldMinX, WorldMaxY)
    ensures ToWorld(width, height, width, height) == Coordinate(WorldMaxX, WorldMinY)
  {
    ToWorldByAxis(0, height, width, height);
    ToWorldByAxis(width, 0, width, height);
    ToWorldByAxis(0, 0, width, height);
    ToWorldByAxis(width, height, width, height);
    ScaleEnds(width as real, WorldMinX, WorldMaxX);
    ScaleEnds(height as real, WorldMinY, WorldMaxY);
  }

  /** A pixel lies in the window exactly when its world point lies in the world rectangle. */
  lemma InWindowIffInWorld(sx: int, sy: int, width: int, height: int)
    requires width > 0 && height > 0
    ensures 0 <= sx <= width && 0 <= sy <= height <==>
              WorldMinX <= ToWorld(sx, sy, width, height).x <= WorldMaxX &&
              WorldMinY <= ToWorld(sx, sy, width, height).y <= WorldMaxY
  {
    ToWorldByAxis(sx, sy, width, height);
    ScaleInRange(sx as real, width as real, WorldMinX, WorldMaxX);
    ScaleInRange((height - sy) as real, height as real, WorldMinY, WorldMaxY);
  }

  /** Moving right moves right in the world; moving down the window moves down in the world. */
  lemma ToWorldMonotone(sx1: int, sy1: int, sx2: int, sy2: int, width: int, height: int)
    requires width > 0 && height > 0
    ensures sx1 < sx2 <==> ToWorld(sx1, sy1, width, height).x < ToWorld(sx2, sy2, width, height).x
    ensures sy1 < sy2 <==> ToWorld(sx1, sy1, width, height).y > ToWorld(sx2, sy2, width, height).y
  {
    ToWorldByAxis(sx1, sy1, width, height);
    ToWorldByAxis(sx2, sy2, width, height);
    ScaleMonotone(sx1 as real, sx2 as real, width as real, WorldMinX, WorldMaxX);
    ScaleMonotone((height - sy2) as real, (height - sy1) as real, height as real, WorldMinY, WorldMaxY);
  }

  /** Going to the world and back returns the pixel. */
  lemma ToScreenUndoesToWorld(sx: int, sy: int, width: int, height: int)
    requires width > 0 && height > 0
    ensures ToScreen(ToWorld(sx, sy, width, height), width, height) == (sx as real, sy as real)
  {
    ToWorldByAxis(sx, sy, width, height);
    ScaleRoundTrip(sx as real, width as real, WorldMinX, WorldMaxX);
    ScaleRoundTrip((height - sy) as real, height as real, WorldMinY, WorldMaxY);
    var c := ToWorld(sx, sy, width, height);
    assert (c.x - WorldMinX) / WorldWidth() * width as real == sx as real;
    assert (c.y - WorldMinY) / WorldHeight() * height as real == (height - sy) as real;
    assert ToScreen(c, width, height).0 == sx as real;
    assert ToScreen(c, width, height).1 == height as real - (height - sy) as real == sy as real;
    assert ToScreen(c, width, height) == (sx as real, sy as real);
  }

  /** Distinct pixels have distinct world points. */
  lemma ToWorldInjective(sx1: int, sy1: int, sx2: int, sy2: int, width: int, height: int)
    requires width > 0 && height > 0
    requires ToWorld(sx1, sy1, width, height) == ToWorld(sx2, sy2, width, height)
    ensures sx1 == sx2 && sy1 == sy2
  {
    ToScreenUndoesToWorld(sx1, sy1, width, height);
    ToScreenUndoesToWorld(sx2, sy2, width, height);
  }
}
