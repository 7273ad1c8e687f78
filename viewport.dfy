/**
 * Viewports: the pixel rectangle of the window that OpenGL draws into. The
 * cube scene is drawn into the largest square that fits the window, centred;
 * the click-drawing handler uses the whole window.
 */
module Viewport {

  /** A viewport as passed to glViewport: lower-left corner and size, in pixels. */
  datatype Viewport = Viewport(x: int, y: int, width: int, height: int)

  function Min(a: int, b: int): int
  {
    if a <= b then a else b
  }

  /**
   * The centred square viewport of a `w` by `h` window. The side is the
   * shorter window side and the start offsets are the halved slack, floored;
   * on the non-negative slack, floor division agrees with Dafny's `/`.
   */
  function CentredSquare(w: int, h: int): (r: Viewport)
    ensures r.width == r.height
    ensures r.width <= w && r.width <= h && (r.width == w || r.width == h)
    ensures 0 <= r.x && r.x + r.width <= w
    ensures 0 <= r.y && r.y + r.height <= h
    ensures r.x == 0 || r.y == 0
    ensures 0 <= (w - r.x - r.width) - r.x <= 1
    ensures 0 <= (h - r.y - r.height) - r.y <= 1
  {
    var side := Min(w, h);
    Viewport((w - side) / 2, (h - side) / 2, side, side)
  }

  /** The viewport covering the whole `w` by `h` window. */
  function FullWindow(w: int, h: int): (r: Viewport)
    ensures r.x == 0 && r.y == 0
    ensures r.x + r.width == w && r.y + r.height == h
  {
    Viewport(0, 0, w, h)
  }

  /**
   * The centring is the only one possible: any offset that leaves margins on
   * both sides differing by at most one pixel, the far one not smaller, is the
   * offset chosen.
   */
  lemma CentringIsUnique(w: int, h: int, x: int, y: int)
    requires 0 <= (w - Min(w, h) - x) - x <= 1
    requires 0 <= (h - Min(w, h) - y) - y <= 1
    ensures CentredSquare(w, h) == Viewport(x, y, Min(w, h), Min(w, h))
  {
    var r := CentredSquare(w, h);
    assert 2 * r.x <= w - Min(w, h) <= 2 * r.x + 1;
    assert 2 * r.y <= h - Min(w, h) <= 2 * r.y + 1;
  }

  /** A positive window gets a positive square, and a square window is used whole. */
  lemma CentredSquareOfPositiveWindow(w: int, h: int)
    requires w > 0 && h > 0
    ensures CentredSquare(w, h).width > 0
    ensures w == h ==> CentredSquare(w, h) == FullWindow(w, h)
  {
  }
}
