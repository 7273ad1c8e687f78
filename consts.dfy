/**
 * The application's configuration constants: the initial window size in
 * pixels and the bounds of the orthographic world rectangle that the window
 * shows.
 */
module Consts {

  /** Initial window size in pixels. */
  const WindowWidth: int := 480
  const WindowHeight: int := 480

  /** The world rectangle set up by the orthographic projection. */
  const WorldMinX: real := -5.0
  const WorldMaxX: real := 5.0
  const WorldMinY: real := -5.0
  const WorldMaxY: real := 5.0

  /** Width of the world rectangle; the screen-to-world scale factor on x. */
  function WorldWidth(): (r: real)
    ensures r > 0.0
    ensures WorldMinX + r == WorldMaxX
  {
    WorldMaxX - WorldMinX
  }

  /** Height of the world rectangle; the screen-to-world scale factor on y. */
  function WorldHeight(): (r: real)
    ensures r > 0.0
    ensures WorldMinY + r == WorldMaxY
  {
    WorldMaxY - WorldMinY
  }

  /** The world rectangle is non-empty on both axes. */
  lemma WorldBoundsOrdered()
    ensures WorldMinX < WorldMaxX
    ensures WorldMinY < WorldMaxY
  {
  }

  /** The world rectangle is centred on the origin. */
  lemma WorldSymmetric()
    ensures WorldMinX == -WorldMaxX
    ensures WorldMinY == -WorldMaxY
  {
  }

  /** The world rectangle is a square of side 10. */
  lemma WorldSquare()
    ensures WorldWidth() == WorldHeight() == 10.0
  {
  }

  /** The start-up window is a positive square, so it can divide. */
  lemma InitialWindowValid()
    ensures WindowWidth > 0 && WindowHeight > 0
    ensures WindowWidth == WindowHeight
  {
  }
}
