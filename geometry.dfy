/**
 * Axis-aligned rectangles, the single overlap test every collision in the
 * game uses, and the canvas the rooms are drawn on.
 */
module Geometry {

  /** The grid unit of the room layout: walls, floors and doors are 50x50. */
  const Tile: real := 50.0

  /** The canvas dimensions, read by the layout, the clamps and the key step. */
  datatype Canvas = Canvas(width: real, height: real)

  /** A rectangle with its top-left corner at (x, y); y grows downwards. */
  datatype Rect = Rect(x: real, y: real, width: real, height: real) {
    function Left(): real { x }
    function Right(): real { x + width }
    function Top(): real { y }
    function Bottom(): real { y + height }
    function CentreX(): real { x + width / 2.0 }
    function CentreY(): real { y + height / 2.0 }
  }

  /** The pixel offset of grid cell k. */
  function Grid(k: int): real {
    k as real * 50.0
  }

  /** A wall, floor or door tile at (x, y). */
  function TileAt(x: real, y: real): Rect {
    Rect(x, y, Tile, Tile)
  }

  /**
   * Strict overlap: first the vertical extents, then the horizontal ones,
   * as every inline copy of the test in the game checks them.
   */
  predicate Overlaps(a: Rect, b: Rect) {
    a.Top() < b.Bottom() && a.Bottom() > b.Top() &&
    a.Left() < b.Right() && a.Right() > b.Left()
  }

  lemma OverlapsSymmetric(a: Rect, b: Rect)
    ensures Overlaps(a, b) <==> Overlaps(b, a)
  {
  }

  /** Rectangles that only share an edge do not collide. */
  lemma TouchingDoesNotOverlap(a: Rect, b: Rect)
    requires a.Right() == b.Left() || a.Left() == b.Right() || a.Bottom() == b.Top() || a.Top() == b.Bottom()
    ensures !Overlaps(a, b) && !Overlaps(b, a)
  {
  }

  /** A rectangle of positive size collides with itself. */
  lemma OverlapsItself(a: Rect)
    ensures Overlaps(a, a) <==> a.width > 0.0 && a.height > 0.0
  {
  }
}
