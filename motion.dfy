/**
 * The displacement rules the player and the enemies share: the clamped
 * knockback, the direction-gated push-out from an obstacle, and the
 * keyboard movement step.
 */
module Motion {
  import opened Wrappers
  import opened Geometry
  import opened Facing

  /** Knockback never leaves the band [50, dimension - 50]. */
  const Margin: real := 50.0

  /** Pixels the player moves per key press. */
  const PlayerSpeed: real := 10.0

  /**
   * Knockback of a point by `force` along `facing` (the game keeps two
   * copies: Player.knockback, driven by the enemy's flags with force 50, and
   * Enemy.knockback, driven by the player's flags). Only the coordinate of
   * the heading's axis changes; it moves by `force` unless that would pass
   * the margin, in which case it stops at the margin.
   */
  function Knockback(x: real, y: real, facing: Flags, force: real, c: Canvas): (p: (real, real))
    ensures Heading(facing) == None ==> p == (x, y)
    ensures Heading(facing) == Some(Up) ==>
      p.0 == x && p.1 >= Margin && (y - force >= Margin ==> p.1 == y - force) && (y - force < Margin ==> p.1 == Margin)
    ensures Heading(facing) == Some(Down) ==>
      p.0 == x && p.1 <= c.height - Margin && (y + force <= c.height - Margin ==> p.1 == y + force) &&
      (y + force > c.height - Margin ==> p.1 == c.height - Margin)
    ensures Heading(facing) == Some(Left) ==>
      p.1 == y && p.0 >= Margin && (x - force >= Margin ==> p.0 == x - force) && (x - force < Margin ==> p.0 == Margin)
    ensures Heading(facing) == Some(Right) ==>
      p.1 == y && p.0 <= c.width - Margin && (x + force <= c.width - Margin ==> p.0 == x + force) &&
      (x + force > c.width - Margin ==> p.0 == c.width - Margin)
  {
    if facing.up then
      (x, if y - force < Margin then Margin else y - force)
    else if facing.down then
      (x, if y + force > c.height - Margin then c.height - Margin else y + force)
    else if facing.left then
      (if x - force < Margin then Margin else x - force, y)
    else if facing.right then
      (if x + force > c.width - Margin then c.width - Margin else x + force, y)
    else
      (x, y)
  }

  /**
   * Push-out of `mover` from `obstacle` along the axis of its movement: the
   * edge it moves with ends flush with the obstacle's facing edge, so the two
   * no longer overlap. With no flag set nothing moves.
   */
  function PushOut(mover: Rect, obstacle: Rect, facing: Flags): (r: Rect)
    ensures r.width == mover.width && r.height == mover.height
    ensures Heading(facing) == None ==> r == mover
    ensures Heading(facing) == Some(Up) ==> r.x == mover.x && r.Top() == obstacle.Bottom()
    ensures Heading(facing) == Some(Down) ==> r.x == mover.x && r.Bottom() == obstacle.Top()
    ensures Heading(facing) == Some(Left) ==> r.y == mover.y && r.Left() == obstacle.Right()
    ensures Heading(facing) == Some(Right) ==> r.y == mover.y && r.Right() == obstacle.Left()
    ensures Heading(facing).Some? ==> !Overlaps(r, obstacle)
  {
    if facing.up then mover.(y := obstacle.Bottom())
    else if facing.down then mover.(y := obstacle.Top() - mover.height)
    else if facing.left then mover.(x := obstacle.Right())
    else if facing.right then mover.(x := obstacle.Left() - mover.width)
    else mover
  }

  /**
   * One key press: a player already at or past the canvas edge on the side
   * of the key is put exactly on that edge, otherwise it moves 10px.
   */
  function KeyStep(r: Rect, d: Dir, c: Canvas): (s: Rect)
    ensures s.width == r.width && s.height == r.height
    ensures d == Up || d == Down ==> s.x == r.x
    ensures d == Left || d == Right ==> s.y == r.y
    ensures d == Up ==> s.Top() == (if r.Top() <= 0.0 then 0.0 else r.Top() - PlayerSpeed)
    ensures d == Down ==> s.Bottom() == (if r.Bottom() >= c.height then c.height else r.Bottom() + PlayerSpeed)
    ensures d == Left ==> s.Left() == (if r.Left() <= 0.0 then 0.0 else r.Left() - PlayerSpeed)
    ensures d == Right ==> s.Right() == (if r.Right() >= c.width then c.width else r.Right() + PlayerSpeed)
  {
    match d
    case Up => if r.Top() <= 0.0 then r.(y := 0.0) else r.(y := r.y - PlayerSpeed)
    case Right => if r.Right() >= c.width then r.(x := c.width - r.width) else r.(x := r.x + PlayerSpeed)
    case Left => if r.Left() <= 0.0 then r.(x := 0.0) else r.(x := r.x - PlayerSpeed)
    case Down => if r.Bottom() >= c.height then r.(y := c.height - r.height) else r.(y := r.y + PlayerSpeed)
  }

  /** The player is on the canvas up to less than one step on each side. */
  predicate NearCanvas(r: Rect, c: Canvas) {
    r.Left() > -PlayerSpeed && r.Right() < c.width + PlayerSpeed &&
    r.Top() > -PlayerSpeed && r.Bottom() < c.height + PlayerSpeed
  }

  /**
   * Key presses never carry a player that fits on the canvas more than one
   * step past its edge: the edge test catches it on the next press.
   */
  lemma KeyStepStaysNearCanvas(r: Rect, d: Dir, c: Canvas)
    requires 0.0 <= r.width <= c.width && 0.0 <= r.height <= c.height
    requires NearCanvas(r, c)
    ensures NearCanvas(KeyStep(r, d, c), c)
  {
  }

  /** Pressing a key against the edge a second time changes nothing. */
  lemma KeyStepIdempotentAtEdge(r: Rect, d: Dir, c: Canvas)
    requires r.width >= 0.0 && r.height >= 0.0
    requires d == Up ==> r.Top() <= 0.0
    requires d == Down ==> r.Bottom() >= c.height
    requires d == Left ==> r.Left() <= 0.0
    requires d == Right ==> r.Right() >= c.width
    ensures KeyStep(KeyStep(r, d, c), d, c) == KeyStep(r, d, c)
  {
  }
}
