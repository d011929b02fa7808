/**
 * The four movement flags (movingUp, movingDown, movingLeft, movingRight)
 * that the player and the enemies carry, and the directions they encode.
 */
module Facing {
  import opened Wrappers

  datatype Dir = Up | Down | Left | Right

  datatype Flags = Flags(up: bool, down: bool, left: bool, right: bool)

  /** No movement flag set. */
  const Still := Flags(false, false, false, false)

  /** The random pick `Math.floor(Math.random() * 4)` of a new enemy direction. */
  type Choice = c: int | 0 <= c < 4

  predicate IsSet(f: Flags, d: Dir) {
    match d
    case Up => f.up
    case Down => f.down
    case Left => f.left
    case Right => f.right
  }

  function Count(f: Flags): nat {
    (if f.up then 1 else 0) + (if f.down then 1 else 0) + (if f.left then 1 else 0) + (if f.right then 1 else 0)
  }

  /** The flags Player.direction leaves behind: exactly one set, the one for d. */
  function FlagsFor(d: Dir): (f: Flags)
    ensures Count(f) == 1
    ensures forall e: Dir :: IsSet(f, e) <==> e == d
  {
    match d
    case Up => Flags(true, false, false, false)
    case Down => Flags(false, true, false, false)
    case Left => Flags(false, false, true, false)
    case Right => Flags(false, false, false, true)
  }

  /**
   * The direction an if-else chain over the flags acts on: the first set flag
   * in the order up, down, left, right (also what Enemy.getDirection returns;
   * None stands for its undefined result).
   */
  function Heading(f: Flags): (h: Option<Dir>)
    ensures h == None <==> f == Still
    ensures h.Some? ==> IsSet(f, h.value)
    ensures forall e: Dir :: IsSet(f, e) && Count(f) == 1 ==> h == Some(e)
  {
    if f.up then Some(Up)
    else if f.down then Some(Down)
    else if f.left then Some(Left)
    else if f.right then Some(Right)
    else None
  }

  /** The cases 0..3 of the random switch in Enemy.newDirection. */
  function ChosenDir(c: Choice): Dir {
    match c
    case 0 => Up
    case 1 => Down
    case 2 => Left
    case 3 => Right
  }

  /** Setting a direction and reading it back gives the same direction. */
  lemma HeadingOfFlagsFor(d: Dir)
    ensures Heading(FlagsFor(d)) == Some(d)
  {
  }

  /** Every direction is reachable by some random pick. */
  lemma ChosenDirOnto(d: Dir)
    ensures exists c: Choice :: ChosenDir(c) == d
  {
    match d
    case Up => assert ChosenDir(0) == Up;
    case Down => assert ChosenDir(1) == Down;
    case Left => assert ChosenDir(2) == Left;
    case Right => assert ChosenDir(3) == Right;
  }
}
