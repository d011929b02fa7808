/**
 * Enemies: their damage, knockback and death, the random direction pick,
 * the patrol walk and the bounce off walls and doors.
 */
module Enemies {
  import opened Wrappers
  import opened Geometry
  import opened Facing
  import Motion

  const EnemySpeed: real := 0.6
  const WalkRange: real := 400.0
  /** Gap left between an enemy and the obstacle it bounced off. */
  const Clearance: real := 5.0
  /** takeDamage knocks the enemy back by this much. */
  const HitKnockback: real := 50.0
  const StartHealth: int := 10
  const EnemySize: real := 40.0

  /**
   * Where an enemy is, which way it walks, the anchor of its current leg
   * (startPos) and where it stood before this frame's move (prevX, prevY).
   */
  datatype Pose = Pose(box: Rect, moving: Flags, startX: real, startY: real, prevX: real, prevY: real)

  /** The part of an enemy that taking damage changes. */
  datatype Vitals = Vitals(box: Rect, alive: bool, health: int)

  /** What the player's contact test sees of an enemy: where it is, whether it lives, its facing. */
  datatype Sight = Sight(box: Rect, alive: bool, moving: Flags)

  /** die: the rectangle shrinks to half its size around the same centre. */
  function Shrunk(r: Rect): (s: Rect)
    ensures s.width == r.width / 2.0 && s.height == r.height / 2.0
    ensures s.CentreX() == r.CentreX() && s.CentreY() == r.CentreY()
  {
    Rect(r.x + r.width / 4.0, r.y + r.height / 4.0, r.width / 2.0, r.height / 2.0)
  }

  /**
   * takeDamage: a dead enemy is untouched; a live one loses `damage` health,
   * is knocked back 50px along the player's facing and, once its health is
   * at most 0, dies and shrinks around its knocked-back centre.
   */
  function Hit(v: Vitals, damage: int, playerFacing: Flags, c: Canvas): (w: Vitals)
    ensures !v.alive ==> w == v
    ensures v.alive ==> w.health == v.health - damage && (w.alive <==> w.health > 0)
    ensures v.alive ==>
      var k := Motion.Knockback(v.box.x, v.box.y, playerFacing, HitKnockback, c);
      w.box.CentreX() == k.0 + v.box.width / 2.0 && w.box.CentreY() == k.1 + v.box.height / 2.0
    ensures v.alive && w.alive ==> w.box.width == v.box.width && w.box.height == v.box.height
    ensures v.alive && !w.alive ==> w.box.width == v.box.width / 2.0 && w.box.height == v.box.height / 2.0
  {
    if !v.alive then v
    else
      var health := v.health - damage;
      var k := Motion.Knockback(v.box.x, v.box.y, playerFacing, HitKnockback, c);
      var moved := v.box.(x := k.0, y := k.1);
      if health <= 0 then Vitals(Shrunk(moved), false, health) else Vitals(moved, true, health)
  }

  /** A fresh enemy dies on the second 5-point hit, not on the first. */
  lemma TwoWeaponHitsKill(b: Rect, f: Flags, c: Canvas)
    ensures Hit(Vitals(b, true, StartHealth), 5, f, c).alive
    ensures !Hit(Hit(Vitals(b, true, StartHealth), 5, f, c), 5, f, c).alive
  {
  }

  /** newDirection: the new leg is anchored where the enemy stands and heads the picked way. */
  function Turn(p: Pose, pick: Choice): (q: Pose)
    ensures q.box == p.box && q.prevX == p.prevX && q.prevY == p.prevY
    ensures q.startX == p.box.x && q.startY == p.box.y
    ensures Heading(q.moving) == Some(ChosenDir(pick)) && Count(q.moving) == 1
  {
    p.(moving := FlagsFor(ChosenDir(pick)), startX := p.box.x, startY := p.box.y)
  }

  /**
   * One step along the current leg, or a new direction once the leg is
   * used up. The right-moving test is written `>` like the left-moving one,
   * so a right-facing enemy anchored where it stands never takes a step.
   */
  function Walk(p: Pose, pick: Choice): (q: Pose)
    ensures q.prevX == p.prevX && q.prevY == p.prevY
    ensures Heading(p.moving) == None ==> q == p
    ensures Heading(p.moving) == Some(Up) ==> q == Turn(p, pick) || q == p.(box := p.box.(y := p.box.y - EnemySpeed))
    ensures Heading(p.moving) == Some(Down) ==> q == Turn(p, pick) || q == p.(box := p.box.(y := p.box.y + EnemySpeed))
    ensures Heading(p.moving) == Some(Left) ==> q == Turn(p, pick) || q == p.(box := p.box.(x := p.box.x - EnemySpeed))
    ensures Heading(p.moving) == Some(Right) ==> q == Turn(p, pick) || q == p.(box := p.box.(x := p.box.x + EnemySpeed))
  {
    var b := p.box;
    if p.moving.up then
      if b.y > p.startY - WalkRange then p.(box := b.(y := b.y - EnemySpeed)) else Turn(p, pick)
    else if p.moving.down then
      if b.y < p.startY + WalkRange then p.(box := b.(y := b.y + EnemySpeed)) else Turn(p, pick)
    else if p.moving.left then
      if b.x > p.startX - WalkRange then p.(box := b.(x := b.x - EnemySpeed)) else Turn(p, pick)
    else if p.moving.right then
      if b.x > p.startX + WalkRange then p.(box := b.(x := b.x + EnemySpeed)) else Turn(p, pick)
    else p
  }

  /**
   * The patrol branch of Enemy.render: remember the position, walk, and on
   * the 1-in-300 roll (`wander`) pick yet another direction.
   */
  function Patrol(p: Pose, pick: Choice, wander: bool, wanderPick: Choice): (q: Pose)
    ensures q.prevX == p.box.x && q.prevY == p.box.y
    ensures q.box.width == p.box.width && q.box.height == p.box.height
    ensures Heading(p.moving) == None ==> q == p.(prevX := p.box.x, prevY := p.box.y)
  {
    var q := p.(prevX := p.box.x, prevY := p.box.y);
    var r := Walk(q, pick);
    if wander && Heading(q.moving).Some? then Turn(r, wanderPick) else r
  }

  /** One patrol frame took the step to b: heading and anchor kept, the old position remembered. */
  predicate Advanced(p: Pose, q: Pose, b: Rect) {
    q.box == b && q.moving == p.moving && q.startX == p.startX && q.startY == p.startY &&
    q.prevX == p.box.x && q.prevY == p.box.y
  }

  /** One patrol frame turned in place: new heading from pick, anchored where it stands. */
  predicate Turned(p: Pose, q: Pose, pick: Choice) {
    q.box == p.box && q.moving == FlagsFor(ChosenDir(pick)) && q.startX == p.box.x && q.startY == p.box.y &&
    q.prevX == p.box.x && q.prevY == p.box.y
  }

  /**
   * Without the wander roll, a patrol frame takes one step exactly when the
   * range test of its heading passes, and otherwise turns where it stands.
   * The right-moving test is `>` against startX + WalkRange, as written.
   */
  lemma PatrolAdvancesOrTurns(p: Pose, pick: Choice, wanderPick: Choice)
    ensures var q := Patrol(p, pick, false, wanderPick);
      Heading(p.moving) == Some(Up) ==>
        if p.box.y > p.startY - WalkRange then Advanced(p, q, p.box.(y := p.box.y - EnemySpeed))
        else Turned(p, q, pick)
    ensures var q := Patrol(p, pick, false, wanderPick);
      Heading(p.moving) == Some(Down) ==>
        if p.box.y < p.startY + WalkRange then Advanced(p, q, p.box.(y := p.box.y + EnemySpeed))
        else Turned(p, q, pick)
    ensures var q := Patrol(p, pick, false, wanderPick);
      Heading(p.moving) == Some(Left) ==>
        if p.box.x > p.startX - WalkRange then Advanced(p, q, p.box.(x := p.box.x - EnemySpeed))
        else Turned(p, q, pick)
    ensures var q := Patrol(p, pick, false, wanderPick);
      Heading(p.moving) == Some(Right) ==>
        if p.box.x > p.startX + WalkRange then Advanced(p, q, p.box.(x := p.box.x + EnemySpeed))
        else Turned(p, q, pick)
  {
  }

  /**
   * On the wander roll a moving enemy still walks, then takes the second
   * pick as its heading and re-anchors where the walk left it.
   */
  lemma PatrolWanders(p: Pose, pick: Choice, wanderPick: Choice)
    requires Heading(p.moving).Some?
    ensures var q := Patrol(p, pick, true, wanderPick);
      q.box == Patrol(p, pick, false, wanderPick).box &&
      q.moving == FlagsFor(ChosenDir(wanderPick)) && q.startX == q.box.x && q.startY == q.box.y &&
      q.prevX == p.box.x && q.prevY == p.box.y
  {
  }

  /**
   * The enemy stands on the line of its leg through the anchor, on the side
   * its heading points to, less than one step beyond the walk range.
   */
  predicate OnLeg(p: Pose) {
    match Heading(p.moving)
    case None => true
    case Some(Up) =>
      p.box.x == p.startX && p.startY - WalkRange - EnemySpeed < p.box.y <= p.startY
    case Some(Down) =>
      p.box.x == p.startX && p.startY <= p.box.y < p.startY + WalkRange + EnemySpeed
    case Some(Left) =>
      p.box.y == p.startY && p.startX - WalkRange - EnemySpeed < p.box.x <= p.startX
    case Some(Right) =>
      p.box.x == p.startX && p.box.y == p.startY
  }

  lemma TurnStartsLeg(p: Pose, pick: Choice)
    ensures OnLeg(Turn(p, pick))
  {
  }

  /** Patrolling never carries an enemy beyond the walk range of its anchor. */
  lemma PatrolStaysOnLeg(p: Pose, pick: Choice, wander: bool, wanderPick: Choice)
    requires OnLeg(p)
    ensures OnLeg(Patrol(p, pick, wander, wanderPick))
  {
  }

  /** The `>` on the right-moving branch: a right-facing enemy never advances. */
  lemma RightFacingNeverAdvances(p: Pose, pick: Choice, wander: bool, wanderPick: Choice)
    requires OnLeg(p) && Heading(p.moving) == Some(Right)
    ensures Patrol(p, pick, wander, wanderPick).box == p.box
  {
  }

  /**
   * One obstacle of the bounce loops: an enemy overlapping it while moving
   * into it along its axis is snapped 5px clear and picks a new direction;
   * the wall loop (`restore`) then puts it back where it stood before the
   * frame's move, undoing the snap.
   */
  function BounceOne(p: Pose, o: Rect, pick: Choice, restore: bool): (q: Pose)
    ensures q.box.width == p.box.width && q.box.height == p.box.height && q.prevX == p.prevX && q.prevY == p.prevY
    ensures !Overlaps(p.box, o) ==> q == p
  {
    if !Overlaps(p.box, o) then p
    else
      var b := p.box;
      var q :=
        if p.moving.up && b.Bottom() > o.Bottom() then Turn(p.(box := b.(y := o.Bottom() + Clearance)), pick)
        else if p.moving.down && b.Top() < o.Top() then Turn(p.(box := b.(y := o.Top() - b.height - Clearance)), pick)
        else if p.moving.left && b.Right() > o.Right() then Turn(p.(box := b.(x := o.Right() + Clearance)), pick)
        else if p.moving.right && b.Left() < o.Left() then Turn(p.(box := b.(x := o.Left() - b.width - Clearance)), pick)
        else p;
      if restore then q.(box := q.box.(x := q.prevX, y := q.prevY)) else q
  }

  /** The bounce loop over a list of obstacles, one random pick per obstacle. */
  function Bounce(p: Pose, os: seq<Rect>, picks: seq<Choice>, restore: bool): Pose
    requires |picks| == |os|
    decreases |os|
  {
    if os == [] then p else Bounce(BounceOne(p, os[0], picks[0], restore), os[1..], picks[1..], restore)
  }

  /** The four tests of the bounce loops: the enemy moves into the obstacle along its axis. */
  predicate MovingInto(p: Pose, o: Rect) {
    (p.moving.up && p.box.Bottom() > o.Bottom()) || (p.moving.down && p.box.Top() < o.Top()) ||
    (p.moving.left && p.box.Right() > o.Right()) || (p.moving.right && p.box.Left() < o.Left())
  }

  /**
   * Without an overlap nothing happens; with an overlap but no movement into
   * the obstacle only the wall loop's restore of prevX/prevY acts.
   */
  lemma BounceWithoutSnap(p: Pose, o: Rect, pick: Choice, restore: bool)
    requires !Overlaps(p.box, o) || !MovingInto(p, o)
    ensures var q := BounceOne(p, o, pick, restore);
      q.moving == p.moving && q.startX == p.startX && q.startY == p.startY &&
      q.prevX == p.prevX && q.prevY == p.prevY &&
      (!Overlaps(p.box, o) || !restore ==> q.box == p.box) &&
      (Overlaps(p.box, o) && restore ==> q.box == p.box.(x := p.prevX, y := p.prevY))
  {
  }

  /**
   * Moving up into an obstacle: the enemy's top ends 5px below the obstacle,
   * it heads the picked way on a leg anchored there; the wall loop then puts
   * the box back at prevX/prevY.
   */
  lemma BounceUp(p: Pose, o: Rect, pick: Choice, restore: bool)
    requires Overlaps(p.box, o) && p.moving.up && p.box.Bottom() > o.Bottom()
    ensures var q := BounceOne(p, o, pick, restore);
      q.moving == FlagsFor(ChosenDir(pick)) && q.startX == p.box.x && q.startY == o.Bottom() + Clearance &&
      q.prevX == p.prevX && q.prevY == p.prevY && q.box.width == p.box.width && q.box.height == p.box.height &&
      (!restore ==> q.box.x == p.box.x && q.box.Top() - o.Bottom() == Clearance && !Overlaps(q.box, o)) &&
      (restore ==> q.box.x == p.prevX && q.box.y == p.prevY)
  {
  }

  /** Moving down into an obstacle: the enemy's bottom ends 5px above it. */
  lemma BounceDown(p: Pose, o: Rect, pick: Choice, restore: bool)
    requires Overlaps(p.box, o) && !(p.moving.up && p.box.Bottom() > o.Bottom())
    requires p.moving.down && p.box.Top() < o.Top()
    ensures var q := BounceOne(p, o, pick, restore);
      q.moving == FlagsFor(ChosenDir(pick)) && q.startX == p.box.x && q.startY == o.Top() - p.box.height - Clearance &&
      q.prevX == p.prevX && q.prevY == p.prevY && q.box.width == p.box.width && q.box.height == p.box.height &&
      (!restore ==> q.box.x == p.box.x && o.Top() - q.box.Bottom() == Clearance && !Overlaps(q.box, o)) &&
      (restore ==> q.box.x == p.prevX && q.box.y == p.prevY)
  {
  }

  /** Moving left into an obstacle: the enemy's left edge ends 5px right of it. */
  lemma BounceLeft(p: Pose, o: Rect, pick: Choice, restore: bool)
    requires Overlaps(p.box, o) && !(p.moving.up && p.box.Bottom() > o.Bottom())
    requires !(p.moving.down && p.box.Top() < o.Top()) && p.moving.left && p.box.Right() > o.Right()
    ensures var q := BounceOne(p, o, pick, restore);
      q.moving == FlagsFor(ChosenDir(pick)) && q.startX == o.Right() + Clearance && q.startY == p.box.y &&
      q.prevX == p.prevX && q.prevY == p.prevY && q.box.width == p.box.width && q.box.height == p.box.height &&
      (!restore ==> q.box.y == p.box.y && q.box.Left() - o.Right() == Clearance && !Overlaps(q.box, o)) &&
      (restore ==> q.box.x == p.prevX && q.box.y == p.prevY)
  {
  }

  /** Moving right into an obstacle: the enemy's right edge ends 5px left of it. */
  lemma BounceRight(p: Pose, o: Rect, pick: Choice, restore: bool)
    requires Overlaps(p.box, o) && !(p.moving.up && p.box.Bottom() > o.Bottom())
    requires !(p.moving.down && p.box.Top() < o.Top()) && !(p.moving.left && p.box.Right() > o.Right())
    requires p.moving.right && p.box.Left() < o.Left()
    ensures var q := BounceOne(p, o, pick, restore);
      q.moving == FlagsFor(ChosenDir(pick)) && q.startX == o.Left() - p.box.width - Clearance && q.startY == p.box.y &&
      q.prevX == p.prevX && q.prevY == p.prevY && q.box.width == p.box.width && q.box.height == p.box.height &&
      (!restore ==> q.box.y == p.box.y && o.Left() - q.box.Right() == Clearance && !Overlaps(q.box, o)) &&
      (restore ==> q.box.x == p.prevX && q.box.y == p.prevY)
  {
  }

  /** At a wall the snap is always overridden by the restore of prevX/prevY. */
  lemma WallSnapOverridden(p: Pose, o: Rect, pick: Choice)
    requires Overlaps(p.box, o)
    ensures BounceOne(p, o, pick, true).box == p.box.(x := p.prevX, y := p.prevY)
  {
  }

  /** Bouncing never resizes an enemy nor touches its remembered position. */
  lemma {:induction false} BounceKeepsSizeAndPrev(p: Pose, os: seq<Rect>, picks: seq<Choice>, restore: bool)
    requires |picks| == |os|
    ensures var q := Bounce(p, os, picks, restore);
      q.box.width == p.box.width && q.box.height == p.box.height && q.prevX == p.prevX && q.prevY == p.prevY
    decreases |os|
  {
    if os != [] {
      BounceKeepsSizeAndPrev(BounceOne(p, os[0], picks[0], restore), os[1..], picks[1..], restore);
    }
  }

  /**
   * After the whole wall loop the enemy is either where it was or back at
   * its position before the frame's move, never at a snapped position.
   */
  lemma {:induction false} WallBounceEndsAtStartOrPrev(p: Pose, os: seq<Rect>, picks: seq<Choice>)
    requires |picks| == |os|
    ensures var q := Bounce(p, os, picks, true);
      q.box == p.box || q.box == p.box.(x := p.prevX, y := p.prevY)
    decreases |os|
  {
    if os != [] {
      var p1 := BounceOne(p, os[0], picks[0], true);
      assert p1.prevX == p.prevX && p1.prevY == p.prevY;
      WallBounceEndsAtStartOrPrev(p1, os[1..], picks[1..]);
    }
  }

  class Enemy {
    var x: real
    var y: real
    var width: real
    var height: real
    var alive: bool
    var health: int
    var moving: Flags
    var startX: real
    var startY: real
    var prevX: real
    var prevY: real

    /** A 40x40 live enemy with 10 health; `dir` None leaves every flag clear. */
    constructor (x0: real, y0: real, dir: Option<Dir>)
      ensures Box() == Rect(x0, y0, EnemySize, EnemySize) && alive && health == StartHealth
      ensures moving == (if dir.Some? then FlagsFor(dir.value) else Still)
      ensures startX == x0 && startY == y0 && prevX == x0 && prevY == y0
      ensures OnLeg(State())
    {
      x, y := x0, y0;
      width, height := EnemySize, EnemySize;
      alive := true;
      health := StartHealth;
      startX, startY := x0, y0;
      prevX, prevY := x0, y0;
      moving := if dir.Some? then FlagsFor(dir.value) else Still;
    }

    function Box(): Rect reads this {
      Rect(x, y, width, height)
    }

    function State(): Pose reads this {
      Pose(Box(), moving, startX, startY, prevX, prevY)
    }

    function Life(): Vitals reads this {
      Vitals(Box(), alive, health)
    }

    function Seen(): Sight reads this {
      Sight(Box(), alive, moving)
    }

    method ClearDirection()
      modifies this`moving
      ensures moving == Still
    {
      moving := Still;
    }

    method NewDirection(pick: Choice)
      modifies this`moving, this`startX, this`startY
      ensures State() == Turn(old(State()), pick)
    {
      ClearDirection();
      startX, startY := x, y;
      match pick
      case 0 => moving := moving.(up := true);
      case 1 => moving := moving.(down := true);
      case 2 => moving := moving.(left := true);
      case 3 => moving := moving.(right := true);
    }

    method Knockback(force: real, playerFacing: Flags, c: Canvas)
      modifies this`x, this`y
      ensures (x, y) == Motion.Knockback(old(x), old(y), playerFacing, force, c)
    {
      if playerFacing.up {
        y := y - force;
        if y < Motion.Margin { y := Motion.Margin; }
      } else if playerFacing.down {
        y := y + force;
        if y > c.height - Motion.Margin { y := c.height - Motion.Margin; }
      } else if playerFacing.left {
        x := x - force;
        if x < Motion.Margin { x := Motion.Margin; }
      } else if playerFacing.right {
        x := x + force;
        if x > c.width - Motion.Margin { x := c.width - Motion.Margin; }
      }
    }

    method Die()
      modifies this`alive, this`x, this`y, this`width, this`height
      ensures !alive && Box() == Shrunk(old(Box()))
    {
      alive := false;
      x := x + width / 4.0;
      y := y + height / 4.0;
      width := width / 2.0;
      height := height / 2.0;
    }

    /** Damage, then knockback, then death, and only while alive. */
    method TakeDamage(damage: int, playerFacing: Flags, c: Canvas)
      modifies this`health, this`x, this`y, this`alive, this`width, this`height
      ensures Life() == Hit(old(Life()), damage, playerFacing, c)
    {
      if alive {
        health := health - damage;
        Knockback(HitKnockback, playerFacing, c);
        if health <= 0 {
          Die();
        }
      }
    }

    /** The patrol branch of render, for a live enemy; a dead one stays put. */
    method PatrolStep(pick: Choice, wander: bool, wanderPick: Choice)
      modifies this`x, this`y, this`moving, this`startX, this`startY, this`prevX, this`prevY
      ensures State() == if old(alive) then Patrol(old(State()), pick, wander, wanderPick) else old(State())
    {
      if alive {
        prevX, prevY := x, y;
        if moving.up {
          if y > startY - WalkRange { y := y - EnemySpeed; } else { NewDirection(pick); }
          if wander { NewDirection(wanderPick); }
        } else if moving.down {
          if y < startY + WalkRange { y := y + EnemySpeed; } else { NewDirection(pick); }
          if wander { NewDirection(wanderPick); }
        } else if moving.left {
          if x > startX - WalkRange { x := x - EnemySpeed; } else { NewDirection(pick); }
          if wander { NewDirection(wanderPick); }
        } else if moving.right {
          if x > startX + WalkRange { x := x + EnemySpeed; } else { NewDirection(pick); }
          if wander { NewDirection(wanderPick); }
        }
      }
    }

    /** The bounce against one obstacle; `restore` for walls, not for doors. */
    method BounceOff(o: Rect, pick: Choice, restore: bool)
      modifies this`x, this`y, this`moving, this`startX, this`startY
      ensures State() == BounceOne(old(State()), o, pick, restore)
    {
      if Overlaps(Box(), o) {
        if moving.up && Box().Bottom() > o.Bottom() {
          y := o.Bottom() + Clearance;
          NewDirection(pick);
        } else if moving.down && Box().Top() < o.Top() {
          y := o.Top() - height - Clearance;
          NewDirection(pick);
        } else if moving.left && Box().Right() > o.Right() {
          x := o.Right() + Clearance;
          NewDirection(pick);
        } else if moving.right && Box().Left() < o.Left() {
          x := o.Left() - width - Clearance;
          NewDirection(pick);
        }
        if restore {
          x, y := prevX, prevY;
        }
      }
    }

    /**
     * The wall loop (restore) or the door loop of render, one random pick per
     * obstacle. It runs for dead enemies too.
     */
    method BounceOffAll(os: seq<Rect>, picks: seq<Choice>, restore: bool)
      requires |picks| == |os|
      modifies this`x, this`y, this`moving, this`startX, this`startY
      ensures State() == Bounce(old(State()), os, picks, restore)
    {
      var i := 0;
      while i < |os|
        invariant 0 <= i <= |os|
        invariant Bounce(old(State()), os, picks, restore) == Bounce(State(), os[i..], picks[i..], restore)
      {
        BounceOff(os[i], picks[i], restore);
        assert os[i..][1..] == os[i + 1..] && picks[i..][1..] == picks[i + 1..];
        i := i + 1;
      }
    }

    /**
     * One frame of render in the patrol state: the patrol step, then the
     * wall loop, then the door loop (the doors given by their rectangles).
     */
    method PatrolFrame(pick: Choice, wander: bool, wanderPick: Choice,
                       walls: seq<Rect>, wallPicks: seq<Choice>, doors: seq<Rect>, doorPicks: seq<Choice>)
      requires |wallPicks| == |walls| && |doorPicks| == |doors|
      modifies this`x, this`y, this`moving, this`startX, this`startY, this`prevX, this`prevY
      ensures State() == Frame(old(State()), old(alive), pick, wander, wanderPick, walls, wallPicks, doors, doorPicks)
    {
      PatrolStep(pick, wander, wanderPick);
      BounceOffAll(walls, wallPicks, true);
      BounceOffAll(doors, doorPicks, false);
    }
  }

  /** A patrol frame of render: a live enemy patrols, then every enemy bounces off walls and doors. */
  function Frame(p: Pose, alive: bool, pick: Choice, wander: bool, wanderPick: Choice,
                 walls: seq<Rect>, wallPicks: seq<Choice>, doors: seq<Rect>, doorPicks: seq<Choice>): Pose
    requires |wallPicks| == |walls| && |doorPicks| == |doors|
  {
    var moved := if alive then Patrol(p, pick, wander, wanderPick) else p;
    Bounce(Bounce(moved, walls, wallPicks, true), doors, doorPicks, false)
  }

  /**
   * A patrol frame keeps the enemy's size, and a live enemy remembers where
   * it stood when the frame began. After the wall loop a live enemy is where
   * its step took it or back where it began the frame.
   */
  lemma FrameRemembersStart(p: Pose, pick: Choice, wander: bool, wanderPick: Choice,
                            walls: seq<Rect>, wallPicks: seq<Choice>, doors: seq<Rect>, doorPicks: seq<Choice>)
    requires |wallPicks| == |walls| && |doorPicks| == |doors|
    ensures var q := Frame(p, true, pick, wander, wanderPick, walls, wallPicks, doors, doorPicks);
      q.box.width == p.box.width && q.box.height == p.box.height && q.prevX == p.box.x && q.prevY == p.box.y
    ensures var moved := Patrol(p, pick, wander, wanderPick);
      var w := Bounce(moved, walls, wallPicks, true);
      w.box == moved.box || (w.box.x == p.box.x && w.box.y == p.box.y)
  {
    var moved := Patrol(p, pick, wander, wanderPick);
    var w := Bounce(moved, walls, wallPicks, true);
    BounceKeepsSizeAndPrev(moved, walls, wallPicks, true);
    BounceKeepsSizeAndPrev(w, doors, doorPicks, false);
    WallBounceEndsAtStartOrPrev(moved, walls, wallPicks);
  }

  /** The rectangles of a list of enemies, in order. */
  function Boxes(es: seq<Enemy>): (bs: seq<Rect>)
    reads es
    ensures |bs| == |es| && forall i :: 0 <= i < |es| ==> bs[i] == es[i].Box()
  {
    if es == [] then [] else [es[0].Box()] + Boxes(es[1..])
  }

  /** What the contact test sees of each enemy of a list, in order. */
  function Sights(es: seq<Enemy>): (vs: seq<Sight>)
    reads es
    ensures |vs| == |es| && forall i :: 0 <= i < |es| ==> vs[i] == es[i].Seen()
  {
    if es == [] then [] else [es[0].Seen()] + Sights(es[1..])
  }
}
