/**
 * The player's weapon and shield hitboxes: where they sit for each facing,
 * and what they do to the enemies they overlap.
 */
module Weapons {
  import opened Wrappers
  import opened Geometry
  import opened Facing
  import opened Enemies

  /** How far the weapon reaches out from the player. */
  const WeaponReach: real := 30.0
  /** How far the shield stands out from the player. */
  const ShieldReach: real := 15.0
  /** How wide the shield spans along the player's facing edge. */
  const ShieldSpan: real := 30.0
  /** The shield pushes enemies this far (when it is active). */
  const ShieldPush: real := 20.0

  /**
   * The weapon hitbox for the player's facing: against the facing edge,
   * 30px out, 15px wide, a quarter of the player's size in from its corner.
   * With no flag set it stays where it was.
   */
  function WeaponPlacement(prev: Rect, p: Rect, f: Flags): (r: Rect)
    ensures Heading(f) == None ==> r == prev
    ensures Heading(f) == Some(Up) ==>
      r.Bottom() == p.Top() && r.Top() == p.Top() - WeaponReach && r.Left() == p.Left() + p.width / 4.0
    ensures Heading(f) == Some(Down) ==>
      r.Top() == p.Bottom() && r.Bottom() == p.Bottom() + WeaponReach && r.Left() == p.Left() + p.width / 4.0
    ensures Heading(f) == Some(Left) ==>
      r.Right() == p.Left() && r.Left() == p.Left() - WeaponReach && r.Top() == p.Top() + p.height / 4.0
    ensures Heading(f) == Some(Right) ==>
      r.Left() == p.Right() && r.Right() == p.Right() + WeaponReach && r.Top() == p.Top() + p.height / 4.0
    ensures Heading(f).Some? ==> !Overlaps(r, p) && 15.0 <= r.width && 15.0 <= r.height && r.width + r.height == 45.0
  {
    if f.up then Rect(p.x + p.width / 4.0, p.Top() - WeaponReach, 15.0, 30.0)
    else if f.down then Rect(p.x + p.width / 4.0, p.Bottom(), 15.0, 30.0)
    else if f.left then Rect(p.Left() - WeaponReach, p.y + p.height / 4.0, 30.0, 15.0)
    else if f.right then Rect(p.Right(), p.y + p.height / 4.0, 30.0, 15.0)
    else prev
  }

  /**
   * The shield hitbox for the player's facing: against the facing edge,
   * 15px out and 30px along it, level with the player's corner.
   */
  function ShieldPlacement(prev: Rect, p: Rect, f: Flags): (r: Rect)
    ensures Heading(f) == None ==> r == prev
    ensures Heading(f) == Some(Up) ==>
      r.Bottom() == p.Top() && r.Top() == p.Top() - ShieldReach &&
      r.Left() == p.Left() && r.Right() == p.Left() + ShieldSpan
    ensures Heading(f) == Some(Down) ==>
      r.Top() == p.Bottom() && r.Bottom() == p.Bottom() + ShieldReach &&
      r.Left() == p.Left() && r.Right() == p.Left() + ShieldSpan
    ensures Heading(f) == Some(Left) ==>
      r.Right() == p.Left() && r.Left() == p.Left() - ShieldReach &&
      r.Top() == p.Top() && r.Bottom() == p.Top() + ShieldSpan
    ensures Heading(f) == Some(Right) ==>
      r.Left() == p.Right() && r.Right() == p.Right() + ShieldReach &&
      r.Top() == p.Top() && r.Bottom() == p.Top() + ShieldSpan
    ensures Heading(f).Some? ==> !Overlaps(r, p)
  {
    if f.up then Rect(p.x, p.Top() - ShieldReach, ShieldSpan, ShieldReach)
    else if f.down then Rect(p.x, p.Bottom(), ShieldSpan, ShieldReach)
    else if f.left then Rect(p.Left() - ShieldReach, p.y, ShieldReach, ShieldSpan)
    else if f.right then Rect(p.Right(), p.y, ShieldReach, ShieldSpan)
    else prev
  }

  /** The first rectangle the hitbox overlaps, or -1 when there is none. */
  function FirstOverlap(box: Rect, bs: seq<Rect>): (k: int)
    ensures -1 <= k < |bs|
    ensures k >= 0 ==> Overlaps(box, bs[k])
    ensures forall j :: 0 <= j < |bs| && (k < 0 || j < k) ==> !Overlaps(box, bs[j])
    decreases |bs|
  {
    if bs == [] then -1
    else if Overlaps(box, bs[0]) then 0
    else
      var k := FirstOverlap(box, bs[1..]);
      if k < 0 then -1 else k + 1
  }

  class Weapon {
    var x: real
    var y: real
    var width: real
    var height: real
    const damage: int
    var active: bool

    /** Created inactive, 30x15, against the right edge of the player `p`. */
    constructor (damage: int, p: Rect)
      ensures Box() == Rect(p.Right(), p.y + p.height / 4.0, 30.0, 15.0) && this.damage == damage && !active
    {
      x, y := p.Right(), p.y + p.height / 4.0;
      width, height := 30.0, 15.0;
      this.damage := damage;
      active := false;
    }

    function Box(): Rect
      reads this
    {
      Rect(x, y, width, height)
    }

    /** The hitbox for the player `p` facing `playerFacing`. */
    method Place(p: Rect, playerFacing: Flags)
      modifies this`x, this`y, this`width, this`height
      ensures Box() == WeaponPlacement(old(Box()), p, playerFacing)
    {
      if playerFacing.up {
        x, y := p.x + p.width / 4.0, p.Top() - WeaponReach;
        height, width := 30.0, 15.0;
      } else if playerFacing.down {
        x, y := p.x + p.width / 4.0, p.Bottom();
        height, width := 30.0, 15.0;
      } else if playerFacing.left {
        x, y := p.Left() - WeaponReach, p.y + p.height / 4.0;
        height, width := 15.0, 30.0;
      } else if playerFacing.right {
        x, y := p.Right(), p.y + p.height / 4.0;
        height, width := 15.0, 30.0;
      }
    }

    /**
     * An active weapon hits the first enemy it overlaps, once: that enemy
     * takes the weapon's damage, the weapon goes inactive, and no other
     * enemy is touched. `hit` is the position of the enemy hit, or -1.
     */
    method Strike(playerFacing: Flags, enemies: seq<Enemy>, c: Canvas) returns (ghost hit: int)
      modifies this`active, enemies`health, enemies`x, enemies`y, enemies`alive, enemies`width, enemies`height
      ensures hit == if old(active) then FirstOverlap(Box(), old(Boxes(enemies))) else -1
      ensures active <==> old(active) && hit < 0
      ensures hit >= 0 ==> enemies[hit].Life() == Hit(old(enemies[hit].Life()), damage, playerFacing, c)
      ensures forall e :: e in enemies && (hit < 0 || e != enemies[hit]) ==> unchanged(e)
    {
      ghost var box, bs := Box(), Boxes(enemies);
      hit := -1;
      var i := 0;
      while i < |enemies|
        invariant 0 <= i <= |enemies| && -1 <= hit < i
        invariant Box() == box
        invariant hit < 0 ==> active == old(active) && forall e :: e in enemies ==> unchanged(e)
        invariant hit < 0 && old(active) ==> forall k :: 0 <= k < i ==> !Overlaps(box, bs[k])
        invariant hit >= 0 ==> (!active && old(active) && Overlaps(box, bs[hit]) &&
          forall k :: 0 <= k < hit ==> !Overlaps(box, bs[k]))
        invariant hit >= 0 ==> enemies[hit].Life() == Hit(old(enemies[hit].Life()), damage, playerFacing, c)
        invariant forall e :: e in enemies && (hit < 0 || e != enemies[hit]) ==> unchanged(e)
      {
        var enemy := enemies[i];
        if active {
          assert enemy in enemies && hit < 0;
          assert unchanged(enemy) && old(enemy.Box()) == bs[i];
          if Overlaps(Box(), enemy.Box()) {
            enemy.TakeDamage(damage, playerFacing, c);
            active := false;
            hit := i;
          }
        }
        i := i + 1;
      }
    }

    /**
     * Places the hitbox for the player `p` facing `playerFacing`, then lets
     * an active weapon hit the first enemy it overlaps.
     */
    method Render(p: Rect, playerFacing: Flags, enemies: seq<Enemy>, c: Canvas) returns (ghost hit: int)
      modifies this`x, this`y, this`width, this`height, this`active
      modifies enemies`health, enemies`x, enemies`y, enemies`alive, enemies`width, enemies`height
      ensures Box() == WeaponPlacement(old(Box()), p, playerFacing)
      ensures hit == if old(active) then FirstOverlap(Box(), old(Boxes(enemies))) else -1
      ensures active <==> old(active) && hit < 0
      ensures hit >= 0 ==> enemies[hit].Life() == Hit(old(enemies[hit].Life()), damage, playerFacing, c)
      ensures forall e :: e in enemies && (hit < 0 || e != enemies[hit]) ==> unchanged(e)
    {
      Place(p, playerFacing);
      hit := Strike(playerFacing, enemies, c);
    }
  }

  class Shield {
    var x: real
    var y: real
    var width: real
    var height: real
    const blockPower: int
    /** Never set by the game: it starts (as undefined) false and nothing assigns it. */
    var active: bool

    constructor (blockPower: int, p: Rect)
      ensures Box() == Rect(p.Right(), p.y + p.height / 4.0, 30.0, 15.0) && this.blockPower == blockPower && !active
    {
      x, y := p.Right(), p.y + p.height / 4.0;
      width, height := 30.0, 15.0;
      this.blockPower := blockPower;
      active := false;
    }

    function Box(): Rect
      reads this
    {
      Rect(x, y, width, height)
    }

    /**
     * Places the hitbox; an active shield would push every enemy it overlaps
     * 20px along the player's facing without damaging it. Since `active` is
     * never set, no enemy changes at all.
     */
    method Render(p: Rect, playerFacing: Flags, enemies: seq<Enemy>, c: Canvas)
      modifies this`x, this`y, this`width, this`height, set e | e in enemies
      ensures Box() == ShieldPlacement(old(Box()), p, playerFacing)
      ensures !active ==> forall e :: e in enemies ==> unchanged(e)
      ensures forall e :: e in enemies ==>
        e.alive == old(e.alive) && e.health == old(e.health) && e.width == old(e.width) && e.height == old(e.height) &&
        e.moving == old(e.moving) && e.startX == old(e.startX) && e.startY == old(e.startY) &&
        e.prevX == old(e.prevX) && e.prevY == old(e.prevY)
    {
      if playerFacing.up {
        x, y := p.x, p.Top() - ShieldReach;
        height, width := ShieldReach, ShieldSpan;
      } else if playerFacing.down {
        x, y := p.x, p.Bottom();
        height, width := ShieldReach, ShieldSpan;
      } else if playerFacing.left {
        x, y := p.Left() - ShieldReach, p.y;
        height, width := ShieldSpan, ShieldReach;
      } else if playerFacing.right {
        x, y := p.Right(), p.y;
        height, width := ShieldSpan, ShieldReach;
      }
      var i := 0;
      while i < |enemies|
        invariant 0 <= i <= |enemies|
        invariant Box() == ShieldPlacement(old(Box()), p, playerFacing)
        invariant !active ==> forall e :: e in enemies ==> unchanged(e)
        invariant forall e :: e in enemies ==>
          e.alive == old(e.alive) && e.health == old(e.health) && e.width == old(e.width) && e.height == old(e.height) &&
          e.moving == old(e.moving) && e.startX == old(e.startX) && e.startY == old(e.startY) &&
          e.prevX == old(e.prevX) && e.prevY == old(e.prevY)
      {
        var enemy := enemies[i];
        if active {
          if Overlaps(Box(), enemy.Box()) {
            enemy.Knockback(ShieldPush, playerFacing, c);
          }
        }
        i := i + 1;
      }
    }
  }
}
