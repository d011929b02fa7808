/**
 * The player: facing, damage, knockback, the keyboard step, and the
 * per-frame collision pass against the current scene's walls, enemies and
 * doors.
 */
module Players {
  import opened Wrappers
  import opened Geometry
  import opened Facing
  import opened Motion
  import opened Enemies
  import opened Rooms
  import opened SceneManagers
  import opened Weapons

  const PlayerSize: real := 30.0
  const StartGold: int := 0
  const StartPlayerHealth: int := 100
  /** Damage a live enemy deals per frame of contact. */
  const ContactDamage: int := 5
  /** Gold a collected corpse is worth. */
  const CorpseGold: int := 2
  /** How far an enemy's contact throws the player. */
  const PlayerKnockback: real := 50.0
  /** Where the player lands after walking through a previous-room door... */
  const PrevEntryX: real := 415.0
  /** ...and after walking through a next-room door. */
  const NextEntryX: real := 55.0
  const EntryY: real := 235.0

  /** The part of the player an enemy contact changes. */
  datatype Status = Status(box: Rect, health: int, gold: int)

  /* ---------------- walls ---------------- */

  /** The player after being pushed out of every wall it overlaps, in list order. */
  function WallPhase(b: Rect, f: Flags, walls: seq<Rect>): (r: Rect)
    ensures (forall k :: 0 <= k < |walls| ==> !Overlaps(b, walls[k])) ==> r == b
    decreases |walls|
  {
    if walls == [] then b
    else WallPhase(if Overlaps(b, walls[0]) then PushOut(b, walls[0], f) else b, f, walls[1..])
  }

  /** One step of the wall pass, taken at wall `i`. */
  lemma WallPhaseAt(b: Rect, f: Flags, walls: seq<Rect>, i: nat)
    requires i < |walls|
    ensures WallPhase(b, f, walls[i..]) ==
      WallPhase(if Overlaps(b, walls[i]) then PushOut(b, walls[i], f) else b, f, walls[i + 1..])
  {
    assert walls[i..][0] == walls[i] && walls[i..][1..] == walls[i + 1..];
  }

  /** With no movement flag set, walls never move the player. */
  lemma {:induction false} WallPhaseStill(b: Rect, walls: seq<Rect>)
    ensures WallPhase(b, Still, walls) == b
    decreases |walls|
  {
    if walls != [] {
      WallPhaseStill(b, walls[1..]);
    }
  }

  /**
   * Walls move the player only along its movement axis and never resize it.
   */
  lemma {:induction false} WallPhaseAxis(b: Rect, f: Flags, walls: seq<Rect>)
    ensures WallPhase(b, f, walls).width == b.width && WallPhase(b, f, walls).height == b.height
    ensures Heading(f) in {Some(Up), Some(Down)} ==> WallPhase(b, f, walls).x == b.x
    ensures Heading(f) in {Some(Left), Some(Right)} ==> WallPhase(b, f, walls).y == b.y
    decreases |walls|
  {
    if walls != [] {
      WallPhaseAxis(if Overlaps(b, walls[0]) then PushOut(b, walls[0], f) else b, f, walls[1..]);
    }
  }

  /**
   * Against a single wall it overlaps, the player's leading edge ends flush
   * with the wall and they no longer overlap.
   */
  lemma WallPhaseFlush(b: Rect, f: Flags, wall: Rect)
    requires Overlaps(b, wall)
    ensures Heading(f) == Some(Up) ==> WallPhase(b, f, [wall]).y == wall.Bottom()
    ensures Heading(f) == Some(Down) ==> WallPhase(b, f, [wall]).y == wall.Top() - b.height
    ensures Heading(f) == Some(Left) ==> WallPhase(b, f, [wall]).x == wall.Right()
    ensures Heading(f) == Some(Right) ==> WallPhase(b, f, [wall]).x == wall.Left() - b.width
    ensures Heading(f).Some? ==> !Overlaps(WallPhase(b, f, [wall]), wall)
  {
    assert [wall][1..] == [];
  }

  /* ---------------- enemies ---------------- */

  /** A live enemy's contact: 5 damage, then a 50px knockback along the enemy's facing. */
  function Hurt(s: Status, enemyFacing: Flags, c: Canvas): (t: Status)
    ensures t.health == s.health - ContactDamage && t.gold == s.gold
    ensures t.box.width == s.box.width && t.box.height == s.box.height
    ensures (t.box.x, t.box.y) == Knockback(s.box.x, s.box.y, enemyFacing, PlayerKnockback, c)
  {
    var p := Knockback(s.box.x, s.box.y, enemyFacing, PlayerKnockback, c);
    Status(s.box.(x := p.0, y := p.1), s.health - ContactDamage, s.gold)
  }

  /** An overlapped corpse is collected: it pays gold and leaves the list. */
  predicate Collects(s: Status, v: Sight) {
    Overlaps(s.box, v.box) && !v.alive
  }

  /**
   * One enemy of the contact pass, as the player sees it: an overlapped corpse
   * pays 2 gold, an overlapped live enemy hurts the player, any other leaves
   * it be.
   */
  function Meet(s: Status, v: Sight, c: Canvas): (t: Status)
    ensures !Overlaps(s.box, v.box) ==> t == s
    ensures Collects(s, v) ==> t == s.(gold := s.gold + CorpseGold)
    ensures Overlaps(s.box, v.box) && v.alive ==> t == Hurt(s, v.moving, c)
  {
    if !Overlaps(s.box, v.box) then s
    else if !v.alive then s.(gold := s.gold + CorpseGold)
    else Hurt(s, v.moving, c)
  }

  /**
   * The enemy-contact pass over the scene's enemy list `es`, in order, where
   * `vs` is what each enemy looks like (the pass itself changes no enemy):
   * returns the player and the list with the collected corpses taken out.
   */
  function Contact(s: Status, es: seq<Enemy>, vs: seq<Sight>, c: Canvas): (Status, seq<Enemy>)
    requires |vs| == |es|
    decreases |es|
  {
    if es == [] then (s, [])
    else
      var r := Contact(Meet(s, vs[0], c), es[1..], vs[1..], c);
      (r.0, if Collects(s, vs[0]) then r.1 else [es[0]] + r.1)
  }

  /**
   * One step of the contact pass at element `j`, with `kept` the enemies the
   * pass has kept so far: after the player meets enemy `j`, the list is
   * `kept` plus the rest (enemy `j` spliced out if it was collected), and
   * what the pass still does from there finishes the whole pass.
   */
  lemma ContactAt(s: Status, es: seq<Enemy>, vs: seq<Sight>, j: nat, kept: seq<Enemy>, c: Canvas)
    requires |vs| == |es| && j < |es|
    ensures var t, rest := Meet(s, vs[j], c), Contact(Meet(s, vs[j], c), es[j + 1..], vs[j + 1..], c);
      Contact(s, es[j..], vs[j..], c).0 == rest.0 &&
      if Collects(s, vs[j]) then
        kept + Contact(s, es[j..], vs[j..], c).1 == kept + rest.1 &&
        (kept + es[j..])[..|kept|] + (kept + es[j..])[|kept| + 1..] == kept + es[j + 1..]
      else
        kept + Contact(s, es[j..], vs[j..], c).1 == (kept + [es[j]]) + rest.1 &&
        kept + es[j..] == (kept + [es[j]]) + es[j + 1..]
  {
    assert es[j..] == [es[j]] + es[j + 1..] && vs[j..] == [vs[j]] + vs[j + 1..];
    assert es[j..][1..] == es[j + 1..] && vs[j..][1..] == vs[j + 1..];
    assert (kept + es[j..])[..|kept|] == kept;
    assert (kept + es[j..])[|kept| + 1..] == es[j + 1..];
  }

  /** `a` is `b` with some elements left out and the rest in the same order. */
  predicate Embeds(a: seq<Enemy>, b: seq<Enemy>)
    decreases |b|
  {
    if a == [] then true
    else if b == [] then false
    else (a[0] == b[0] && Embeds(a[1..], b[1..])) || Embeds(a, b[1..])
  }

  /**
   * Contact never removes a live enemy and never adds one: the kept list is
   * the old one with some corpses taken out.
   */
  lemma {:induction false} ContactSparesLive(s: Status, es: seq<Enemy>, vs: seq<Sight>, c: Canvas)
    requires |vs| == |es|
    ensures multiset(Contact(s, es, vs, c).1) <= multiset(es)
    ensures forall i :: 0 <= i < |es| && vs[i].alive ==> es[i] in Contact(s, es, vs, c).1
    decreases |es|
  {
    if es != [] {
      assert es == [es[0]] + es[1..];
      ContactSparesLive(Meet(s, vs[0], c), es[1..], vs[1..], c);
      forall i | 1 <= i < |es|
        ensures es[i] == es[1..][i - 1] && vs[i] == vs[1..][i - 1]
      {
      }
    }
  }

  /** The enemies Contact keeps stay in their old order. */
  lemma {:induction false} ContactKeepsOrder(s: Status, es: seq<Enemy>, vs: seq<Sight>, c: Canvas)
    requires |vs| == |es|
    ensures Embeds(Contact(s, es, vs, c).1, es)
    decreases |es|
  {
    if es != [] {
      var r := Contact(Meet(s, vs[0], c), es[1..], vs[1..], c);
      ContactKeepsOrder(Meet(s, vs[0], c), es[1..], vs[1..], c);
      if !Collects(s, vs[0]) {
        assert ([es[0]] + r.1)[0] == es[0] && ([es[0]] + r.1)[1..] == r.1;
      }
    }
  }

  /** Without a corpse in the list, Contact keeps every enemy. */
  lemma {:induction false} ContactWithoutCorpses(s: Status, es: seq<Enemy>, vs: seq<Sight>, c: Canvas)
    requires |vs| == |es|
    requires forall i :: 0 <= i < |vs| ==> vs[i].alive
    ensures Contact(s, es, vs, c).1 == es
    decreases |es|
  {
    if es != [] {
      assert vs[0].alive;
      forall i | 0 <= i < |vs[1..]|
        ensures vs[1..][i].alive
      {
        assert vs[1..][i] == vs[i + 1];
      }
      ContactWithoutCorpses(Meet(s, vs[0], c), es[1..], vs[1..], c);
      assert es == [es[0]] + es[1..];
    }
  }

  /**
   * Each corpse collected pays exactly 2 gold, contact never heals, and the
   * player keeps its size.
   */
  lemma {:induction false} ContactPays(s: Status, es: seq<Enemy>, vs: seq<Sight>, c: Canvas)
    requires |vs| == |es|
    ensures |Contact(s, es, vs, c).1| <= |es|
    ensures Contact(s, es, vs, c).0.gold == s.gold + CorpseGold * (|es| - |Contact(s, es, vs, c).1|)
    ensures Contact(s, es, vs, c).0.health <= s.health
    ensures (s.health - Contact(s, es, vs, c).0.health) % ContactDamage == 0
    ensures Contact(s, es, vs, c).0.box.width == s.box.width && Contact(s, es, vs, c).0.box.height == s.box.height
    decreases |es|
  {
    if es != [] {
      ContactPays(Meet(s, vs[0], c), es[1..], vs[1..], c);
    }
  }

  /* ---------------- doors ---------------- */

  /**
   * One door of the door pass: a locked door pushes the player out like a
   * wall; an unlocked previous-room door asks for the previous scene and puts
   * the player in front of the right-hand doors, an unlocked next-room door
   * asks for the next scene and puts the player in front of the left-hand
   * doors.
   */
  function DoorStep(b: Rect, f: Flags, l: Latch, d: Door, prev: seq<Door>, next: seq<Door>): (r: (Rect, Latch))
    reads d
    ensures r.0.width == b.width && r.0.height == b.height
    ensures !Overlaps(b, d.Box()) ==> r.0 == b && r.1 == l
    ensures Overlaps(b, d.Box()) && d.isLocked ==>
      r.0 == PushOut(b, d.Box(), f) && r.1 == l
    ensures Overlaps(b, d.Box()) && d.isLocked ==>
      (Heading(f).Some? ==> !Overlaps(r.0, d.Box())) && (Heading(f) == None ==> r.0 == b)
    ensures Overlaps(b, d.Box()) && !d.isLocked && d in prev ==>
      r.0.x == PrevEntryX && r.0.y == EntryY && r.1 == Step(l, Last)
    ensures Overlaps(b, d.Box()) && !d.isLocked && d !in prev && d in next ==>
      r.0.x == NextEntryX && r.0.y == EntryY && r.1 == Step(l, Next)
    ensures Overlaps(b, d.Box()) && !d.isLocked && d !in prev && d !in next ==> r.0 == b && r.1 == l
  {
    if !Overlaps(b, d.Box()) then (b, l)
    else if d.isLocked then (PushOut(b, d.Box(), f), l)
    else if d in prev then (b.(x := PrevEntryX, y := EntryY), Step(l, Last))
    else if d in next then (b.(x := NextEntryX, y := EntryY), Step(l, Next))
    else (b, l)
  }

  /** The door pass over the scene's doors, in order. */
  function DoorPhase(b: Rect, f: Flags, l: Latch, ds: seq<Door>, prev: seq<Door>, next: seq<Door>): (r: (Rect, Latch))
    reads ds
    ensures r.0.width == b.width && r.0.height == b.height
    decreases |ds|
  {
    if ds == [] then (b, l)
    else
      var r := DoorStep(b, f, l, ds[0], prev, next);
      DoorPhase(r.0, f, r.1, ds[1..], prev, next)
  }

  /**
   * However many doors the player touches in one pass, the scene index moves
   * by at most one, and only when the latch was clear; a set latch comes out
   * unchanged.
   */
  lemma {:induction false} DoorPhaseMovesAtMostOne(b: Rect, f: Flags, l: Latch, ds: seq<Door>, prev: seq<Door>, next: seq<Door>)
    ensures var l' := DoorPhase(b, f, l, ds, prev, next).1;
      l' == l || (!l.changing && (l' == Step(l, Next) || l' == Step(l, Last)))
    decreases |ds|
  {
    if ds != [] {
      var r := DoorStep(b, f, l, ds[0], prev, next);
      DoorPhaseMovesAtMostOne(r.0, f, r.1, ds[1..], prev, next);
    }
  }

  /** While every door is locked, the door pass never changes scene. */
  lemma {:induction false} LockedDoorsHoldScene(b: Rect, f: Flags, l: Latch, ds: seq<Door>, prev: seq<Door>, next: seq<Door>)
    requires forall d :: d in ds ==> d.isLocked
    ensures DoorPhase(b, f, l, ds, prev, next).1 == l
    decreases |ds|
  {
    if ds != [] {
      var d := ds[0];
      var b' := if Overlaps(b, d.Box()) then PushOut(b, d.Box(), f) else b;
      LockedDoorsHoldScene(b', f, l, ds[1..], prev, next);
    }
  }

  class Player {
    var x: real
    var y: real
    const width: real
    const height: real
    var gold: int
    var health: int
    var moving: Flags
    var attacking: bool
    var blocking: bool

    /** A 30x30 player with no gold, 100 health, facing nowhere. */
    constructor (x0: real, y0: real)
      ensures Box() == Rect(x0, y0, PlayerSize, PlayerSize)
      ensures gold == StartGold && health == StartPlayerHealth && moving == Still && !attacking && !blocking
    {
      x, y := x0, y0;
      width, height := PlayerSize, PlayerSize;
      gold, health := StartGold, StartPlayerHealth;
      moving := Still;
      attacking, blocking := false, false;
    }

    function Box(): Rect
      reads this
    {
      Rect(x, y, width, height)
    }

    function Vitality(): Status
      reads this
    {
      Status(Box(), health, gold)
    }

    /** Faces `d`: exactly that movement flag is set. */
    method Direction(d: Dir)
      modifies this`moving
      ensures moving == FlagsFor(d) && Count(moving) == 1 && Heading(moving) == Some(d)
    {
      match d
      case Up => moving := moving.(up := true, down := false, left := false, right := false);
      case Down => moving := moving.(up := false, down := true, left := false, right := false);
      case Left => moving := moving.(up := false, down := false, left := true, right := false);
      case Right => moving := moving.(up := false, down := false, left := false, right := true);
      HeadingOfFlagsFor(d);
    }

    method TakeDamage(damage: int)
      modifies this`health
      ensures health == old(health) - damage
    {
      health := health - damage;
    }

    /** Thrown 50px along the enemy's facing, clamped to the canvas margin. */
    method Knockback(enemyFacing: Flags, c: Canvas)
      modifies this`x, this`y
      ensures x == Motion.Knockback(old(x), old(y), enemyFacing, PlayerKnockback, c).0
      ensures y == Motion.Knockback(old(x), old(y), enemyFacing, PlayerKnockback, c).1
    {
      if enemyFacing.up {
        y := y - PlayerKnockback;
        if y < Margin {
          y := Margin;
        }
      } else if enemyFacing.down {
        y := y + PlayerKnockback;
        if y > c.height - Margin {
          y := c.height - Margin;
        }
      } else if enemyFacing.left {
        x := x - PlayerKnockback;
        if x < Margin {
          x := Margin;
        }
      } else if enemyFacing.right {
        x := x + PlayerKnockback;
        if x > c.width - Margin {
          x := c.width - Margin;
        }
      }
    }

    /** A live enemy's contact: 5 damage, then the knockback. */
    method Suffer(enemyFacing: Flags, c: Canvas)
      modifies this`x, this`y, this`health
      ensures Vitality() == Hurt(old(Vitality()), enemyFacing, c)
    {
      TakeDamage(ContactDamage);
      Knockback(enemyFacing, c);
    }

    /** A movement key: face `d`, then stop at the canvas edge or step 10px. */
    method KeyDown(d: Dir, c: Canvas)
      modifies this`moving, this`x, this`y
      ensures moving == FlagsFor(d) && Box() == KeyStep(old(Box()), d, c)
    {
      Direction(d);
      match d
      case Up => if y <= 0.0 { y := 0.0; } else { y := y - PlayerSpeed; }
      case Right => if x + width >= c.width { x := c.width - width; } else { x := x + PlayerSpeed; }
      case Left => if x <= 0.0 { x := 0.0; } else { x := x - PlayerSpeed; }
      case Down => if y + height >= c.height { y := c.height - height; } else { y := y + PlayerSpeed; }
    }

    method Attack(weapon: Weapon)
      modifies this`attacking, weapon`active
      ensures attacking && weapon.active
    {
      attacking := true;
      weapon.active := true;
    }

    method Block()
      modifies this`blocking
      ensures blocking
    {
      blocking := true;
    }

    method CollideWalls(walls: seq<Rect>)
      modifies this`x, this`y
      ensures Box() == WallPhase(old(Box()), moving, walls)
    {
      ghost var whole := WallPhase(Box(), moving, walls);
      var i := 0;
      while i < |walls|
        invariant 0 <= i <= |walls|
        invariant whole == WallPhase(Box(), moving, walls[i..])
      {
        ghost var b := Box();
        WallPhaseAt(b, moving, walls, i);
        var wall := walls[i];
        if Overlaps(Box(), wall) {
          if moving.up {
            y := wall.Bottom();
          } else if moving.down {
            y := wall.Top() - height;
          } else if moving.left {
            x := wall.Right();
          } else if moving.right {
            x := wall.Left() - width;
          }
        }
        assert Box() == if Overlaps(b, wall) then PushOut(b, wall, moving) else b;
        i := i + 1;
      }
    }

    method CollideEnemies(scene: Scene, c: Canvas)
      modifies this`x, this`y, this`health, this`gold, scene`enemies
      ensures Vitality() == Contact(old(Vitality()), old(scene.enemies), old(Sights(scene.enemies)), c).0
      ensures scene.enemies == Contact(old(Vitality()), old(scene.enemies), old(Sights(scene.enemies)), c).1
    {
      ghost var es, vs := scene.enemies, Sights(scene.enemies);
      ghost var st, kept: seq<Enemy>, j := Vitality(), [], 0;
      ghost var whole := Contact(st, es, vs, c);
      var i := 0;
      while i < |scene.enemies|
        invariant 0 <= j <= |es| && scene.enemies == kept + es[j..] && i == |kept| && Vitality() == st
        invariant whole.0 == Contact(st, es[j..], vs[j..], c).0
        invariant whole.1 == kept + Contact(st, es[j..], vs[j..], c).1
        decreases |es| - j
      {
        assert scene.enemies[i] == es[j] && es[j].Seen() == vs[j];
        ContactAt(st, es, vs, j, kept, c);
        ghost var st' := Meet(st, vs[j], c);
        var collected := MeetEnemy(scene, i, c);
        if !collected {
          kept := kept + [es[j]];
          i := i + 1;
        }
        st, j := st', j + 1;
      }
    }

    /**
     * The contact with enemy `i` of the scene: an overlapped corpse pays
     * gold and is spliced out of the list (`collected`), an overlapped live
     * enemy hurts the player.
     */
    method MeetEnemy(scene: Scene, i: nat, c: Canvas) returns (collected: bool)
      requires i < |scene.enemies|
      modifies this`x, this`y, this`health, this`gold, scene`enemies
      ensures collected == Collects(old(Vitality()), old(scene.enemies[i].Seen()))
      ensures Vitality() == Meet(old(Vitality()), old(scene.enemies[i].Seen()), c)
      ensures scene.enemies == if collected then old(scene.enemies[..i] + scene.enemies[i + 1..]) else old(scene.enemies)
    {
      var enemy := scene.enemies[i];
      collected := false;
      if Overlaps(Box(), enemy.Box()) {
        if !enemy.alive {
          gold := gold + CorpseGold;
          scene.enemies := scene.enemies[..i] + scene.enemies[i + 1..];
          collected := true;
        } else {
          Suffer(enemy.moving, c);
        }
      }
    }

    method CollideDoors(sm: SceneManager, scene: Scene)
      modifies this`x, this`y, sm`index, sm`changingScenes
      ensures Box() == DoorPhase(old(Box()), moving, old(sm.State()), scene.doors, scene.prevDoors, scene.nextDoors).0
      ensures sm.State() == DoorPhase(old(Box()), moving, old(sm.State()), scene.doors, scene.prevDoors, scene.nextDoors).1
    {
      var ds := scene.doors;
      ghost var b, l := Box(), sm.State();
      ghost var whole := DoorPhase(b, moving, l, ds, scene.prevDoors, scene.nextDoors);
      var i := 0;
      while i < |ds|
        invariant 0 <= i <= |ds| && Box() == b && sm.State() == l
        invariant whole == DoorPhase(b, moving, l, ds[i..], scene.prevDoors, scene.nextDoors)
      {
        assert ds[i..][1..] == ds[i + 1..];
        ghost var r := DoorStep(b, moving, l, ds[i], scene.prevDoors, scene.nextDoors);
        PassDoor(sm, scene, ds[i]);
        b, l := r.0, r.1;
        i := i + 1;
      }
    }

    /** One door of the door pass. */
    method PassDoor(sm: SceneManager, scene: Scene, door: Door)
      modifies this`x, this`y, sm`index, sm`changingScenes
      ensures Box() == DoorStep(old(Box()), moving, old(sm.State()), door, scene.prevDoors, scene.nextDoors).0
      ensures sm.State() == DoorStep(old(Box()), moving, old(sm.State()), door, scene.prevDoors, scene.nextDoors).1
    {
      if Overlaps(Box(), door.Box()) {
        if door.isLocked {
          if moving.up {
            y := door.Box().Bottom();
          } else if moving.down {
            y := door.Box().Top() - height;
          } else if moving.left {
            x := door.Box().Right();
          } else if moving.right {
            x := door.Box().Left() - width;
          }
        } else if door in scene.prevDoors {
          sm.LastScene();
          x, y := PrevEntryX, EntryY;
        } else if door in scene.nextDoors {
          sm.NextScene();
          x, y := NextEntryX, EntryY;
        }
      }
    }

    /**
     * The per-frame collision pass against the manager's current scene:
     * walls, then enemies, then doors, each seeing the player where the
     * previous phase left it.
     */
    method IsCollidingWith(sm: SceneManager, c: Canvas)
      requires sm.current != null
      modifies this`x, this`y, this`health, this`gold, sm.current`enemies, sm`index, sm`changingScenes
      ensures sm.current == old(sm.current)
      ensures var scene := sm.current;
        var boxed := old(Vitality()).(box := WallPhase(old(Box()), moving, scene.walls));
        var (s, kept) := Contact(boxed, old(scene.enemies), old(Sights(scene.enemies)), c);
        scene.enemies == kept && health == s.health && gold == s.gold &&
        (Box(), sm.State()) == DoorPhase(s.box, moving, old(sm.State()), scene.doors, scene.prevDoors, scene.nextDoors)
    {
      var scene := sm.current;
      CollideWalls(scene.walls);
      CollideEnemies(scene, c);
      CollideDoors(sm, scene);
    }
  }
}
