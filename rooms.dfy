/**
 * Rooms: the 50px-grid layout of walls, floors and doors, the enemy roster,
 * and the door lock that follows the roster.
 */
module Rooms {
  import opened Geometry
  import opened Enemies

  /** Border tiles on the top and on the bottom side. */
  const RowLength: nat := 11
  /** Tiles of a side column between the top and the bottom row. */
  const ColumnLength: nat := 8

  /** The tile in column k of the row at y. */
  function RowTile(k: int, y: real): Rect {
    TileAt(Grid(k), y)
  }

  /** The tile in row k of the column at x. */
  function ColumnTile(x: real, k: int): Rect {
    TileAt(x, Grid(k))
  }

  /** Tiles at y, x = 0, 50, ..., (n - 1) * 50 (the top and bottom loops). */
  function Row(y: real, n: nat): seq<Rect> {
    seq(n, k requires 0 <= k < n => RowTile(k, y))
  }

  predicate InGap(k: int) {
    k == 4 || k == 5
  }

  /** Tiles at x, rows 1..n. */
  function FullColumn(x: real, n: nat): seq<Rect> {
    seq(n, k requires 0 <= k < n => ColumnTile(x, k + 1))
  }

  /** Tiles at x, y = 50, ..., n * 50; with `gap`, rows 4 and 5 are left open. */
  function Column(x: real, n: nat, gap: bool): seq<Rect> {
    if !gap || n <= 3 then FullColumn(x, n)
    else FullColumn(x, 3) + seq(if n <= 5 then 0 else n - 5, k requires 0 <= k => ColumnTile(x, k + 6))
  }

  /** Pushing row n onto a column of n - 1 rows, unless it is in the gap. */
  lemma ColumnStep(x: real, n: nat, gap: bool)
    requires n >= 1
    ensures Column(x, n, gap) == Column(x, n - 1, gap) + (if gap && InGap(n) then [] else [ColumnTile(x, n)])
  {
    if !gap || n <= 3 {
      assert FullColumn(x, n) == FullColumn(x, n - 1) + [ColumnTile(x, n)];
    } else if n > 5 {
      var tail := seq(n - 5, k requires 0 <= k => ColumnTile(x, k + 6));
      var tail' := seq(if n - 1 <= 5 then 0 else n - 6, k requires 0 <= k => ColumnTile(x, k + 6));
      assert tail == tail' + [ColumnTile(x, n)];
    }
  }

  /**
   * The border walls: top and bottom rows, the left column (open at rows 4
   * and 5 except in the start room) and the right column (always open there).
   */
  function BorderWalls(start: bool, c: Canvas): seq<Rect> {
    Row(0.0, RowLength) + Row(c.height - Tile, RowLength) +
    Column(0.0, ColumnLength, !start) + Column(c.width - Tile, ColumnLength, true)
  }

  /** The wall a pillar entry [i, j] stands for. */
  function PillarTile(p: (int, int)): Rect {
    TileAt(Grid(p.0), Grid(p.1))
  }

  /** One wall per pillar, at grid coordinates times 50. */
  function PillarWalls(pillars: seq<(int, int)>): (ws: seq<Rect>)
    ensures |ws| == |pillars|
    ensures forall i :: 0 <= i < |pillars| ==> ws[i] == PillarTile(pillars[i])
  {
    if pillars == [] then [] else [PillarTile(pillars[0])] + PillarWalls(pillars[1..])
  }

  /** Floor tile k of the grid, column by column, eight to a column. */
  function FloorTile(k: nat): Rect {
    ColumnTile(Grid(k / 8 + 1), k % 8 + 1)
  }

  /** Floor columns x = 50, ..., n * 50, each of eight tiles from y = 50 down. */
  function FloorColumns(n: nat): seq<Rect> {
    seq(n * 8, k requires 0 <= k => FloorTile(k))
  }

  /** The floor of n columns is exactly the tiles (i * 50, j * 50) with 1 <= i <= n and 1 <= j <= 8. */
  lemma FloorContents(n: nat, t: Rect)
    ensures |FloorColumns(n)| == n * 8
    ensures t in FloorColumns(n) <==>
      exists i: int, j: int :: 1 <= i <= n && 1 <= j <= ColumnLength && t == TileAt(Grid(i), Grid(j))
  {
    if t in FloorColumns(n) {
      var k :| 0 <= k < n * 8 && FloorColumns(n)[k] == t;
      assert k / 8 + 1 <= n;
      assert t == TileAt(Grid(k / 8 + 1), Grid(k % 8 + 1));
    }
    if exists i: int, j: int :: 1 <= i <= n && 1 <= j <= ColumnLength && t == TileAt(Grid(i), Grid(j)) {
      var i: int, j: int :| 1 <= i <= n && 1 <= j <= ColumnLength && t == TileAt(Grid(i), Grid(j));
      var k := (i - 1) * 8 + (j - 1);
      assert k / 8 == i - 1 && k % 8 == j - 1;
      assert FloorColumns(n)[k] == t;
    }
  }

  lemma FloorStep(n: nat)
    requires n >= 1
    ensures FloorColumns(n) == FloorColumns(n - 1) + Column(Grid(n), ColumnLength, false)
  {
    var a, b := FloorColumns(n - 1), Column(Grid(n), ColumnLength, false);
    forall k | 0 <= k < 8
      ensures FloorColumns(n)[(n - 1) * 8 + k] == b[k]
    {
      assert ((n - 1) * 8 + k) / 8 == n - 1 && ((n - 1) * 8 + k) % 8 == k;
    }
    assert FloorColumns(n) == a + b;
  }

  /** The two door tiles of a side, in rows 4 and 5. */
  function DoorPair(x: real): seq<Rect> {
    [ColumnTile(x, 4), ColumnTile(x, 5)]
  }

  lemma RowContents(y: real, n: nat, t: Rect)
    ensures |Row(y, n)| == n
    ensures t in Row(y, n) <==> exists k: int :: 0 <= k < n && t == RowTile(k, y)
  {
    if t in Row(y, n) {
      var k :| 0 <= k < n && Row(y, n)[k] == t;
    }
    if exists k: int :: 0 <= k < n && t == RowTile(k, y) {
      var k: int :| 0 <= k < n && t == RowTile(k, y);
      assert Row(y, n)[k] == t;
    }
  }

  lemma ColumnContents(x: real, n: nat, gap: bool, t: Rect)
    ensures t in Column(x, n, gap) <==> exists k: int :: 1 <= k <= n && !(gap && InGap(k)) && t == ColumnTile(x, k)
  {
    var col := Column(x, n, gap);
    if t in col {
      var i :| 0 <= i < |col| && col[i] == t;
      if !gap || n <= 3 || i < 3 {
        assert t == ColumnTile(x, i + 1);
      } else {
        assert t == ColumnTile(x, i + 3);
      }
    }
    if exists k: int :: 1 <= k <= n && !(gap && InGap(k)) && t == ColumnTile(x, k) {
      var k: int :| 1 <= k <= n && !(gap && InGap(k)) && t == ColumnTile(x, k);
      if !gap || n <= 3 || k <= 3 {
        assert col[k - 1] == t;
      } else {
        assert col[k - 3] == t;
      }
    }
  }

  lemma ColumnSize(x: real, n: nat, gap: bool)
    ensures |Column(x, n, gap)| == if gap && n >= 5 then n - 2 else if gap && n == 4 then 3 else n
  {
  }

  /** 34 border walls in a room with side doors, 36 in the start room. */
  lemma BorderWallCount(start: bool, c: Canvas)
    ensures |BorderWalls(start, c)| == if start then 36 else 34
  {
    RowContents(0.0, RowLength, TileAt(0.0, 0.0));
    RowContents(c.height - Tile, RowLength, TileAt(0.0, 0.0));
    ColumnSize(0.0, ColumnLength, !start);
    ColumnSize(c.width - Tile, ColumnLength, true);
  }

  /** The doors fill exactly the gap left open in a side column. */
  lemma DoorsFillGap(x: real, t: Rect)
    ensures t in Column(x, ColumnLength, true) + DoorPair(x) <==> t in Column(x, ColumnLength, false)
  {
    ColumnContents(x, ColumnLength, true, t);
    ColumnContents(x, ColumnLength, false, t);
    if t in Column(x, ColumnLength, false) {
      var k: int :| 1 <= k <= ColumnLength && t == ColumnTile(x, k);
      if InGap(k) {
        assert t in DoorPair(x);
      } else {
        assert t in Column(x, ColumnLength, true);
      }
    }
  }

  /** The doors the room's side walls leave room for, with the start room's left side closed. */
  function DoorTiles(start: bool, c: Canvas): seq<Rect> {
    (if start then [] else DoorPair(0.0)) + DoorPair(c.width - Tile)
  }

  /** A row above row 4 or below row 5 is clear of any door. */
  lemma RowClearOfDoors(y: real, w: Rect, d: Rect)
    requires y + Tile <= Grid(4) || y >= Grid(6)
    requires w in Row(y, RowLength)
    requires d.height == Tile && (d.y == Grid(4) || d.y == Grid(5))
    ensures !Overlaps(w, d)
  {
    RowContents(y, RowLength, w);
  }

  /** A column is clear of a door in its gap, and of a door in another column. */
  lemma ColumnClearOfDoors(x: real, gap: bool, w: Rect, d: Rect)
    requires w in Column(x, ColumnLength, gap)
    requires d.height == Tile && (d.y == Grid(4) || d.y == Grid(5))
    requires gap || d.x >= x + Tile
    ensures !Overlaps(w, d)
  {
    ColumnContents(x, ColumnLength, gap, w);
  }

  /**
   * No border wall overlaps a door (on a canvas wide enough for the two
   * side columns to be apart and tall enough for the bottom row to clear
   * the doors).
   */
  lemma NoWallOnDoor(start: bool, c: Canvas, w: Rect, d: Rect)
    requires c.width >= 2.0 * Tile && c.height >= 7.0 * Tile
    requires w in BorderWalls(start, c) && d in DoorTiles(start, c)
    ensures !Overlaps(w, d)
  {
    var top, bottom := Row(0.0, RowLength), Row(c.height - Tile, RowLength);
    var left, right := Column(0.0, ColumnLength, !start), Column(c.width - Tile, ColumnLength, true);
    assert BorderWalls(start, c) == top + bottom + left + right;
    assert d in DoorPair(0.0) || d in DoorPair(c.width - Tile);
    assert d.height == Tile && (d.y == Grid(4) || d.y == Grid(5));
    if w in top {
      RowClearOfDoors(0.0, w, d);
    } else if w in bottom {
      RowClearOfDoors(c.height - Tile, w, d);
    } else if w in left {
      ColumnClearOfDoors(0.0, !start, w, d);
    } else {
      assert w in right;
      ColumnClearOfDoors(c.width - Tile, true, w, d);
    }
  }

  /** Every floor tile is a 50px tile of the 8x8 block whose corners run from (50, 50) to (400, 400). */
  lemma FloorsInsideBorder(n: nat, t: Rect)
    requires n <= ColumnLength
    requires t in FloorColumns(n)
    ensures t.width == Tile && t.height == Tile
    ensures Grid(1) <= t.x <= Grid(n) && Grid(1) <= t.y <= Grid(ColumnLength)
  {
    var k :| 0 <= k < n * 8 && FloorColumns(n)[k] == t;
    assert k / 8 < n;
  }

  class Door {
    const x: real
    const y: real
    var isLocked: bool

    constructor (x0: real, y0: real)
      ensures x == x0 && y == y0 && !isLocked
    {
      x, y := x0, y0;
      isLocked := false;
    }

    function Box(): Rect {
      TileAt(x, y)
    }

    method Locked()
      modifies this
      ensures isLocked
    {
      isLocked := true;
    }

    method Unlocked()
      modifies this
      ensures !isLocked
    {
      isLocked := false;
    }

    /** A door is locked exactly while the current scene's enemy list is non-empty. */
    method Render(current: Scene)
      modifies this
      ensures isLocked <==> |current.enemies| > 0
    {
      if |current.enemies| > 0 {
        Locked();
      } else {
        Unlocked();
      }
    }
  }

  /** The rectangles of a list of doors, in order. */
  function DoorBoxes(ds: seq<Door>): (bs: seq<Rect>)
    ensures |bs| == |ds| && forall i :: 0 <= i < |ds| ==> bs[i] == ds[i].Box()
  {
    if ds == [] then [] else [ds[0].Box()] + DoorBoxes(ds[1..])
  }

  lemma DoorBoxesAppend(a: seq<Door>, b: seq<Door>)
    ensures DoorBoxes(a + b) == DoorBoxes(a) + DoorBoxes(b)
  {
    assert forall i :: 0 <= i < |a + b| ==> (a + b)[i] == if i < |a| then a[i] else b[i - |a|];
  }

  class Scene {
    const name: string
    var walls: seq<Rect>
    var floors: seq<Rect>
    var doors: seq<Door>
    var prevDoors: seq<Door>
    var nextDoors: seq<Door>
    /** Live enemies and corpses not yet collected. */
    var enemies: seq<Enemy>

    constructor (name: string)
      ensures this.name == name
      ensures walls == [] && floors == [] && doors == [] && prevDoors == [] && nextDoors == [] && enemies == []
    {
      this.name := name;
      walls, floors, doors, prevDoors, nextDoors, enemies := [], [], [], [], [], [];
    }

    /** The room is cleared once its enemy list, corpses included, is empty. */
    predicate Cleared()
      reads this
    {
      |enemies| == 0
    }

    static method PushRow(ws: seq<Rect>, y: real) returns (r: seq<Rect>)
      ensures r == ws + Row(y, RowLength)
    {
      r := ws;
      var i := 0;
      while i <= 10
        invariant 0 <= i <= RowLength
        invariant r == ws + Row(y, i)
      {
        assert Row(y, i + 1) == Row(y, i) + [RowTile(i, y)];
        r := r + [RowTile(i, y)];
        i := i + 1;
      }
    }

    static method PushColumn(ws: seq<Rect>, x: real, gap: bool) returns (r: seq<Rect>)
      ensures r == ws + Column(x, ColumnLength, gap)
    {
      r := ws;
      var i := 1;
      while i <= 8
        invariant 1 <= i <= ColumnLength + 1
        invariant r == ws + Column(x, i - 1, gap)
      {
        ColumnStep(x, i, gap);
        if !(gap && (i == 4 || i == 5)) {
          r := r + [ColumnTile(x, i)];
        }
        i := i + 1;
      }
    }

    method MakeWalls(pillars: seq<(int, int)>, start: bool, c: Canvas)
      modifies this`walls
      ensures walls == BorderWalls(start, c) + PillarWalls(pillars)
    {
      var ws := PushRow([], 0.0);
      ws := PushRow(ws, c.height - Tile);
      ws := PushColumn(ws, 0.0, !start);
      ws := PushColumn(ws, c.width - Tile, true);
      ws := PushPillars(ws, pillars);
      walls := ws;
    }

    static method PushPillars(ws: seq<Rect>, pillars: seq<(int, int)>) returns (r: seq<Rect>)
      ensures r == ws + PillarWalls(pillars)
    {
      r := ws;
      var k := 0;
      while k < |pillars|
        invariant 0 <= k <= |pillars|
        invariant r == ws + PillarWalls(pillars[..k])
      {
        assert pillars[..k + 1] == pillars[..k] + [pillars[k]];
        PillarWallsAppend(pillars[..k], pillars[k]);
        r := r + [PillarTile(pillars[k])];
        k := k + 1;
      }
      assert pillars[..k] == pillars;
    }

    static lemma PillarWallsAppend(ps: seq<(int, int)>, p: (int, int))
      ensures PillarWalls(ps + [p]) == PillarWalls(ps) + [PillarTile(p)]
    {
    }

    method MakeFloors()
      modifies this`floors
      ensures floors == FloorColumns(ColumnLength)
    {
      var fs: seq<Rect> := [];
      var i := 1;
      while i <= 8
        invariant 1 <= i <= ColumnLength + 1
        invariant fs == FloorColumns(i - 1)
      {
        FloorStep(i);
        fs := PushColumn(fs, Grid(i), false);
        i := i + 1;
      }
      floors := fs;
    }

    /**
     * The start room has doors on the right side only; every other room has
     * two on the left (its previous doors) before two on the right (its next
     * doors), each new and unlocked.
     */
    method MakeDoors(start: bool, c: Canvas)
      modifies this`doors, this`prevDoors, this`nextDoors
      ensures var np := if start then 0 else 2;
        |doors| == np + 2 &&
        prevDoors == old(prevDoors) + doors[..np] && nextDoors == old(nextDoors) + doors[np..]
      ensures DoorBoxes(doors) == DoorTiles(start, c)
      ensures forall d :: d in doors ==> fresh(d) && !d.isLocked
      ensures forall i, j :: 0 <= i < j < |doors| ==> doors[i] != doors[j]
    {
      var left, right := NewDoors(start, c);
      prevDoors := prevDoors + left;
      nextDoors := nextDoors + right;
      doors := left + right;
      assert doors[..|left|] == left && doors[|left|..] == right;
    }

    /** The previous doors (none in the start room) and the next doors of a room. */
    static method NewDoors(start: bool, c: Canvas) returns (left: seq<Door>, right: seq<Door>)
      ensures |left| == (if start then 0 else 2) && |right| == 2
      ensures DoorBoxes(left + right) == DoorTiles(start, c)
      ensures forall d :: d in left + right ==> fresh(d) && !d.isLocked
      ensures forall i, j :: 0 <= i < j < |left + right| ==> (left + right)[i] != (left + right)[j]
    {
      left := [];
      if !start {
        left := NewDoorPair(0.0);
      }
      right := NewDoorPair(c.width - Tile);
      DoorBoxesAppend(left, right);
      ghost var ds := left + right;
      forall i, j | 0 <= i < j < |ds|
        ensures ds[i] != ds[j]
      {
        if i < |left| <= j {
          assert ds[i] in left && ds[j] in right;
        }
      }
    }

    /** The loop over rows 4 and 5 of one side: two new, unlocked doors. */
    static method NewDoorPair(x: real) returns (pair: seq<Door>)
      ensures |pair| == 2 && pair[0] != pair[1]
      ensures DoorBoxes(pair) == DoorPair(x)
      ensures forall d :: d in pair ==> fresh(d) && !d.isLocked
    {
      pair := [];
      var i := 4;
      while i <= 5
        invariant 4 <= i <= 6 && |pair| == i - 4
        invariant DoorBoxes(pair) == DoorPair(x)[..i - 4]
        invariant forall d :: d in pair ==> fresh(d) && !d.isLocked
        invariant |pair| == 2 ==> pair[0] != pair[1]
      {
        var newDoor := new Door(x, Grid(i));
        assert DoorBoxes(pair + [newDoor]) == DoorBoxes(pair) + [newDoor.Box()];
        pair := pair + [newDoor];
        i := i + 1;
      }
    }

    method MakeEnemies(es: seq<Enemy>)
      modifies this`enemies
      ensures enemies == es
    {
      enemies := es;
    }

    /** Builds the room: border and pillar walls, the floor grid, the doors and the roster. */
    method MakeScene(pillars: seq<(int, int)>, es: seq<Enemy>, start: bool, c: Canvas)
      modifies this`walls, this`floors, this`doors, this`prevDoors, this`nextDoors, this`enemies
      ensures walls == BorderWalls(start, c) + PillarWalls(pillars)
      ensures floors == FloorColumns(ColumnLength)
      ensures DoorBoxes(doors) == DoorTiles(start, c)
      ensures forall d :: d in doors ==> fresh(d) && !d.isLocked
      ensures forall i, j :: 0 <= i < j < |doors| ==> doors[i] != doors[j]
      ensures var np := if start then 0 else 2;
        |doors| == np + 2 &&
        prevDoors == old(prevDoors) + doors[..np] && nextDoors == old(nextDoors) + doors[np..]
      ensures enemies == es
    {
      MakeWalls(pillars, start, c);
      MakeFloors();
      MakeDoors(start, c);
      MakeEnemies(es);
    }

    /** Renders every door of the scene, which locks them exactly while enemies remain. */
    method RenderDoors(current: Scene)
      modifies set d | d in doors
      ensures forall d :: d in doors ==> (d.isLocked <==> |current.enemies| > 0)
    {
      var i := 0;
      while i < |doors|
        invariant 0 <= i <= |doors|
        invariant forall k :: 0 <= k < i ==> (doors[k].isLocked <==> |current.enemies| > 0)
      {
        doors[i].Render(current);
        i := i + 1;
      }
    }
  }
}
