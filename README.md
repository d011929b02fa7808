# Demon's Respite: a verified model of the room simulation

Demon's Respite is a top-down browser game. A player walks through a chain
of rooms laid out on a 50px grid. Each room has border walls, pillars, floor
tiles, doors to the previous and next room, and a roster of enemies. All of
the game lives in `js/main.js`. This project models that file's simulation
and leaves out the canvas drawing:

- rectangle geometry and the strict overlap test;
- the player's facing, damage and knockback, and the keyboard step;
- the per-frame collision pass against walls, enemies and doors;
- the weapon and shield hitboxes;
- enemy damage, death, the random direction pick, the patrol walk, and the
  wall and door bounce;
- the room layout built by `makeWalls`, `makeFloors` and `makeDoors`;
- the door lock that follows the enemy roster;
- the scene manager's scene-change latch.

The modules follow the program's classes:

| file | module | models |
|---|---|---|
| `wrappers.dfy` | `Wrappers` | `Option` |
| `geometry.dfy` | `Geometry` | `Rectangle` edges and the overlap test |
| `facing.dfy` | `Facing` | the four `moving*` flags, `direction`, `getDirection`, the random pick |
| `motion.dfy` | `Motion` | the knockback, the push-out and the key step. They are shared by the player and the enemies. |
| `enemies.dfy` | `Enemies` | `Enemy` |
| `rooms.dfy` | `Rooms` | `Scene`, `Door` and the layout |
| `scene_manager.dfy` | `SceneManagers` | `SceneManager` |
| `weapons.dfy` | `Weapons` | `Weapon` and `Shield` |
| `players.dfy` | `Players` | `Player` |

Objects whose fields the game updates in place are Dafny classes:
`Player`, `Enemy`, `Door`, `Scene`, `SceneManager`, `Weapon` and `Shield`.
Each method states its new state as a pure function of the old one: `Hit`,
`Turn`, `Patrol`, `Bounce`, `WallPhase`, `Contact`, `DoorPhase`, `Step`,
`BorderWalls` and so on. The properties are lemmas about those functions.

Modelling choices:

- Coordinates are `real`. The game mixes integers with `0.6`, `/ 4` and
  `/ 2`, and the model computes them exactly.
- The canvas is a `Canvas(width, height)` parameter.
- `Math.random` becomes explicit parameters:
  - a `Choice` in 0..3 for each `newDirection`;
  - a `wander` flag for the 1-in-300 roll.
- The global `currentScene` becomes the scene manager's `index` into its
  scene list. `current` is the manager's `currentScene` field.
- The global `player` and `sceneManager` that some methods reach for become
  explicit arguments.
- The player's enemy pass reads each enemy's box, `alive` flag and facing and
  never changes an enemy. `Contact` therefore runs over a snapshot of those
  (`Enemies.Sight`, one per enemy, taken by `Enemies.Sights`) next to the
  list of enemy objects it splices.

Three quirks of the code are modelled as written, and each has a lemma:

- `js/main.js:967` tests `>` on the right-moving patrol branch, where the
  left-moving branch tests the opposite bound. A right-facing enemy
  therefore never advances: `Enemies.RightFacingNeverAdvances`.
- `js/main.js:1040-1041` restore `prevX`/`prevY` after the wall snap. The snap
  therefore never survives: `Enemies.WallSnapOverridden` and
  `Enemies.WallBounceEndsAtStartOrPrev`.
- `shield.active` is never assigned. An active shield would push enemies, but
  in the game no enemy is ever changed by the shield: `Weapons.Shield.Render`.

## Model

| member | source | states |
|---|---|---|
| Geometry.OverlapsSymmetric | js/main.js:398-401 | The strict overlap test gives the same answer with its arguments swapped. |
| Geometry.Overlaps | js/main.js:398-401 | The strict overlap test: the vertical extents, then the horizontal ones, each with `<` and `>`. Its properties are stated by OverlapsSymmetric, TouchingDoesNotOverlap and OverlapsItself. |
| Geometry.Rect.Left | js/main.js:235-238 | The left edge is x. Used by Overlaps and the push-out and bounce contracts. |
| Geometry.Rect.Right | js/main.js:240-243 | The right edge is x + width. |
| Geometry.Rect.Top | js/main.js:245-248 | The top edge is y. |
| Geometry.Rect.Bottom | js/main.js:250-253 | The bottom edge is y + height. |
| Geometry.TouchingDoesNotOverlap | js/main.js:398-401 | Two rectangles that only share an edge do not collide, in either order. |
| Geometry.OverlapsItself | js/main.js:398-401 | A rectangle collides with itself exactly when its width and height are both positive. |
| Facing.FlagsFor | js/main.js:278-315 | The flags after facing d: exactly one is set, and it is d's. |
| Facing.Heading | js/main.js:792-811 | The direction an if-else chain over the flags acts on. It is None exactly when no flag is set, and otherwise a set flag. A lone set flag is its own heading. |
| Facing.HeadingOfFlagsFor | js/main.js:278-315 | Facing d and then reading the direction back gives d. |
| Facing.ChosenDir | js/main.js:828-852 | Picks 0, 1, 2 and 3 set up, down, left and right. Its properties are stated by ChosenDirOnto and HeadingOfFlagsFor. |
| Facing.ChosenDirOnto | js/main.js:830-853 | Every direction is the outcome of some random pick 0..3. |
| Motion.Knockback | js/main.js:348-390 | Only the coordinate on the heading's axis changes. It moves by the force unless that would cross the 50px margin, and then it is set to exactly 50 or dimension-50. It always ends inside [50, dimension-50] on that side. With no flag set, nothing moves. |
| Motion.PushOut | js/main.js:404-422 | The leading edge ends flush with the obstacle's facing edge and only that axis changes, so the mover no longer overlaps the obstacle. The size is kept. With no flag set, nothing moves. |
| Motion.KeyStep | js/main.js:1159-1217 | A key press at or past the canvas edge on its side puts the player exactly on that edge. Otherwise the player moves 10px. The other axis and the size are kept. |
| Motion.KeyStepStaysNearCanvas | js/main.js:1159-1217 | A player that fits on the canvas is never carried a full step past any edge by key presses. |
| Motion.KeyStepIdempotentAtEdge | js/main.js:1159-1217 | Pressing a key against the edge a second time changes nothing. |
| Enemies.Shrunk | js/main.js:782-790 | A dead enemy's rectangle has half the width and height and the same centre. |
| Enemies.Hit | js/main.js:723-736 | A dead enemy is unchanged. A live one loses exactly the damage and is knocked back 50px along the player's facing. It is dead exactly when its health is at most 0. Once dead it has shrunk to half size around the knocked-back centre; otherwise its size is kept. |
| Enemies.TwoWeaponHitsKill | js/main.js:723-736 | A fresh 10-health enemy survives one 5-point hit and dies on the second. |
| Enemies.Turn | js/main.js:822-853 | newDirection anchors the new leg where the enemy stands and heads exactly the picked way. Position and remembered position are kept. |
| Enemies.TurnStartsLeg | js/main.js:822-853 | After a new direction the enemy stands on its new leg. |
| Enemies.PatrolStaysOnLeg | js/main.js:905-983 | The patrol step keeps an enemy on the line of its leg, on the heading's side of the anchor, less than one step beyond the 400px walk range. |
| Enemies.RightFacingNeverAdvances | js/main.js:965-981 | With the `>` test as written, a right-facing enemy on its leg never moves. |
| Enemies.Walk | js/main.js:913-980 | With no flag set the enemy stays put. Otherwise it turns (Turn with the pick) or takes one 0.6px step along its heading, keeping its leg and facing. Its remembered position is kept. |
| Enemies.Patrol | js/main.js:905-982 | The enemy remembers where it stood (prevX, prevY), then walks. Its size is kept. With no flag set, only the remembered position changes. |
| Enemies.PatrolAdvancesOrTurns | js/main.js:913-967 | Without the wander roll: heading up, the enemy steps 0.6px up exactly when y > startY - 400, and otherwise turns in place to the picked heading, re-anchored where it stands. Down steps exactly when y < startY + 400. Left steps exactly when x > startX - 400. Right steps exactly when x > startX + 400, as written. A step keeps heading and anchor. Either way the old position is remembered. |
| Enemies.PatrolWanders | js/main.js:925-927 | On the 1-in-300 roll a moving enemy ends where its walk took it, heading the second pick's way and anchored there. The old position is remembered. |
| Enemies.BounceOne | js/main.js:1007-1081 | One obstacle of a bounce loop. Without an overlap the pose is unchanged. The size and the remembered position are always kept. |
| Enemies.Bounce | js/main.js:1007-1081 | The bounce loop over a list in order, one pick per obstacle. Its properties are stated by BounceKeepsSizeAndPrev and WallBounceEndsAtStartOrPrev. |
| Enemies.BounceWithoutSnap | js/main.js:1007-1081 | Without an overlap, or with an overlap but no movement into the obstacle, facing, anchor and remembered position are kept. The box is kept too, except that the wall loop puts it back at prevX/prevY after an overlap. |
| Enemies.BounceUp | js/main.js:1016-1020 | Moving up into an overlapped obstacle: the enemy heads the picked way on a leg anchored at the snapped position, with its top 5px below the obstacle. At a door it stays there, clear of the door. At a wall the box goes back to prevX/prevY. Size and remembered position are kept. |
| Enemies.BounceDown | js/main.js:1022-1026 | The same for moving down (when the up test failed): the bottom ends 5px above the obstacle. |
| Enemies.BounceLeft | js/main.js:1028-1032 | The same for moving left (when the up and down tests failed): the left edge ends 5px right of the obstacle. |
| Enemies.BounceRight | js/main.js:1034-1038 | The same for moving right (when the other three tests failed): the right edge ends 5px left of the obstacle. |
| Enemies.WallSnapOverridden | js/main.js:1007-1045 | At a wall the enemy overlaps, it always ends at its position from before the frame's move. The 5px snap is overridden. |
| Enemies.BounceKeepsSizeAndPrev | js/main.js:1007-1081 | A whole bounce loop never resizes the enemy or changes its remembered position. |
| Enemies.WallBounceEndsAtStartOrPrev | js/main.js:1007-1045 | After the whole wall loop the enemy is where it was or at its pre-move position, never at a snapped one. |
| Enemies.Enemy.constructor | js/main.js:662-711 | A 40x40 live enemy with 10 health, anchored and remembered at its spawn point. Only the given direction's flag is set; with no direction, none is. |
| Enemies.Enemy.ClearDirection | js/main.js:813-820 | All four flags are cleared. |
| Enemies.Enemy.NewDirection | js/main.js:822-853 | The new state is Turn of the old one with the pick. |
| Enemies.Enemy.Knockback | js/main.js:738-780 | The new position is Motion.Knockback of the old one along the player's facing. |
| Enemies.Enemy.Die | js/main.js:782-790 | The enemy is dead and its rectangle is Shrunk of the old one. |
| Enemies.Enemy.TakeDamage | js/main.js:723-736 | The new box, alive flag and health are Hit of the old ones. |
| Enemies.Enemy.PatrolStep | js/main.js:905-983 | A live enemy's new state is Patrol of the old one with the picks and the roll. A dead enemy is unchanged. |
| Enemies.Enemy.BounceOff | js/main.js:1007-1045 | The new state is BounceOne of the old one against the obstacle. |
| Enemies.Enemy.BounceOffAll | js/main.js:1007-1081 | The new state is Bounce of the old one over the list, one pick per obstacle. |
| Enemies.Enemy.PatrolFrame | js/main.js:866-1081 | One patrol-state frame of render: the patrol step, then the wall loop, then the door loop. The new state is Frame of the old one. |
| Enemies.Frame | js/main.js:866-1081 | One patrol-state frame on values: Patrol for a live enemy, then Bounce over the walls with the prev restore, then over the doors without it. Its properties are stated by FrameRemembersStart. |
| Enemies.FrameRemembersStart | js/main.js:905-1081 | A live enemy's patrol frame keeps its size and remembers where the frame began. After the wall loop it is where its step took it or back where it began. |
| Rooms.PillarWalls | js/main.js:146-155 | One wall per pillar entry, in order, at the entry's grid coordinates times 50. |
| Rooms.RowContents | js/main.js:112-122 | A border row has 11 tiles. A tile is in it exactly when it is the 50px tile in one of its columns 0..10. |
| Rooms.ColumnContents | js/main.js:124-144 | A tile is in a side column exactly when it is in one of rows 1..8 and, if the column is open, not in row 4 or 5. |
| Rooms.ColumnSize | js/main.js:124-144 | A side column has 8 walls, or 6 when it is open for doors. |
| Rooms.BorderWalls | js/main.js:112-144 | The border in push order: the top row, the bottom row, the left column (open at rows 4-5 outside the start room), the right column (always open there). Its properties are stated by RowContents, ColumnContents, BorderWallCount and NoWallOnDoor. |
| Rooms.FloorColumns | js/main.js:159-177 | The floor tiles in push order, column by column, eight per column. Its properties are stated by FloorsInsideBorder. |
| Rooms.DoorTiles | js/main.js:186-203 | The door rectangles in push order: the left pair outside the start room, then the right pair. Its properties are stated by DoorsFillGap and NoWallOnDoor. |
| Rooms.BorderWallCount | js/main.js:107-144 | The border has 36 walls in the start room, whose left side is closed, and 34 in every other room. |
| Rooms.DoorsFillGap | js/main.js:179-206 | The open side column plus its two doors covers exactly the tiles of the full column. |
| Rooms.NoWallOnDoor | js/main.js:107-206 | No border wall overlaps any door, on a canvas at least 100px wide and 350px tall. |
| Rooms.FloorsInsideBorder | js/main.js:159-177 | Every floor tile is a 50px tile whose corner lies between (50, 50) and (400, 400). |
| Rooms.FloorContents | js/main.js:159-177 | The floor of n columns has 8n tiles. A tile is in it exactly when it is the 50px tile at (50i, 50j) for some 1 <= i <= n and 1 <= j <= 8. |
| Rooms.Door.constructor | js/main.js:1108-1112 | A door at the given position starts unlocked. |
| Rooms.Door.Locked | js/main.js:1114-1124 | The door is locked. |
| Rooms.Door.Unlocked | js/main.js:1126-1136 | The door is unlocked. |
| Rooms.Door.Render | js/main.js:1138-1152 | The door is locked exactly when the current scene's enemy list, corpses included, is non-empty. |
| Rooms.Scene.constructor | js/main.js:87-96 | A named scene with empty wall, floor, door, prevDoors, nextDoors and enemy lists. |
| Rooms.Scene.PushRow | js/main.js:114-122 | One row loop appends exactly the 11 tiles of the row at y, in order. |
| Rooms.Scene.PushColumn | js/main.js:124-144 | One column loop appends exactly the column's tiles, skipping rows 4 and 5 when it is open. |
| Rooms.Scene.PushPillars | js/main.js:147-153 | The pillar loop appends exactly one wall per pillar, in order. |
| Rooms.Scene.MakeWalls | js/main.js:107-157 | The walls are exactly the border walls followed by one wall per pillar. |
| Rooms.Scene.MakeFloors | js/main.js:159-177 | The floors are the 8x8 grid, column by column from (50, 50). |
| Rooms.Scene.NewDoorPair | js/main.js:189-194 | One side's loop over rows 4 and 5 makes two distinct new unlocked doors, at y=200 and y=250. |
| Rooms.Scene.NewDoors | js/main.js:186-203 | Outside the start room the left pair comes first, then the right pair. The boxes are the room's door tiles, and all the doors are distinct, new and unlocked. |
| Rooms.Scene.MakeDoors | js/main.js:179-206 | A non-start room gets 4 doors. The 2 at x=0 are appended to prevDoors and the 2 at x=W-50 to nextDoors, in rows 4 and 5 (y=200 and y=250). The start room gets only the 2 next doors. All doors are distinct, new and unlocked. |
| Rooms.Scene.MakeEnemies | js/main.js:209-212 | The roster is the given list. |
| Rooms.Scene.MakeScene | js/main.js:98-105 | The walls, floors, doors and roster are those of the three builders and the given enemies. The doors are new, unlocked and pairwise distinct. |
| Rooms.Scene.RenderDoors | js/main.js:60 | Every door of the scene is locked exactly when the current scene has enemies left. |
| SceneManagers.Step | js/main.js:31-55 | nextScene and lastScene move the index by exactly +1 or -1 and set the latch, but only while it is clear. A set latch ignores them. loadScene clears the latch and keeps the index. |
| SceneManagers.OneMovePerLoad | js/main.js:31-55 | Between two loads, a set latch stays set and unchanged through every door event. A clear one takes the first event only. |
| SceneManagers.IndexMovesAtMostOne | js/main.js:31-55 | Between two loads the index moves by at most one. When it moves, the latch was clear and is now set. |
| SceneManagers.SceneManager.constructor | js/main.js:24-29 | The manager holds the scene list, starts at index 0 with the latch clear, and has no scene loaded. |
| SceneManagers.SceneManager.NextScene | js/main.js:31-39 | The new index and latch are Step of the old ones with a Next event. |
| SceneManagers.SceneManager.LastScene | js/main.js:41-49 | The new index and latch are Step of the old ones with a Last event. |
| SceneManagers.SceneManager.LoadScene | js/main.js:51-60 | The scene at the index becomes current and the latch is cleared. Its doors are locked exactly while it has enemies. |
| Weapons.WeaponPlacement | js/main.js:549-576 | The weapon hitbox sits against the player's facing edge, reaches 30px out, is 15px across, and is offset by a quarter of the player's size. It never overlaps the player. With no flag set it stays where it was. |
| Weapons.ShieldPlacement | js/main.js:611-638 | The shield hitbox sits against the player's facing edge, stands 15px out, spans 30px along that edge, and is level with the player's corner. It never overlaps the player. With no flag set it stays where it was. |
| Weapons.FirstOverlap | js/main.js:579-595 | The position of the first rectangle the hitbox overlaps, with none before it; -1 exactly when none overlaps. |
| Weapons.Weapon.constructor | js/main.js:538-543 | A 30x15 inactive hitbox against the player's right edge, a quarter of the way down. |
| Weapons.Weapon.Place | js/main.js:549-576 | The new hitbox is WeaponPlacement of the old one for the player and its facing. |
| Weapons.Weapon.Strike | js/main.js:579-595 | An active weapon hits only the first enemy it overlaps, which takes the weapon's damage as in Hit. The weapon is then inactive. Every other enemy is untouched, and with no overlap the weapon stays active. Only the fields takeDamage writes can change. |
| Weapons.Weapon.Render | js/main.js:545-596 | The hitbox is placed for the facing. An active weapon hits only the first enemy it overlaps, which takes the weapon's damage as in Hit. The weapon is then inactive. Every other enemy is untouched, and with no overlap the weapon stays active. |
| Weapons.Shield.constructor | js/main.js:601-605 | A 30x15 hitbox against the player's right edge with the given block power; `active` is false and nothing ever sets it. |
| Weapons.Shield.Render | js/main.js:607-657 | The hitbox is placed for the facing. The shield never damages, kills, resizes or turns an enemy. While inactive, which is always, no enemy changes at all. |
| Players.WallPhase | js/main.js:395-425 | The wall pass in list order. A player that overlaps no wall is not moved. |
| Players.WallPhaseAt | js/main.js:395-425 | One step of the wall pass composes with the rest of the pass. |
| Players.WallPhaseStill | js/main.js:395-425 | With no movement flag set, no wall moves the player. |
| Players.WallPhaseAxis | js/main.js:395-425 | The wall pass never resizes the player and moves it only along its movement axis. |
| Players.WallPhaseFlush | js/main.js:404-422 | Against a wall it overlaps while moving in direction D, the player's edge for D ends exactly flush with the wall's opposite edge (up gives y = wall.bottom, down gives y = wall.top - height, and so on), and they no longer overlap. |
| Players.Hurt | js/main.js:443-447 | A live enemy's contact costs 5 health and knocks the player back 50px along the enemy's facing. Gold and size are kept. |
| Players.Meet | js/main.js:431-447 | Against an enemy it does not overlap the player is unchanged. An overlapped corpse pays 2 gold and nothing else. An overlapped live enemy deals Hurt along its facing. |
| Players.ContactAt | js/main.js:428-447 | Meeting enemy j and carrying on from enemy j+1 finishes the same pass. A collected enemy is spliced out of the list, and any other enemy joins the kept prefix. |
| Players.Contact | js/main.js:428-472 | The enemy pass in list order over what each enemy looks like. Its properties are stated by ContactSparesLive, ContactKeepsOrder, ContactWithoutCorpses and ContactPays. |
| Players.Collects | js/main.js:431-441 | The player picks up an enemy exactly when their boxes overlap and the enemy is dead. Meet and Contact branch on it. |
| Players.ContactSparesLive | js/main.js:428-472 | The contact pass keeps every live enemy and adds none, so every enemy it drops was a corpse. |
| Players.ContactKeepsOrder | js/main.js:428-472 | The kept enemies are the old list with some left out, in the old order. |
| Players.ContactWithoutCorpses | js/main.js:428-472 | A list without corpses comes out of the pass unchanged. |
| Players.ContactPays | js/main.js:428-472 | Each corpse dropped pays exactly 2 gold. Health never rises and falls in steps of 5. The player keeps its size. |
| Players.DoorStep | js/main.js:478-530 | One door. Without an overlap nothing changes. A locked door gives exactly PushOut of the player against the door: clear of it when moving, in place when standing. The latch is kept. An unlocked previous door puts the player at (415, 235) and steps the latch back. An unlocked next door puts it at (55, 235) and steps forward. The player's size is kept. |
| Players.DoorPhase | js/main.js:475-532 | The door pass in list order keeps the player's size. Its other properties are stated by DoorPhaseMovesAtMostOne and LockedDoorsHoldScene. |
| Players.DoorPhaseMovesAtMostOne | js/main.js:475-532 | However many doors the player touches in one pass, the scene index moves by at most one scene, and only if the latch was clear. |
| Players.LockedDoorsHoldScene | js/main.js:484-507 | While every door is locked, walking into doors never changes scene. |
| Players.Player.constructor | js/main.js:258-271 | A 30x30 player at the given position with 0 gold and 100 health, facing nowhere, neither attacking nor blocking. |
| Players.Player.Direction | js/main.js:278-315 | Exactly one movement flag is set, the one for d, and reading the direction back gives d. |
| Players.Player.TakeDamage | js/main.js:322-330 | Health drops by exactly the damage. |
| Players.Player.Knockback | js/main.js:348-390 | The new position is Motion.Knockback of the old one along the enemy's facing with force 50. |
| Players.Player.Suffer | js/main.js:443-447 | The new box, health and gold are Hurt of the old ones. |
| Players.Player.KeyDown | js/main.js:1159-1217 | The player faces d and its new box is KeyStep of the old one. |
| Players.Player.Attack | js/main.js:337-341 | The player is attacking and its weapon is active. |
| Players.Player.Block | js/main.js:343-346 | The player is blocking. |
| Players.Player.CollideWalls | js/main.js:395-425 | The new box is WallPhase of the old box over the walls, in list order. |
| Players.Player.CollideEnemies | js/main.js:428-472 | The new box, health, gold and enemy list are Contact of the old ones, over what each enemy looked like at the start of the pass. |
| Players.Player.MeetEnemy | js/main.js:431-447 | The new box, health and gold are Meet of the old ones against enemy i. The enemy is spliced out of the list exactly when the player collects it, and otherwise the list is unchanged. |
| Players.Player.PassDoor | js/main.js:478-530 | The new box and scene latch are DoorStep of the old ones at this door. |
| Players.Player.CollideDoors | js/main.js:475-532 | The new box and scene latch are DoorPhase of the old ones over the scene's doors. |
| Players.Player.IsCollidingWith | js/main.js:392-534 | The walls pass runs, then the enemy pass from where the walls left the player, then the door pass from where the enemies left it. All three use the manager's current scene, which stays the same scene. |

## Left out

- Canvas drawing, colours, `getComputedStyle` and `console.log`. They are rendering and output, not logic.
- The DOM listeners and `requestAnimationFrame`. A key press is `Player.KeyDown`, a click is `Player.Attack` and an auxiliary click is `Player.Block`. The guards the listeners put around the last two are not modelled.
- The `setTimeout` resets of `attacking` and `blocking` in `loadScene`. They are wall-clock timers.
- loadScene's rendering of floors, walls and enemies, and its calls to the weapon and shield render. `Weapons.Weapon.Render` and `Weapons.Shield.Render` are modelled on their own and take the current scene's enemy list as an argument.
- Enemy chase movement, the attack state, and the sight and attack-range selection (`distanceToPlayer`, `Math.sqrt`). They are floating point. `Enemies.Enemy.PatrolFrame` is `render` in the patrol state: the patrol branch for a live enemy, then the wall and door loops, with the doors passed as their rectangles. The switch between states and the `damaged` colour are not modelled.
- `Math.random`. It is a `Choice` or `wander` parameter.
- Floating-point rounding. JavaScript numbers are binary doubles, so repeated 0.6px steps drift from the exact sums the model computes. Where a position lands exactly on an edge or on the end of the walk range, the strict overlap test and the range tests can then decide the other way in the game than in the model.
- `Player.die`. It is an empty placeholder, so `Players.Player.TakeDamage` only lowers health.
- Players.Player.MeetEnemy: splices out index i, where the code splices out `indexOf(enemy)`. The two agree while each enemy appears in the list once, as every scene builds it.
- Players.Player.CollideEnemies: when a corpse is spliced out mid-`forEach`, JavaScript skips the enemy that slides into its place until the next frame. The model visits every enemy of the list once, so that enemy's contact takes effect in the same pass.
- SceneManagers.SceneManager.NextScene: the last room also has next doors. The game would then look up a scene past the end of the list, and `loadScene` would fail on it. The model lets the index leave the list, and `LoadScene` requires it to be in range.
- Rooms.PillarWalls: the game skips falsy pillar entries (`if (wall)`). In the model every entry is a coordinate pair, which JavaScript never treats as falsy, so every entry becomes a wall.
- Weapons.Shield.Render: for an active shield the model does not state where the pushed enemies end up, only that the push changes no enemy's health, life, size or facing. In the game the shield is never active.
- The `Wall` and `Floor` classes are plain 50x50 rectangles: `Geometry.TileAt`.
- `Player.position`, `Enemy.position`, `type()` and the unused enemy fields (`moveStates`, `destination*`, `weapon`, `attacking`, `damaged`). They carry no logic that this model uses.
