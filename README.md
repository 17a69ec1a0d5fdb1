# Battle City simulation rules in Dafny

A model of the simulation core of a tile-based tank game (a Battle City clone written in
TypeScript), with proofs of its rules. The battlefield is a grid of 26 x 26 cells of 30 pixels,
drawn two cells into the canvas. Tanks move over it, change direction, fire bullets and collect
bonuses. Bullets fly until they leave the field or reach terrain they cannot cross. Where they
hit, they erode brick (and, at the top tier, stone). Explosions are short frame timers.

One module per source file:

| module | file | form |
|---|---|---|
| `Types`, `Config` | src/types.ts, src/config.ts | constants and value types |
| `TileMap` | src/map.ts | class `Map` over `seq<seq<TileType>>`: pure lookups, the erosion loop as a method |
| `Bullets` | src/bullet.ts | class `Bullet` (constant identity, mutable position) |
| `Tanks` | src/tank.ts | class `Tank`, one method per state change |
| `TankEnemies` | src/tankEnemy.ts | class `TankEnemy` holding its `Tank` |
| `Bonuses` | src/bonus.ts | class `Bonus` with constant fields |
| `Explosions`, `ExplosionBases` | src/explosion.ts, src/explosionBase.ts | timer classes with an invariant `Valid()` |

Coordinates are exact `real`s. `Math.floor` is `.Floor`. `Math.round(v)` is `floor(v + 0.5)`.
`clamp(v, lo, hi)` is `min(max(v, lo), hi)`. Each value of `Math.random()` becomes a parameter
in [0, 1): `idDraw` for bullet IDs, `directionDraw` and `dwellDraw` for enemy turns.

Tile erosion is stated at three levels. `TileMap.Erode` says what one hit leaves of one tile;
the lemmas beside it state the per-tile rules (two light hits take an intact brick to a stump
and then to EMPTY). The pure function `TileMap.ErodeCorners` says what a list of corners does to
the grid, and the method `Map.DoCollision` is proved to compute exactly that. The lemmas about
`ErodeCorners` state the grid-level rules: corners outside the array change nothing, and a
front-corner hit changes exactly two adjacent cells.

Points of the code's behaviour that are easy to misread, stated as the code has them:

- `setDirection` (src/tank.ts:176) snaps to the grid when *both* absolute components change. For
  axis vectors that is a perpendicular turn; a 180-degree reversal does not snap
  (`Tanks.SnapsExactlyOnPerpendicularTurn`).
- The `Tank` constructor leaves the bullet tier at 0 whatever level it is given. Only
  `updateTankLevel` sets the tier that goes with the level. So the model's invariant is
  `bulletType <= TierForLevel(level)`, not equality.
- An explosion shows frame 3 when its timer is exactly 300, although `ExplosionFrames` is 0..2.
  The base explosion shows frame 9 at exactly 900, one past its nine-entry tables. The model
  states the true bounds (`Explosions.FrameBound`, `ExplosionBases.FrameBound`).
- An enemy replaces `Tank.update`, so its helmet timer is never counted down. It starts with the
  helmet off and the timer still at 3000.
- The bullet list that `fire` pushes onto is shared by the whole game. The model makes it an
  object, `Bullets.BulletList`, that `Tank.Fire` modifies.

## Model

| member | source | states |
|---|---|---|
| `TileMap.Map.constructor` | src/map.ts:9-11 | the map holds exactly the given tile rows |
| `TileMap.Map.DoCollision` | src/map.ts:82-120 | with no corners (a non-axis bullet) nothing changes; otherwise the tiles become the in-order erosion of every corner's cell |
| `TileMap.CellIndex` | src/map.ts:61-62 | the cell index k of a canvas coordinate v is the one whose cell, past the 60-pixel border, contains v: 60 + 30k <= v < 60 + 30(k + 1) |
| `TileMap.Map.IsWalkable` | src/map.ts:60-69 | a walkable point is flyable; a WATER cell is not walkable (the full rule is `TileMap.WalkableIff`) |
| `TileMap.Map.IsFlyable` | src/map.ts:71-80 | STONE, BRICK and every brick stump stop a bullet (the full rule is `TileMap.FlyableIsWalkableOrWater`) |
| `TileMap.WalkableIff` | src/map.ts:60-69 | isWalkable holds iff the cell (floor(y/30)-2, floor(x/30)-2) is outside the array or holds EMPTY, BUSH or ICE |
| `TileMap.FlyableIsWalkableOrWater` | src/map.ts:60-80 | walkable implies flyable; flyable iff walkable or WATER; they differ exactly on WATER cells |
| `TileMap.OutsideGridIsPassable` | src/map.ts:60-80 | points left of or above the grid and points outside the array are walkable and flyable |
| `TileMap.LightHitOnBrick` | src/map.ts:94-113 | tier 0/1: a stump becomes EMPTY; intact brick becomes the stump of the travel direction (up 9, left 8, down 7, right 6); a non-axis direction leaves brick |
| `TileMap.LightHitSparesOtherTiles` | src/map.ts:94-114 | tier 0/1 changes only brick and stumps, and never STONE |
| `TileMap.HeavyHit` | src/map.ts:115-116 | tier 2 clears STONE, BRICK and every stump and leaves every other tile (WATER, BUSH, ICE, base tiles) unchanged |
| `TileMap.BrickTakesTwoLightHits` | src/map.ts:94-114 | two tier 0/1 hits take BRICK to a stump and then to EMPTY |
| `TileMap.Erode` | src/map.ts:94-117 | a hit leaves a tile, clears it, or turns intact brick into a stump; nothing is ever restored |
| `TileMap.ErodeAsWritten` | src/map.ts:94-117 | the as-written step can throw only on a tier 0/1 hit on intact brick |
| `TileMap.ErodeCorners` | src/map.ts:87-119 | erosion of any list of corners keeps the number of rows and every row's length |
| `TileMap.ErodeAsWrittenThrowsOnBrick` | src/map.ts:97-98 | the code as written throws exactly on a tier 0/1 hit on intact brick, and otherwise agrees with the intended erosion |
| `TileMap.ErodeCornerEffect` | src/map.ts:88-117 | one corner changes only the in-array, non-EMPTY cell under it, to its eroded tile |
| `TileMap.ErodeCornersOutside` | src/map.ts:86-120 | corners outside the array change nothing |
| `Bullets.Bullet.constructor` | src/bullet.ts:36-45 | position, direction, owner, tier and team are stored as given; the ID lies in 0..999999 |
| `Bullets.Bullet.Move` | src/bullet.ts:90-146 | the position advances by speed * dt along the direction before any check; explodes iff out of the field or over a non-flyable corner; the point is the new position, or None |
| `Bullets.Bullet.WantsToMove` | src/bullet.ts:148-158 | the position advances by speed * dt along the direction; returns the bullet itself |
| `Bullets.Bullet.HitboxCoordinates` | src/bullet.ts:160-167 | four distinct points, each a corner of the 30-pixel square whose top-left is the bullet's position: left-top (x, y), then one on the top edge, right-bottom (x + 30, y + 30), then one on the left edge, i.e. right-top and left-bottom |
| `Bullets.Bullet.FrontCorners` | src/bullet.ts:169-194 | two distinct corners exactly when the direction is an axis vector, none otherwise (which two: `Bullets.FrontCornersLead`) |
| `Bullets.SpeedOf` | src/bullet.ts:20-43 | every tier's speed lies between 0.3 and 1.2 px/ms; every bullet's `speed` field is defined as `SpeedOf` of its tier, so it is known for fired bullets too |
| `Bullets.SpeedTable` | src/bullet.ts:20-43 | the tiers fly at 0.3, 0.75 and 1.2 px/ms, faster with each tier |
| `Bullets.FrontCornersAreHitboxCorners` | src/bullet.ts:160-194 | front corners exist iff the direction is an axis vector; there are two, and both are hit box corners |
| `Bullets.FrontCornersLead` | src/bullet.ts:169-194 | the front corners lie on the leading edge of the half-size box, CELL_SIZE apart across the travel axis |
| `Bullets.FrontCornersInAdjacentCells` | src/bullet.ts:169-194 | the two front corners fall in two distinct, side-by-side cells |
| `Bullets.FrontHitErodesTwoCells` | src/map.ts:83-120 | a hit erodes exactly the two cells under the front corners, each independently, and keeps every other cell and the grid's shape |
| `Tanks.Tank.constructor` | src/tank.ts:36-45 | a tank at rest: 3 lives, tier 0, helmet on for 3000 ms, the given ID, level, position, direction and team |
| `Tanks.Tank.Lives` | src/tank.ts:62-64 | lives reported in 0..9, equal to the field under the invariant |
| `Tanks.Tank.UpdateTankLives` | src/tank.ts:66-68 | lives become clamp(lives + dL, 0, 9); the invariant is kept |
| `Tanks.Tank.Update` | src/tank.ts:70-81 | with the helmet on: the timer drops by dt and the sprite index rises; at timer <= 0 the helmet is off and timer and index are 0; the timer is never negative |
| `Tanks.Tank.SetHelmetMode` | src/tank.ts:83-87 | helmet on, timer 10000, sprite index 0 |
| `Tanks.Tank.UpdateTankLevel` | src/tank.ts:89-103 | level becomes min(level + 1, 3); tier becomes that level's |
| `Tanks.Tank.TankWantsToMove` | src/tank.ts:148-168 | the own position when not moving; otherwise the clamped proposal at speed * dt; the position never changes; once the accumulated tread time reaches 80 the frame flips and the timer restarts at 0 (the overshoot is dropped); below 80 the timer grows by dt |
| `Tanks.Tank.TankSpeed` | src/tank.ts:143-146 | the speed lies between 0.1 and 0.1 * 2.2 px/ms (per level: `Tanks.SpeedByLevel`) |
| `Tanks.Tank.DoTankMove` | src/tank.ts:170-173 | the position becomes exactly the arguments |
| `Tanks.Tank.SnapToGrid` | src/tank.ts:182-185 | both coordinates are rounded to the nearest multiple of 30 |
| `Tanks.Snap` | src/tank.ts:182-185 | a snapped coordinate is within half a cell (15) of the original |
| `Tanks.Tank.SetDirection` | src/tank.ts:175-180 | the new vector is always installed; the position snaps iff both absolute components change, and is untouched otherwise |
| `Tanks.Tank.SetMoving` | src/tank.ts:187-189 | the moving flag becomes the argument |
| `Tanks.Tank.Fire` | src/tank.ts:191-224 | the shared list is unchanged at level 0/1 with an own bullet in flight or at level 2/3 with two; otherwise one fresh bullet with this ID, team, direction and tier is pushed at the muzzle, after the prior entries |
| `Tanks.Muzzle` | src/tank.ts:197-220 | a new bullet starts inside the tank's square, offset only along the firing axis (x by up to 15, y by up to 30) |
| `Tanks.LivesSaturate` | src/tank.ts:62-68 | gaining or losing a life keeps lives in 0..9, saturating at 9 and at 0 |
| `Tanks.LevelUpTable` | src/tank.ts:89-103 | a level up gives min(level + 1, 3); tiers are 0, 1, 1, 2 for levels 0 to 3 |
| `Tanks.SpeedByLevel` | src/tank.ts:143-146 | speed is 0.22 (0.1 * 2.2) at level 1 and 0.1 at every other level |
| `Tanks.ProposalInField` | src/tank.ts:160-163 | a proposed position lies in [60, 780] on both axes |
| `Tanks.ProposalFollowsDirection` | src/tank.ts:160-163 | inside the field, an unclamped proposal moves by exactly speed * dt along the direction and keeps the cross-axis coordinate |
| `Tanks.SnapsExactlyOnPerpendicularTurn` | src/tank.ts:175-180 | between axis vectors the snap happens iff the turn is perpendicular; a reversal or repeat never snaps |
| `Tanks.SnapIsNearestGridLine` | src/tank.ts:182-185 | a snapped coordinate is a multiple of 30, and snapping is idempotent |
| `Tanks.HasOwnedIffOwnedByNonEmpty` | src/tank.ts:193-195 | `some` over the owner's bullets agrees with a non-empty filter |
| `Tanks.OwnedByAppend` | src/tank.ts:195-223 | appending a bullet adds it to its owner's filter and to no other |
| `Tanks.OwnedByIsOwned` | src/tank.ts:195 | every filtered bullet is in the list and has this owner |
| `Tanks.FireKeepsInFlightCap` | src/tank.ts:191-223 | an accepted shot adds exactly one to the owner's count, which stays within 1 (levels 0-1) or 2 (levels 2-3) |
| `Tanks.SingleShotCap` | src/tank.ts:193 | at level 0 or 1, firing is refused iff an own bullet is in flight |
| `TankEnemies.RandomDirection` | src/tankEnemy.ts:48-56 | the picked direction is always up, down, left or right |
| `TankEnemies.RandomDirectionQuarters` | src/tankEnemy.ts:48-56 | each quarter of [0, 1) picks its own direction, so all four are reachable |
| `TankEnemies.TankEnemy.constructor` | src/tankEnemy.ts:7-28 | an enemy starts moving, with the helmet off and a dwell timer of 100 |
| `TankEnemies.TankEnemy.Update` | src/tankEnemy.ts:38-46 | while the dwell timer is positive it drops by dt and nothing else changes; otherwise the tank turns to an axis direction as setDirection does and the timer restarts in [1000, 3000); the helmet timer never changes |
| `Bonuses.Bonus.constructor` | src/bonus.ts:10-14 | type and position are stored as given (`getType` is the `bonusType` field) |
| `Bonuses.Bonus.ApplyBonus` | src/bonus.ts:16-18 | the result is the callback applied exactly once |
| `Bonuses.Bonus.HasCollision` | src/bonus.ts:31-41 | false for null; otherwise true iff the positions are less than 60 apart on both axes |
| `Bonuses.CollisionIsSymmetric` | src/bonus.ts:34-39 | swapping the bonus position and the query point does not change the answer |
| `Bonuses.CollisionEdgeCases` | src/bonus.ts:31-41 | a query at the bonus position collides; squares that only touch do not |
| `Explosions.Explosion.constructor` | src/explosion.ts:16-19 | timer 0, frame 0, not done; the invariant holds |
| `Explosions.Explosion.Update` | src/explosion.ts:34-42 | the timer grows by dt; past 300 done with the frame frozen, else the frame follows the timer; for dt >= 0 the invariant holds, frames never go back and done stays done |
| `Explosions.Explosion.IsFinished` | src/explosion.ts:44-46 | under the invariant, finished exactly when the timer has passed 300 |
| `Explosions.FrameAt` | src/explosion.ts:40 | the frame f shown at a timer value is the one whose 100 ms slot contains it: 100f <= timer < 100(f + 1) |
| `Explosions.FrameBound` | src/explosion.ts:37-41 | before done the frame is in 0..3, and 3 only at timer exactly 300 |
| `Explosions.FrameMonotone` | src/explosion.ts:40 | the frame is non-decreasing in the timer |
| `ExplosionBases.ExplosionBase.constructor` | src/explosionBase.ts:22-35 | timer 0, frame 0, not done; the invariant holds |
| `ExplosionBases.ExplosionBase.Update` | src/explosionBase.ts:47-55 | the timer grows by dt; past 900 done with the frame frozen, else the frame follows the timer; for dt >= 0 the invariant holds and done stays done |
| `ExplosionBases.ExplosionBase.IsFinished` | src/explosionBase.ts:57-59 | under the invariant, finished exactly when the timer has passed 900 |
| `ExplosionBases.FrameAt` | src/explosionBase.ts:53 | the frame f shown at a timer value is the one whose 100 ms slot contains it: 100f <= timer < 100(f + 1) |
| `ExplosionBases.BaseFootprint` | src/explosionBase.ts:4-20 | the base is the 60-pixel square at (420, 780), cells 12 and 24 past the border |
| `ExplosionBases.TablesHaveNineEntries` | src/explosionBase.ts:23-33 | every per-frame table has exactly 9 entries |
| `ExplosionBases.FrameBound` | src/explosionBase.ts:47-55 | before done the frame is in 0..9; frame 9, only at timer exactly 900, is outside the tables |
| `ExplosionBases.FrameMonotone` | src/explosionBase.ts:53 | the frame is non-decreasing in the timer |

## Findings

| source | as written | input that shows it | evidently intended | confidence | as-written member | corrected member |
|---|---|---|---|---|---|---|
| src/map.ts:98 | `doCollision` calls `bullet.directonToString()`, but Bullet only defines `directionToString` (src/bullet.ts:67), so the call throws a TypeError | a tier 0 or 1 bullet whose front corner lies on an intact BRICK cell | the switch at src/map.ts:100-113 on the bullet's direction, leaving the directional stump | high; not executed | `TileMap.ErodeAsWrittenThrowsOnBrick` | `TileMap.LightHitOnBrick` |

`TileMap.ErodeAsWritten` models the per-tile step as written (None stands for the exception).
`TileMap.Erode`, which `DoCollision` uses, is the intended behaviour.

## Left out

- Drawing: every `draw`, `drawBottomLayer` and `drawTopLayer`, src/renderer.ts, and the sprite tables and offset getters (`getSpriteOffetX/Y`, `getStringDirecrtion`, `tileSpritePosition`, `bulletWithDirection`, `matchNumbers`, `tileBonusPossition`). They only render.
- src/main.ts, src/main_canvas.ts, src/main_html.ts and src/inputManager.ts: DOM setup, animation-frame loops and keyboard wiring.
- The per-frame arbiter, earth-works, base destruction and the bonus effect table are not in these files and are not part of this model.
- `Math.random()`: each draw is a parameter in [0, 1). Uniqueness of the random bullet IDs is not modelled.
- Floating point: speeds, positions and timers are exact reals (0.1 * 2.2 is exactly 0.22); IEEE-754 rounding is not modelled.
- `clamp` from gamekit-utils is not part of this model; it is taken as min(max(v, lo), hi).
- Aliasing: `getMapArray` hands out the live tile array, which callers may mutate. `Map.tiles` is a value field, so outside writes to it are not modelled. `length` and `getMapArray` are reads of that field.
- TileMap.Map.DoCollision: models the intended erosion. The as-written crash is modelled per tile only. The grid left behind when the second corner throws after the first was eroded is not modelled.
- Map.doCollision takes the bullet itself. map.ts and bullet.ts import each other, so the model passes what the code reads from the bullet instead: its front corners, tier and direction.
- Inheritance: `TankEnemy` holds a `Tank` rather than extending it. Its `update` override is `TankEnemy.Update`.
- `updateTankGun` has an empty body: there is nothing to model.
- Getters (`getTeam`, `getID`, `getPosition`, `getBelongsTo`, `getCoordinates`, `getHitbox`, `getDirection`, `getBulletType`, `getType`): these are the classes' fields, stored as the constructors' contracts state. `directionToString` is the `Direction` value itself.
- Bonuses.Bonus.ApplyBonus: the code's callback takes no argument and works by side effects; the model passes it the state it changes and returns the result.
- Tanks.Tank.Fire: the shared bullet list is a `BulletList` object modified in place, so every holder sees the new bullet. Other mutations of the list (removal of exploded bullets) belong to the game loop, which is not part of this model.
- Default parameters: the defaults of the `Tank` and `TankEnemy` constructors (level 0, position (0, 0), direction (0, 1)) and of the `Bullet` constructor (tier 0) are not modelled; the model's constructors take every argument explicitly.
