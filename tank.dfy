/** Tanks (tank.ts): lives, level, helmet countdown, move proposals, direction changes and firing. */
module Tanks {
  import opened Types
  import opened Config
  import Bullets

  type TankLevel = l: int | 0 <= l <= 3
  /** Index of the two-frame tread animation. */
  type SpriteFrame = f: int | 0 <= f <= 1

  /** Side of a tank (60). */
  const SIZE: real := CELL_SIZE * 2.0
  /** Base speed in pixels per millisecond, and the factor applied at level 1. */
  const TANK_VELOCITY: real := 0.1
  const VELOCITY_MULTIPLIER: real := 2.2
  const MAX_LIVES: int := 9
  const MAX_LEVEL: int := 3
  const INITIAL_LIVES: int := 3
  const SPAWN_HELMET_TIME: real := 3000.0
  const BONUS_HELMET_TIME: real := 10000.0
  /** Smallest and largest x (or y) of a tank's top-left corner: the field less the tank's size (60 and 780). */
  const MIN_POS: real := CELL_SIZE * 2.0
  const MAX_POS: real := GRID_SIZE - SIZE + CELL_SIZE * 2.0

  /** `clamp(v, lo, hi)` as min(max(v, lo), hi). */
  function ClampInt(v: int, lo: int, hi: int): (r: int) {
    var m := if v < lo then lo else v;
    if m > hi then hi else m
  }

  function Clamp(v: real, lo: real, hi: real): (r: real) {
    var m := if v < lo then lo else v;
    if m > hi then hi else m
  }

  function Abs(v: int): (a: nat) {
    if v < 0 then -v else v
  }

  /** The bullet tier that goes with a tank level. */
  function TierForLevel(level: TankLevel): (t: BulletType) {
    match level
    case 0 => 0
    case 1 | 2 => 1
    case 3 => 2
  }

  /** `Math.round(v)`, which rounds halves up. */
  function Round(v: real): (n: int) {
    (v + 0.5).Floor
  }

  /** A coordinate moved to the nearest multiple of CELL_SIZE. */
  function Snap(v: real): (s: real)
    ensures v - CELL_HALF_SIZE < s <= v + CELL_HALF_SIZE
  {
    Round(v / CELL_SIZE) as real * CELL_SIZE
  }

  /** setDirection snaps to the grid when both components change in absolute value. */
  predicate SnapsOnTurn(from: Direction, to: Direction) {
    Abs(from.dx) != Abs(to.dx) && Abs(from.dy) != Abs(to.dy)
  }

  /** Where a tank at (x, y) asks to go when it covers `distance` along `dir`: clamped to the field. */
  function ProposedMove(x: real, y: real, distance: real, dir: Direction): (p: Point) {
    Point(Clamp(x + distance * dir.dx as real, MIN_POS, MAX_POS), Clamp(y + distance * dir.dy as real, MIN_POS, MAX_POS))
  }

  /** Where a new bullet appears, from the tank's corner and direction. */
  function Muzzle(x: real, y: real, dir: Direction): (p: Point)
    ensures x <= p.x <= x + CELL_HALF_SIZE && y <= p.y <= y + CELL_SIZE
    ensures dir.dx == 0 ==> p.x == x
    ensures dir.dy == 0 ==> p.y == y
  {
    if dir == LEFT then Point(x, y)
    else if dir == RIGHT then Point(x + CELL_HALF_SIZE, y)
    else if dir == UP then Point(x, y)
    else if dir == DOWN then Point(x, y + CELL_HALF_SIZE * 2.0)
    else Point(x, y)
  }

  /** The bullets fired by the tank with this ID, in order (`bullets.filter(b => b.getBelongsTo() === id)`). */
  function OwnedBy(bullets: seq<Bullets.Bullet>, id: int): (owned: seq<Bullets.Bullet>)
    decreases |bullets|
  {
    if bullets == [] then []
    else
      var last := bullets[|bullets| - 1];
      OwnedBy(bullets[..|bullets| - 1], id) + if last.belongTo == id then [last] else []
  }

  /** Some bullet was fired by the tank with this ID (`bullets.some(...)`). */
  predicate HasOwned(bullets: seq<Bullets.Bullet>, id: int) {
    exists i :: 0 <= i < |bullets| && bullets[i].belongTo == id
  }

  /** fire does nothing: one own bullet is in flight at level 0 or 1, or two at level 2 or 3. */
  predicate FireRefused(level: TankLevel, bullets: seq<Bullets.Bullet>, id: int) {
    ((level == 0 || level == 1) && HasOwned(bullets, id))
    || ((level == 2 || level == 3) && |OwnedBy(bullets, id)| >= 2)
  }

  /** How many bullets a tank of this level may have in flight. */
  function InFlightCap(level: TankLevel): (cap: nat) {
    if level <= 1 then 1 else 2
  }

  class Tank {
    const id: int
    const team: Bullets.Team
    var isMoving: bool
    var x: real
    var y: real
    var vectorMove: Direction
    var spriteAnimationTimer: real
    var spriteAnimationFrameId: SpriteFrame
    var level: TankLevel
    var bulletType: BulletType
    var lives: int
    var isHelmetMode: bool
    var helmetModeTimer: real
    var helmetSpriteIndex: int

    /** Lives stay in 0..9, the helmet timer is never negative, and the bullet tier never exceeds the level's. */
    ghost predicate Valid()
      reads this
    {
      0 <= lives <= MAX_LIVES && helmetModeTimer >= 0.0 && helmetSpriteIndex >= 0 && bulletType <= TierForLevel(level)
    }

    /** A tank at rest with three lives, tier 0 bullets and the spawn helmet on for 3000 ms. */
    constructor (tankID: int, level: TankLevel, x: real, y: real, vector: Direction, team: Bullets.Team)
      ensures Valid()
      ensures this.id == tankID && this.level == level && this.x == x && this.y == y
      ensures vectorMove == vector && this.team == team
      ensures !isMoving && lives == INITIAL_LIVES && bulletType == 0
      ensures isHelmetMode && helmetModeTimer == SPAWN_HELMET_TIME && helmetSpriteIndex == 0
      ensures spriteAnimationTimer == 0.0 && spriteAnimationFrameId == 0
    {
      id := tankID;
      isMoving := false;
      spriteAnimationTimer, spriteAnimationFrameId := 0.0, 0;
      bulletType := 0;
      lives := INITIAL_LIVES;
      helmetSpriteIndex := 0;
      this.level := level;
      this.x, this.y := x, y;
      vectorMove := vector;
      isHelmetMode := true;
      helmetModeTimer := SPAWN_HELMET_TIME;
      this.team := team;
    }

    /** The number of lives, clamped to 0..9. */
    function Lives(): (n: int)
      reads this
      ensures 0 <= n <= MAX_LIVES
      ensures Valid() ==> n == lives
    {
      ClampInt(lives, 0, MAX_LIVES)
    }

    /** Gains or loses one life, saturating at 0 and 9. */
    method UpdateTankLives(dL: int)
      requires dL == 1 || dL == -1
      modifies this`lives
      ensures lives == ClampInt(old(lives) + dL, 0, MAX_LIVES)
      ensures old(Valid()) ==> Valid()
    {
      lives := ClampInt(lives + dL, 0, MAX_LIVES);
    }

    /** Counts the helmet down by deltaTime; once it reaches 0 the helmet is off and its timer and sprite index are 0. */
    method Update(deltaTime: real)
      modifies this`isHelmetMode, this`helmetModeTimer, this`helmetSpriteIndex
      ensures !old(isHelmetMode) ==> isHelmetMode == old(isHelmetMode) && helmetModeTimer == old(helmetModeTimer)
                                     && helmetSpriteIndex == old(helmetSpriteIndex)
      ensures old(isHelmetMode) && old(helmetModeTimer) - deltaTime <= 0.0 ==>
                !isHelmetMode && helmetModeTimer == 0.0 && helmetSpriteIndex == 0
      ensures old(isHelmetMode) && old(helmetModeTimer) - deltaTime > 0.0 ==>
                isHelmetMode && helmetModeTimer == old(helmetModeTimer) - deltaTime
                && helmetSpriteIndex == old(helmetSpriteIndex) + 1
      ensures old(Valid()) ==> Valid()
    {
      if isHelmetMode {
        helmetSpriteIndex := helmetSpriteIndex + 1;
        helmetModeTimer := helmetModeTimer - deltaTime;
        if helmetModeTimer <= 0.0 {
          isHelmetMode := false;
          helmetModeTimer := 0.0;
          helmetSpriteIndex := 0;
        }
      }
    }

    /** The helmet bonus: helmet on for 10000 ms. */
    method SetHelmetMode()
      modifies this`isHelmetMode, this`helmetModeTimer, this`helmetSpriteIndex
      ensures isHelmetMode && helmetModeTimer == BONUS_HELMET_TIME && helmetSpriteIndex == 0
      ensures old(Valid()) ==> Valid()
    {
      isHelmetMode := true;
      helmetModeTimer := BONUS_HELMET_TIME;
      helmetSpriteIndex := 0;
    }

    /** One level up, saturating at 3, with the bullet tier of the new level. */
    method UpdateTankLevel()
      modifies this`level, this`bulletType
      ensures level == ClampInt(old(level) + 1, 0, MAX_LEVEL)
      ensures bulletType == TierForLevel(level)
      ensures old(Valid()) ==> Valid()
    {
      level := ClampInt(level + 1, 0, MAX_LEVEL);
      bulletType := TierForLevel(level);
    }

    /** Speed in pixels per millisecond: 2.2 times the base speed at level 1, the base speed otherwise. */
    function TankSpeed(): (s: real)
      reads this
      ensures TANK_VELOCITY <= s <= TANK_VELOCITY * VELOCITY_MULTIPLIER
    {
      if level == 1 then TANK_VELOCITY * VELOCITY_MULTIPLIER else TANK_VELOCITY
    }

    /**
     * The position the tank asks for after deltaTime: its own position when it is not moving,
     * otherwise speed * deltaTime further along its direction, clamped to the field. The
     * position itself does not change; a moving tank advances its tread animation.
     */
    method TankWantsToMove(deltaTime: real) returns (p: Point)
      modifies this`spriteAnimationTimer, this`spriteAnimationFrameId
      ensures !isMoving ==> p == Point(x, y)
      ensures !isMoving ==> spriteAnimationTimer == old(spriteAnimationTimer)
                            && spriteAnimationFrameId == old(spriteAnimationFrameId)
      ensures isMoving ==> p == ProposedMove(x, y, TankSpeed() * deltaTime, vectorMove)
      ensures isMoving && old(spriteAnimationTimer) + deltaTime >= SPRITE_MOVING_ANIMATION_INTERVAL ==>
                spriteAnimationTimer == 0.0 && spriteAnimationFrameId == 1 - old(spriteAnimationFrameId)
      ensures isMoving && old(spriteAnimationTimer) + deltaTime < SPRITE_MOVING_ANIMATION_INTERVAL ==>
                spriteAnimationTimer == old(spriteAnimationTimer) + deltaTime
                && spriteAnimationFrameId == old(spriteAnimationFrameId)
    {
      if !isMoving {
        return Point(x, y);
      }
      spriteAnimationTimer := spriteAnimationTimer + deltaTime;
      if spriteAnimationTimer >= SPRITE_MOVING_ANIMATION_INTERVAL {
        spriteAnimationFrameId := 1 - spriteAnimationFrameId;
        spriteAnimationTimer := 0.0;
      }
      var distance := TankSpeed() * deltaTime;
      var newX := Clamp(x + distance * vectorMove.dx as real, CELL_SIZE * 2.0, GRID_SIZE - SIZE + CELL_SIZE * 2.0);
      var newY := Clamp(y + distance * vectorMove.dy as real, CELL_SIZE * 2.0, GRID_SIZE - SIZE + CELL_SIZE * 2.0);
      p := Point(newX, newY);
    }

    /** Commits a move: the position becomes exactly the one given. */
    method DoTankMove(newX: real, newY: real)
      modifies this`x, this`y
      ensures x == newX && y == newY
    {
      x, y := newX, newY;
    }

    /** Rounds both coordinates to the nearest multiple of CELL_SIZE. */
    method SnapToGrid()
      modifies this`x, this`y
      ensures x == Snap(old(x)) && y == Snap(old(y))
    {
      x := Round(x / CELL_SIZE) as real * CELL_SIZE;
      y := Round(y / CELL_SIZE) as real * CELL_SIZE;
    }

    /** Installs a new direction, snapping to the grid first when both components change in absolute value. */
    method SetDirection(vector: Direction)
      modifies this`x, this`y, this`vectorMove
      ensures vectorMove == vector
      ensures SnapsOnTurn(old(vectorMove), vector) ==> x == Snap(old(x)) && y == Snap(old(y))
      ensures !SnapsOnTurn(old(vectorMove), vector) ==> x == old(x) && y == old(y)
    {
      if Abs(vectorMove.dx) != Abs(vector.dx) && Abs(vectorMove.dy) != Abs(vector.dy) {
        SnapToGrid();
      }
      vectorMove := vector;
    }

    method SetMoving(moving: bool)
      modifies this`isMoving
      ensures isMoving == moving
    {
      isMoving := moving;
    }

    /**
     * Fires into the shared bullet list: nothing happens when the level's in-flight cap is
     * reached; otherwise exactly one new bullet with this tank's ID, team, direction and tier is
     * pushed at the muzzle, after the bullets already there. `idDraw` is the Math.random() value
     * the bullet's ID is drawn from.
     */
    method Fire(bullets: Bullets.BulletList, idDraw: real)
      requires 0.0 <= idDraw < 1.0
      modifies bullets
      ensures FireRefused(level, old(bullets.items), id) ==> bullets.items == old(bullets.items)
      ensures !FireRefused(level, old(bullets.items), id) ==>
        var n := |old(bullets.items)|;
        && |bullets.items| == n + 1 && bullets.items[..n] == old(bullets.items)
        && fresh(bullets.items[n])
        && bullets.items[n].belongTo == id && bullets.items[n].team == team
        && bullets.items[n].direction == vectorMove && bullets.items[n].bulletType == bulletType
        && Point(bullets.items[n].x, bullets.items[n].y) == Muzzle(x, y, vectorMove)
    {
      if (level == 0 || level == 1) && HasOwned(bullets.items, id) {
        return;
      }
      if (level == 2 || level == 3) && |OwnedBy(bullets.items, id)| >= 2 {
        return;
      }
      var start := Muzzle(x, y, vectorMove);
      var b := new Bullets.Bullet(start.x, start.y, vectorMove, id, bulletType, team, idDraw);
      bullets.items := bullets.items + [b];
    }
  }

  // ---------------------------------------------------------------------------------------------
  // Lives, level and speed

  /** Gaining or losing a life keeps lives in 0..9, saturating at both ends. */
  lemma LivesSaturate(lives: int, dL: int)
    requires 0 <= lives <= MAX_LIVES && (dL == 1 || dL == -1)
    ensures 0 <= ClampInt(lives + dL, 0, MAX_LIVES) <= MAX_LIVES
    ensures 0 <= lives + dL <= MAX_LIVES ==> ClampInt(lives + dL, 0, MAX_LIVES) == lives + dL
    ensures lives == MAX_LIVES && dL == 1 ==> ClampInt(lives + dL, 0, MAX_LIVES) == MAX_LIVES
    ensures lives == 0 && dL == -1 ==> ClampInt(lives + dL, 0, MAX_LIVES) == 0
  {
  }

  /** A level up gives min(level + 1, 3); the tier is 0 at level 0, 1 at levels 1 and 2, 2 at level 3. */
  lemma LevelUpTable(level: TankLevel)
    ensures ClampInt(level + 1, 0, MAX_LEVEL) == if level < MAX_LEVEL then level + 1 else MAX_LEVEL
    ensures TierForLevel(0) == 0 && TierForLevel(1) == 1 && TierForLevel(2) == 1 && TierForLevel(3) == 2
  {
  }

  /** The speed is 0.22 at level 1 and 0.1 at every other level. */
  lemma SpeedByLevel(t: Tank)
    ensures t.TankSpeed() == if t.level == 1 then 0.22 else 0.1
  {
  }

  // ---------------------------------------------------------------------------------------------
  // Movement

  /** A proposed move always lies in the field, whatever the starting point, distance or direction. */
  lemma ProposalInField(x: real, y: real, distance: real, dir: Direction)
    ensures var p := ProposedMove(x, y, distance, dir);
      MIN_POS <= p.x <= MAX_POS && MIN_POS <= p.y <= MAX_POS
  {
  }

  /**
   * Inside the field the proposal moves by exactly `distance` along the direction when that
   * stays in the field, and keeps a coordinate whose component is 0.
   */
  lemma ProposalFollowsDirection(x: real, y: real, distance: real, dir: Direction)
    requires MIN_POS <= x <= MAX_POS && MIN_POS <= y <= MAX_POS
    ensures var p := ProposedMove(x, y, distance, dir);
      && (dir.dx == 0 ==> p.x == x)
      && (dir.dy == 0 ==> p.y == y)
      && (MIN_POS <= x + distance * dir.dx as real <= MAX_POS ==> p.x == x + distance * dir.dx as real)
      && (MIN_POS <= y + distance * dir.dy as real <= MAX_POS ==> p.y == y + distance * dir.dy as real)
  {
  }

  // ---------------------------------------------------------------------------------------------
  // Direction changes

  /**
   * Between axis directions, setDirection snaps exactly on a perpendicular turn; a reversal or a
   * repeat of the same direction leaves the position as it is.
   */
  lemma SnapsExactlyOnPerpendicularTurn(from: Direction, to: Direction)
    requires IsAxis(from) && IsAxis(to)
    ensures SnapsOnTurn(from, to) <==> (from.dx == 0 <==> to.dx != 0)
    ensures to == from || to == Direction(-from.dx, -from.dy) ==> !SnapsOnTurn(from, to)
  {
  }

  /** A snapped coordinate is a multiple of CELL_SIZE, and snapping twice changes nothing. */
  lemma SnapIsNearestGridLine(v: real)
    ensures Snap(v) == (Snap(v) / CELL_SIZE).Floor as real * CELL_SIZE
    ensures Snap(Snap(v)) == Snap(v)
  {
    var k := Round(v / CELL_SIZE);
    var s := Snap(v);
    assert s == k as real * CELL_SIZE;
    assert s / CELL_SIZE == k as real;
    assert (s / CELL_SIZE).Floor == k;
    assert Round(s / CELL_SIZE) == (k as real + 0.5).Floor == k;
    assert Snap(s) == Round(s / CELL_SIZE) as real * CELL_SIZE;
  }

  // ---------------------------------------------------------------------------------------------
  // Firing

  /** `bullets.some(...)` and a non-empty filter agree. */
  lemma {:induction false} HasOwnedIffOwnedByNonEmpty(bullets: seq<Bullets.Bullet>, id: int)
    ensures HasOwned(bullets, id) <==> |OwnedBy(bullets, id)| > 0
    decreases |bullets|
  {
    if bullets != [] {
      var init := bullets[..|bullets| - 1];
      HasOwnedIffOwnedByNonEmpty(init, id);
      if HasOwned(bullets, id) {
        var i :| 0 <= i < |bullets| && bullets[i].belongTo == id;
        if i < |init| {
          assert init[i] == bullets[i];
        }
      }
      if HasOwned(init, id) {
        var i :| 0 <= i < |init| && init[i].belongTo == id;
        assert bullets[i] == init[i];
      }
    }
  }

  /** Appending a bullet adds it to its owner's filter and to no other. */
  lemma OwnedByAppend(bullets: seq<Bullets.Bullet>, b: Bullets.Bullet, id: int)
    ensures OwnedBy(bullets + [b], id) == OwnedBy(bullets, id) + if b.belongTo == id then [b] else []
  {
    assert (bullets + [b])[..|bullets|] == bullets;
  }

  /** Every bullet in the filter has this owner. */
  lemma {:induction false} OwnedByIsOwned(bullets: seq<Bullets.Bullet>, id: int)
    ensures forall b :: b in OwnedBy(bullets, id) ==> b in bullets && b.belongTo == id
    decreases |bullets|
  {
    if bullets != [] {
      var init := bullets[..|bullets| - 1];
      OwnedByIsOwned(init, id);
      forall b | b in init ensures b in bullets {
        var i :| 0 <= i < |init| && init[i] == b;
        assert bullets[i] == b;
      }
    }
  }

  /**
   * A shot that fire lets through adds one bullet to the owner's count, and the count stays
   * within the level's cap: one bullet in flight at levels 0 and 1, two at levels 2 and 3.
   */
  lemma FireKeepsInFlightCap(level: TankLevel, bullets: seq<Bullets.Bullet>, id: int, b: Bullets.Bullet)
    requires !FireRefused(level, bullets, id) && b.belongTo == id
    ensures |OwnedBy(bullets + [b], id)| == |OwnedBy(bullets, id)| + 1
    ensures |OwnedBy(bullets + [b], id)| <= InFlightCap(level)
  {
    OwnedByAppend(bullets, b, id);
    HasOwnedIffOwnedByNonEmpty(bullets, id);
  }

  /** A tank at level 0 or 1 with a bullet in flight cannot fire; without one, it can. */
  lemma SingleShotCap(level: TankLevel, bullets: seq<Bullets.Bullet>, id: int)
    requires level <= 1
    ensures FireRefused(level, bullets, id) <==> |OwnedBy(bullets, id)| >= 1
  {
    HasOwnedIffOwnedByNonEmpty(bullets, id);
  }
}
