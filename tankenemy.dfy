/**
 * Enemy tanks (tankEnemy.ts). TankEnemy extends Tank in the code; here an enemy holds its Tank
 * and replaces Tank.Update by its own Update, a dwell timer that picks a new random direction.
 */
module TankEnemies {
  import opened Types
  import opened Config
  import Bullets
  import Tanks

  const INITIAL_DWELL: real := 100.0
  /** A new dwell lasts MIN_DWELL plus up to DWELL_SPREAD milliseconds. */
  const MIN_DWELL: real := 1000.0
  const DWELL_SPREAD: real := 2000.0

  /** The direction picked by a Math.random() draw: up, down, left, right for the four quarters of [0, 1). */
  function RandomDirection(draw: real): (d: Direction)
    requires 0.0 <= draw < 1.0
    ensures IsAxis(d)
  {
    var directions := [UP, DOWN, LEFT, RIGHT];
    directions[(draw * |directions| as real).Floor]
  }

  class TankEnemy {
    const tank: Tanks.Tank
    /** Milliseconds left before the next change of direction. */
    var dwellTimer: real

    /** An enemy starts moving, with the helmet off (its timer still at 3000) and a dwell of 100 ms. */
    constructor (tankID: int, level: Tanks.TankLevel, x: real, y: real, vector: Direction, team: Bullets.Team)
      ensures fresh(tank) && tank.Valid()
      ensures tank.id == tankID && tank.level == level && tank.x == x && tank.y == y
      ensures tank.vectorMove == vector && tank.team == team
      ensures tank.isMoving && !tank.isHelmetMode && tank.helmetModeTimer == Tanks.SPAWN_HELMET_TIME
      ensures tank.lives == Tanks.INITIAL_LIVES && tank.bulletType == 0
      ensures dwellTimer == INITIAL_DWELL
    {
      tank := new Tanks.Tank(tankID, level, x, y, vector, team);
      dwellTimer := INITIAL_DWELL;
      new;
      tank.isMoving := true;
      tank.isHelmetMode := false;
    }

    /**
     * While the dwell timer is positive it counts down by deltaTime and nothing else changes.
     * Otherwise the tank turns to the direction `directionDraw` picks (snapping as setDirection
     * does) and the timer restarts at 1000 + 2000 * dwellDraw. The helmet is never counted down.
     */
    method Update(deltaTime: real, directionDraw: real, dwellDraw: real)
      requires 0.0 <= directionDraw < 1.0 && 0.0 <= dwellDraw < 1.0
      modifies this`dwellTimer, tank`x, tank`y, tank`vectorMove
      ensures tank.isHelmetMode == old(tank.isHelmetMode) && tank.helmetModeTimer == old(tank.helmetModeTimer)
      ensures old(dwellTimer) > 0.0 ==> dwellTimer == old(dwellTimer) - deltaTime && unchanged(tank)
      ensures old(dwellTimer) <= 0.0 ==>
        && tank.vectorMove == RandomDirection(directionDraw)
        && (Tanks.SnapsOnTurn(old(tank.vectorMove), tank.vectorMove) ==>
              tank.x == Tanks.Snap(old(tank.x)) && tank.y == Tanks.Snap(old(tank.y)))
        && (!Tanks.SnapsOnTurn(old(tank.vectorMove), tank.vectorMove) ==>
              tank.x == old(tank.x) && tank.y == old(tank.y))
        && dwellTimer == MIN_DWELL + dwellDraw * DWELL_SPREAD
        && MIN_DWELL <= dwellTimer < MIN_DWELL + DWELL_SPREAD
    {
      if dwellTimer > 0.0 {
        dwellTimer := dwellTimer - deltaTime;
      } else {
        tank.SetDirection(RandomDirection(directionDraw));
        dwellTimer := MIN_DWELL + dwellDraw * DWELL_SPREAD;
      }
    }
  }

  /** Each quarter of [0, 1) picks its own direction, so all four are reachable. */
  lemma RandomDirectionQuarters(draw: real)
    requires 0.0 <= draw < 1.0
    ensures draw < 0.25 ==> RandomDirection(draw) == UP
    ensures 0.25 <= draw < 0.5 ==> RandomDirection(draw) == DOWN
    ensures 0.5 <= draw < 0.75 ==> RandomDirection(draw) == LEFT
    ensures 0.75 <= draw ==> RandomDirection(draw) == RIGHT
  {
  }
}
