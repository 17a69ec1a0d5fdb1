/** Shared value types of the game: directions, bullet tiers, tile codes, bonus kinds, points. */
module Types {

  /** One component of a direction vector. */
  type MoveVector = v: int | -1 <= v <= 1

  /** A direction vector [dX, dY]. The type admits every pair, including [0, 0]. */
  datatype Direction = Direction(dx: MoveVector, dy: MoveVector)

  /** A bullet's tier: speed and penetration class. */
  type BulletType = t: int | 0 <= t <= 2

  /** A tile code: one of the 18 codes of the tile enumeration. */
  type TileType = t: int | 0 <= t <= 17

  /** The bonus kinds (the keys of the bonus sprite table). */
  datatype BonusType = HELMET | TIME | SHOVEL | STAR | BOMB | TANK | GUN

  /** A point in canvas pixels. */
  datatype Point = Point(x: real, y: real)

  /** An optional value: JavaScript's `undefined` / `null`. */
  datatype Option<+T> = None | Some(value: T)
}
