/** The game's configuration constants: cell geometry, the four axis directions and the tile codes. */
module Config {
  import opened Types

  const CELL_COUNT: int := 13 * 2
  const CELL_SIZE: real := 30.0
  /** Side of the playable tile grid in pixels (780). */
  const GRID_SIZE: real := CELL_COUNT as real * CELL_SIZE
  const CELL_HALF_SIZE: real := CELL_SIZE / 2.0
  /** Side of one sprite-sheet frame in pixels. */
  const SPRITE_FRAME_SIZE: int := 16
  const SPRITE_MOVING_ANIMATION_INTERVAL: real := 80.0

  /** The tile grid starts two cells into the canvas on both axes. */
  const BORDER_CELLS: int := 2
  /** The border in pixels (60). */
  const BORDER: real := CELL_SIZE * 2.0

  const UP: Direction := Direction(0, -1)
  const DOWN: Direction := Direction(0, 1)
  const LEFT: Direction := Direction(-1, 0)
  const RIGHT: Direction := Direction(1, 0)

  /** The direction is one of the four axis vectors. */
  predicate IsAxis(d: Direction) {
    d == UP || d == DOWN || d == LEFT || d == RIGHT
  }

  const EMPTY: TileType := 0
  const BRICK: TileType := 1
  const STONE: TileType := 2
  const WATER: TileType := 3
  const BUSH: TileType := 4
  const ICE: TileType := 5

  /** Brick stumps: what is left of a brick eroded from one side. */
  const BRICK_RIGHT: TileType := 6
  const BRICK_DOWN: TileType := 7
  const BRICK_LEFT: TileType := 8
  const BRICK_TOP: TileType := 9

  /** The four tiles of the intact base. */
  const BASE_LT: TileType := 10
  const BASE_RT: TileType := 11
  const BASE_LB: TileType := 12
  const BASE_RB: TileType := 13

  /** The four tiles of the destroyed base. */
  const BASE_D_LT: TileType := 14
  const BASE_D_RT: TileType := 15
  const BASE_D_LB: TileType := 16
  const BASE_D_RB: TileType := 17

  predicate IsStump(t: TileType) {
    t == BRICK_DOWN || t == BRICK_LEFT || t == BRICK_RIGHT || t == BRICK_TOP
  }
}
