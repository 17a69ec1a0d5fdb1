/** Bullets (bullet.ts): kinematics, the field and terrain checks of a move, and the corners used for erosion. */
module Bullets {
  import opened Types
  import opened Config
  import TileMap

  /** The two teams ('defender' and 'enemy'). */
  datatype Team = Defender | Enemy

  /** Side of a bullet's sprite and hit box (60); its collision corners use half of it. */
  const SIZE: real := CELL_SIZE * 2.0
  const BASE_VELOCITY: real := 0.3
  const VELOCITY_PER_TIER: real := 0.45
  /** Bullet IDs are drawn from 0 .. ID_RANGE - 1. */
  const ID_RANGE: int := 1000000

  /** Speed in pixels per millisecond of a bullet of the given tier. */
  function SpeedOf(tier: BulletType): (r: real)
    ensures BASE_VELOCITY <= r <= BASE_VELOCITY + 2.0 * VELOCITY_PER_TIER
  {
    BASE_VELOCITY + tier as real * VELOCITY_PER_TIER
  }

  /** The position has left the playable field (border included) on some side. */
  predicate OutOfField(x: real, y: real) {
    x < BORDER || y < BORDER || x + SIZE > GRID_SIZE + BORDER || y + SIZE > GRID_SIZE + BORDER
  }

  /** The corners `move` tests against the terrain: left-top, right-top, left-bottom, right-bottom of the half-size box. */
  function MoveCorners(x: real, y: real): (cs: seq<Point>) {
    [Point(x, y), Point(x + SIZE / 2.0, y), Point(x, y + SIZE / 2.0), Point(x + SIZE / 2.0, y + SIZE / 2.0)]
  }

  /** Every corner tested by `move` is over flyable terrain. */
  predicate CornersFlyable(grid: TileMap.Map, x: real, y: real)
    reads grid
  {
    forall i :: 0 <= i < 4 ==> grid.IsFlyable(MoveCorners(x, y)[i].x, MoveCorners(x, y)[i].y)
  }

  /**
   * The game's shared list of bullets in flight. Tanks push their new bullets onto it, so every
   * holder of the list sees them.
   */
  class BulletList {
    var items: seq<Bullet>

    constructor ()
      ensures items == []
    {
      items := [];
    }
  }

  class Bullet {
    const id: int
    const direction: Direction
    const belongTo: int
    const bulletType: BulletType
    const team: Team
    /** The speed follows from the tier, so it is known for every bullet, however it was created. */
    const speed: real := SpeedOf(bulletType)
    var x: real
    var y: real

    /** A bullet at (x0, y0); `idDraw` is the value of Math.random() its ID is drawn from. */
    constructor (x0: real, y0: real, direction: Direction, belongTo: int, bulletType: BulletType, team: Team, idDraw: real)
      requires 0.0 <= idDraw < 1.0
      ensures x == x0 && y == y0
      ensures this.direction == direction && this.belongTo == belongTo
      ensures this.bulletType == bulletType && this.team == team
      ensures 0 <= id < ID_RANGE
    {
      id := (idDraw * ID_RANGE as real).Floor;
      x, y := x0, y0;
      this.direction := direction;
      this.belongTo := belongTo;
      this.bulletType := bulletType;
      this.team := team;
    }

    /** The four corners of the half-size hit box: left-top, right-top, right-bottom, left-bottom. */
    function HitboxCoordinates(): (h: seq<Point>)
      reads this
      ensures |h| == 4 && h[0] == Point(x, y) && h[2] == Point(x + CELL_SIZE, y + CELL_SIZE)
      ensures h[1].y == y && h[3].x == x
      ensures forall i :: 0 <= i < |h| ==> (h[i].x == x || h[i].x == x + CELL_SIZE) && (h[i].y == y || h[i].y == y + CELL_SIZE)
      ensures forall i, j :: 0 <= i < j < |h| ==> h[i] != h[j]
    {
      [Point(x, y), Point(x + SIZE / 2.0, y), Point(x + SIZE / 2.0, y + SIZE / 2.0), Point(x, y + SIZE / 2.0)]
    }

    /** The two corners on the side the bullet travels towards; None for a direction that is not an axis vector. */
    function FrontCorners(): (r: Option<seq<Point>>)
      reads this
      ensures r.Some? <==> IsAxis(direction)
      ensures r.Some? ==> |r.value| == 2 && r.value[0] != r.value[1]
    {
      if direction == UP then Some([Point(x, y), Point(x + SIZE / 2.0, y)])
      else if direction == LEFT then Some([Point(x, y), Point(x, y + SIZE / 2.0)])
      else if direction == DOWN then Some([Point(x + SIZE / 2.0, y + SIZE / 2.0), Point(x, y + SIZE / 2.0)])
      else if direction == RIGHT then Some([Point(x + SIZE / 2.0, y), Point(x + SIZE / 2.0, y + SIZE / 2.0)])
      else None
    }

    /**
     * Advances the bullet by speed * deltaTime along its direction, committing the new position
     * before any check, then reports whether it explodes there: out of the field, or over a
     * corner that is not flyable. The point reported is the new position.
     */
    method Move(deltaTime: real, grid: TileMap.Map) returns (explode: bool, point: Option<Point>)
      modifies this`x, this`y
      ensures x == old(x) + speed * deltaTime * direction.dx as real
      ensures y == old(y) + speed * deltaTime * direction.dy as real
      ensures explode <==> OutOfField(x, y) || !CornersFlyable(grid, x, y)
      ensures point == if explode then Some(Point(x, y)) else None
    {
      var distance := speed * deltaTime;
      var newX := x + distance * direction.dx as real;
      var newY := y + distance * direction.dy as real;
      x, y := newX, newY;

      if x < BORDER || y < BORDER || x + SIZE > GRID_SIZE + BORDER || y + SIZE > GRID_SIZE + BORDER {
        return true, Some(Point(newX, newY));
      }

      var corners := [Point(newX, newY), Point(newX + SIZE / 2.0, newY), Point(newX, newY + SIZE / 2.0),
                      Point(newX + SIZE / 2.0, newY + SIZE / 2.0)];
      assert corners == MoveCorners(x, y);
      for i := 0 to |corners|
        invariant forall j :: 0 <= j < i ==> grid.IsFlyable(corners[j].x, corners[j].y)
      {
        if !grid.IsFlyable(corners[i].x, corners[i].y) {
          return true, Some(Point(newX, newY));
        }
      }
      return false, None;
    }

    /** Advances the bullet by speed * deltaTime along its direction, with no check; returns the bullet itself. */
    method WantsToMove(deltaTime: real) returns (self: Bullet)
      modifies this`x, this`y
      ensures x == old(x) + speed * deltaTime * direction.dx as real
      ensures y == old(y) + speed * deltaTime * direction.dy as real
      ensures self == this
    {
      var distance := speed * deltaTime;
      x, y := x + distance * direction.dx as real, y + distance * direction.dy as real;
      self := this;
    }
  }

  // ---------------------------------------------------------------------------------------------
  // Properties

  /** The three tiers fly at 0.3, 0.75 and 1.2 pixels per millisecond, faster with every tier. */
  lemma SpeedTable(tier: BulletType, other: BulletType)
    ensures SpeedOf(0) == 0.3 && SpeedOf(1) == 0.75 && SpeedOf(2) == 1.2
    ensures tier < other ==> SpeedOf(tier) < SpeedOf(other)
  {
  }

  /** Front corners exist exactly for the four axis directions; there are two, and both are hit box corners. */
  lemma FrontCornersAreHitboxCorners(b: Bullet)
    ensures b.FrontCorners().Some? <==> IsAxis(b.direction)
    ensures b.FrontCorners().Some? ==>
      var cs := b.FrontCorners().value;
      |cs| == 2 && cs[0] in b.HitboxCoordinates() && cs[1] in b.HitboxCoordinates()
  {
    var h := b.HitboxCoordinates();
    assert h[0] == Point(b.x, b.y) && h[1] == Point(b.x + SIZE / 2.0, b.y);
    assert h[2] == Point(b.x + SIZE / 2.0, b.y + SIZE / 2.0) && h[3] == Point(b.x, b.y + SIZE / 2.0);
  }

  /**
   * The front corners lie on the leading edge of the half-size hit box and are CELL_SIZE apart
   * across the axis of travel.
   */
  lemma FrontCornersLead(b: Bullet)
    requires IsAxis(b.direction)
    ensures var cs := b.FrontCorners().value;
      && (b.direction == UP ==> cs[0].y == cs[1].y == b.y && cs[1].x - cs[0].x == CELL_SIZE)
      && (b.direction == DOWN ==> cs[0].y == cs[1].y == b.y + CELL_SIZE && cs[0].x - cs[1].x == CELL_SIZE)
      && (b.direction == LEFT ==> cs[0].x == cs[1].x == b.x && cs[1].y - cs[0].y == CELL_SIZE)
      && (b.direction == RIGHT ==> cs[0].x == cs[1].x == b.x + CELL_SIZE && cs[1].y - cs[0].y == CELL_SIZE)
  {
  }

  /** The two front corners fall in two distinct, side-by-side cells of the grid. */
  lemma FrontCornersInAdjacentCells(b: Bullet)
    requires IsAxis(b.direction)
    ensures var cs := b.FrontCorners().value;
      var (r0, c0, r1, c1) := (TileMap.CellIndex(cs[0].y), TileMap.CellIndex(cs[0].x),
                               TileMap.CellIndex(cs[1].y), TileMap.CellIndex(cs[1].x));
      (r0 == r1 && (c1 == c0 + 1 || c0 == c1 + 1)) || (c0 == c1 && (r1 == r0 + 1 || r0 == r1 + 1))
  {
    FrontCornersLead(b);
  }

  /**
   * A hit by the bullet erodes exactly the two cells under its front corners, each independently
   * (an in-array, non-EMPTY cell becomes Erode of its tile), and leaves every other cell as it was.
   */
  lemma FrontHitErodesTwoCells(b: Bullet, tiles: seq<seq<TileType>>, r: int, c: int)
    requires IsAxis(b.direction)
    ensures var cs := b.FrontCorners().value;
      var after := TileMap.ErodeCorners(tiles, cs, b.bulletType, b.direction);
      var t := TileMap.Lookup(tiles, r, c);
      var hit := (r == TileMap.CellIndex(cs[0].y) && c == TileMap.CellIndex(cs[0].x))
              || (r == TileMap.CellIndex(cs[1].y) && c == TileMap.CellIndex(cs[1].x));
      TileMap.SameShape(after, tiles) &&
      TileMap.Lookup(after, r, c) == if hit && t.Some? && t.value != EMPTY then Some(TileMap.Erode(b.bulletType, b.direction, t.value)) else t
  {
    var cs := b.FrontCorners().value;
    FrontCornersInAdjacentCells(b);
    var tier, dir := b.bulletType, b.direction;
    assert cs[..1] == [cs[0]] && [cs[0]][..0] == [];
    var g1 := TileMap.ErodeCorner(tiles, cs[0], tier, dir);
    assert TileMap.ErodeCorners(tiles, [cs[0]], tier, dir) == g1;
    assert TileMap.ErodeCorners(tiles, cs, tier, dir) == TileMap.ErodeCorner(g1, cs[1], tier, dir);
    TileMap.ErodeCornerEffect(tiles, cs[0], tier, dir, r, c);
    TileMap.ErodeCornerEffect(g1, cs[1], tier, dir, r, c);
    TileMap.ErodeCornerEffect(tiles, cs[0], tier, dir, TileMap.CellIndex(cs[1].y), TileMap.CellIndex(cs[1].x));
  }
}
