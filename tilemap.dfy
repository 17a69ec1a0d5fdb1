/** The tile grid (map.ts): walkability and flyability lookups and the brick erosion done by bullet hits. */
module TileMap {
  import opened Types
  import opened Config

  /** The row (of a y) or column (of an x) of the cell under a canvas coordinate; the grid is offset by the border. */
  function CellIndex(v: real): (k: int)
    ensures BORDER + k as real * CELL_SIZE <= v < BORDER + (k + 1) as real * CELL_SIZE
  {
    (v / CELL_SIZE).Floor - BORDER_CELLS
  }

  /** `map?.[r]?.[c]`: the tile at row r and column c, or None outside the array (rows may differ in length). */
  function Lookup(tiles: seq<seq<TileType>>, r: int, c: int): (t: Option<TileType>) {
    if 0 <= r < |tiles| && 0 <= c < |tiles[r]| then Some(tiles[r][c]) else None
  }

  /** The tile under a canvas point. */
  function TileUnder(tiles: seq<seq<TileType>>, p: Point): (t: Option<TileType>) {
    Lookup(tiles, CellIndex(p.y), CellIndex(p.x))
  }

  /** Both grids have the same rows of the same lengths. */
  predicate SameShape(a: seq<seq<TileType>>, b: seq<seq<TileType>>) {
    |a| == |b| && forall i :: 0 <= i < |a| ==> |a[i]| == |b[i]|
  }

  /**
   * What a hit by a bullet of the given tier, travelling in `dir`, leaves of a tile.
   * Tiers 0 and 1 clear a stump and cut an intact brick down to the stump on the side the
   * bullet travels towards; tier 2 clears stone, brick and stumps. The direction switch has no
   * default case, so a brick hit by a non-axis bullet stays brick.
   * The code at map.ts:98 reads the direction through `bullet.directonToString()`, which Bullet
   * does not define (it defines `directionToString`); this is the evidently intended behaviour,
   * and ErodeAsWritten models the code as it stands.
   */
  function Erode(tier: BulletType, dir: Direction, tile: TileType): (e: TileType)
    ensures e == tile || e == EMPTY || (tile == BRICK && IsStump(e))
  {
    if tier == 0 || tier == 1 then
      if IsStump(tile) then EMPTY
      else if tile == BRICK then
        if dir == UP then BRICK_TOP
        else if dir == LEFT then BRICK_LEFT
        else if dir == DOWN then BRICK_DOWN
        else if dir == RIGHT then BRICK_RIGHT
        else tile
      else tile
    else if tile == STONE || tile == BRICK || IsStump(tile) then EMPTY
    else tile
  }

  /**
   * The per-tile step of doCollision as written: the call of the undefined `directonToString`
   * throws a TypeError (None) whenever a tier 0 or 1 bullet reaches an intact brick.
   */
  function ErodeAsWritten(tier: BulletType, tile: TileType): (r: Option<TileType>)
    ensures r.None? ==> tier <= 1 && tile == BRICK
  {
    if tier == 0 || tier == 1 then
      if IsStump(tile) then Some(EMPTY)
      else if tile == BRICK then None
      else Some(tile)
    else if tile == STONE || tile == BRICK || IsStump(tile) then Some(EMPTY)
    else Some(tile)
  }

  /** One pass of the corner loop of doCollision: the cell under `p` is eroded when it is in the array and not EMPTY. */
  function ErodeCorner(tiles: seq<seq<TileType>>, p: Point, tier: BulletType, dir: Direction): (g: seq<seq<TileType>>)
    ensures SameShape(g, tiles)
  {
    var r, c := CellIndex(p.y), CellIndex(p.x);
    match Lookup(tiles, r, c)
    case Some(t) =>
      if t != EMPTY then
        var row: seq<TileType> := tiles[r][c := Erode(tier, dir, t)];
        tiles[r := row]
      else tiles
    case None => tiles
  }

  /** The whole corner loop of doCollision: the corners are eroded one after the other, in order. */
  function ErodeCorners(tiles: seq<seq<TileType>>, corners: seq<Point>, tier: BulletType, dir: Direction): (g: seq<seq<TileType>>)
    ensures SameShape(g, tiles)
    decreases |corners|
  {
    if corners == [] then tiles
    else ErodeCorner(ErodeCorners(tiles, corners[..|corners| - 1], tier, dir), corners[|corners| - 1], tier, dir)
  }

  class Map {
    /** The tile rows; getMapArray returns them and `length` is their number. */
    var tiles: seq<seq<TileType>>

    constructor (grid: seq<seq<TileType>>)
      ensures tiles == grid
    {
      tiles := grid;
    }

    /** A tank may stand on the point: outside the array, or on EMPTY, BUSH or ICE. */
    predicate IsWalkable(x: real, y: real)
      reads this
      ensures IsWalkable(x, y) ==> IsFlyable(x, y)
      ensures TileUnder(tiles, Point(x, y)) == Some(WATER) ==> !IsWalkable(x, y)
    {
      var tile := TileUnder(tiles, Point(x, y));
      if tile.None? || tile.value == EMPTY then true
      else tile.value in {EMPTY, BUSH, ICE}
    }

    /** A bullet may fly over the point: outside the array, or on EMPTY, BUSH, ICE or WATER. */
    predicate IsFlyable(x: real, y: real)
      reads this
      ensures TileUnder(tiles, Point(x, y)) in {Some(STONE), Some(BRICK)} ==> !IsFlyable(x, y)
      ensures TileUnder(tiles, Point(x, y)).Some? && IsStump(TileUnder(tiles, Point(x, y)).value) ==> !IsFlyable(x, y)
    {
      var tile := TileUnder(tiles, Point(x, y));
      if tile.None? || tile.value == EMPTY then true
      else tile.value in {EMPTY, BUSH, ICE, WATER}
    }

    /**
     * The erosion a bullet causes where it hits terrain. The bullet is represented by what the
     * code reads from it: its front corners (None when its direction is not an axis vector),
     * its tier and its direction.
     */
    method DoCollision(corners: Option<seq<Point>>, tier: BulletType, dir: Direction)
      modifies this
      ensures corners.None? ==> tiles == old(tiles)
      ensures corners.Some? ==> tiles == ErodeCorners(old(tiles), corners.value, tier, dir)
    {
      if corners.None? {
        return;
      }
      var cs := corners.value;
      for i := 0 to |cs|
        invariant tiles == ErodeCorners(old(tiles), cs[..i], tier, dir)
      {
        var c := CellIndex(cs[i].x);
        var r := CellIndex(cs[i].y);
        var tile := Lookup(tiles, r, c);
        if tile.Some? && tile.value != EMPTY {
          var row: seq<TileType> := tiles[r][c := Erode(tier, dir, tile.value)];
          tiles := tiles[r := row];
        }
        assert cs[..i + 1][..i] == cs[..i];
      }
      assert cs[..|cs|] == cs;
    }
  }

  // ---------------------------------------------------------------------------------------------
  // Walkability and flyability

  /** isWalkable holds exactly outside the array and on EMPTY, BUSH and ICE. */
  lemma WalkableIff(m: Map, x: real, y: real)
    ensures m.IsWalkable(x, y) <==>
      var t := TileUnder(m.tiles, Point(x, y)); t.None? || t.value == EMPTY || t.value == BUSH || t.value == ICE
  {
  }

  /** isFlyable is isWalkable plus WATER: the two differ exactly on WATER cells. */
  lemma FlyableIsWalkableOrWater(m: Map, x: real, y: real)
    ensures m.IsWalkable(x, y) ==> m.IsFlyable(x, y)
    ensures m.IsFlyable(x, y) <==> m.IsWalkable(x, y) || TileUnder(m.tiles, Point(x, y)) == Some(WATER)
    ensures m.IsFlyable(x, y) && !m.IsWalkable(x, y) <==> TileUnder(m.tiles, Point(x, y)) == Some(WATER)
  {
  }

  /** Points in the border left of or above the grid, and points outside the array, are passable. */
  lemma OutsideGridIsPassable(m: Map, x: real, y: real)
    requires x < BORDER || y < BORDER || TileUnder(m.tiles, Point(x, y)).None?
    ensures m.IsWalkable(x, y) && m.IsFlyable(x, y)
  {
    assert x < BORDER ==> CellIndex(x) < 0;
    assert y < BORDER ==> CellIndex(y) < 0;
  }

  // ---------------------------------------------------------------------------------------------
  // Erosion of one tile

  /** Tier 0 or 1: a stump is cleared; an intact brick becomes the stump of the side the bullet travelled towards. */
  lemma LightHitOnBrick(tier: BulletType, dir: Direction, tile: TileType)
    requires tier <= 1
    ensures IsStump(tile) ==> Erode(tier, dir, tile) == EMPTY
    ensures Erode(tier, UP, BRICK) == BRICK_TOP && Erode(tier, LEFT, BRICK) == BRICK_LEFT
    ensures Erode(tier, DOWN, BRICK) == BRICK_DOWN && Erode(tier, RIGHT, BRICK) == BRICK_RIGHT
    ensures !IsAxis(dir) ==> Erode(tier, dir, BRICK) == BRICK
  {
  }

  /** Tier 0 or 1 changes nothing but brick and stumps; in particular it never alters STONE. */
  lemma LightHitSparesOtherTiles(tier: BulletType, dir: Direction, tile: TileType)
    requires tier <= 1
    ensures Erode(tier, dir, tile) != tile ==> tile == BRICK || IsStump(tile)
    ensures Erode(tier, dir, STONE) == STONE
  {
  }

  /** Tier 2 clears stone, brick and every stump, and leaves every other tile as it is. */
  lemma HeavyHit(dir: Direction, tile: TileType)
    ensures tile == STONE || tile == BRICK || IsStump(tile) ==> Erode(2, dir, tile) == EMPTY
    ensures !(tile == STONE || tile == BRICK || IsStump(tile)) ==> Erode(2, dir, tile) == tile
    ensures Erode(2, dir, WATER) == WATER && Erode(2, dir, BUSH) == BUSH && Erode(2, dir, ICE) == ICE
    ensures Erode(2, dir, BASE_LT) == BASE_LT && Erode(2, dir, BASE_RB) == BASE_RB
  {
  }

  /** Two tier 0/1 hits on an intact brick, from axis directions, take it BRICK -> stump -> EMPTY. */
  lemma BrickTakesTwoLightHits(tier1: BulletType, dir1: Direction, tier2: BulletType, dir2: Direction)
    requires tier1 <= 1 && tier2 <= 1 && IsAxis(dir1)
    ensures IsStump(Erode(tier1, dir1, BRICK))
    ensures Erode(tier2, dir2, Erode(tier1, dir1, BRICK)) == EMPTY
  {
  }

  /** The code as written throws exactly on a tier 0/1 hit on intact brick, and otherwise agrees with Erode. */
  lemma ErodeAsWrittenThrowsOnBrick(tier: BulletType, dir: Direction, tile: TileType)
    ensures ErodeAsWritten(tier, tile).None? <==> tier <= 1 && tile == BRICK
    ensures ErodeAsWritten(tier, tile).Some? ==> ErodeAsWritten(tier, tile).value == Erode(tier, dir, tile)
    ensures ErodeAsWritten(0, BRICK) == None && Erode(0, UP, BRICK) == BRICK_TOP
  {
  }

  // ---------------------------------------------------------------------------------------------
  // Erosion of the grid

  /** One corner changes at most the cell under it, to the eroded tile. */
  lemma ErodeCornerEffect(tiles: seq<seq<TileType>>, p: Point, tier: BulletType, dir: Direction, r: int, c: int)
    ensures var t := Lookup(tiles, r, c);
      Lookup(ErodeCorner(tiles, p, tier, dir), r, c) ==
        if r == CellIndex(p.y) && c == CellIndex(p.x) && t.Some? && t.value != EMPTY
        then Some(Erode(tier, dir, t.value)) else t
  {
  }

  /** Corners outside the array change nothing. */
  lemma {:induction false} ErodeCornersOutside(tiles: seq<seq<TileType>>, corners: seq<Point>, tier: BulletType, dir: Direction)
    ensures (forall i :: 0 <= i < |corners| ==> TileUnder(tiles, corners[i]).None?) ==>
      ErodeCorners(tiles, corners, tier, dir) == tiles
  {
    if corners != [] {
      var init := corners[..|corners| - 1];
      ErodeCornersOutside(tiles, init, tier, dir);
      var g := ErodeCorners(tiles, init, tier, dir);
      ErodeCornerEffect(g, corners[|corners| - 1], tier, dir, 0, 0);
      if forall i :: 0 <= i < |corners| ==> TileUnder(tiles, corners[i]).None? {
        assert forall i :: 0 <= i < |init| ==> TileUnder(tiles, init[i]).None? by {
          forall i | 0 <= i < |init| ensures TileUnder(tiles, init[i]).None? {
            assert init[i] == corners[i];
          }
        }
        assert TileUnder(tiles, corners[|corners| - 1]).None?;
      }
    }
  }
}
