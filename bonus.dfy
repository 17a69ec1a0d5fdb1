/** Bonuses (bonus.ts): a pickup of some kind at a fixed square on the field. */
module Bonuses {
  import opened Types
  import opened Config

  /** Side of a bonus square (60); the code tests the query point with the same size. */
  const SIZE: real := CELL_SIZE * 2.0

  function AbsReal(v: real): (a: real) {
    if v < 0.0 then -v else v
  }

  class Bonus {
    const bonusType: BonusType
    const x: real
    const y: real

    constructor (bonusType: BonusType, x: real, y: real)
      ensures this.bonusType == bonusType && this.x == x && this.y == y
    {
      this.bonusType := bonusType;
      this.x, this.y := x, y;
    }

    /** Applies the bonus' effect: the callback, given as a function on the game state, runs exactly once. */
    method ApplyBonus<S>(cb: S -> S, state: S) returns (next: S)
      ensures next == cb(state)
    {
      next := cb(state);
    }

    /**
     * The SIZE square at `coor` overlaps this bonus' square with positive area: both centres are
     * less than SIZE apart on each axis. No point (null) never collides.
     */
    function HasCollision(coor: Option<Point>): (r: bool)
      ensures r <==> coor.Some? && AbsReal(coor.value.x - x) < SIZE && AbsReal(coor.value.y - y) < SIZE
    {
      if coor.None? then false
      else x < coor.value.x + SIZE && x + SIZE > coor.value.x && y < coor.value.y + SIZE && y + SIZE > coor.value.y
    }
  }

  /** Collision is symmetric: a bonus at p hits q exactly when a bonus at q hits p. */
  lemma CollisionIsSymmetric(b: Bonus, c: Bonus)
    ensures b.HasCollision(Some(Point(c.x, c.y))) == c.HasCollision(Some(Point(b.x, b.y)))
  {
  }

  /** A query at the bonus' own position collides; squares that only touch along an edge do not. */
  lemma CollisionEdgeCases(b: Bonus, p: Point)
    ensures b.HasCollision(Some(Point(b.x, b.y)))
    ensures !b.HasCollision(None)
    ensures AbsReal(p.x - b.x) == SIZE || AbsReal(p.y - b.y) == SIZE ==> !b.HasCollision(Some(p))
  {
  }
}
