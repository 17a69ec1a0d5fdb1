/** The base's explosion (explosionBase.ts): the base footprint and a nine-frame animation over 900 ms. */
module ExplosionBases {
  import opened Types
  import opened Config

  /** Top-left corners of the small and of the large explosion frames; cells (12, 24) and (11, 23) plus the border. */
  const X1: real := 12.0 * CELL_SIZE + CELL_SIZE * 2.0
  const Y1: real := 24.0 * CELL_SIZE + CELL_SIZE * 2.0
  const X2: real := 11.0 * CELL_SIZE + CELL_SIZE * 2.0
  const Y2: real := 23.0 * CELL_SIZE + CELL_SIZE * 2.0
  const S1: real := CELL_SIZE * 2.0
  const S2: real := CELL_SIZE * 4.0
  const D1: int := SPRITE_FRAME_SIZE
  const D2: int := SPRITE_FRAME_SIZE * 2

  /** A square on the canvas. */
  datatype Footprint = Footprint(x: real, y: real, size: real)

  /** The base's square. */
  const BASE: Footprint := Footprint(X1, Y1, S1)

  /** Per-frame position, size, sprite column and sprite size of the base explosion. */
  const FRAME_XS: seq<real> := [X1, X1, X1, X2, X2, X2, X1, X1, X1]
  const FRAME_YS: seq<real> := [Y1, Y1, Y1, Y2, Y2, Y2, Y1, Y1, Y1]
  const FRAME_SIZES: seq<real> := [S1, S1, S1, S2, S2, S2, S1, S1, S1]
  const SPRITE_XS: seq<int> := [16, 17, 18, 19, 21, 19, 18, 17, 16]
  const FRAME_DS: seq<int> := [D1, D1, D1, D2, D2, D2, D1, D1, D1]

  const FRAME_COUNT: int := 9
  const DURATION: real := 900.0
  /** 100 ms per frame. */
  const FRAME_INTERVAL: real := DURATION / FRAME_COUNT as real

  /** The frame shown at a timer value. */
  function FrameAt(timer: real): (f: int)
    ensures f as real * FRAME_INTERVAL <= timer < (f + 1) as real * FRAME_INTERVAL
  {
    (timer / FRAME_INTERVAL).Floor
  }

  class ExplosionBase {
    var frame: int
    var timer: real
    var isDone: bool

    /**
     * Under non-negative time steps: the timer is non-negative, the explosion is done exactly once
     * the timer has passed DURATION, and until then the frame is the timer's, in 0..9.
     */
    ghost predicate Valid()
      reads this
    {
      && 0.0 <= timer
      && (isDone <==> timer > DURATION)
      && 0 <= frame <= FRAME_COUNT
      && (!isDone ==> frame == FrameAt(timer))
    }

    constructor ()
      ensures Valid()
      ensures frame == 0 && timer == 0.0 && !isDone
    {
      frame := 0;
      timer := 0.0;
      isDone := false;
    }

    /**
     * Adds deltaTime to the timer; past DURATION the explosion is done and its frame frozen,
     * otherwise the frame follows the timer. With deltaTime >= 0 the invariant is kept, the frame
     * never goes back and a finished explosion stays finished.
     */
    method Update(deltaTime: real)
      modifies this`frame, this`timer, this`isDone
      ensures timer == old(timer) + deltaTime
      ensures timer > DURATION ==> isDone && frame == old(frame)
      ensures timer <= DURATION ==> isDone == old(isDone) && frame == FrameAt(timer)
      ensures old(Valid()) && deltaTime >= 0.0 ==>
        Valid() && old(frame) <= frame && (old(isDone) ==> isDone && frame == old(frame))
    {
      timer := timer + deltaTime;
      if timer > DURATION {
        isDone := true;
      } else {
        frame := (timer / FRAME_INTERVAL).Floor;
      }
    }

    function IsFinished(): (r: bool)
      reads this
      ensures Valid() ==> (r <==> timer > DURATION)
    {
      isDone
    }
  }

  /** The base is the 60-pixel square at (420, 780): cells 12 and 24 of the grid past the two-cell border. */
  lemma BaseFootprint()
    ensures BASE == Footprint(420.0, 780.0, 60.0)
    ensures (BASE.x / CELL_SIZE).Floor - BORDER_CELLS == 12 && (BASE.y / CELL_SIZE).Floor - BORDER_CELLS == 24
  {
  }

  /** Every per-frame table has one entry per frame: nine. */
  lemma TablesHaveNineEntries()
    ensures |FRAME_XS| == |FRAME_YS| == |FRAME_SIZES| == |SPRITE_XS| == |FRAME_DS| == FRAME_COUNT == 9
  {
  }

  /**
   * Before the explosion is done the frame lies in 0..9; frame 9, reached only at exactly
   * DURATION, is one past the end of the nine-entry tables.
   */
  lemma FrameBound(timer: real)
    requires 0.0 <= timer <= DURATION
    ensures 0 <= FrameAt(timer) <= FRAME_COUNT
    ensures FrameAt(timer) == FRAME_COUNT <==> timer == DURATION
    ensures FrameAt(timer) < |FRAME_XS| <==> timer < DURATION
  {
  }

  /** Frames never go back as the timer grows. */
  lemma FrameMonotone(t1: real, t2: real)
    requires t1 <= t2
    ensures FrameAt(t1) <= FrameAt(t2)
  {
  }
}
