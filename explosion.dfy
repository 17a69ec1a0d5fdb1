/** Explosions (explosion.ts): a three-frame animation over 300 ms. */
module Explosions {
  import opened Types
  import opened Config

  const FRAME_COUNT: int := 3
  const DURATION: real := 300.0
  /** 100 ms per frame. */
  const FRAME_INTERVAL: real := DURATION / FRAME_COUNT as real

  /** The frame shown at a timer value. */
  function FrameAt(timer: real): (f: int)
    ensures f as real * FRAME_INTERVAL <= timer < (f + 1) as real * FRAME_INTERVAL
  {
    (timer / FRAME_INTERVAL).Floor
  }

  class Explosion {
    const x: real
    const y: real
    var frame: int
    var timer: real
    var isDone: bool

    /**
     * Under non-negative time steps: the timer is non-negative, the explosion is done exactly once
     * the timer has passed DURATION, and until then the frame is the timer's. Frames run 0..3,
     * not 0..2: frame 3 is shown when the timer is exactly DURATION.
     */
    ghost predicate Valid()
      reads this
    {
      && 0.0 <= timer
      && (isDone <==> timer > DURATION)
      && 0 <= frame <= FRAME_COUNT
      && (!isDone ==> frame == FrameAt(timer))
    }

    constructor (x: real, y: real)
      ensures Valid()
      ensures this.x == x && this.y == y && frame == 0 && timer == 0.0 && !isDone
    {
      this.x, this.y := x, y;
      frame := 0;
      timer := 0.0;
      isDone := false;
    }

    /**
     * Adds deltaTime to the timer; past DURATION the explosion is done and its frame frozen,
     * otherwise the frame follows the timer. With deltaTime >= 0 the invariant is kept, the frame
     * never goes back and a finished explosion stays finished.
     */
    method Update(deltaTime: real)
      modifies this`frame, this`timer, this`isDone
      ensures timer == old(timer) + deltaTime
      ensures timer > DURATION ==> isDone && frame == old(frame)
      ensures timer <= DURATION ==> isDone == old(isDone) && frame == FrameAt(timer)
      ensures old(Valid()) && deltaTime >= 0.0 ==>
        Valid() && old(frame) <= frame && (old(isDone) ==> isDone && frame == old(frame))
    {
      timer := timer + deltaTime;
      if timer > DURATION {
        isDone := true;
      } else {
        frame := (timer / FRAME_INTERVAL).Floor;
      }
    }

    function IsFinished(): (r: bool)
      reads this
      ensures Valid() ==> (r <==> timer > DURATION)
    {
      isDone
    }
  }

  /**
   * Before the explosion is done the frame lies in 0..3, and it is 3 only at exactly DURATION,
   * one past the last of the three sprite frames.
   */
  lemma FrameBound(timer: real)
    requires 0.0 <= timer <= DURATION
    ensures 0 <= FrameAt(timer) <= FRAME_COUNT
    ensures FrameAt(timer) == FRAME_COUNT <==> timer == DURATION
  {
  }

  /** Frames never go back as the timer grows. */
  lemma FrameMonotone(t1: real, t2: real)
    requires t1 <= t2
    ensures FrameAt(t1) <= FrameAt(t2)
  {
  }
}
