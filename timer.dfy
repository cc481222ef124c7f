/** The frame clock (Glitter/Headers/Timer.hpp): it keeps the last two clock
    samples and derives the frame time and the frame rate from them. The
    wall-clock sample (`glfwGetTime()` in the source) is a parameter. */
module Timing {

  /** The two samples a `Timer` holds. */
  datatype Clock = Clock(prevTime: real, curTime: real)

  /** The field initialisers: both samples 0. */
  const Start: Clock := Clock(0.0, 0.0)

  /** One clock tick: the current sample becomes the previous one. */
  function Advance(c: Clock, sample: real): Clock
  {
    Clock(c.curTime, sample)
  }

  /** The time between the last two samples. */
  function Delta(c: Clock): real
  {
    c.curTime - c.prevTime
  }

  /** Frames per second: the reciprocal of the frame time. */
  function Fps(c: Clock): (r: real)
    requires Delta(c) != 0.0
    ensures r * Delta(c) == 1.0
    ensures r > 0.0 <==> Delta(c) > 0.0
  {
    1.0 / Delta(c)
  }

  /** The clock after ticking once per sample, in order. */
  function AdvanceAll(c: Clock, samples: seq<real>): Clock
    decreases |samples|
  {
    if samples == [] then c else AdvanceAll(Advance(c, samples[0]), samples[1..])
  }

  /** A fresh clock reads a frame time of 0. */
  lemma StartDelta()
    ensures Delta(Start) == 0.0
  {
  }

  /** After one tick the frame time is the new sample minus the old current one. */
  lemma DeltaAfterAdvance(c: Clock, sample: real)
    ensures Advance(c, sample).prevTime == c.curTime
    ensures Advance(c, sample).curTime == sample
    ensures Delta(Advance(c, sample)) == sample - c.curTime
  {
  }

  /** After any number of ticks the clock holds exactly the last two samples
      (the old current time standing in for a missing earlier one). */
  lemma {:induction false} AdvanceAllKeepsLastTwo(c: Clock, samples: seq<real>)
    requires |samples| >= 1
    ensures AdvanceAll(c, samples).curTime == samples[|samples| - 1]
    ensures AdvanceAll(c, samples).prevTime ==
      if |samples| == 1 then c.curTime else samples[|samples| - 2]
    decreases |samples|
  {
    if |samples| > 1 {
      AdvanceAllKeepsLastTwo(Advance(c, samples[0]), samples[1..]);
    }
  }

  /** Samples from a clock that never runs backwards, starting at or after
      the clock's current time, give a non-negative frame time. */
  lemma MonotoneSamplesDelta(c: Clock, samples: seq<real>)
    requires |samples| >= 1
    requires c.curTime <= samples[0]
    requires forall i, j :: 0 <= i <= j < |samples| ==> samples[i] <= samples[j]
    ensures Delta(AdvanceAll(c, samples)) >= 0.0
  {
    AdvanceAllKeepsLastTwo(c, samples);
  }

  class Timer {
    var curTime: real
    var prevTime: real

    /** The two samples as one value. */
    function State(): Clock
      reads this
    {
      Clock(prevTime, curTime)
    }

    constructor ()
      ensures State() == Start
    {
      curTime := 0.0;
      prevTime := 0.0;
    }

    /** Takes the first sample: exactly one `UpdateTime`. */
    method Init(sample: real)
      modifies this
      ensures State() == Advance(old(State()), sample)
    {
      UpdateTime(sample);
    }

    /** The time elapsed from the previous sample to the current one. */
    function GetDeltaTime(): (r: real)
      reads this
      ensures prevTime + r == curTime
    {
      Delta(State())
    }

    /** Frames per second over the last frame. */
    function GetFPS(): (r: real)
      reads this
      requires curTime != prevTime
      ensures r * (curTime - prevTime) == 1.0
    {
      Fps(State())
    }

    /** Shifts the current sample into the previous one and stores `sample`. */
    method UpdateTime(sample: real)
      modifies this
      ensures State() == Advance(old(State()), sample)
      ensures prevTime == old(curTime) && curTime == sample
    {
      prevTime := curTime;
      curTime := sample;
    }
  }
}
