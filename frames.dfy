/**
 * The frame loop repeatFor. The host's animation-frame callbacks are replaced by the sequence
 * of their timestamps: frame 0 fixes the start time and is also the first step, and every
 * later frame is one more step.
 */
module Frames {
  import opened Basics

  /**
   * Position of the first frame, at `i` or later, whose elapsed time since `startTime` exceeds
   * `duration`; `|frames|` when there is none among the frames given.
   */
  function FirstOvershoot(duration: real, startTime: real, frames: seq<real>, i: nat): (n: nat)
    requires i <= |frames|
    ensures i <= n <= |frames|
    ensures forall k :: i <= k < n ==> frames[k] - startTime <= duration
    ensures n < |frames| ==> frames[n] - startTime > duration
    decreases |frames| - i
  {
    if i == |frames| then i
    else if frames[i] - startTime > duration then i
    else FirstOvershoot(duration, startTime, frames, i + 1)
  }

  /** Number of frames that call back: those before the first overshoot frame. */
  function TickCount(duration: real, frames: seq<real>): (n: nat)
    ensures n <= |frames|
    ensures forall k :: 0 <= k < n ==> frames[k] - frames[0] <= duration
    ensures n < |frames| ==> frames[n] - frames[0] > duration
  {
    if frames == [] then 0 else FirstOvershoot(duration, frames[0], frames, 0)
  }

  /** The elapsed times the callback receives, in order. */
  function TickTimes(duration: real, frames: seq<real>): (ticks: seq<real>)
    ensures |ticks| == TickCount(duration, frames) <= |frames|
    ensures forall k :: 0 <= k < |ticks| ==> ticks[k] == frames[k] - frames[0]
  {
    seq(TickCount(duration, frames), k requires 0 <= k < TickCount(duration, frames) => frames[k] - frames[0])
  }

  /** The promise resolves once some frame overshoots `duration`. */
  predicate Resolves(duration: real, frames: seq<real>)
    ensures Resolves(duration, frames) <==> exists k :: 0 <= k < |frames| && frames[k] - frames[0] > duration
  {
    TickCount(duration, frames) < |frames|
  }

  /**
   * repeatFor(duration, callback) over the frames delivered so far: returns the arguments of
   * the callback calls in order, and whether the returned promise has resolved.
   */
  method RepeatFor(duration: real, frames: seq<real>) returns (ticks: seq<real>, resolved: bool)
    ensures ticks == TickTimes(duration, frames)
    ensures resolved <==> Resolves(duration, frames)
  {
    ticks, resolved := [], false;
    if frames == [] {
      return;
    }
    var startTime := frames[0];
    var k := 0;
    while k < |frames| && !resolved
      invariant 0 <= k <= FirstOvershoot(duration, startTime, frames, 0)
      invariant ticks == seq(k, j requires 0 <= j < k => frames[j] - startTime)
      invariant resolved ==> k < |frames| && frames[k] - startTime > duration
      decreases |frames| - k, !resolved
    {
      var elapsedTime := frames[k] - startTime;
      if elapsedTime > duration {
        resolved := true;
      } else {
        ticks := ticks + [elapsedTime];
        k := k + 1;
      }
    }
  }

  /** Every callback gets an elapsed time within the duration. */
  lemma TicksWithinDuration(duration: real, frames: seq<real>)
    ensures forall k :: 0 <= k < |TickTimes(duration, frames)| ==> TickTimes(duration, frames)[k] <= duration
  {
  }

  /** The first frame calls back with elapsed time 0, unless the duration is negative. */
  lemma FirstTickIsZero(duration: real, frames: seq<real>)
    requires frames != [] && duration >= 0.0
    ensures |TickTimes(duration, frames)| > 0 && TickTimes(duration, frames)[0] == 0.0
  {
  }

  /** Strictly increasing timestamps give strictly increasing, non-negative callback arguments. */
  lemma TicksIncrease(duration: real, frames: seq<real>)
    requires StrictlyIncreasing(frames)
    ensures StrictlyIncreasing(TickTimes(duration, frames))
    ensures forall k :: 0 <= k < |TickTimes(duration, frames)| ==> TickTimes(duration, frames)[k] >= 0.0
  {
  }

  /**
   * Once a frame overshoots, so does every later frame: the frame that resolves is the first
   * one out of bounds, and no frame after it could call back.
   */
  lemma OvershootIsFinal(duration: real, frames: seq<real>)
    requires StrictlyIncreasing(frames) && Resolves(duration, frames)
    ensures forall k :: TickCount(duration, frames) <= k < |frames| ==> frames[k] - frames[0] > duration
  {
  }
}
