/** The pacing arithmetic of `Core::resetWaitTime`: how long the next capture
    may wait for a desktop update, given a measured interval of counter ticks.
    The interval is divided by 1000 whatever the counter's frequency, so the
    unit below is thousands of counter ticks, which the source treats as
    milliseconds. */
module Pacing {

  /** Frame budget, in thousands of counter ticks: meant as 17 ms per frame,
      about 60 frames a second. */
  const WAIT_BASE: int := 17

  /** The wait stored for a measured interval: the budget minus the interval's
      whole thousands of ticks, never below zero. The interval is non-negative (the
      counter never runs backwards), so C++'s truncating division and Dafny's
      agree here. */
  function WaitFor(interval: nat): (w: int)
    ensures 0 <= w <= WAIT_BASE
    ensures w == 0 <==> interval >= WAIT_BASE * 1000
    ensures 0 < w ==> w + interval / 1000 == WAIT_BASE
  {
    var w := WAIT_BASE - interval / 1000;
    if w < 0 then 0 else w
  }

  /** A longer interval never yields a longer wait. */
  lemma WaitForAntitone(shorter: nat, longer: nat)
    requires shorter <= longer
    ensures WaitFor(longer) <= WaitFor(shorter)
  {
    assert shorter / 1000 <= longer / 1000;
  }

  /** The wait is the largest non-negative value that, added to the elapsed
      whole thousands of ticks, stays within the budget. */
  lemma WaitForIsLargestFit(interval: nat, v: int)
    requires 0 <= v && v + interval / 1000 <= WAIT_BASE
    ensures v <= WaitFor(interval)
  {
  }

  /** The wait for the next capture when the elapsed time is measured from the
      counter read at the top of a loop pass (`captureStart`) to `now`: the
      feedback the loop's own comments describe, so that capture plus wait add
      up to one frame. */
  function PacedWait(captureStart: int, now: int): (w: int)
    requires captureStart <= now
    ensures 0 <= w <= WAIT_BASE
    ensures now - captureStart < WAIT_BASE * 1000 ==> w + (now - captureStart) / 1000 == WAIT_BASE
    ensures now - captureStart >= WAIT_BASE * 1000 ==> w == 0
  {
    WaitFor(now - captureStart)
  }

  /** With the elapsed time measured from the capture's start, a capture that
      took longer leaves a shorter (or equal) wait. */
  lemma PacedWaitShrinksWithCaptureTime(captureStart: int, now: int, later: int)
    requires captureStart <= now <= later
    ensures PacedWait(captureStart, later) <= PacedWait(captureStart, now)
  {
    WaitForAntitone(now - captureStart, later - captureStart);
  }

  /** As written, resetWaitTime measures between its own two back-to-back
      counter reads. Whenever those are fewer than 1000 ticks apart it stores
      the full budget, even after a capture that overran the frame, where the
      paced wait is zero. */
  lemma BackToBackReadsIgnoreCaptureTime(captureStart: int, firstRead: int, secondRead: int)
    requires captureStart <= firstRead <= secondRead < firstRead + 1000
    requires firstRead - captureStart >= WAIT_BASE * 1000
    ensures WaitFor(secondRead - firstRead) == WAIT_BASE
    ensures PacedWait(captureStart, secondRead) == 0
  {
  }
}
