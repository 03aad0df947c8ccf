/**
 * The video trim window of the `App` component: `videoDuration`, `videoStartTime` and
 * `videoEndTime` (src/App.js:26-28) in seconds, and the handlers that rewrite them: the
 * metadata loads, the `VideoControls` sliders and the `VideoTrimmer` sliders. Slider
 * ranges are preconditions on the value a handler receives.
 */
module Trim {

  /** The longest segment that may be submitted, in seconds. */
  const MaxSpan: real := 5.0

  function MinR(a: real, b: real): (r: real)
    ensures r <= a && r <= b && (r == a || r == b)
  {
    if a <= b then a else b
  }

  function MaxR(a: real, b: real): (r: real)
    ensures r >= a && r >= b && (r == a || r == b)
  {
    if a >= b then a else b
  }

  /**
   * The `VideoControls` start guard (src/App.js:533): only the span is checked, so a start
   * at or after the end is always accepted.
   */
  function ControlsAcceptsStart(end: real, newStart: real): (r: bool)
    ensures r ==> end - newStart <= MaxSpan
    ensures end - MaxSpan <= newStart ==> r
  {
    end - newStart <= MaxSpan
  }

  /** The evidently intended start guard: the start must not pass the end either. */
  predicate CheckedAcceptsStart(end: real, newStart: real)
  {
    newStart <= end && end - newStart <= MaxSpan
  }

  class TrimWindow {
    var duration: real
    var start: real
    var end: real

    /** A window that may be submitted: inside the clip, in order, at most five seconds long. */
    predicate Valid()
      reads this
    {
      0.0 <= start <= end <= duration && end - start <= MaxSpan
    }

    /** The `useState` initial values: duration 0, start 0, end 5 (src/App.js:26-28). */
    constructor ()
      ensures duration == 0.0 && start == 0.0 && end == MaxSpan
    {
      duration, start, end := 0.0, 0.0, MaxSpan;
    }

    /**
     * The metadata load of a dropped video (src/App.js:111-114) and of the `<video>`
     * element (src/App.js:869-876): duration := d, end := min(5, d). The start is left as it was,
     * so the window stays valid when the old start is inside the new one; the last ensures is
     * that case for a fresh window, whose start is 0.
     */
    method LoadMetadata(d: real)
      requires 0.0 <= d
      modifies this
      ensures duration == d && end == MinR(MaxSpan, d) && start == old(start)
      ensures 0.0 <= old(start) <= end ==> Valid()
      ensures old(start) == 0.0 ==> Valid()
    {
      duration := d;
      if d > MaxSpan {
        end := MinR(MaxSpan, d);
      } else {
        end := d;
      }
    }

    /** The metadata load with the start reset to 0, as the trim window evidently needs. */
    method LoadMetadataReset(d: real)
      requires 0.0 <= d
      modifies this
      ensures duration == d && start == 0.0 && end == MinR(MaxSpan, d)
      ensures Valid()
    {
      duration := d;
      start := 0.0;
      end := MinR(MaxSpan, d);
    }

    /**
     * The `VideoControls` start slider, range [0, duration] (src/App.js:527-536): the new
     * start is taken only when the end is at most five seconds after it.
     */
    method ControlsSetStart(newStart: real)
      requires 0.0 <= newStart <= duration
      modifies this`start
      ensures start == if ControlsAcceptsStart(end, newStart) then newStart else old(start)
      ensures end - start <= MaxSpan || start == old(start)
      ensures old(Valid()) && newStart <= end ==> Valid()
    {
      if ControlsAcceptsStart(end, newStart) {
        start := newStart;
      }
    }

    /** The start slider with the order check added: a request that would break the window is rejected. */
    method ControlsSetStartChecked(newStart: real)
      requires 0.0 <= newStart <= duration
      modifies this`start
      ensures start == if CheckedAcceptsStart(end, newStart) then newStart else old(start)
      ensures old(Valid()) ==> Valid()
    {
      if CheckedAcceptsStart(end, newStart) {
        start := newStart;
      }
    }

    /**
     * The end slider of `VideoControls` (src/App.js:544-550) and of `VideoTrimmer`
     * (src/App.js:600-606, 888-890): range [start, min(duration, start + 5)].
     */
    method SetEnd(newEnd: real)
      requires start <= newEnd <= MinR(duration, start + MaxSpan)
      modifies this`end
      ensures end == newEnd
      ensures 0.0 <= start ==> Valid()
    {
      end := newEnd;
    }

    /**
     * The `VideoTrimmer` start slider, range [0, max(0, duration - 5)] (src/App.js:591-597),
     * and its handler `end := min(newStart + 5, duration)` (src/App.js:884-887). Whatever the
     * state before, the window afterwards is valid; on a clip longer than five seconds it is
     * exactly five seconds long.
     */
    method TrimmerSetStart(newStart: real)
      requires 0.0 <= duration
      requires 0.0 <= newStart <= MaxR(0.0, duration - MaxSpan)
      modifies this`start, this`end
      ensures start == newStart && end == MinR(newStart + MaxSpan, duration)
      ensures Valid()
      ensures duration >= MaxSpan ==> end - start == MaxSpan
    {
      start := newStart;
      end := MinR(newStart + MaxSpan, duration);
    }
  }

  /**
   * As written, the start guard lets the start pass the end: a 12-second clip, window
   * (0, 5), start slider moved to 8. The guard sees 5 - 8 <= 5 and takes it.
   */
  method StartPassesEnd() returns (start: real, end: real)
    ensures start == 8.0 && end == 5.0 && start > end
  {
    var w := new TrimWindow();
    w.LoadMetadata(12.0);
    w.ControlsSetStart(8.0);
    start, end := w.start, w.end;
  }

  /** With the order check, the same request is rejected and the window stays (0, 5). */
  method StartPassesEndRejected() returns (start: real, end: real)
    ensures start == 0.0 && end == 5.0
  {
    var w := new TrimWindow();
    w.LoadMetadata(12.0);
    w.ControlsSetStartChecked(8.0);
    start, end := w.start, w.end;
  }

  /**
   * As written, a metadata load keeps a start left from the previous clip: a 20-second clip
   * trimmed to start at 10, then a 3-second clip dropped, leaves start 10 after end 3.
   */
  method StaleStartAfterNewClip() returns (start: real, end: real, duration: real)
    ensures start == 10.0 && end == 3.0 && duration == 3.0 && start > end
  {
    var w := new TrimWindow();
    w.LoadMetadata(20.0);
    w.TrimmerSetStart(10.0);
    w.LoadMetadata(3.0);
    start, end, duration := w.start, w.end, w.duration;
  }

  /** With the reset, the same sequence leaves the valid window (0, 3). */
  method StaleStartAfterNewClipReset() returns (start: real, end: real, valid: bool)
    ensures start == 0.0 && end == 3.0 && valid
  {
    var w := new TrimWindow();
    w.LoadMetadataReset(20.0);
    w.TrimmerSetStart(10.0);
    w.LoadMetadataReset(3.0);
    start, end, valid := w.start, w.end, w.Valid();
  }

  /**
   * The scenario of a 12-second clip: after the load the window is (0, 5), and the end
   * slider then allows at most start + 5 = 5.
   */
  method TwelveSecondClip() returns (start: real, end: real, maxEnd: real)
    ensures start == 0.0 && end == 5.0 && maxEnd == 5.0
  {
    var w := new TrimWindow();
    w.LoadMetadata(12.0);
    start, end := w.start, w.end;
    maxEnd := MinR(w.duration, w.start + MaxSpan);
  }
}
