/** src/utils/progress.js: how long the current track has been playing, leaving out
    the time it spent paused. The wall clock (Date.now, in milliseconds) is passed to
    every operation as `now`; a start or pause time of `None` is the source's null. */
module Progress {
  import opened Optional
  import Helpers

  /** getElapsed over the tracker's fields: whole seconds played at time now,
      max(0, floor((now - start - paused - current pause) / 1000)), and 0 before any start. */
  function ElapsedAt(startTime: Option<int>, totalPausedTime: int, pausedAt: Option<int>, now: int): nat
  {
    if startTime.None? then 0
    else
      var elapsed := now - startTime.value - totalPausedTime
                     - (if pausedAt.Some? then now - pausedAt.value else 0);
      if elapsed / 1000 < 0 then 0 else elapsed / 1000
  }

  /** While paused the clock stands still. */
  lemma ElapsedFrozenWhilePaused(startTime: Option<int>, totalPausedTime: int, pausedAt: Option<int>, t1: int, t2: int)
    requires pausedAt.Some?
    ensures ElapsedAt(startTime, totalPausedTime, pausedAt, t1) == ElapsedAt(startTime, totalPausedTime, pausedAt, t2)
  {
  }

  /** While playing the clock never runs backwards. */
  lemma ElapsedMonotoneWhilePlaying(startTime: Option<int>, totalPausedTime: int, t1: int, t2: int)
    requires t1 <= t2
    ensures ElapsedAt(startTime, totalPausedTime, None, t1) <= ElapsedAt(startTime, totalPausedTime, None, t2)
  {
    if startTime.Some? {
      var e1 := t1 - startTime.value - totalPausedTime;
      var e2 := t2 - startTime.value - totalPausedTime;
      if e1 >= 0 {
        Helpers.DivMonotone(e1, e2, 1000);
      }
    }
  }

  /** A pause from p to r is taken out entirely: afterwards the tracker reads what it would
      read had the track started r - p later and never paused. */
  lemma PauseGapExcluded(start: int, totalPausedTime: int, p: int, r: int, t: int)
    ensures ElapsedAt(Some(start), totalPausedTime + (r - p), None, t)
         == ElapsedAt(Some(start + (r - p)), totalPausedTime, None, t)
  {
  }

  /** Resuming does not make the clock jump. */
  lemma ResumeIsContinuous(start: int, totalPausedTime: int, p: int, r: int)
    ensures ElapsedAt(Some(start), totalPausedTime + (r - p), None, r)
         == ElapsedAt(Some(start), totalPausedTime, Some(p), r)
  {
  }

  /** A finished track stays finished: while playing as time goes on, and while paused at
      every time. */
  lemma FinishedStaysFinished(startTime: Option<int>, totalPausedTime: int, pausedAt: Option<int>,
                              duration: nat, t1: int, t2: int)
    requires t1 <= t2 || pausedAt.Some?
    ensures ElapsedAt(startTime, totalPausedTime, pausedAt, t1) >= duration ==>
              ElapsedAt(startTime, totalPausedTime, pausedAt, t2) >= duration
  {
    if pausedAt.Some? {
      ElapsedFrozenWhilePaused(startTime, totalPausedTime, pausedAt, t1, t2);
    } else {
      ElapsedMonotoneWhilePlaying(startTime, totalPausedTime, t1, t2);
    }
  }

  /** The elapsed time has reached the duration exactly when a progress bar of any length
      has its knob at the end. */
  lemma FinishedIffBarFull(elapsed: nat, duration: nat)
    requires duration > 0
    ensures elapsed >= duration <==>
              forall length :: length > 0 ==> Helpers.KnobPosition(elapsed, duration, length) == length
  {
    forall length | length > 0
      ensures elapsed >= duration <==> Helpers.KnobPosition(elapsed, duration, length) == length
    {
      Helpers.MulDivBelow(elapsed, duration, length);
    }
    if elapsed < duration {
      assert Helpers.KnobPosition(elapsed, duration, 1) != 1;
    }
  }

  /** getTimeString: "elapsed/duration" as two clock strings. */
  function TimeText(elapsed: nat, duration: nat): string
  {
    Helpers.FormatDurationSeconds(elapsed) + "/" + Helpers.FormatDurationSeconds(duration)
  }

  lemma ClockHasNoSlash(t: nat)
    ensures '/' !in Helpers.FormatDurationSeconds(t)
  {
    var h, m, s := t / 3600, t / 60 % 60, t % 60;
    Helpers.Pad2Reads(m);
    Helpers.Pad2Reads(s);
    Helpers.Pad2Reads(h);
    assert '/' !in Helpers.NatToString(h);
    assert '/' !in Helpers.NatToString(m);
    assert '/' !in Helpers.Pad2(m);
    assert '/' !in Helpers.Pad2(s);
  }

  /** The time string reads back as the elapsed seconds and the duration. */
  lemma TimeTextReadsBack(elapsed: nat, duration: nat)
    ensures var parts := Helpers.Split(TimeText(elapsed, duration), '/');
            && |parts| == 2
            && Helpers.ClockSeconds(parts[0]) == Some(elapsed)
            && Helpers.ClockSeconds(parts[1]) == Some(duration)
  {
    var a, b := Helpers.FormatDurationSeconds(elapsed), Helpers.FormatDurationSeconds(duration);
    ClockHasNoSlash(elapsed);
    ClockHasNoSlash(duration);
    Helpers.SplitWithout(b, '/');
    Helpers.SplitAfter(a, '/', b);
    assert TimeText(elapsed, duration) == a + ['/'] + b;
    Helpers.FormatDurationSecondsRoundTrip(elapsed);
    Helpers.FormatDurationSecondsRoundTrip(duration);
  }

  class ProgressTracker {
    var startTime: Option<int>
    var duration: nat
    var pausedAt: Option<int>
    var totalPausedTime: int

    constructor ()
      ensures startTime == None && duration == 0 && pausedAt == None && totalPausedTime == 0
      ensures forall t :: Elapsed(t) == 0
    {
      startTime := None;
      duration := 0;
      pausedAt := None;
      totalPausedTime := 0;
    }

    function Elapsed(now: int): nat
      reads this
    {
      ElapsedAt(startTime, totalPausedTime, pausedAt, now)
    }

    predicate IsPaused()
      reads this
    {
      pausedAt.Some?
    }

    /** start: a fresh clock for a track of the given length, not paused. */
    method Start(durationSeconds: nat, now: int)
      modifies this
      ensures startTime == Some(now) && duration == durationSeconds
      ensures pausedAt == None && totalPausedTime == 0
      ensures Elapsed(now) == 0 && !IsPaused()
    {
      startTime := Some(now);
      duration := durationSeconds;
      pausedAt := None;
      totalPausedTime := 0;
    }

    /** pause: remembers when the pause began; a second pause keeps the first time. */
    method Pause(now: int)
      modifies this
      ensures pausedAt == if old(pausedAt).None? then Some(now) else old(pausedAt)
      ensures startTime == old(startTime) && duration == old(duration)
      ensures totalPausedTime == old(totalPausedTime)
      ensures IsPaused() && Elapsed(now) == old(Elapsed(now))
      ensures forall t :: Elapsed(t) == Elapsed(now)
    {
      if pausedAt.None? {
        pausedAt := Some(now);
      }
    }

    /** resume: adds the length of the pause to the paused total; without a pause it does nothing. */
    method Resume(now: int)
      modifies this
      ensures old(pausedAt).None? ==> totalPausedTime == old(totalPausedTime) && pausedAt == None
      ensures old(pausedAt).Some? ==>
                totalPausedTime == old(totalPausedTime) + (now - old(pausedAt).value) && pausedAt == None
      ensures startTime == old(startTime) && duration == old(duration)
      ensures Elapsed(now) == old(Elapsed(now)) && !IsPaused()
    {
      if pausedAt.Some? {
        totalPausedTime := totalPausedTime + (now - pausedAt.value);
        pausedAt := None;
      }
    }

    /** isFinished: the elapsed seconds have reached the duration (at once when it is 0);
        for a track with a length that is exactly when the progress bar is full. */
    function IsFinished(now: int): (finished: bool)
      reads this
      ensures duration == 0 ==> finished
      ensures finished <==> Elapsed(now) >= duration
      ensures duration > 0 ==>
                (finished <==> forall length :: length > 0 ==> Helpers.KnobPosition(Elapsed(now), duration, length) == length)
    {
      if duration > 0 then
        FinishedIffBarFull(Elapsed(now), duration);
        Elapsed(now) >= duration
      else Elapsed(now) >= duration
    }

    /** getTimeString. */
    function TimeString(now: int): string
      reads this
    {
      TimeText(Elapsed(now), duration)
    }

    /** getProgressBar. */
    function ProgressBar(now: int, length: nat): string
      reads this
    {
      Helpers.CreateProgressBar(Elapsed(now), duration, length)
    }
  }
}
