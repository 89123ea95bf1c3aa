/** The countdown timer and the stopwatch. Their state lives on the engine
    object as `timer_seconds`, `timer_running`, `stopwatch_seconds` and
    `stopwatch_running`, attributes that do not exist until first assigned
    (None here). Each tick method runs once per second via `root.after(1000, ...)`;
    one call is one step here. */
module Counters {
  import opened ClockTime

  datatype Hms = Hms(hours: int, minutes: int, seconds: int)

  /** What one tick does: nothing (not running), show a count, finish the
      countdown (`timer_complete`, which also plays `default_alarm.wav`), or
      fail because the seconds attribute was never set (AttributeError). */
  datatype Step = Idle | Shown(hms: Hms) | Finished | NoSeconds

  datatype TimerState = TimerState(seconds: Option<int>, running: Option<bool>)
  datatype WatchState = WatchState(seconds: Option<nat>, running: Option<bool>)

  /** `(s // 3600, (s % 3600) // 60, s % 60)`: hours, minutes and seconds of a count. */
  function Split(total: nat): (r: Hms)
    ensures r.hours * 3600 + r.minutes * 60 + r.seconds == total
    ensures 0 <= r.hours && 0 <= r.minutes < 60 && 0 <= r.seconds < 60
  {
    var h := total / 3600;
    var rest := total % 3600;
    assert total == h * 3600 + rest;
    assert rest == (rest / 60) * 60 + rest % 60;
    assert rest % 60 == total % 60 by {
      assert total == (h * 60 + rest / 60) * 60 + rest % 60;
    }
    Hms(h, rest / 60, total % 60)
  }

  /** `f"{hours:02d}:{minutes:02d}:{seconds:02d}"`: for a split count the last
      five characters read back as the minutes and the seconds, and below 100
      hours the first two are the hours' two digits. */
  function HmsText(t: Hms): (s: string)
    ensures 0 <= t.hours && 0 <= t.minutes < 60 && 0 <= t.seconds < 60 ==>
      |s| >= 8 && s[|s| - 6] == ':' && s[|s| - 3] == ':' &&
      IsDigit(s[|s| - 5]) && IsDigit(s[|s| - 4]) && IsDigit(s[|s| - 2]) && IsDigit(s[|s| - 1]) &&
      10 * DigitValue(s[|s| - 5]) + DigitValue(s[|s| - 4]) == t.minutes &&
      10 * DigitValue(s[|s| - 2]) + DigitValue(s[|s| - 1]) == t.seconds
    ensures 0 <= t.hours < 100 ==> |s| >= 2 && s[..2] == TwoDigits(t.hours)
  {
    assert 0 <= t.hours < 100 ==> Pad2(t.hours) == TwoDigits(t.hours) by {
      if 0 <= t.hours < 100 { Pad2Small(t.hours); }
    }
    assert 0 <= t.minutes < 60 && 0 <= t.seconds < 60 ==>
      Pad2(t.minutes) == TwoDigits(t.minutes) && Pad2(t.seconds) == TwoDigits(t.seconds) by {
      if 0 <= t.minutes < 60 && 0 <= t.seconds < 60 {
        Pad2Small(t.minutes);
        Pad2Small(t.seconds);
      }
    }
    Pad2(t.hours) + ":" + Pad2(t.minutes) + ":" + Pad2(t.seconds)
  }

  /** Below 100 hours the display is the fixed-width `"HH:MM:SS"`. */
  lemma DisplayWidth(total: nat)
    requires total < 100 * 3600
    ensures |HmsText(Split(total))| == 8
  {
    var t := Split(total);
    Pad2Small(t.hours);
    Pad2Small(t.minutes);
    Pad2Small(t.seconds);
  }

  /** `update_timer`: while running, show and decrement a positive count;
      at zero or below, `timer_complete` lowers the running flag. */
  function TimerStep(t: TimerState): (r: (TimerState, Step))
    ensures r.1 == Idle <==> t.running != Some(true)
    ensures r.1 == NoSeconds <==> t.running == Some(true) && t.seconds.None?
    ensures r.1 == Idle || r.1 == NoSeconds ==> r.0 == t
    ensures r.1.Shown? <==> t.running == Some(true) && t.seconds.Some? && t.seconds.value > 0
    ensures r.1.Shown? ==> r.0.running == t.running && r.0.seconds == Some(t.seconds.value - 1)
    ensures r.1.Shown? ==> r.1.hms.hours * 3600 + r.1.hms.minutes * 60 + r.1.hms.seconds == t.seconds.value
    ensures r.1 == Finished ==> r.0.running == Some(false) && r.0.seconds == t.seconds && t.seconds.value <= 0
  {
    if t.running != Some(true) then (t, Idle)
    else if t.seconds.None? then (t, NoSeconds)
    else if t.seconds.value > 0 then (t.(seconds := Some(t.seconds.value - 1)), Shown(Split(t.seconds.value)))
    else (t.(running := Some(false)), Finished)
  }

  /** `update_stopwatch`: while running, show the count and add one second. */
  function WatchStep(w: WatchState): (r: (WatchState, Step))
    ensures r.1 == Idle <==> w.running != Some(true)
    ensures r.1 == NoSeconds <==> w.running == Some(true) && w.seconds.None?
    ensures r.1 == Idle || r.1 == NoSeconds ==> r.0 == w
    ensures r.1.Shown? <==> w.running == Some(true) && w.seconds.Some?
    ensures r.1.Shown? ==> r.0.running == w.running && r.0.seconds == Some(w.seconds.value + 1)
    ensures r.1.Shown? ==> r.1.hms.hours * 3600 + r.1.hms.minutes * 60 + r.1.hms.seconds == w.seconds.value
    ensures r.1 != Finished
  {
    if w.running != Some(true) then (w, Idle)
    else if w.seconds.None? then (w, NoSeconds)
    else (w.(seconds := Some(w.seconds.value + 1)), Shown(Split(w.seconds.value)))
  }

  /** `n` timer ticks in a row, with what each one did. */
  function TimerRun(t: TimerState, n: nat): (TimerState, seq<Step>)
    decreases n
  {
    if n == 0 then (t, [])
    else
      var (t1, r) := TimerStep(t);
      var (tn, rs) := TimerRun(t1, n - 1);
      (tn, [r] + rs)
  }

  function WatchRun(w: WatchState, n: nat): (WatchState, seq<Step>)
    decreases n
  {
    if n == 0 then (w, [])
    else
      var (w1, r) := WatchStep(w);
      var (wn, rs) := WatchRun(w1, n - 1);
      (wn, [r] + rs)
  }

  /** The displays of a countdown from `s`: s, s - 1, ..., 1. */
  function CountdownShows(s: nat): seq<Step>
  {
    if s == 0 then [] else [Shown(Split(s))] + CountdownShows(s - 1)
  }

  /** The displays of a stopwatch from `c` over `n` ticks: c, c + 1, ..., c + n - 1. */
  function CountUpShows(c: nat, n: nat): seq<Step>
    decreases n
  {
    if n == 0 then [] else [Shown(Split(c))] + CountUpShows(c + 1, n - 1)
  }

  /** A running countdown from `s` shows every second from `s` down to 1, and
      on the next tick completes, with the count at 0 and the flag down. */
  lemma {:induction false} CountdownCompletes(s: nat)
    ensures TimerRun(TimerState(Some(s), Some(true)), s + 1) ==
      (TimerState(Some(0), Some(false)), CountdownShows(s) + [Finished])
  {
    var t := TimerState(Some(s), Some(true));
    if s > 0 {
      CountdownCompletes(s - 1);
      assert TimerStep(t) == (TimerState(Some(s - 1), Some(true)), Shown(Split(s)));
      var rest := TimerRun(TimerState(Some(s - 1), Some(true)), s);
      assert TimerRun(t, s + 1) == (rest.0, [Shown(Split(s))] + rest.1);
      assert [Shown(Split(s))] + (CountdownShows(s - 1) + [Finished]) == CountdownShows(s) + [Finished];
    } else {
      assert TimerStep(t) == (TimerState(Some(0), Some(false)), Finished);
      assert TimerRun(TimerState(Some(0), Some(false)), 0) == (TimerState(Some(0), Some(false)), []);
      assert CountdownShows(s) + [Finished] == [Finished] + [];
    }
  }

  /** A countdown started with a count of zero or less completes on its first tick. */
  lemma NonPositiveCompletesAtOnce(s: int)
    requires s <= 0
    ensures TimerStep(TimerState(Some(s), Some(true))) == (TimerState(Some(s), Some(false)), Finished)
  {
  }

  /** A running stopwatch counts up by one second per tick and shows each count. */
  lemma {:induction false} StopwatchCountsUp(c: nat, n: nat)
    decreases n
    ensures WatchRun(WatchState(Some(c), Some(true)), n) == (WatchState(Some(c + n), Some(true)), CountUpShows(c, n))
  {
    if n > 0 {
      StopwatchCountsUp(c + 1, n - 1);
    }
  }

  /** A paused timer or stopwatch does not move, however many ticks arrive. */
  lemma {:induction false} PausedTimerStays(t: TimerState, n: nat)
    requires t.running != Some(true)
    ensures TimerRun(t, n).0 == t
  {
    if n > 0 {
      PausedTimerStays(t, n - 1);
    }
  }

  lemma {:induction false} PausedWatchStays(w: WatchState, n: nat)
    requires w.running != Some(true)
    ensures WatchRun(w, n).0 == w
  {
    if n > 0 {
      PausedWatchStays(w, n - 1);
    }
  }

  /** The countdown timer's attributes on the engine object. */
  class Countdown {
    var seconds: Option<int>
    var running: Option<bool>

    function State(): TimerState
      reads this
    {
      TimerState(seconds, running)
    }

    constructor ()
      ensures seconds.None? && running.None?
    {
      seconds := None;
      running := None;
    }

    /** `update_timer`. */
    method Tick() returns (step: Step)
      modifies this
      ensures (State(), step) == TimerStep(old(State()))
    {
      if running != Some(true) {
        return Idle;
      }
      if seconds.None? {
        return NoSeconds;
      }
      if seconds.value > 0 {
        step := Shown(Split(seconds.value));
        seconds := Some(seconds.value - 1);
      } else {
        Complete();
        step := Finished;
      }
    }

    /** `timer_complete`: lower the running flag (and play the default sound). */
    method Complete()
      modifies this
      ensures running == Some(false) && seconds == old(seconds)
    {
      running := Some(false);
    }

    /** `start_timer` of src/ui/ui_components.py: `minutes` is the entry after
        `int()` (None where it raises, which leaves everything as it was). */
    method StartMinutes(minutes: Option<int>) returns (started: bool, step: Step)
      modifies this
      ensures started == minutes.Some?
      ensures !started ==> State() == old(State()) && step == Idle
      ensures started ==> (State(), step) == TimerStep(TimerState(Some(minutes.value * 60), Some(true)))
    {
      if minutes.None? {
        return false, Idle;
      }
      seconds := Some(minutes.value * 60);
      running := Some(true);
      started := true;
      step := Tick();
    }

    /** `start_timer` of modern_ui.py and src/ui/modern_ui.py: hours, minutes and
        seconds from three spinboxes (None where `int()` raises). */
    method StartHms(hours: Option<int>, minutes: Option<int>, secs: Option<int>) returns (started: bool, step: Step)
      modifies this
      ensures started == (hours.Some? && minutes.Some? && secs.Some?)
      ensures !started ==> State() == old(State()) && step == Idle
      ensures started ==>
        (State(), step) == TimerStep(TimerState(Some(hours.value * 3600 + minutes.value * 60 + secs.value), Some(true)))
    {
      if hours.None? || minutes.None? || secs.None? {
        return false, Idle;
      }
      seconds := Some(hours.value * 3600 + minutes.value * 60 + secs.value);
      running := Some(true);
      started := true;
      step := Tick();
    }

    /** `stop_timer_custom`: pause; the count is kept. */
    method Pause()
      modifies this
      ensures running == Some(false) && seconds == old(seconds)
    {
      running := Some(false);
    }

    /** The engine's `stop_timer`: lower the flag only if it exists. */
    method Halt()
      modifies this
      ensures running == if old(running).Some? then Some(false) else None
      ensures seconds == old(seconds)
    {
      if running.Some? {
        running := Some(false);
      }
    }

    /** `continue_timer`: raise the flag and tick from the kept count. */
    method Resume() returns (step: Step)
      modifies this
      ensures (State(), step) == TimerStep(TimerState(old(seconds), Some(true)))
    {
      running := Some(true);
      step := Tick();
    }

    /** `reset_timer`. */
    method Reset()
      modifies this
      ensures seconds == Some(0) && running == Some(false)
    {
      running := Some(false);
      seconds := Some(0);
    }
  }

  /** The stopwatch's attributes on the engine object. */
  class Stopwatch {
    var seconds: Option<nat>
    var running: Option<bool>

    function State(): WatchState
      reads this
    {
      WatchState(seconds, running)
    }

    constructor ()
      ensures seconds.None? && running.None?
    {
      seconds := None;
      running := None;
    }

    /** `update_stopwatch`. */
    method Tick() returns (step: Step)
      modifies this
      ensures (State(), step) == WatchStep(old(State()))
    {
      if running != Some(true) {
        return Idle;
      }
      if seconds.None? {
        return NoSeconds;
      }
      step := Shown(Split(seconds.value));
      seconds := Some(seconds.value + 1);
    }

    /** `start_stopwatch` of src/ui/ui_components.py: always from zero. */
    method StartFromZero() returns (step: Step)
      modifies this
      ensures (State(), step) == WatchStep(WatchState(Some(0), Some(true)))
    {
      running := Some(true);
      seconds := Some(0);
      step := Tick();
    }

    /** `start_stopwatch` of modern_ui.py and src/ui/modern_ui.py: a count that
        exists and is not zero is kept. */
    method StartKeepingCount() returns (step: Step)
      modifies this
      ensures (State(), step) == WatchStep(WatchState(Some(if old(seconds).Some? then old(seconds).value else 0), Some(true)))
    {
      running := Some(true);
      if seconds.None? || seconds.value == 0 {
        seconds := Some(0);
      }
      step := Tick();
    }

    /** `stop_stopwatch_custom`: pause; the count is kept. */
    method Pause()
      modifies this
      ensures running == Some(false) && seconds == old(seconds)
    {
      running := Some(false);
    }

    /** The engine's `stop_stopwatch`: lower the flag only if it exists. */
    method Halt()
      modifies this
      ensures running == if old(running).Some? then Some(false) else None
      ensures seconds == old(seconds)
    {
      if running.Some? {
        running := Some(false);
      }
    }

    /** `continue_stopwatch`: raise the flag and tick from the kept count. */
    method Resume() returns (step: Step)
      modifies this
      ensures (State(), step) == WatchStep(WatchState(old(seconds), Some(true)))
    {
      running := Some(true);
      step := Tick();
    }

    /** `reset_stopwatch`. */
    method Reset()
      modifies this
      ensures seconds == Some(0) && running == Some(false)
    {
      running := Some(false);
      seconds := Some(0);
    }
  }
}
