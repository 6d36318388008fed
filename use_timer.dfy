/** The countdown timer of the focus page (the `useTimer` hook).

    The hook owns one record, `TimerState`. Every transition replaces that
    record with a function of the previous one; those updaters are the pure
    functions below, and `TimerHook` is the hook itself, whose methods
    overwrite its five fields and are proved against the updaters. The
    one-second interval is not modelled as a timer: `Advance` applies the tick
    as many times as the interval fires, and only while it would be running. */
module Timer {
  import opened Digits

  datatype TimerState = TimerState(
    isActive: bool,
    isPaused: bool,
    sessionMinutes: int,
    remainingTime: int,   // seconds
    totalTime: int        // seconds
  )

  const MinMinutes: int := 1
  const MaxMinutes: int := 60
  const DefaultMinutes: int := 25

  /** The record the hook starts with: a 25-minute session, idle. */
  const InitialState: TimerState :=
    TimerState(false, false, DefaultMinutes, DefaultMinutes * 60, DefaultMinutes * 60)

  /** The invariant every transition keeps. */
  predicate Valid(s: TimerState) {
    MinMinutes <= s.sessionMinutes <= MaxMinutes &&
    s.totalTime == 60 * s.sessionMinutes &&
    0 <= s.remainingTime <= s.totalTime
  }

  /** The interval that drives the tick exists exactly in this state. */
  predicate Ticking(s: TimerState) {
    s.isActive && !s.isPaused
  }

  /** Idle: not started, or reset, or completed. */
  predicate Idle(s: TimerState) {
    !s.isActive && !s.isPaused
  }

  /** `Math.max(1, Math.min(60, minutes))`. */
  function ClampMinutes(m: int): (r: int)
    ensures MinMinutes <= r <= MaxMinutes
    ensures MinMinutes <= m <= MaxMinutes ==> r == m
    ensures m < MinMinutes ==> r == MinMinutes
    ensures m > MaxMinutes ==> r == MaxMinutes
  {
    if m < MinMinutes then MinMinutes else if m > MaxMinutes then MaxMinutes else m
  }

  /** The one-second tick: completes at one second or less, otherwise counts down one. */
  function Tick(s: TimerState): (r: TimerState)
    ensures r.sessionMinutes == s.sessionMinutes && r.totalTime == s.totalTime
    ensures s.remainingTime <= 1 ==> r.remainingTime == 0 && Idle(r)
    ensures s.remainingTime > 1 ==>
      r.remainingTime == s.remainingTime - 1 && r.isActive == s.isActive && r.isPaused == s.isPaused
    ensures Valid(s) ==> Valid(r)
  {
    if s.remainingTime <= 1 then
      s.(remainingTime := 0, isActive := false, isPaused := false)
    else
      s.(remainingTime := s.remainingTime - 1)
  }

  /** Refused (no change at all) while the timer is active, paused or not;
      otherwise the session takes the clamped value and both times are reset to it. */
  function WithSessionMinutes(s: TimerState, m: int): (r: TimerState)
    ensures s.isActive ==> r == s
    ensures !s.isActive ==>
      r.sessionMinutes == ClampMinutes(m) &&
      r.totalTime == 60 * r.sessionMinutes && r.remainingTime == r.totalTime &&
      r.isActive == s.isActive && r.isPaused == s.isPaused
    ensures !s.isActive ==> Valid(r)
    ensures Valid(s) ==> Valid(r)
  {
    if s.isActive then s
    else
      var minutes := ClampMinutes(m);
      s.(sessionMinutes := minutes, remainingTime := minutes * 60, totalTime := minutes * 60)
  }

  /** Starts (or resumes) the countdown; the times are untouched. */
  function Start(s: TimerState): (r: TimerState)
    ensures Ticking(r)
    ensures r.sessionMinutes == s.sessionMinutes && r.remainingTime == s.remainingTime
    ensures r.totalTime == s.totalTime
    ensures Valid(s) ==> Valid(r)
  {
    s.(isActive := true, isPaused := false)
  }

  /** Sets the paused flag, whatever the other flags are. */
  function Pause(s: TimerState): (r: TimerState)
    ensures r.isPaused && !Ticking(r)
    ensures r.isActive == s.isActive
    ensures r.sessionMinutes == s.sessionMinutes && r.remainingTime == s.remainingTime
    ensures r.totalTime == s.totalTime
    ensures Valid(s) ==> Valid(r)
  {
    s.(isPaused := true)
  }

  /** Back to idle with the full session on the clock; the configuration is kept. */
  function Reset(s: TimerState): (r: TimerState)
    ensures Idle(r) && r.remainingTime == r.totalTime
    ensures r.sessionMinutes == s.sessionMinutes && r.totalTime == s.totalTime
    ensures Valid(s) ==> Valid(r)
  {
    s.(isActive := false, isPaused := false, remainingTime := s.totalTime)
  }

  /** The primary button: start when idle or paused, pause when running. */
  function Toggle(s: TimerState): (r: TimerState)
    ensures Ticking(s) ==> r == Pause(s)
    ensures !Ticking(s) ==> r == Start(s)
    ensures Ticking(r) <==> !Ticking(s)
    ensures r.remainingTime == s.remainingTime && r.totalTime == s.totalTime
    ensures Valid(s) ==> Valid(r)
  {
    if !s.isActive || s.isPaused then Start(s) else Pause(s)
  }

  /** `getFormattedTime`: zero-padded minutes, a colon, zero-padded seconds. */
  function FormattedTime(s: TimerState): (r: string)
    requires s.remainingTime >= 0
    ensures |r| >= 5 && r[|r| - 3] == ':'
    ensures AllDigits(r[..|r| - 3]) && AllDigits(r[|r| - 2..])
    ensures DecimalValue(r[|r| - 2..]) < 60
    ensures DecimalValue(r[..|r| - 3]) * 60 + DecimalValue(r[|r| - 2..]) == s.remainingTime
    ensures Valid(s) ==> |r| == 5
  {
    var minutes, seconds := s.remainingTime / 60, s.remainingTime % 60;
    assert minutes * 60 + seconds == s.remainingTime && seconds < 60;
    assert Valid(s) ==> minutes <= 60;
    var mm := PadStart2(DecimalString(minutes));
    var ss := PadStart2(DecimalString(seconds));
    PaddedRoundTrip(minutes);
    PaddedRoundTrip(seconds);
    ColonSplit(mm, ss);
    mm + ":" + ss
  }

  lemma ColonSplit(mm: string, ss: string)
    requires |ss| == 2
    ensures var r := mm + ":" + ss;
            |r| == |mm| + 3 && r[|r| - 3] == ':' && r[..|r| - 3] == mm && r[|r| - 2..] == ss
  {
  }

  /** `getProgress`: the elapsed fraction of the session; 0 for an empty session. */
  function Progress(s: TimerState): (r: real)
    ensures s.totalTime == 0 ==> r == 0.0
    ensures s.totalTime != 0 ==> r * s.totalTime as real == (s.totalTime - s.remainingTime) as real
    ensures Valid(s) ==> 0.0 <= r <= 1.0
    ensures Valid(s) ==> (r == 1.0 <==> IsCompleted(s))
    ensures Valid(s) ==> (r == 0.0 <==> s.remainingTime == s.totalTime)
  {
    if s.totalTime == 0 then 0.0
    else (s.totalTime - s.remainingTime) as real / s.totalTime as real
  }

  /** `isCompleted`: the countdown has reached zero on a non-empty session;
      under the invariant the session is never empty, so completion is
      exactly a zero clock. */
  predicate IsCompleted(s: TimerState): (r: bool)
    ensures r ==> s.remainingTime == 0
    ensures Valid(s) ==> (r <==> s.remainingTime == 0)
  {
    s.remainingTime == 0 && s.totalTime > 0
  }

  lemma InitialStateValid()
    ensures Valid(InitialState) && Idle(InitialState)
    ensures InitialState.remainingTime == InitialState.totalTime == 1500
    ensures !IsCompleted(InitialState)
  {
  }

  /** `n` firings of the interval: each one ticks, and the interval is gone
      as soon as the timer is no longer active-and-unpaused. */
  function Advance(s: TimerState, n: nat): (r: TimerState)
    ensures !Ticking(s) ==> r == s
    ensures r.sessionMinutes == s.sessionMinutes && r.totalTime == s.totalTime
    ensures Valid(s) ==> Valid(r) && r.remainingTime <= s.remainingTime
    decreases n
  {
    if n == 0 || !Ticking(s) then s else Advance(Tick(s), n - 1)
  }

  /** Fewer ticks than seconds left: the clock is down by exactly that many
      and nothing else has changed; the timer is still running. */
  lemma {:induction false} AdvanceCountsDown(s: TimerState, n: nat)
    requires Ticking(s) && n < s.remainingTime
    ensures Advance(s, n) == s.(remainingTime := s.remainingTime - n)
    decreases n
  {
    if n > 0 {
      AdvanceCountsDown(Tick(s), n - 1);
    }
  }

  /** Enough ticks: the timer completes (zero, idle flags) and stays there,
      however many further firings are counted. */
  lemma {:induction false} AdvanceCompletes(s: TimerState, n: nat)
    requires Ticking(s) && n >= 1 && n >= s.remainingTime
    ensures Advance(s, n) == s.(remainingTime := 0, isActive := false, isPaused := false)
    decreases n
  {
    if s.remainingTime > 1 {
      AdvanceCompletes(Tick(s), n - 1);
    } else {
      var done := Tick(s);
      assert !Ticking(done);
      if n - 1 > 0 {
        assert Advance(done, n - 1) == done;
      }
    }
  }

  /** A running session is reported complete exactly once: not before its
      last second, at it, and the state is frozen afterwards. */
  lemma CompletesOnce(s: TimerState, k: nat)
    requires Valid(s) && Ticking(s) && s.remainingTime >= 1
    ensures k < s.remainingTime ==> !IsCompleted(Advance(s, k)) && Ticking(Advance(s, k))
    ensures k >= s.remainingTime ==>
      IsCompleted(Advance(s, k)) && Idle(Advance(s, k)) &&
      Advance(s, k) == Advance(s, s.remainingTime)
  {
    if k < s.remainingTime {
      AdvanceCountsDown(s, k);
    } else {
      AdvanceCompletes(s, k);
      AdvanceCompletes(s, s.remainingTime);
    }
  }

  /** Reset after any amount of countdown gives back the same record as reset
      before it: the full session, idle. */
  lemma {:induction false} ResetAfterAdvance(s: TimerState, n: nat)
    ensures Reset(Advance(s, n)) == Reset(s)
    decreases n
  {
    if n > 0 && Ticking(s) {
      ResetAfterAdvance(Tick(s), n - 1);
    }
  }

  /** Start, pause, resume: Idle -> Running -> Paused -> Running. */
  lemma ToggleCycle(s: TimerState)
    requires Idle(s)
    ensures Ticking(Toggle(s))
    ensures Toggle(Toggle(s)).isActive && Toggle(Toggle(s)).isPaused
    ensures Toggle(Toggle(Toggle(s))) == Toggle(s)
  {
  }

  /** `isPaused` implies `isActive` is kept by every transition the page uses;
      `Pause` keeps it only when applied to an active timer. */
  predicate PausedOnlyWhenActive(s: TimerState) {
    s.isPaused ==> s.isActive
  }

  lemma PausedOnlyWhenActiveKept(s: TimerState, m: int, n: nat)
    requires PausedOnlyWhenActive(s)
    ensures PausedOnlyWhenActive(Tick(s)) && PausedOnlyWhenActive(WithSessionMinutes(s, m))
    ensures PausedOnlyWhenActive(Start(s)) && PausedOnlyWhenActive(Reset(s))
    ensures PausedOnlyWhenActive(Toggle(s)) && PausedOnlyWhenActive(Advance(s, n))
    ensures s.isActive ==> PausedOnlyWhenActive(Pause(s))
  {
    AdvancePaused(s, n);
  }

  lemma {:induction false} AdvancePaused(s: TimerState, n: nat)
    requires PausedOnlyWhenActive(s)
    ensures PausedOnlyWhenActive(Advance(s, n))
    decreases n
  {
    if n > 0 && Ticking(s) {
      AdvancePaused(Tick(s), n - 1);
    }
  }

  /** `pauseTimer` called directly on an idle timer leaves it paused but not active. */
  lemma PauseWhileIdle()
    ensures Pause(InitialState).isPaused && !Pause(InitialState).isActive
    ensures !PausedOnlyWhenActive(Pause(InitialState))
  {
  }

  /** The default 25-minute session run to its end: 1500 ticks complete it. */
  lemma DefaultSessionRuns()
    ensures !IsCompleted(Advance(Start(InitialState), 1499))
    ensures Advance(Start(InitialState), 1499).remainingTime == 1
    ensures IsCompleted(Advance(Start(InitialState), 1500))
    ensures Idle(Advance(Start(InitialState), 1500))
  {
    CompletesOnce(Start(InitialState), 1499);
    CompletesOnce(Start(InitialState), 1500);
    AdvanceCountsDown(Start(InitialState), 1499);
  }

  /** A ten-minute session paused after five ticks refuses a new length. */
  lemma PausedSessionKeepsLength()
    ensures var running := Advance(Start(WithSessionMinutes(InitialState, 10)), 5);
            var paused := Toggle(running);
            paused.remainingTime == 595 && paused.totalTime == 600 &&
            paused.isActive && paused.isPaused &&
            WithSessionMinutes(paused, 5) == paused
  {
    AdvanceCountsDown(Start(WithSessionMinutes(InitialState, 10)), 5);
  }

  /** The `useTimer` hook: its state record as five mutable fields. */
  class TimerHook {
    var isActive: bool
    var isPaused: bool
    var sessionMinutes: int
    var remainingTime: int
    var totalTime: int

    /** The record the hook currently holds. */
    function State(): TimerState
      reads this
    {
      TimerState(isActive, isPaused, sessionMinutes, remainingTime, totalTime)
    }

    constructor ()
      ensures State() == InitialState && Valid(State())
    {
      isActive := false;
      isPaused := false;
      sessionMinutes := DefaultMinutes;
      remainingTime := DefaultMinutes * 60;
      totalTime := DefaultMinutes * 60;
    }

    /** `updateRemainingTime`, called by the interval while running. */
    method UpdateRemainingTime()
      requires Ticking(State())
      modifies this
      ensures State() == Tick(old(State()))
    {
      if remainingTime <= 1 {
        remainingTime := 0;
        isActive := false;
        isPaused := false;
      } else {
        remainingTime := remainingTime - 1;
      }
    }

    method SetSessionMinutes(minutes: int)
      modifies this
      ensures State() == WithSessionMinutes(old(State()), minutes)
    {
      if isActive {
        return;
      }
      var clamped := if minutes < 1 then 1 else if minutes > 60 then 60 else minutes;
      var newTotalTime := clamped * 60;
      sessionMinutes := clamped;
      remainingTime := newTotalTime;
      totalTime := newTotalTime;
    }

    method StartTimer()
      modifies this
      ensures State() == Start(old(State()))
    {
      isActive := true;
      isPaused := false;
    }

    method PauseTimer()
      modifies this
      ensures State() == Pause(old(State()))
    {
      isPaused := true;
    }

    method ResetTimer()
      modifies this
      ensures State() == Reset(old(State()))
    {
      isActive := false;
      isPaused := false;
      remainingTime := totalTime;
    }

    method ToggleTimer()
      modifies this
      ensures State() == Toggle(old(State()))
    {
      if !isActive || isPaused {
        StartTimer();
      } else {
        PauseTimer();
      }
    }
  }
}
