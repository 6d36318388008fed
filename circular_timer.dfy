/** The circular drag control: from the pointer's angle to a session length,
    and from a session length to where the handle is drawn.

    Angles are degrees as reals. The `atan2` of the pointer offset is taken
    as an input. JavaScript's `%` on numbers is the truncated remainder (its
    sign follows the dividend), modelled by `Rem360`; `Math.round` rounds
    halves up, modelled by `Round`. */
module CircularTimer {
  import Timer

  /** `x` truncated toward zero. */
  function Trunc(x: real): (r: int)
    ensures x >= 0.0 ==> r >= 0 && r as real <= x < r as real + 1.0
    ensures x < 0.0 ==> r <= 0 && r as real - 1.0 < x <= r as real
  {
    if x >= 0.0 then x.Floor else -((-x).Floor)
  }

  /** JavaScript's `x % 360`. */
  function Rem360(x: real): (r: real)
    ensures -360.0 < r < 360.0
    ensures x >= 0.0 ==> r >= 0.0
    ensures x <= 0.0 ==> r <= 0.0
    ensures -360.0 < x < 360.0 ==> r == x
    ensures WholeTurns(r - x)
  {
    var k := Trunc(x / 360.0);
    TurnsAreWhole(-k);
    assert (x - 360.0 * k as real) - x == 360.0 * (-k) as real;
    x - 360.0 * k as real
  }

  /** `d` is a whole number of turns. */
  predicate WholeTurns(d: real) {
    (d / 360.0).Floor as real == d / 360.0
  }

  lemma TurnsAreWhole(k: int)
    ensures WholeTurns(360.0 * k as real)
  {
    assert 360.0 * k as real / 360.0 == k as real;
  }

  lemma WholeTurnsPlusTurn(d: real)
    requires WholeTurns(d)
    ensures WholeTurns(d + 360.0)
  {
    assert (d + 360.0) / 360.0 == d / 360.0 + 1.0;
  }

  /** `Math.round(x)`: the nearest integer, halves rounded up. */
  function Round(x: real): (r: int)
    ensures r as real - 0.5 <= x < r as real + 0.5
  {
    (x + 0.5).Floor
  }

  /** Lines 37-39 of `getAngleFromPoint`: the `atan2` angle turned so that
      0 is at twelve o'clock, then brought into [0, 360). */
  function NormalizeAngle(raw: real): (r: real)
    ensures 0.0 <= r < 360.0
    ensures WholeTurns(r - (raw + 90.0))
  {
    var a := Rem360(raw + 90.0);
    if a < 0.0 then
      WholeTurnsPlusTurn(a - (raw + 90.0));
      assert a + 360.0 - (raw + 90.0) == (a - (raw + 90.0)) + 360.0;
      a + 360.0
    else
      a
  }

  /** On the range `atan2` produces, the normalisation is a quarter turn,
      wrapped once for the upper-left quadrant. */
  lemma NormalizeAtan2Range(raw: real)
    requires -180.0 < raw <= 180.0
    ensures raw >= -90.0 ==> NormalizeAngle(raw) == raw + 90.0
    ensures raw < -90.0 ==> NormalizeAngle(raw) == raw + 450.0
  {
  }

  /** `getMinutesFromAngle`: the angle counted back from a full turn, as a
      fraction of 60 minutes, rounded; a computed 0 becomes 1, then clamped. */
  function MinutesFromAngle(angle: real): (r: int)
    ensures 1 <= r <= 60
  {
    var normalized := Rem360(360.0 - angle);
    var minutes := Round(normalized / 360.0 * 60.0);
    Timer.ClampMinutes(if minutes == 0 then 1 else minutes)
  }

  /** Line 87: where the handle is drawn for a session of `m` minutes. */
  function HandleAngle(m: int): (r: real)
    ensures 1 <= m <= 60 ==> 0.0 <= r < 360.0
    ensures r == 6.0 * (60 - m) as real
  {
    ((60 - m) as real / 60.0) * 360.0
  }

  /** Any angle within three degrees of the handle of `m` (1 to 59 minutes),
      up to three degrees clockwise and less than three counter-clockwise,
      selects `m` again. */
  lemma SnapsToHandle(m: int, angle: real)
    requires 1 <= m <= 59
    requires HandleAngle(m) - 3.0 < angle <= HandleAngle(m) + 3.0
    ensures MinutesFromAngle(angle) == m
  {
    var normalized := 360.0 - angle;
    assert 3.0 <= normalized < 357.0;
    assert Rem360(360.0 - angle) == normalized;
    var x := normalized / 360.0 * 60.0;
    assert m as real - 0.5 <= x < m as real + 0.5;
    assert Round(x) == m;
  }

  /** Round trip: the handle drawn for 1 to 59 minutes maps back to the same
      minutes; the handle for 60 minutes sits at angle 0, which maps to 1. */
  lemma HandleRoundTrip(m: int)
    requires 1 <= m <= 60
    ensures m < 60 ==> MinutesFromAngle(HandleAngle(m)) == m
    ensures m == 60 ==> HandleAngle(m) == 0.0 && MinutesFromAngle(HandleAngle(m)) == 1
  {
    if m < 60 {
      SnapsToHandle(m, HandleAngle(m));
    } else {
      assert Rem360(360.0) == 0.0 by {
        assert Trunc(360.0 / 360.0) == 1;
      }
    }
  }

  /** The only drag angles that select a full hour: just clockwise of twelve
      o'clock, up to three degrees. Twelve o'clock itself selects 1. */
  lemma SixtyWindow(angle: real)
    requires 0.0 < angle <= 3.0
    ensures MinutesFromAngle(angle) == 60
  {
    assert Rem360(360.0 - angle) == 360.0 - angle;
    assert Round((360.0 - angle) / 360.0 * 60.0) == 60;
  }

  /** The three sample angles: twelve o'clock, six o'clock, one degree before twelve. */
  lemma SampleAngles()
    ensures MinutesFromAngle(0.0) == 1
    ensures MinutesFromAngle(180.0) == 30
    ensures MinutesFromAngle(359.0) == 1
  {
    HandleRoundTrip(60);
    SnapsToHandle(30, 180.0);
    assert Rem360(1.0) == 1.0;
    assert Round(1.0 / 360.0 * 60.0) == 0;
  }

  /** What a pointer event asks of the session length. */
  datatype DragUpdate = Ignored | Minutes(minutes: int)

  /** `handleMouseDown`: ignored while the timer is active; otherwise starts a
      drag and reports the minutes under the pointer. */
  function MouseDown(isActive: bool, rawAngle: real): (r: DragUpdate)
    ensures r.Ignored? <==> isActive
    ensures r.Minutes? ==> 1 <= r.minutes <= 60
  {
    if isActive then Ignored else Minutes(MinutesFromAngle(NormalizeAngle(rawAngle)))
  }

  /** `handleMouseMove`: ignored outside a drag or while active. */
  function MouseMove(isDragging: bool, isActive: bool, rawAngle: real): (r: DragUpdate)
    ensures r.Ignored? <==> !isDragging || isActive
    ensures r.Minutes? ==> r == MouseDown(isActive, rawAngle)
  {
    if !isDragging || isActive then Ignored
    else Minutes(MinutesFromAngle(NormalizeAngle(rawAngle)))
  }

  /** The update handed to `setSessionMinutes` (the page wires the control's
      `onSessionMinutesChange` to it). */
  function ApplyDrag(s: Timer.TimerState, u: DragUpdate): (r: Timer.TimerState)
    ensures u.Ignored? || s.isActive ==> r == s
    ensures u.Minutes? && !s.isActive ==>
      r.sessionMinutes == Timer.ClampMinutes(u.minutes) &&
      r.remainingTime == r.totalTime == 60 * r.sessionMinutes &&
      r.isActive == s.isActive && r.isPaused == s.isPaused
    ensures Timer.Valid(s) ==> Timer.Valid(r)
  {
    match u
    case Ignored => s
    case Minutes(m) => Timer.WithSessionMinutes(s, m)
  }

  /** A drag on an idle timer sets exactly the minutes under the pointer; a
      press or a move while the timer runs or is paused changes nothing. */
  lemma DragSetsSession(s: Timer.TimerState, isDragging: bool, rawAngle: real)
    requires Timer.Valid(s)
    ensures var u := MouseDown(s.isActive, rawAngle);
            var t := ApplyDrag(s, u);
            Timer.Valid(t) &&
            (s.isActive ==> t == s) &&
            (!s.isActive ==> t.sessionMinutes == u.minutes && t.remainingTime == 60 * u.minutes)
    ensures s.isActive ==> ApplyDrag(s, MouseMove(isDragging, s.isActive, rawAngle)) == s
  {
  }
}
