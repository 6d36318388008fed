/** The focus page: the text it shows, the minute buttons, and the effects
    that tie the ambient sound to the countdown. */
module TimerPage {
  import opened Timer
  import opened Digits
  import Audio

  /** The rule of the audio effect: sound exactly while the page reads
      "Stay Focused!" with audio enabled, and only while the interval is
      actually counting down. */
  function ShouldPlayAudio(s: TimerState, audioEnabled: bool): (r: bool)
    ensures r <==> audioEnabled && StatusText(s) == FocusedText
    ensures r ==> Advance(s, 1) != s
  {
    s.isActive && !s.isPaused && audioEnabled
  }

  const MorningText: string := "Morning Focus Time"
  const AfternoonText: string := "Afternoon Energy Peak"
  const EveningText: string := "Evening Deep Work"

  /** `getTimeOfDay`, given the hour of the local clock. */
  function TimeOfDay(hour: int): (r: string)
    ensures r == MorningText <==> hour < 12
    ensures r == AfternoonText <==> 12 <= hour < 17
    ensures r == EveningText <==> 17 <= hour
  {
    if hour < 12 then MorningText
    else if hour < 17 then AfternoonText
    else EveningText
  }

  const ReadyText: string := "Ready to Focus"
  const PausedText: string := "Paused"
  const FocusedText: string := "Stay Focused!"

  /** `getStatusText`. */
  function StatusText(s: TimerState): (r: string)
    ensures r == ReadyText <==> !s.isActive
    ensures r == PausedText <==> s.isActive && s.isPaused
    ensures r == FocusedText <==> Ticking(s)
  {
    if !s.isActive then ReadyText
    else if s.isPaused then PausedText
    else FocusedText
  }

  const SetLengthText: string := "Set your focus session length"
  const SessionPausedText: string := "Session paused"
  const RemainingSuffix: string := " minutes remaining"

  /** `getSessionInfo`: while running, the whole minutes left followed by
      " minutes remaining". */
  function SessionInfo(s: TimerState): (r: string)
    requires s.remainingTime >= 0
    ensures !s.isActive ==> r == SetLengthText
    ensures s.isActive && s.isPaused ==> r == SessionPausedText
    ensures Ticking(s) ==>
      |r| > |RemainingSuffix| && r[|r| - |RemainingSuffix|..] == RemainingSuffix &&
      AllDigits(r[..|r| - |RemainingSuffix|]) &&
      DecimalValue(r[..|r| - |RemainingSuffix|]) * 60 <= s.remainingTime <
        (DecimalValue(r[..|r| - |RemainingSuffix|]) + 1) * 60
  {
    if !s.isActive then SetLengthText
    else if s.isPaused then SessionPausedText
    else
      var minutes := DecimalString(s.remainingTime / 60);
      DecimalRoundTrip(s.remainingTime / 60);
      var r := minutes + RemainingSuffix;
      assert r[..|r| - |RemainingSuffix|] == minutes && r[|r| - |RemainingSuffix|..] == RemainingSuffix;
      r
  }

  /** The "+" button: one more minute, through the session setter. */
  function IncreaseMinutes(s: TimerState): (r: TimerState)
    ensures s.isActive ==> r == s
    ensures Valid(s) ==> Valid(r)
    ensures Valid(s) && !s.isActive ==>
      r.sessionMinutes == (if s.sessionMinutes == MaxMinutes then MaxMinutes else s.sessionMinutes + 1) &&
      r.remainingTime == r.totalTime && r.isActive == s.isActive && r.isPaused == s.isPaused
  {
    WithSessionMinutes(s, s.sessionMinutes + 1)
  }

  /** The "-" button: one minute less, through the session setter. */
  function DecreaseMinutes(s: TimerState): (r: TimerState)
    ensures s.isActive ==> r == s
    ensures Valid(s) ==> Valid(r)
    ensures Valid(s) && !s.isActive ==>
      r.sessionMinutes == (if s.sessionMinutes == MinMinutes then MinMinutes else s.sessionMinutes - 1) &&
      r.remainingTime == r.totalTime && r.isActive == s.isActive && r.isPaused == s.isPaused
  {
    WithSessionMinutes(s, s.sessionMinutes - 1)
  }

  /** Below the maximum, "+" then "-" gives back the idle session length. */
  lemma IncreaseThenDecrease(s: TimerState)
    requires Valid(s) && !s.isActive && s.sessionMinutes < MaxMinutes
    ensures DecreaseMinutes(IncreaseMinutes(s)) == s.(remainingTime := s.totalTime)
  {
  }

  datatype Toast = Toast(title: string, description: string)

  const CompletionToast: Toast := Toast("Session Complete!", "Great focus session! Take a break.")

  /** The page: the timer hook, the audio hook, and the toasts raised so far. */
  class FocusPage {
    const timer: TimerHook
    const audio: Audio.AudioHook
    var toasts: seq<Toast>

    predicate Valid()
      reads this, timer, audio
    {
      Timer.Valid(timer.State()) && audio.Valid()
    }

    constructor (audioSupported: bool)
      ensures Valid() && fresh(timer) && fresh(audio)
      ensures timer.State() == InitialState && toasts == []
      ensures audio.isEnabled && !audio.isPlaying && audio.isLoaded == audioSupported
    {
      timer := new TimerHook();
      audio := new Audio.AudioHook(audioSupported);
      toasts := [];
    }

    /** The audio effect: play when the rule says so, pause otherwise. Afterwards
        sound is playing exactly when the countdown runs and audio is enabled
        and loaded. */
    method SyncAudio()
      requires Valid()
      modifies audio
      ensures Valid()
      ensures audio.isPlaying <==> ShouldPlayAudio(timer.State(), audio.isEnabled) && audio.isLoaded
      ensures audio.isEnabled == old(audio.isEnabled) && audio.isLoaded == old(audio.isLoaded)
    {
      if timer.isActive && !timer.isPaused && audio.isEnabled {
        audio.Play();
      } else {
        audio.Pause();
      }
    }

    /** The completion effect: on a completed session, stop the sound and raise
        exactly one toast; otherwise nothing. */
    method OnCompletion()
      requires Valid()
      modifies this, audio
      ensures Valid()
      ensures IsCompleted(timer.State()) ==>
        toasts == old(toasts) + [CompletionToast] && !audio.isPlaying && audio.oscillators == []
      ensures !IsCompleted(timer.State()) ==> toasts == old(toasts) && unchanged(audio)
      ensures audio.isEnabled == old(audio.isEnabled) && audio.isLoaded == old(audio.isLoaded)
    {
      if timer.remainingTime == 0 && timer.totalTime > 0 {
        audio.Stop();
        toasts := toasts + [CompletionToast];
      }
    }

    /** `handleReset`: reset the timer, then stop the sound. */
    method HandleReset()
      requires Valid()
      modifies timer, audio
      ensures Valid()
      ensures timer.State() == Reset(old(timer.State()))
      ensures !audio.isPlaying && audio.oscillators == []
      ensures audio.isEnabled == old(audio.isEnabled) && audio.isLoaded == old(audio.isLoaded)
    {
      timer.ResetTimer();
      audio.Stop();
    }

    method HandleIncreaseMinutes()
      requires Valid()
      modifies timer
      ensures Valid()
      ensures timer.State() == IncreaseMinutes(old(timer.State()))
    {
      timer.SetSessionMinutes(timer.sessionMinutes + 1);
    }

    method HandleDecreaseMinutes()
      requires Valid()
      modifies timer
      ensures Valid()
      ensures timer.State() == DecreaseMinutes(old(timer.State()))
    {
      timer.SetSessionMinutes(timer.sessionMinutes - 1);
    }
  }
}
