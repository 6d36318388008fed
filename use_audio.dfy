/** The ambient-sound companion (the `useAudio` hook).

    Web Audio nodes are opaque here: an oscillator is known by its frequency
    (Hz) and the gain of its own gain node, kept in thousandths. The audio
    context and the master gain node are one flag, `hasContext`, since the
    hook sets both or neither. */
module Audio {

  datatype Oscillator = Oscillator(frequency: int, gainMilli: int)

  /** The low frequencies of the ambient chord. */
  const AmbientFrequencies: seq<int> := [55, 73, 110, 147]

  /** The voices `createAmbientSound` starts, in order: one per ambient
      frequency, each 0.02 quieter than the one before, from 0.12. */
  function AmbientSound(): (r: seq<Oscillator>)
    ensures |r| == |AmbientFrequencies| == 4
    ensures forall i :: 0 <= i < |r| ==> r[i].frequency == AmbientFrequencies[i]
    ensures forall i :: 0 <= i < |r| ==> 60 <= r[i].gainMilli == 120 - 20 * i
  {
    seq(|AmbientFrequencies|, i requires 0 <= i < |AmbientFrequencies| =>
      Oscillator(AmbientFrequencies[i], 120 - 20 * i))
  }

  const Unavailable: string := "Audio unavailable"
  const Disabled: string := "Audio disabled"
  const PlayingStatus: string := "Playing ambient focus sound"
  const Ready: string := "Ambient sound ready"

  /** `getStatus`: unavailable first, then disabled, then playing, then ready. */
  function StatusText(isLoaded: bool, isEnabled: bool, isPlaying: bool): (r: string)
    ensures r == Unavailable <==> !isLoaded
    ensures r == Disabled <==> isLoaded && !isEnabled
    ensures r == PlayingStatus <==> isLoaded && isEnabled && isPlaying
    ensures r == Ready <==> isLoaded && isEnabled && !isPlaying
  {
    if !isLoaded then Unavailable
    else if !isEnabled then Disabled
    else if isPlaying then PlayingStatus
    else Ready
  }

  class AudioHook {
    var isEnabled: bool
    var isLoaded: bool
    var isPlaying: bool
    var hasContext: bool
    var oscillators: seq<Oscillator>

    /** What every operation keeps: the hook is loaded exactly when it holds a
        context; sound is playing exactly when the ambient voices are running,
        and only when enabled and loaded. */
    predicate Valid()
      reads this
    {
      isLoaded == hasContext &&
      oscillators == (if isPlaying then AmbientSound() else []) &&
      (isPlaying ==> isEnabled && isLoaded)
    }

    /** The hook after its mount effect: enabled, silent, and loaded exactly
        when the browser could create the audio context and gain node. */
    constructor (supported: bool)
      ensures Valid()
      ensures isEnabled && !isPlaying && oscillators == []
      ensures isLoaded == supported && hasContext == supported
    {
      isEnabled := true;
      isPlaying := false;
      isLoaded := supported;
      hasContext := supported;
      oscillators := [];
    }

    /** `stopOscillators`: the list is emptied whether or not stopping each
        node succeeds. */
    method StopOscillators()
      modifies this
      ensures oscillators == []
      ensures isEnabled == old(isEnabled) && isLoaded == old(isLoaded)
      ensures isPlaying == old(isPlaying) && hasContext == old(hasContext)
    {
      oscillators := [];
    }

    /** `createAmbientSound`: without a context nothing happens; otherwise one
        new oscillator per ambient frequency replaces the list. */
    method CreateAmbientSound()
      modifies this
      ensures oscillators == if hasContext then AmbientSound() else old(oscillators)
      ensures isEnabled == old(isEnabled) && isLoaded == old(isLoaded)
      ensures isPlaying == old(isPlaying) && hasContext == old(hasContext)
    {
      if !hasContext {
        return;
      }
      var created: seq<Oscillator> := [];
      var index := 0;
      while index < |AmbientFrequencies|
        invariant 0 <= index <= |AmbientFrequencies|
        invariant created == AmbientSound()[..index]
      {
        created := created + [Oscillator(AmbientFrequencies[index], 120 - 20 * index)];
        index := index + 1;
      }
      oscillators := created;
    }

    /** `play`, on its synchronous success path: refused unless enabled,
        loaded and holding a context; otherwise the old voices are stopped,
        the ambient voices started, and the hook is playing. */
    method Play()
      requires Valid()
      modifies this
      ensures Valid()
      ensures !(old(isEnabled) && old(isLoaded) && old(hasContext)) ==> unchanged(this)
      ensures old(isEnabled) && old(isLoaded) && old(hasContext) ==>
        isPlaying && oscillators == AmbientSound()
      ensures isEnabled == old(isEnabled) && isLoaded == old(isLoaded) && hasContext == old(hasContext)
    {
      if !isEnabled || !isLoaded || !hasContext {
        return;
      }
      StopOscillators();
      CreateAmbientSound();
      isPlaying := true;
    }

    /** `pause`: silence, nothing else. */
    method Pause()
      requires Valid()
      modifies this
      ensures Valid()
      ensures !isPlaying && oscillators == []
      ensures isEnabled == old(isEnabled) && isLoaded == old(isLoaded) && hasContext == old(hasContext)
    {
      StopOscillators();
      isPlaying := false;
    }

    /** `stop`: the same effect as `pause`. */
    method Stop()
      requires Valid()
      modifies this
      ensures Valid()
      ensures !isPlaying && oscillators == []
      ensures isEnabled == old(isEnabled) && isLoaded == old(isLoaded) && hasContext == old(hasContext)
    {
      StopOscillators();
      isPlaying := false;
    }

    /** `toggleEnabled`: flips the flag; disabling also silences, enabling
        leaves playback as it was. */
    method ToggleEnabled()
      requires Valid()
      modifies this
      ensures Valid()
      ensures isEnabled == !old(isEnabled)
      ensures !isEnabled ==> !isPlaying && oscillators == []
      ensures isEnabled ==> isPlaying == old(isPlaying) && oscillators == old(oscillators)
      ensures isLoaded == old(isLoaded) && hasContext == old(hasContext)
    {
      var newEnabled := !isEnabled;
      if !newEnabled {
        StopOscillators();
        isPlaying := false;
      }
      isEnabled := newEnabled;
    }
  }
}
