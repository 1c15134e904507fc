/**
 * The "Try Text-to-Music" demo of the landing page
 * (frontend/src/app/page.tsx).  States: idle, generating, done; the
 * completion is a 2400 ms timer armed by an effect that depends on the
 * text and on `isGenerating`.  Every change of either dependency clears
 * the armed timer and, while generating, arms a new one; unmounting
 * clears it.  A timer fires through `FireTimer(id, …)`; firing a handle
 * that has been cleared does nothing, as `clearTimeout` guarantees.
 */
module Landing {
  import opened Options
  import opened JsString
  import opened Generation

  const CompletionDelayMs: nat := 2400
  const WaveformSamples: nat := 50
  const SongDuration := "3:24"

  datatype GeneratedSong = GeneratedSong(title: string, duration: string, waveform: seq<real>)

  /** Every result has the fixed duration and 50 amplitudes in [0, 100). */
  predicate WellShaped(song: GeneratedSong)
  {
    && song.duration == SongDuration
    && |song.waveform| == WaveformSamples
    && InAmplitudeRange(song.waveform)
  }

  /** The song a completion builds from `text` when `Math.random()` returns the values of `random` in order. */
  predicate IsCompletionOf(song: GeneratedSong, text: string, random: seq<real>)
    requires |random| >= WaveformSamples
  {
    && song.title == TitleOf(text)
    && song.duration == SongDuration
    && |song.waveform| == WaveformSamples
    && (forall i :: 0 <= i < WaveformSamples ==> song.waveform[i] == random[i] * 100.0)
  }

  class LandingDemo {
    var demoText: string
    var isGenerating: bool
    var generatedSong: Option<GeneratedSong>
    var isPlaying: bool
    var mounted: bool
    /** The completion timer the effect has armed and not yet cleared. */
    var pending: Option<Timer>
    var nextTimerId: nat

    /** A completion is armed exactly while the mounted page is generating; a result has the promised shape. */
    ghost predicate Valid()
      reads this
    {
      && (pending.Some? <==> mounted && isGenerating)
      && (pending.Some? ==> pending.value.id < nextTimerId && pending.value.delayMs == CompletionDelayMs)
      && (generatedSong.Some? ==> WellShaped(generatedSong.value))
    }

    function Phase(): Phase
      reads this
    {
      if isGenerating then Generating else if generatedSong.Some? then Done else Idle
    }

    /** `disabled={isGenerating || !demoText.trim()}` on the Generate button. */
    predicate GenerateDisabled()
      reads this
      ensures Phase() == Generating ==> GenerateDisabled()
    {
      isGenerating || IsBlank(demoText)
    }

    /** `generatedSong && !isGenerating`: the result card is on screen. */
    predicate ShowsResult()
      reads this
      ensures ShowsResult() ==> Phase() == Done
    {
      generatedSong.Some? && !isGenerating
    }

    constructor ()
      ensures Valid() && mounted
      ensures demoText == "" && Phase() == Idle && !isPlaying && pending == None && nextTimerId == 0
    {
      demoText, isGenerating, generatedSong, isPlaying := "", false, None, false;
      mounted, pending, nextTimerId := true, None, 0;
    }

    /** `setTimeout(…, 2400)` with a fresh handle. */
    method ArmTimer()
      modifies this`pending, this`nextTimerId
      ensures pending == Some(Timer(old(nextTimerId), CompletionDelayMs))
      ensures nextTimerId == old(nextTimerId) + 1
    {
      pending := Some(Timer(nextTimerId, CompletionDelayMs));
      nextTimerId := nextTimerId + 1;
    }

    /** The textarea's `onChange`: a different text while generating restarts the delay. */
    method SetDemoText(text: string)
      requires Valid() && mounted
      modifies this`demoText, this`pending, this`nextTimerId
      ensures Valid() && demoText == text
      ensures isGenerating && text != old(demoText) ==>
        pending == Some(Timer(old(nextTimerId), CompletionDelayMs)) && nextTimerId == old(nextTimerId) + 1
      ensures !(isGenerating && text != old(demoText)) ==>
        pending == old(pending) && nextTimerId == old(nextTimerId)
    {
      if text != demoText {
        demoText := text;
        if isGenerating {
          ArmTimer();
        }
      }
    }

    /** `handleGenerate`: refused for blank text; otherwise generating (a new timer only if it was not already). */
    method HandleGenerate()
      requires Valid() && mounted
      modifies this`isGenerating, this`pending, this`nextTimerId
      ensures Valid()
      ensures IsBlank(demoText) ==>
        isGenerating == old(isGenerating) && pending == old(pending) && nextTimerId == old(nextTimerId)
      ensures !IsBlank(demoText) ==> Phase() == Generating
      ensures !IsBlank(demoText) && !old(isGenerating) ==>
        pending == Some(Timer(old(nextTimerId), CompletionDelayMs)) && nextTimerId == old(nextTimerId) + 1
      ensures old(isGenerating) ==> pending == old(pending) && nextTimerId == old(nextTimerId)
      ensures !old(GenerateDisabled()) ==>
        isGenerating && pending == Some(Timer(old(nextTimerId), CompletionDelayMs)) && nextTimerId == old(nextTimerId) + 1
      ensures old(GenerateDisabled()) ==>
        isGenerating == old(isGenerating) && pending == old(pending) && nextTimerId == old(nextTimerId)
    {
      if IsBlank(demoText) {
        return;
      }
      if !isGenerating {
        isGenerating := true;
        ArmTimer();
      }
    }

    /**
     * The timer with handle `id` fires, `Math.random()` returning the
     * values of `random` in order.  Only the armed timer completes; the
     * effect then sees `isGenerating` false and arms nothing.
     */
    method FireTimer(id: nat, random: seq<real>)
      requires Valid()
      requires |random| >= WaveformSamples && AreUnitSamples(random)
      modifies this`generatedSong, this`isGenerating, this`pending
      ensures Valid()
      ensures old(pending).Some? && old(pending).value.id == id ==>
        && !isGenerating && pending == None && Phase() == Done && ShowsResult()
        && generatedSong.Some? && IsCompletionOf(generatedSong.value, demoText, random)
      ensures !(old(pending).Some? && old(pending).value.id == id) ==>
        generatedSong == old(generatedSong) && isGenerating == old(isGenerating) && pending == old(pending)
    {
      if pending.Some? && pending.value.id == id {
        var waveform := BuildWaveform(WaveformSamples, random);
        generatedSong := Some(GeneratedSong(TitleOf(demoText), SongDuration, waveform));
        isGenerating := false;
        pending := None;
      }
    }

    /** The play button flips `isPlaying` and nothing else. */
    method TogglePlay()
      requires Valid()
      modifies this`isPlaying
      ensures Valid() && isPlaying == !old(isPlaying)
    {
      isPlaying := !isPlaying;
    }

    /** Teardown: the effect's cleanup clears the armed timer. */
    method Unmount()
      requires Valid()
      modifies this`mounted, this`pending
      ensures Valid() && !mounted && pending == None
    {
      mounted := false;
      pending := None;
    }
  }
}
