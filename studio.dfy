/**
 * The studio's generation panel (src/app/studio/studio-content.tsx).
 * Same state machine as the landing demo, with a 3800 ms delay, an
 * effect that depends on `isGenerating`, the prompt and the lyrics, and a
 * completion that yields two tracks: the result and a variation.
 * `Date.now()` is read twice during completion; both readings are
 * parameters.
 */
module Studio {
  import opened Options
  import opened JsString
  import opened Generation

  const CompletionDelayMs: nat := 3800
  const WaveformSamples: nat := 80
  const FirstDuration := "3:24"
  const VariationDuration := "3:18"
  const VariationSuffix := " (Variation)"
  const LyricsPlaceholder := "Generated lyrics will appear here..."

  datatype Track = Track(id: int, title: string, duration: string, waveform: seq<real>, lyrics: string)

  /** `lyrics || "Generated lyrics will appear here..."`: an empty string is falsy. */
  function LyricsOrPlaceholder(lyrics: string): (shown: string)
    ensures shown != ""
    ensures lyrics != "" ==> shown == lyrics
  {
    if lyrics != "" then lyrics else LyricsPlaceholder
  }

  /** The fixed lines of the lyrics template that follow the prompt. */
  const LyricsTemplateTail :=
    "Created with AI magic\nMusic flowing through the night\n\n[Chorus]\nThis is just a sample\n"
    + "Of what MuseAI can create\nYour imagination\nIs all it takes\n\n[Verse 2]\nEvery beat and melody\n"
    + "Crafted just for you\nWith MuseAI's technology\nDreams can come true"

  const VerseHeading := "[Verse 1]"

  /** What `generateLyrics` writes into the lyrics box: the heading line, the prompt, then the fixed lines. */
  function LyricsTemplate(prompt: string): (lyrics: string)
    ensures |lyrics| == |VerseHeading| + |prompt| + |LyricsTemplateTail| + 2
    ensures lyrics[|VerseHeading| + 1..|VerseHeading| + 1 + |prompt|] == prompt
  {
    VerseHeading + "\n" + (prompt + "\n" + LyricsTemplateTail)
  }

  /** The lines of a text, as a textarea shows them: split at every line feed. */
  function SplitLines(s: string): (lines: seq<string>)
    ensures |lines| >= 1
    decreases |s|
  {
    if '\n' !in s then [s]
    else
      var i := FirstLineFeed(s);
      [s[..i]] + SplitLines(s[i + 1..])
  }

  /** The index of the first line feed of `s`. */
  function FirstLineFeed(s: string): (i: nat)
    requires '\n' in s
    ensures i < |s| && s[i] == '\n' && '\n' !in s[..i]
  {
    if s[0] == '\n' then 0
    else
      assert s == [s[0]] + s[1..];
      var j := FirstLineFeed(s[1..]);
      assert s[..j + 1] == [s[0]] + s[1..][..j];
      j + 1
  }

  /** Splitting `a + "\n" + b` where `a` has no line feed gives `a` followed by the lines of `b`. */
  lemma {:induction false} SplitAfterLine(a: string, b: string)
    requires '\n' !in a
    ensures SplitLines(a + "\n" + b) == [a] + SplitLines(b)
  {
    var s := a + "\n" + b;
    assert s[|a|] == '\n';
    var i := FirstLineFeed(s);
    assert i == |a|;
    assert s[..i] == a;
    assert s[i + 1..] == b;
  }

  /** The template's first line is the verse heading and its second line is the prompt, when the prompt is one line. */
  lemma TemplateSecondLineIsPrompt(prompt: string)
    requires '\n' !in prompt
    ensures |SplitLines(LyricsTemplate(prompt))| >= 2
    ensures SplitLines(LyricsTemplate(prompt))[0] == "[Verse 1]"
    ensures SplitLines(LyricsTemplate(prompt))[1] == prompt
  {
    SplitAfterLine(VerseHeading, prompt + "\n" + LyricsTemplateTail);
    SplitAfterLine(prompt, LyricsTemplateTail);
  }

  /** The two tracks of one completion. */
  predicate IsVariationPair(tracks: seq<Track>)
  {
    && |tracks| == 2
    && tracks[1].title == tracks[0].title + VariationSuffix
    && tracks[0].id < tracks[1].id
    && tracks[0].duration == FirstDuration && tracks[1].duration == VariationDuration
    && |tracks[0].waveform| == WaveformSamples && InAmplitudeRange(tracks[0].waveform)
    && |tracks[1].waveform| == WaveformSamples && InAmplitudeRange(tracks[1].waveform)
    && tracks[0].lyrics == tracks[1].lyrics
  }

  class StudioContent {
    var prompt: string
    var lyrics: string
    var isGenerating: bool
    var generatedTracks: seq<Track>
    var playingTrackIndex: Option<nat>
    var mounted: bool
    /** The completion timer the effect has armed and not yet cleared. */
    var pending: Option<Timer>
    var nextTimerId: nat

    /** A completion is armed exactly while the mounted panel is generating; results come in variation pairs. */
    ghost predicate Valid()
      reads this
    {
      && (pending.Some? <==> mounted && isGenerating)
      && (pending.Some? ==> pending.value.id < nextTimerId && pending.value.delayMs == CompletionDelayMs)
      && (generatedTracks == [] || IsVariationPair(generatedTracks))
    }

    function Phase(): Phase
      reads this
    {
      if isGenerating then Generating else if generatedTracks != [] then Done else Idle
    }

    /** `disabled={isGenerating || !prompt.trim()}` on the Generate button. */
    predicate GenerateDisabled()
      reads this
      ensures Phase() == Generating ==> GenerateDisabled()
    {
      isGenerating || IsBlank(prompt)
    }

    constructor ()
      ensures Valid() && mounted
      ensures prompt == "" && lyrics == "" && Phase() == Idle && playingTrackIndex == None && pending == None
      ensures nextTimerId == 0
    {
      prompt, lyrics, isGenerating := "", "", false;
      generatedTracks, playingTrackIndex := [], None;
      mounted, pending, nextTimerId := true, None, 0;
    }

    /** `setTimeout(…, 3800)` with a fresh handle. */
    method ArmTimer()
      modifies this`pending, this`nextTimerId
      ensures pending == Some(Timer(old(nextTimerId), CompletionDelayMs))
      ensures nextTimerId == old(nextTimerId) + 1
    {
      pending := Some(Timer(nextTimerId, CompletionDelayMs));
      nextTimerId := nextTimerId + 1;
    }

    /** The prompt's `onChange`: a different prompt while generating restarts the delay. */
    method SetPrompt(text: string)
      requires Valid() && mounted
      modifies this`prompt, this`pending, this`nextTimerId
      ensures Valid() && prompt == text
      ensures isGenerating && text != old(prompt) ==>
        pending == Some(Timer(old(nextTimerId), CompletionDelayMs)) && nextTimerId == old(nextTimerId) + 1
      ensures !(isGenerating && text != old(prompt)) ==>
        pending == old(pending) && nextTimerId == old(nextTimerId)
    {
      if text != prompt {
        prompt := text;
        if isGenerating {
          ArmTimer();
        }
      }
    }

    /** The lyrics' `onChange`: different lyrics while generating restart the delay. */
    method SetLyrics(text: string)
      requires Valid() && mounted
      modifies this`lyrics, this`pending, this`nextTimerId
      ensures Valid() && lyrics == text
      ensures isGenerating && text != old(lyrics) ==>
        pending == Some(Timer(old(nextTimerId), CompletionDelayMs)) && nextTimerId == old(nextTimerId) + 1
      ensures !(isGenerating && text != old(lyrics)) ==>
        pending == old(pending) && nextTimerId == old(nextTimerId)
    {
      if text != lyrics {
        lyrics := text;
        if isGenerating {
          ArmTimer();
        }
      }
    }

    /** `generateLyrics`: overwrite the lyrics with the template around the prompt. */
    method GenerateLyrics()
      requires Valid() && mounted
      modifies this`lyrics, this`pending, this`nextTimerId
      ensures Valid() && lyrics == LyricsTemplate(prompt)
      ensures isGenerating && lyrics != old(lyrics) ==>
        pending == Some(Timer(old(nextTimerId), CompletionDelayMs)) && nextTimerId == old(nextTimerId) + 1
      ensures !(isGenerating && lyrics != old(lyrics)) ==>
        pending == old(pending) && nextTimerId == old(nextTimerId)
    {
      SetLyrics(LyricsTemplate(prompt));
    }

    /** `handleGenerate`: refused for a blank prompt; otherwise generating (a new timer only if it was not already). */
    method HandleGenerate()
      requires Valid() && mounted
      modifies this`isGenerating, this`pending, this`nextTimerId
      ensures Valid()
      ensures IsBlank(prompt) ==>
        isGenerating == old(isGenerating) && pending == old(pending) && nextTimerId == old(nextTimerId)
      ensures !IsBlank(prompt) ==> Phase() == Generating
      ensures !IsBlank(prompt) && !old(isGenerating) ==>
        pending == Some(Timer(old(nextTimerId), CompletionDelayMs)) && nextTimerId == old(nextTimerId) + 1
      ensures old(isGenerating) ==> pending == old(pending) && nextTimerId == old(nextTimerId)
      ensures !old(GenerateDisabled()) ==>
        isGenerating && pending == Some(Timer(old(nextTimerId), CompletionDelayMs)) && nextTimerId == old(nextTimerId) + 1
      ensures old(GenerateDisabled()) ==>
        isGenerating == old(isGenerating) && pending == old(pending) && nextTimerId == old(nextTimerId)
    {
      if IsBlank(prompt) {
        return;
      }
      if !isGenerating {
        isGenerating := true;
        ArmTimer();
      }
    }

    /**
     * The timer with handle `id` fires.  `firstNow` and `secondNow` are
     * the two readings of `Date.now()`; `Math.random()` returns the values
     * of `random` in order, eighty per track.
     */
    method FireTimer(id: nat, firstNow: int, secondNow: int, random: seq<real>)
      requires Valid()
      requires firstNow <= secondNow
      requires |random| >= 2 * WaveformSamples && AreUnitSamples(random)
      modifies this`generatedTracks, this`isGenerating, this`pending
      ensures Valid()
      ensures old(pending).Some? && old(pending).value.id == id ==>
        && !isGenerating && pending == None && Phase() == Done
        && IsVariationPair(generatedTracks)
        && generatedTracks[0].title == TitleOf(prompt)
        && generatedTracks[0].id == firstNow && generatedTracks[1].id == secondNow + 1
        && generatedTracks[0].lyrics == LyricsOrPlaceholder(lyrics)
        && (forall i :: 0 <= i < WaveformSamples ==>
              && generatedTracks[0].waveform[i] == random[i] * 100.0
              && generatedTracks[1].waveform[i] == random[WaveformSamples + i] * 100.0)
      ensures !(old(pending).Some? && old(pending).value.id == id) ==>
        generatedTracks == old(generatedTracks) && isGenerating == old(isGenerating) && pending == old(pending)
    {
      if pending.Some? && pending.value.id == id {
        var title := TitleOf(prompt);
        var trackLyrics := LyricsOrPlaceholder(lyrics);
        var first := BuildWaveform(WaveformSamples, random[..WaveformSamples]);
        var second := BuildWaveform(WaveformSamples, random[WaveformSamples..2 * WaveformSamples]);
        generatedTracks := [
          Track(firstNow, title, FirstDuration, first, trackLyrics),
          Track(secondNow + 1, title + VariationSuffix, VariationDuration, second, trackLyrics)
        ];
        isGenerating := false;
        pending := None;
      }
    }

    /** A track's play button: pause it if it is the one playing, otherwise play it instead. */
    method PlayTrack(index: nat)
      requires Valid()
      modifies this`playingTrackIndex
      ensures Valid()
      ensures playingTrackIndex == if old(playingTrackIndex) == Some(index) then None else Some(index)
    {
      playingTrackIndex := if playingTrackIndex == Some(index) then None else Some(index);
    }

    /** Teardown: the effect's cleanup clears the armed timer. */
    method Unmount()
      requires Valid()
      modifies this`mounted, this`pending
      ensures Valid() && !mounted && pending == None
    {
      mounted := false;
      pending := None;
    }
  }
}
