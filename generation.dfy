/**
 * Pieces shared by the two simulated-generation pages (the landing-page
 * demo and the studio): the title derived from the user's text, the
 * random waveform, and the record of an armed completion timer.
 */
module Generation {
  import opened JsString

  /** Number of characters of the input kept in a generated title. */
  const TitleChars: nat := 30
  const Ellipsis := "..."

  /** `${text.slice(0, 30)}...` */
  function TitleOf(text: string): (t: string)
    ensures |t| == Min(|text|, TitleChars) + 3
    ensures t[..|t| - 3] <= text && t[|t| - 3..] == Ellipsis
  {
    SliceFromStart(text, TitleChars) + Ellipsis
  }

  /** Values drawn from `Math.random()`: each lies in [0, 1). */
  predicate AreUnitSamples(random: seq<real>)
  {
    forall i :: 0 <= i < |random| ==> 0.0 <= random[i] < 1.0
  }

  /** Every amplitude lies in [0, 100). */
  predicate InAmplitudeRange(w: seq<real>)
  {
    forall i :: 0 <= i < |w| ==> 0.0 <= w[i] < 100.0
  }

  /**
   * `Array.from({ length }, () => Math.random() * 100)`, with the values
   * that `Math.random()` returns supplied as `random`, consumed in order.
   */
  method BuildWaveform(length: nat, random: seq<real>) returns (w: seq<real>)
    requires |random| >= length && AreUnitSamples(random)
    ensures |w| == length
    ensures forall i :: 0 <= i < length ==> w[i] == random[i] * 100.0
    ensures InAmplitudeRange(w)
  {
    w := [];
    var i := 0;
    while i < length
      invariant 0 <= i <= length
      invariant |w| == i
      invariant forall k :: 0 <= k < i ==> w[k] == random[k] * 100.0
    {
      w := w + [random[i] * 100.0];
      i := i + 1;
    }
  }

  /** A `setTimeout` callback that has been scheduled and not cleared: its handle and its delay. */
  datatype Timer = Timer(id: nat, delayMs: nat)

  /** Where a generating component is: nothing requested, a timer pending, or a result shown. */
  datatype Phase = Idle | Generating | Done
}
