/** Tempo unit conversion (common.py). Tempos are beats per minute and
    durations milliseconds, both exact reals here. */
module Common {

  /** Milliseconds taken by one beat at `bpm`: `bpm` beats of it fill one
      minute, and a positive tempo gives a positive length. Python raises
      ZeroDivisionError for 0. */
  function MsPerBeat(bpm: real): (r: real)
    requires bpm != 0.0
    ensures bpm * r == 60000.0
    ensures bpm > 0.0 ==> r > 0.0
  {
    60000.0 / bpm
  }

  /** Beats elapsed in one millisecond at `bpm`: a positive tempo advances,
      a negative one goes back, and a zero tempo stands still. */
  function BeatPerMs(bpm: real): (r: real)
    ensures bpm > 0.0 ==> r > 0.0
    ensures bpm < 0.0 ==> r < 0.0
    ensures bpm == 0.0 ==> r == 0.0
  {
    bpm / 60000.0
  }

  /** The two conversions are inverse to each other. */
  lemma MsPerBeatTimesBeatPerMs(bpm: real)
    requires bpm != 0.0
    ensures MsPerBeat(bpm) * BeatPerMs(bpm) == 1.0
  {
  }

  /** Converting a duration to beats and back gives the duration. */
  lemma BeatsRoundTrip(bpm: real, ms: real)
    requires bpm != 0.0
    ensures ms * BeatPerMs(bpm) * MsPerBeat(bpm) == ms
  {
    MsPerBeatTimesBeatPerMs(bpm);
    assert ms * BeatPerMs(bpm) * MsPerBeat(bpm) == ms * (MsPerBeat(bpm) * BeatPerMs(bpm));
  }

  /** A faster tempo gives shorter beats. */
  lemma MsPerBeatDecreasing(slow: real, fast: real)
    requires 0.0 < slow < fast
    ensures MsPerBeat(fast) < MsPerBeat(slow)
  {
    InverseOrder(slow, fast, MsPerBeat(fast), MsPerBeat(slow));
  }

  /** Two factorings of the same product: the larger first factor goes
      with the smaller second one. */
  lemma InverseOrder(slow: real, fast: real, f: real, s: real)
    requires 0.0 < slow < fast && f > 0.0 && fast * f == slow * s
    ensures f < s
  {
    ScaleStrict(slow, fast, f);
    if s <= f {
      ScaleWeak(s, f, slow);
    }
  }

  lemma ScaleStrict(a: real, b: real, c: real)
    requires a < b && c > 0.0
    ensures a * c < b * c
  {
  }

  lemma ScaleWeak(a: real, b: real, c: real)
    requires a <= b && c > 0.0
    ensures a * c <= b * c
  {
  }
}
