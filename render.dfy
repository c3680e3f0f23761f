/** The signal path of `GPSynth.note`: low-pass filtering the selected
    wavetable for the note's pitch, then reading it with a phase accumulator
    into a PCM buffer shaped by a linear fade-in and fade-out. */
module Render {
  import opened Wrappers
  import opened Numerics
  import opened Pitch

  /** `fade_in`: samples over which a note rises from silence. */
  const FadeInLength: nat := 100
  /** `fade_out`: the note falls over its last samples, `samples_total - i < fade_out`. */
  const FadeOutLength: nat := 10000
  /** scipy's `filtfilt` pads by `3 * max(len(a), len(b))`, 18 for a fifth-order Butterworth,
      and refuses signals no longer than that. */
  const FiltfiltPadLen: nat := 18

  /** Why a note was not played. */
  datatype NoteError =
    | EmptyBank                  // `self.wavetables[self.table_idx]` on an empty bank
    | CutoffTooHigh              // `signal.butter` needs a normalised cutoff below 1
    | SignalTooShort             // `signal.filtfilt` needs more samples than its padding
    | NegativeLength             // `np.zeros` of a negative sample count
    | ReadPastTable              // `wavetable[int(pointer_idx)]` past the end of the table
    | WavPackFailed(value: int)  // `struct.pack` in the WAV sink: a sample outside 16 bits

  /** `20000 * 20 / f / (fs / 2)`: the cutoff that keeps the played note
      below 20 kHz, as a fraction of the Nyquist frequency. */
  function CutoffNorm(frequency: real): (c: real)
    requires frequency > 0.0
    ensures c > 0.0
  {
    20000.0 * 20.0 / frequency / (SampleRate / 2.0)
  }

  /** The cutoff is out of range exactly for notes at or below 400000/22050
      Hz, about 18.1 Hz. */
  lemma CutoffTooHighBelow(frequency: real)
    requires frequency > 0.0
    ensures CutoffNorm(frequency) >= 1.0 <==> frequency <= 400000.0 / 22050.0
  {
    var c := 400000.0 / 22050.0;
    assert CutoffNorm(frequency) == c / frequency;
    if frequency <= c {
      AtLeastOne(c, frequency);
    } else {
      BelowOne(c, frequency);
    }
  }

  lemma AtLeastOne(c: real, f: real)
    requires 0.0 < f <= c
    ensures c / f >= 1.0
  {
  }

  lemma BelowOne(c: real, f: real)
    requires 0.0 < c < f
    ensures c / f < 1.0
  {
    StrictMul(c, f, 1.0 / f);
  }

  lemma StrictMul(a: real, b: real, k: real)
    requires a < b && k > 0.0
    ensures a * k < b * k
  {
    assert (b - a) * k > 0.0;
  }

  /** `y[size:2 * size]` of the filtered triple: the middle copy. */
  function MiddleThird(y: seq<real>, size: nat): (t: seq<real>)
    requires |y| == 3 * size
    ensures |t| == size
    ensures forall i :: 0 <= i < size ==> t[i] == y[size + i]
  {
    y[size..2 * size]
  }

  /** The table the note reads: three copies filtered forward and backward,
      so that the middle copy is free of the filter's start and end
      transients. */
  function Filtered(table: seq<real>, cutoff: real, lowpass: (real, seq<real>) -> seq<real>): (t: seq<real>)
    requires IsLengthPreserving(lowpass)
    ensures |t| == |table|
  {
    MiddleThird(lowpass(cutoff, table + table + table), |table|)
  }

  /** The read pointer before sample `i`: it starts at 0, advances by `step`
      and, on reaching the table length, is pulled back by one length. */
  function PointerAt(step: real, size: nat, i: nat): (p: real)
    requires step >= 0.0
    ensures p >= 0.0
  {
    if i == 0 then 0.0
    else
      var q := PointerAt(step, size, i - 1) + step;
      if q >= size as real then q - size as real else q
  }

  /** `int(pointer_idx)`: the table index read for sample `i`. */
  function ReadIndex(step: real, size: nat, i: nat): (k: nat)
    requires step >= 0.0
    ensures k as real <= PointerAt(step, size, i) < k as real + 1.0
  {
    PointerAt(step, size, i).Floor
  }

  /** The fade-in factor `i / 100` on the first hundred samples. */
  function FadeIn(i: nat): real
  {
    if i < FadeInLength then i as real / FadeInLength as real else 1.0
  }

  /** The fade-out factor `(samples_total - i) / 10000` where fewer than
      10000 samples remain. */
  function FadeOut(total: nat, i: nat): real
  {
    if total - i < FadeOutLength as int then (total - i) as real / FadeOutLength as real else 1.0
  }

  /** Sample `i` of the note: the table value under the pointer, faded in
      and then faded out. */
  function SampleAt(table: seq<real>, step: real, total: nat, i: nat): real
    requires step >= 0.0 && ReadIndex(step, |table|, i) < |table|
  {
    table[ReadIndex(step, |table|, i)] * FadeIn(i) * FadeOut(total, i)
  }

  /** Every read of the first `total` samples lands inside the table. */
  predicate ReadsInside(table: seq<real>, step: real, total: nat)
    requires step >= 0.0
  {
    forall i :: 0 <= i < total ==> ReadIndex(step, |table|, i) < |table|
  }

  /** The buffer the playback loop fills, or `None` when a read falls past
      the end of the table (an `IndexError`). */
  function Rendered(table: seq<real>, step: real, total: nat): (r: Option<seq<real>>)
    requires step >= 0.0
  {
    if ReadsInside(table, step, total) then Some(seq(total, i requires 0 <= i < total => SampleAt(table, step, total, i)))
    else None
  }

  /** The playback loop of `note`, on a fresh zeroed buffer. */
  method RenderPcm(wavetable: seq<real>, step: real, samplesTotal: nat) returns (r: Option<seq<real>>)
    requires step >= 0.0
    ensures r == Rendered(wavetable, step, samplesTotal)
  {
    var pcm := new real[samplesTotal](_ => 0.0);
    var pointerIdx := 0.0;
    var size := |wavetable|;
    for i := 0 to samplesTotal
      invariant pointerIdx == PointerAt(step, size, i)
      invariant forall j :: 0 <= j < i ==> ReadIndex(step, size, j) < size
      invariant forall j :: 0 <= j < i ==> pcm[j] == SampleAt(wavetable, step, samplesTotal, j)
    {
      var idx := pointerIdx.Floor;
      if idx >= size {
        assert ReadIndex(step, size, i) >= size;
        return None;
      }
      var sample := wavetable[idx];
      if i < FadeInLength {
        sample := sample * (i as real / FadeInLength as real);
      }
      if samplesTotal - i < FadeOutLength {
        sample := sample * ((samplesTotal - i) as real / FadeOutLength as real);
      }
      pcm[i] := sample;
      pointerIdx := pointerIdx + step;
      if pointerIdx >= size as real {
        pointerIdx := pointerIdx - size as real;
      }
    }
    assert ReadsInside(wavetable, step, samplesTotal);
    assert pcm[..] == seq(samplesTotal, j requires 0 <= j < samplesTotal => SampleAt(wavetable, step, samplesTotal, j));
    return Some(pcm[..]);
  }

  /** A step shorter than the table keeps the pointer inside it: one
      subtraction is always enough. */
  lemma {:induction false} PointerStaysInTable(step: real, size: nat, i: nat)
    requires 0.0 <= step < size as real
    ensures 0.0 <= PointerAt(step, size, i) < size as real
  {
    if i > 0 {
      PointerStaysInTable(step, size, i - 1);
    }
  }

  /** With such a step the loop never reads past the table. */
  lemma RenderSucceeds(table: seq<real>, step: real, total: nat)
    requires 0.0 <= step < |table| as real
    ensures Rendered(table, step, total).Some?
    ensures |Rendered(table, step, total).value| == total
  {
    forall i | 0 <= i < total
      ensures ReadIndex(step, |table|, i) < |table|
    {
      PointerStaysInTable(step, |table|, i);
    }
  }

  /** Both fade factors lie in [0, 1], and the fade-out is positive on
      every sample of the note. */
  lemma FadeBounds(total: nat, i: nat)
    requires i < total
    ensures 0.0 <= FadeIn(i) <= 1.0
    ensures 0.0 < FadeOut(total, i) <= 1.0
  {
  }

  /** The fade-in starts from silence. */
  lemma FirstSampleSilent(table: seq<real>, step: real, total: nat)
    requires step >= 0.0 && total > 0
    requires Rendered(table, step, total).Some?
    ensures Rendered(table, step, total).value[0] == 0.0
  {
    assert ReadIndex(step, |table|, 0) < |table|;
  }

  /** The fade-out touches exactly the last 9999 samples: the factor is
      below one if and only if fewer than 10000 samples remain. */
  lemma FadeOutWindow(total: nat, i: nat)
    requires i < total
    ensures FadeOut(total, i) < 1.0 <==> i >= total - (FadeOutLength - 1)
  {
  }

  /** No sample is louder than the table value it was read from, even
      where both fades overlap. */
  lemma SampleBounded(table: seq<real>, step: real, total: nat, i: nat)
    requires step >= 0.0 && i < total && ReadIndex(step, |table|, i) < |table|
    ensures Abs(SampleAt(table, step, total, i)) <= Abs(table[ReadIndex(step, |table|, i)])
  {
    FadeBounds(total, i);
    var x := table[ReadIndex(step, |table|, i)];
    assert SampleAt(table, step, total, i) == x * FadeIn(i) * FadeOut(total, i);
    ScaledDown(x, FadeIn(i), FadeOut(total, i));
  }

  function Abs(x: real): real
  {
    if x < 0.0 then -x else x
  }

  lemma ScaledDown(x: real, a: real, b: real)
    requires 0.0 <= a <= 1.0 && 0.0 <= b <= 1.0
    ensures Abs(x * a * b) <= Abs(x)
  {
    ShrinkOnce(x, a);
    ShrinkOnce(x * a, b);
  }

  lemma ShrinkOnce(x: real, a: real)
    requires 0.0 <= a <= 1.0
    ensures Abs(x * a) <= Abs(x)
  {
    if x >= 0.0 {
      assert x * a <= x * 1.0;
    } else {
      assert x * a >= x * 1.0;
    }
  }

  /** The buffer `note` plays for one wavetable, or the error it raises
      first: the filter design, the filter itself, the buffer allocation,
      then the playback loop. */
  function Play(table: seq<real>, midiNote: int, duration: real, h: real, lowpass: (real, seq<real>) -> seq<real>): (r: Result<seq<real>, NoteError>)
    requires IsSemitone(h) && IsLengthPreserving(lowpass)
    ensures r.Success? ==> |r.value| == Trunc(duration * SampleRate)
  {
    PlayFrequency(table, MidiToFrequency(h, midiNote), duration, lowpass)
  }

  /** `Play` once the note's frequency is known. */
  function PlayFrequency(table: seq<real>, frequency: real, duration: real, lowpass: (real, seq<real>) -> seq<real>): (r: Result<seq<real>, NoteError>)
    requires frequency > 0.0 && IsLengthPreserving(lowpass)
    ensures r.Success? ==> |r.value| == Trunc(duration * SampleRate)
  {
    var cutoff := CutoffNorm(frequency);
    if cutoff >= 1.0 then Failure(CutoffTooHigh)
    else if 3 * |table| <= FiltfiltPadLen then Failure(SignalTooShort)
    else PlayFiltered(Filtered(table, cutoff, lowpass), frequency, duration)
  }

  /** The allocation and the playback loop, on the filtered table. */
  function PlayFiltered(wavetable: seq<real>, frequency: real, duration: real): (r: Result<seq<real>, NoteError>)
    requires frequency > 0.0
    ensures r.Success? ==> |r.value| == Trunc(duration * SampleRate)
  {
    var step := frequency / SampleRate * |wavetable| as real;
    var total := Trunc(duration * SampleRate);
    if total < 0 then Failure(NegativeLength)
    else match Rendered(wavetable, step, total)
      case None => Failure(ReadPastTable)
      case Some(pcm) => Success(pcm)
  }

  /** The body of `note` from the filter design to the finished buffer:
      each check in the order the code reaches it, then the playback loop. */
  method PlayTable(table: seq<real>, frequency: real, duration: real, lowpass: (real, seq<real>) -> seq<real>)
      returns (r: Result<seq<real>, NoteError>)
    requires frequency > 0.0 && IsLengthPreserving(lowpass)
    ensures r == PlayFrequency(table, frequency, duration, lowpass)
  {
    var cutoff := CutoffNorm(frequency);
    if cutoff >= 1.0 {
      return Failure(CutoffTooHigh);
    }
    if 3 * |table| <= FiltfiltPadLen {
      return Failure(SignalTooShort);
    }
    var wavetable := Filtered(table, cutoff, lowpass);
    r := PlayLoop(wavetable, frequency, duration);
  }

  /** The buffer allocation and the playback loop of `note`. */
  method PlayLoop(wavetable: seq<real>, frequency: real, duration: real) returns (r: Result<seq<real>, NoteError>)
    requires frequency > 0.0
    ensures r == PlayFiltered(wavetable, frequency, duration)
  {
    var step := frequency / SampleRate * |wavetable| as real;
    var samplesTotal := Trunc(duration * SampleRate);
    if samplesTotal < 0 {
      return Failure(NegativeLength);
    }
    var pcm := RenderPcm(wavetable, step, samplesTotal);
    if pcm.None? {
      return Failure(ReadPastTable);
    }
    return Success(pcm.value);
  }

  /** MIDI note 9 (13.75 Hz) and everything below it fail: the cutoff the
      note asks for lies above the Nyquist frequency, and `butter` raises. */
  lemma SubsonicNotesFail(table: seq<real>, midiNote: int, duration: real, h: real, lowpass: (real, seq<real>) -> seq<real>)
    requires IsSemitone(h) && IsLengthPreserving(lowpass) && midiNote <= 9
    ensures Play(table, midiNote, duration, h, lowpass) == Failure(CutoffTooHigh)
  {
    OctavesBelowA4(h);
    if midiNote < 9 {
      FrequencyIncreasing(h, midiNote, 9);
    }
    CutoffTooHighBelow(MidiToFrequency(h, midiNote));
  }

  /** Descending from A4 by octaves: 220, 110, 55, 27.5 and 13.75 Hz. */
  lemma OctavesBelowA4(h: real)
    requires IsSemitone(h)
    ensures MidiToFrequency(h, 21) == 27.5
    ensures MidiToFrequency(h, 9) == 13.75
  {
    OctaveDoubles(h, 57);
    OctaveDoubles(h, 45);
    OctaveDoubles(h, 33);
    OctaveDoubles(h, 21);
    OctaveDoubles(h, 9);
  }

  /** Ascending from A4 by five octaves: 14080 Hz at MIDI note 129. */
  lemma OctavesAboveA4(h: real)
    requires IsSemitone(h)
    ensures MidiToFrequency(h, 129) == 14080.0
  {
    OctaveDoubles(h, 69);
    OctaveDoubles(h, 81);
    OctaveDoubles(h, 93);
    OctaveDoubles(h, 105);
    OctaveDoubles(h, 117);
  }

  /** Every note from the piano's lowest A (MIDI 21) to the top of the MIDI
      range (127) plays without error for any non-negative duration on any
      table longer than six samples: the cutoff is valid and the pointer
      step is shorter than the table. */
  lemma PianoRangePlays(table: seq<real>, midiNote: int, duration: real, h: real, lowpass: (real, seq<real>) -> seq<real>)
    requires IsSemitone(h) && IsLengthPreserving(lowpass)
    requires 21 <= midiNote <= 127 && duration >= 0.0 && |table| > 6
    ensures Play(table, midiNote, duration, h, lowpass).Success?
  {
    PianoRangeFrequency(h, midiNote);
    PlaysBetween(table, MidiToFrequency(h, midiNote), duration, lowpass);
  }

  lemma PianoRangeFrequency(h: real, midiNote: int)
    requires IsSemitone(h) && 21 <= midiNote <= 127
    ensures 27.5 <= MidiToFrequency(h, midiNote) < 14080.0
  {
    OctavesBelowA4(h);
    OctavesAboveA4(h);
    if midiNote > 21 {
      FrequencyIncreasing(h, 21, midiNote);
    }
    FrequencyIncreasing(h, midiNote, 129);
  }

  /** A note between the cutoff limit and the sample rate plays. */
  lemma PlaysBetween(table: seq<real>, frequency: real, duration: real, lowpass: (real, seq<real>) -> seq<real>)
    requires IsLengthPreserving(lowpass)
    requires 400000.0 / 22050.0 < frequency < SampleRate
    requires duration >= 0.0 && |table| > 6
    ensures PlayFrequency(table, frequency, duration, lowpass).Success?
  {
    CutoffTooHighBelow(frequency);
    LoopSucceeds(Filtered(table, CutoffNorm(frequency), lowpass), frequency, duration);
  }

  /** Below the sample rate the step is shorter than the table, so the
      loop completes. */
  lemma LoopSucceeds(wavetable: seq<real>, frequency: real, duration: real)
    requires 0.0 < frequency < SampleRate && |wavetable| > 0 && duration >= 0.0
    ensures PlayFiltered(wavetable, frequency, duration).Success?
  {
    var step := frequency / SampleRate * |wavetable| as real;
    StepBelowLength(frequency, |wavetable| as real);
    assert duration * SampleRate >= 0.0;
    var total := Trunc(duration * SampleRate);
    assert total >= 0;
    RenderSucceeds(wavetable, step, total);
    assert PlayFiltered(wavetable, frequency, duration) == Success(Rendered(wavetable, step, total).value);
  }

  lemma StepBelowLength(frequency: real, size: real)
    requires 0.0 < frequency < SampleRate && size > 0.0
    ensures 0.0 <= frequency / SampleRate * size < size
  {
    var ratio := frequency / SampleRate;
    assert 0.0 < ratio < 1.0;
    assert ratio * size < 1.0 * size;
  }
}
