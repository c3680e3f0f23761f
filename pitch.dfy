/** `midi_to_frequency`: twelve-tone equal temperament with A4 (MIDI note 69)
    at 440 Hz. Dafny has no real exponentiation, so the semitone ratio
    2^(1/12) is a parameter `h` characterised by h > 0 and h^12 = 2, and
    notes are integers. */
module Pitch {

  /** b^k for a natural exponent. */
  function Power(b: real, k: nat): (r: real)
    ensures b > 0.0 ==> r > 0.0
  {
    if k == 0 then 1.0 else b * Power(b, k - 1)
  }

  /** b^k for any integer exponent; a negative power is a reciprocal. */
  function IntPower(b: real, k: int): (r: real)
    requires b > 0.0
    ensures r > 0.0
  {
    if k >= 0 then Power(b, k) else 1.0 / Power(b, -k)
  }

  /** h is the equal-tempered semitone ratio `2 ** (1 / 12)`. */
  ghost predicate IsSemitone(h: real)
  {
    h > 0.0 && Power(h, 12) == 2.0
  }

  const A4Note: int := 69
  const A4Frequency: real := 440.0

  /** The frequency in Hz of a MIDI note. */
  function MidiToFrequency(h: real, midiNote: int): (f: real)
    requires IsSemitone(h)
    ensures f > 0.0
    ensures midiNote == A4Note ==> f == A4Frequency
  {
    A4Frequency * IntPower(h, midiNote - A4Note)
  }

  lemma {:induction false} IntPowerStep(b: real, k: int)
    requires b > 0.0
    ensures IntPower(b, k + 1) == b * IntPower(b, k)
  {
    if k < -1 {
      var p := Power(b, -k - 1);
      assert Power(b, -k) == b * p;
      calc {
        b * IntPower(b, k);
        b * (1.0 / (b * p));
        1.0 / p;
      }
    } else if k == -1 {
      assert Power(b, 1) == b * Power(b, 0);
    }
  }

  lemma {:induction false} IntPowerShift(b: real, k: int, j: nat)
    requires b > 0.0
    ensures IntPower(b, k + j) == Power(b, j) * IntPower(b, k)
    decreases j
  {
    if j > 0 {
      IntPowerShift(b, k, j - 1);
      ShiftOnce(b, k, j);
    }
  }

  lemma ShiftOnce(b: real, k: int, j: nat)
    requires b > 0.0 && j > 0
    requires IntPower(b, k + (j - 1)) == Power(b, j - 1) * IntPower(b, k)
    ensures IntPower(b, k + j) == Power(b, j) * IntPower(b, k)
  {
    StepAt(b, k, j);
    PowerStep(b, j);
    Combine(b, IntPower(b, k + (j - 1)), Power(b, j - 1), IntPower(b, k), IntPower(b, k + j), Power(b, j));
  }

  lemma StepAt(b: real, k: int, j: nat)
    requires b > 0.0 && j > 0
    ensures IntPower(b, k + j) == b * IntPower(b, k + (j - 1))
  {
    IntPowerStep(b, k + (j - 1));
  }

  lemma PowerStep(b: real, j: nat)
    requires j > 0
    ensures Power(b, j) == b * Power(b, j - 1)
  {
  }

  lemma Combine(b: real, here: real, rest: real, base: real, next: real, power: real)
    requires here == rest * base && next == b * here && power == b * rest
    ensures next == power * base
  {
  }

  /** A semitone ratio is greater than one, since its twelfth power is 2. */
  lemma {:induction false} SemitoneAboveOne(h: real)
    requires IsSemitone(h)
    ensures h > 1.0
  {
    if h <= 1.0 {
      AtMostOneStaysAtMostOne(h, 12);
    }
  }

  lemma {:induction false} AtMostOneStaysAtMostOne(b: real, k: nat)
    requires 0.0 < b <= 1.0
    ensures Power(b, k) <= 1.0
    decreases k
  {
    if k > 0 {
      var p := Power(b, k - 1);
      AtMostOneStaysAtMostOne(b, k - 1);
      assert b * p <= b * 1.0;
    }
  }

  /** Twelve semitones up is one octave: the frequency doubles. */
  lemma OctaveDoubles(h: real, midiNote: int)
    requires IsSemitone(h)
    ensures MidiToFrequency(h, midiNote + 12) == 2.0 * MidiToFrequency(h, midiNote)
  {
    IntPowerShift(h, midiNote - A4Note, 12);
  }

  /** Higher notes have strictly higher frequencies. */
  lemma {:induction false} FrequencyIncreasing(h: real, lower: int, higher: int)
    requires IsSemitone(h)
    requires lower < higher
    ensures MidiToFrequency(h, lower) < MidiToFrequency(h, higher)
    decreases higher - lower
  {
    var previous := higher - 1;
    NextNoteHigher(h, previous);
    if lower < previous {
      FrequencyIncreasing(h, lower, previous);
    }
  }

  lemma NextNoteHigher(h: real, midiNote: int)
    requires IsSemitone(h)
    ensures MidiToFrequency(h, midiNote) < MidiToFrequency(h, midiNote + 1)
  {
    SemitoneAboveOne(h);
    var k := midiNote - A4Note;
    IntPowerStep(h, k);
    GrowsByFactor(h, IntPower(h, k), IntPower(h, k + 1));
  }

  lemma GrowsByFactor(h: real, x: real, y: real)
    requires h > 1.0 && x > 0.0 && y == h * x
    ensures A4Frequency * x < A4Frequency * y
  {
  }
}
