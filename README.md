# gpsynth core in Dafny

gpsynth is a wavetable synthesizer whose wavetables are paths drawn from a
Gaussian process. A kernel is chosen by name (`kernel_for_string`). The
process is evaluated over one cycle of 2205 samples (a 20 Hz wave at
44.1 kHz), either on the angle axis conditioned on zeros at the seam
(wavetable mode) or on the sine of the angle (waveshaping mode). The
covariance is factorised once, and `make_wavetables` draws paths from the
factor (`fast_normal_from_cholesky`). Each path is centred, scaled to a
fixed dB(B)-weighted loudness (`weighted_loudness`,
`perceptual_amplitude_dbb`), and kept only if it stays inside (-0.9, 0.9).

A `GPSynth` object owns the bank and a round-robin cursor. Each `note`:

- low-pass filters the current table for the note's pitch (`midi_to_frequency`);
- reads the filtered table with a phase accumulator into a PCM buffer with a linear fade-in and fade-out;
- hands the buffer to an optional realtime sink and an optional WAV sink.

`save_wavetables` writes every table to a numbered WAV file. The sinks
(`gpsynth/audio_output.py`) quantise samples to 16-bit PCM, each in its own way.

The model has one Dafny module per concern:

- `Pitch`: note to frequency.
- `Kernels`: kernel names and constructor arguments.
- `Covariance`: positions and regression anchors of the covariance request.
- `Loudness`: the weighting curve, fftfreq and argsort, and the weighted sum.
- `Sampler`: the rejection sampler and the bank.
- `AudioOutput`: the two sinks.
- `Render`: the signal path of `note`.
- `Synth`: the `GPSynth` class, the cursor and file naming.
- `Numerics`: Python's `int()` and the properties assumed of numpy, scipy and GPy.
- `Wrappers`: `Option` and `Result`.

The numerical libraries are not modelled. Each becomes a function-typed
parameter constrained by a predicate:

- `sqrt` squares back to its argument.
- The FFT magnitude has one non-negative entry per sample and, where a lemma needs it, scales with its input: multiplying the signal by c > 0 multiplies every magnitude by c.
- The Butterworth/filtfilt low-pass preserves length.
- GPy's `jitchol` returns a square factor of the right size, or fails.
- The semitone ratio `h` satisfies `h > 0` and `h^12 = 2`.

## Model

| member | source | states |
|---|---|---|
| Numerics.Trunc | gpsynth/synthesizer.py:144 | Python's `int()` of a float truncates toward zero, on both sides of zero |
| Pitch.MidiToFrequency | gpsynth/synthesizer.py:16-23 | every note has a positive frequency, and MIDI note 69 is 440 Hz |
| Pitch.SemitoneAboveOne | gpsynth/synthesizer.py:22 | a ratio whose twelfth power is 2 is greater than 1 |
| Pitch.OctaveDoubles | gpsynth/synthesizer.py:22-23 | twelve semitones up doubles the frequency |
| Pitch.NextNoteHigher | gpsynth/synthesizer.py:22-23 | the next note up is strictly higher |
| Pitch.FrequencyIncreasing | gpsynth/synthesizer.py:22-23 | a higher note always has a strictly higher frequency |
| Render.OctavesBelowA4 | gpsynth/synthesizer.py:16-23 | MIDI 21 is 27.5 Hz and MIDI 9 is 13.75 Hz |
| Render.OctavesAboveA4 | gpsynth/synthesizer.py:16-23 | MIDI 129 is 14080 Hz |
| Render.PianoRangeFrequency | gpsynth/synthesizer.py:16-23 | notes 21 to 127 lie in [27.5, 14080) Hz |
| Kernels.ClassNamed | gpsynth/synthesizer.py:189-220 | a name is recognised exactly when it is in `all_kernels` or is Brownian or White, and it selects the class of that name |
| Kernels.Construct | gpsynth/synthesizer.py:188-220 | period 2π for exactly the four periodic classes; variance 0.3² for exactly PeriodicExponential and PeriodicMatern32; no lengthscale for exactly Brownian, White, MLP, Spline and Poly |
| Kernels.KernelForString | gpsynth/synthesizer.py:181-222 | succeeds exactly for the sixteen names, with the class of that name; any other name gives `LookupError` |
| Kernels.NameRoundTrip | gpsynth/synthesizer.py:189-220 | every kernel class is reachable, and its own name selects it |
| Kernels.ClassNameInjective | gpsynth/synthesizer.py:189-220 | no two kernel classes are selected by the same name |
| Kernels.PolynomialIsUnknown | gpsynth/synthesizer.py:219-222 | the name `Polynomial` raises `LookupError` (only `Poly` is known) |
| Kernels.AllKernelsAccepted | gpsynth/synthesizer.py:381-384 | every name of `all_kernels` builds a kernel |
| Covariance.WavetablePositions | gpsynth/synthesizer.py:51-52 | 2206 positions from 0 to 2π inclusive, evenly spaced by 2π/2205 |
| Covariance.WaveshapingPositions | gpsynth/synthesizer.py:34-36 | 2205 positions, position i being the sine of angle i·2π/2205 |
| Covariance.Anchors | gpsynth/synthesizer.py:53-59 | one anchor (a zero at the first position) iff the kernel is a `Periodic` subclass or continuity is off; otherwise two, the second a zero at the last position |
| Covariance.CovarianceRequest | gpsynth/synthesizer.py:235-238 | waveshaping asks for the prior covariance on 2205 positions; wavetable mode asks for the posterior on 2206 positions, with the kernel passed unchanged |
| Covariance.WavetableAnchorsAreSeamZeros | gpsynth/synthesizer.py:52-59 | wavetable mode conditions on a zero at angle 0, and on one at 2π exactly when the kernel is not periodic and continuity is on |
| Covariance.PeriodicPrecedence | gpsynth/synthesizer.py:53 | for a kernel built by name, two anchors exactly when continuity is on and the name is not one of the three `Periodic` subclasses (StdPeriodic gets two) |
| Covariance.SumOfPeriodicIsAnchoredTwice | gpsynth/synthesizer.py:53 | a sum kernel is not a `Periodic` instance, so with continuity on it is anchored at both ends |
| Loudness.Denominator | gpsynth/synthesizer.py:76 | the dB(B) denominator is positive for every frequency |
| Loudness.Weight | gpsynth/synthesizer.py:67-77 | the weight `12200²·f³` over the denominator, exactly as coded (with `f² + 20.6`); its sign is stated by `Loudness.WeightSign` |
| Loudness.WeightSign | gpsynth/synthesizer.py:67-77 | the weight is positive for positive frequencies, zero at 0 Hz and negative below |
| Loudness.DenominatorIncreasing | gpsynth/synthesizer.py:76 | a larger constant in the first factor gives a strictly larger denominator at every frequency, so the code's `f² + 20.6` yields a smaller denominator than the published `f² + 20.6²` |
| Loudness.FftFreq | gpsynth/synthesizer.py:272 | one frequency per bin |
| Loudness.FftFreqAt | gpsynth/synthesizer.py:272 | bin i is at i·44100/n Hz in the first half, and at (i−n)·44100/n Hz after |
| Loudness.PositiveBins | gpsynth/synthesizer.py:272-278 | bin i has a positive frequency iff 1 ≤ i < ⌈n/2⌉; bin 0 is at 0 Hz |
| Loudness.ArgsortOrder | gpsynth/synthesizer.py:273 | position j of the order holds the bin of signed index j − ⌊n/2⌋ |
| Loudness.ArgsortSorts | gpsynth/synthesizer.py:273 | the order is a permutation of the bins (every bin is found at its position) and lists the frequencies in strictly increasing order |
| Loudness.WeightedLoudness | gpsynth/synthesizer.py:261-281 | the loop computes the weighted sum over the argsorted bins, and the result is non-negative for a non-negative frequency multiplier |
| Loudness.WeightedSumNonNegative | gpsynth/synthesizer.py:276-279 | non-negative magnitudes and multiplier give a non-negative sum |
| Loudness.OnlyPositiveBinsCount | gpsynth/synthesizer.py:277-279 | magnitudes at zero or negative frequencies have no influence on the sum |
| Loudness.SortOrderIrrelevant | gpsynth/synthesizer.py:273-279 | the argsort only reorders the terms: the loudness equals the sum over the bins in index order |
| Loudness.Loudness | gpsynth/synthesizer.py:261-281 | the value of `weighted_loudness`: the weighted sum over the argsorted bins, non-negative for a non-negative multiplier |
| Loudness.WeightedSumScaled | gpsynth/synthesizer.py:275-279 | multiplying every magnitude by c multiplies the weighted sum by c |
| Loudness.LoudnessScaled | gpsynth/synthesizer.py:261-281 | when the magnitude spectrum scales with its input, a wavetable scaled by c > 0 is c times as loud |
| Sampler.MatVec | gpsynth/synthesizer.py:92 | the correlated draw has one entry per row of the factor |
| Sampler.CentredSumsToZero | gpsynth/synthesizer.py:93 | subtracting the mean leaves a path whose sum is zero |
| Sampler.Std | gpsynth/synthesizer.py:94 | `np.std`: the root of the mean squared deviation from the mean, never negative |
| Sampler.Normalise | gpsynth/synthesizer.py:93-98 | a normalised candidate keeps the path's length; its mean and loudness are stated by `Sampler.NormalisedIsCentred` and `Sampler.NormalisedLoudness` |
| Sampler.NormalisedIsCentred | gpsynth/synthesizer.py:93-98 | every normalised candidate has mean zero: the steps after centring only scale |
| Sampler.NormalisedLoudness | gpsynth/synthesizer.py:93-98 | when the magnitude spectrum scales with its input, every normalised candidate has weighted loudness 300 at the multiplier 263/20 |
| Sampler.Acceptable | gpsynth/synthesizer.py:100 | `np.max(np.abs(result)) < 0.9`: every sample lies strictly inside (−0.9, 0.9) |
| Sampler.Candidate | gpsynth/synthesizer.py:90-98 | a candidate from a draw has one sample per position |
| Sampler.Candidates | gpsynth/synthesizer.py:89-98 | one candidate per draw, each of full length |
| Sampler.CandidatesAt | gpsynth/synthesizer.py:89-98 | candidate k comes from draw k |
| Sampler.FirstAccepted | gpsynth/synthesizer.py:89-101 | the first attempt from `start` that passes `max(abs) < 0.9`: it passes, every earlier one fails, and none passes when there is no result |
| Sampler.FastNormal | gpsynth/synthesizer.py:80-103 | the loop returns the first accepted candidate and its draw index; it returns nothing iff no remaining draw is accepted; the result has full length and lies inside (−0.9, 0.9); when the magnitude spectrum scales with its input, its weighted loudness is 300 |
| Sampler.DropLast | gpsynth/synthesizer.py:241 | `wavetable[:-1]` is one sample shorter and agrees on the rest |
| Sampler.Tables | gpsynth/synthesizer.py:239-241 | the bank as a value: each table is the trimmed first accepted path after the previous table's draw, and none results when the draws run out; its shape is stated by `Sampler.TablesShape` |
| Sampler.TablesShape | gpsynth/synthesizer.py:239-241 | a bank has the requested count of tables, each one sample shorter than a path and inside the acceptance bound |
| Sampler.TablesAdvance | gpsynth/synthesizer.py:239-241 | one round appends the trimmed first accepted path and continues after its draw |
| Sampler.TablesExhausted | gpsynth/synthesizer.py:239-241 | when no later draw is accepted, no bank results |
| Sampler.DrawTables | gpsynth/synthesizer.py:239-242 | the loop builds exactly the bank `Tables` specifies from consecutive draws |
| Sampler.Generated | gpsynth/synthesizer.py:225-243 | the factorisation's failure, the sampler's exhaustion, or the bank of max(0, n) tables from consecutive draws; `Sampler.MakeWavetables` computes it |
| Sampler.MakeWavetables | gpsynth/synthesizer.py:225-243 | the result is the generated bank or its error; the bank has max(0, n) tables, each of 2204 or 2205 samples by mode, all inside (−0.9, 0.9) |
| AudioOutput.Frame | gpsynth/audio_output.py:63 | a 16-bit value packs to two bytes |
| AudioOutput.Unframe | gpsynth/audio_output.py:63 | two little-endian bytes read back as a signed 16-bit value |
| AudioOutput.FrameRoundTrip | gpsynth/audio_output.py:63 | reading a packed frame gives back the value |
| AudioOutput.UnframeRoundTrip | gpsynth/audio_output.py:63 | every byte pair is the frame of the value it reads as |
| AudioOutput.Pack | gpsynth/audio_output.py:63 | `struct.pack("<h")` succeeds iff the value fits 16 bits; it then yields two bytes that read back as the value, and otherwise an error carrying the value |
| AudioOutput.Frames | gpsynth/audio_output.py:60-63 | two bytes per value |
| AudioOutput.FramesRoundTrip | gpsynth/audio_output.py:60-63 | the byte stream decodes to the values written, in order |
| AudioOutput.FramesAt | gpsynth/audio_output.py:60-63 | value i is packed at bytes 2i and 2i+1 |
| AudioOutput.Quantise | gpsynth/audio_output.py:62 | the sample is scaled by 32767 and truncated toward zero |
| AudioOutput.QuantiseInRange | gpsynth/audio_output.py:53-62 | samples in [−1, 1] quantise to [−32767, 32767] |
| AudioOutput.QuantiseTruncates | gpsynth/audio_output.py:62 | −0.5 gives −16383 and 0.99999 gives 32766: truncation, not rounding |
| AudioOutput.Quantised | gpsynth/audio_output.py:60-62 | sample i quantises to value i |
| AudioOutput.WritablePrefix | gpsynth/audio_output.py:60-63 | the longest prefix whose quantised samples all fit 16 bits; the next sample, if any, does not fit |
| AudioOutput.StoredFrames | gpsynth/audio_output.py:60-63 | two bytes per writable sample |
| AudioOutput.UnitRangeWritesAll | gpsynth/audio_output.py:53-63 | samples in [−1, 1] are all written |
| AudioOutput.FrameMatchesHeader | gpsynth/audio_output.py:46 | each packed frame is channels × sample width bytes long, as the header declares |
| AudioOutput.WavFile.constructor | gpsynth/audio_output.py:39-46 | a new file has the path, the mono 16-bit 44100 Hz uncompressed header, and no frames |
| AudioOutput.WavFile.WriteSamples | gpsynth/audio_output.py:53-63 | appends the frames of the writable prefix; succeeds iff every sample fits, else fails with the first value that does not |
| AudioOutput.Wrap16 | gpsynth/audio_output.py:25 | the int16 cast yields a 16-bit value congruent to its input mod 2^16, and keeps values already in range |
| AudioOutput.RealtimeSample | gpsynth/audio_output.py:25 | one sample of the int16 cast: a 16-bit value congruent modulo 2^16 to the truncation of x·2^15 |
| AudioOutput.RealtimeExactBelowOne | gpsynth/audio_output.py:25 | samples in [−1, 1) keep their truncated value 2^15·x |
| AudioOutput.FullScaleWraps | gpsynth/audio_output.py:25 | a sample of exactly 1.0 wraps to −32768 |
| AudioOutput.RealtimeSamples | gpsynth/audio_output.py:25 | sample i becomes the cast of 2^15 times sample i |
| AudioOutput.RealtimeAudio.constructor | gpsynth/audio_output.py:13-16 | a mono 44100 Hz stream with nothing played |
| AudioOutput.RealtimeAudio.WriteSamples | gpsynth/audio_output.py:18-26 | the stream receives the 16-bit frames of the converted buffer |
| Render.CutoffNorm | gpsynth/synthesizer.py:134-136 | the normalised cutoff `20000·20/f/(44100/2)` is positive; `Render.CutoffTooHighBelow` states when it reaches 1 |
| Render.CutoffTooHighBelow | gpsynth/synthesizer.py:134-137 | the normalised cutoff reaches 1 exactly for frequencies up to 400000/22050 Hz |
| Render.MiddleThird | gpsynth/synthesizer.py:140 | `y[size:2*size]` has `size` samples, sample i being `y[size + i]` |
| Render.Filtered | gpsynth/synthesizer.py:131-140 | the filtered table has the length of the original |
| Render.PointerAt | gpsynth/synthesizer.py:142-158 | the read pointer is never negative |
| Render.ReadIndex | gpsynth/synthesizer.py:147 | `int(pointer_idx)`: the largest integer not above the non-negative pointer |
| Render.FadeIn | gpsynth/synthesizer.py:148-150 | the factor i/100 on the first 100 samples and 1 after; its range is stated by `Render.FadeBounds` |
| Render.FadeOut | gpsynth/synthesizer.py:152-154 | the factor (total − i)/10000 where fewer than 10000 samples remain and 1 before; its range is stated by `Render.FadeBounds` |
| Render.SampleAt | gpsynth/synthesizer.py:147-154 | the table value at the read index times both fade factors; its bound is stated by `Render.SampleBounded` |
| Render.Rendered | gpsynth/synthesizer.py:142-158 | the buffer of `total` samples, sample i being `SampleAt`, or none when some read falls past the table; `Render.RenderPcm` computes it |
| Render.RenderPcm | gpsynth/synthesizer.py:145-158 | the playback loop computes exactly the specified buffer, or fails on the first read past the table |
| Render.PointerStaysInTable | gpsynth/synthesizer.py:156-158 | with a step shorter than the table, the pointer stays in [0, size) |
| Render.RenderSucceeds | gpsynth/synthesizer.py:146-158 | with such a step every read is inside the table, and the buffer has the requested length |
| Render.FadeBounds | gpsynth/synthesizer.py:148-154 | the fade-in factor is in [0, 1], and the fade-out factor is in (0, 1] on every sample |
| Render.FirstSampleSilent | gpsynth/synthesizer.py:148-150 | the first sample of a note is 0 |
| Render.FadeOutWindow | gpsynth/synthesizer.py:152-154 | the fade-out scales exactly the last 9999 samples |
| Render.SampleBounded | gpsynth/synthesizer.py:146-154 | no output sample is louder than the table value it was read from |
| Render.PlayFrequency | gpsynth/synthesizer.py:134-158 | a successful note has `int(duration · 44100)` samples |
| Render.PlayFiltered | gpsynth/synthesizer.py:142-158 | a successful buffer has `int(duration · 44100)` samples |
| Render.PlayTable | gpsynth/synthesizer.py:131-158 | the method makes the checks in the code's order and matches `PlayFrequency` |
| Render.PlayLoop | gpsynth/synthesizer.py:142-158 | allocation and loop match `PlayFiltered` |
| Render.Play | gpsynth/synthesizer.py:131-158 | the note's buffer for one table, at the note's frequency; a successful note has `int(duration·44100)` samples |
| Render.SubsonicNotesFail | gpsynth/synthesizer.py:135-137 | every note up to MIDI 9 fails in `butter`, whatever the table and duration |
| Render.LoopSucceeds | gpsynth/synthesizer.py:142-158 | a frequency below the sample rate and a non-negative duration never read past the table |
| Render.PlaysBetween | gpsynth/synthesizer.py:134-158 | a frequency between the cutoff limit and the sample rate plays on any table of more than six samples |
| Render.PianoRangePlays | gpsynth/synthesizer.py:129-158 | every note from MIDI 21 to 127 plays for any non-negative duration on any table of more than six samples |
| Synth.NextIndex | gpsynth/synthesizer.py:160 | the cursor advances by one and wraps from the last table to the first |
| Synth.CursorAfter | gpsynth/synthesizer.py:160 | the cursor always points into the bank |
| Synth.CursorWithinFirstRound | gpsynth/synthesizer.py:160 | the first n notes use the tables in bank order |
| Synth.CursorPeriodic | gpsynth/synthesizer.py:160 | after n more notes the cursor is back where it was |
| Synth.RoundRobin | gpsynth/synthesizer.py:129-160 | note q·n + r reads table r |
| Synth.Decimal | gpsynth/synthesizer.py:176 | `str(n)` is non-empty and all digits, one digit exactly below 10 |
| Synth.DecimalRoundTrip | gpsynth/synthesizer.py:176 | a number's decimal digits read back as the number |
| Synth.Pad2 | gpsynth/synthesizer.py:176 | `{i:02d}` is all digits, at least two, exactly two below 100 |
| Synth.Pad2RoundTrip | gpsynth/synthesizer.py:176 | the padded index reads back as the index |
| Synth.FileNameShape | gpsynth/synthesizer.py:176 | a file name is the prefix, then the padded index, then `.wav` |
| Synth.FileNamesDistinct | gpsynth/synthesizer.py:176 | different indices give different file names |
| Synth.JoinEndsWithName | gpsynth/synthesizer.py:176 | `os.path.join` ends with the name, and an absolute name replaces the directory |
| Synth.JoinPath | gpsynth/synthesizer.py:176 | POSIX `os.path.join`: an absolute name replaces the directory, otherwise a separator is added unless the directory is empty or ends in one; `Synth.JoinEndsWithName` states its properties |
| Synth.WavetablePathsDistinct | gpsynth/synthesizer.py:173-177 | no two tables of a bank are saved to the same path |
| Synth.FirstUnwritable | gpsynth/synthesizer.py:173-178 | every table before the index writes completely, and the table at the index does not |
| Synth.UnitRangeBankSaves | gpsynth/synthesizer.py:173-178 | a bank inside [−1, 1] saves every table |
| Synth.GeneratedBankSaves | gpsynth/synthesizer.py:100-178 | a bank `make_wavetables` accepted saves every table |
| Synth.ExpectedFiles | gpsynth/synthesizer.py:173-178 | one file per saved table |
| Synth.ExpectedFilesAt | gpsynth/synthesizer.py:173-178 | file i is table i's file at its own path |
| Synth.TableWrite | gpsynth/synthesizer.py:177-178 | writing a table succeeds iff the table is writable |
| Synth.SaveTable | gpsynth/synthesizer.py:176-178 | one round writes table i's frames under its path with the WAV header and reports the pack error, if any |
| Synth.SinkOrder | gpsynth/synthesizer.py:162-165 | each present sink receives the note, realtime before WAV |
| Synth.Rendition | gpsynth/synthesizer.py:129-158 | the buffer `note` renders from table idx, or `EmptyBank` when the bank has no such table |
| Synth.NoteResult | gpsynth/synthesizer.py:162-165 | the note's outcome after the sinks: a WAV sink that cannot pack a sample reports that sample's value, and otherwise the rendered result stands |
| Synth.GPSynth.constructor | gpsynth/synthesizer.py:117-120 | the bank and sinks are stored and the cursor starts at 0 |
| Synth.GPSynth.Create | gpsynth/synthesizer.py:107-120 | fails iff generation fails, with its error; otherwise a fresh synthesizer holds the generated bank of max(0, n) tables, all inside (−0.9, 0.9), with the cursor at 0 |
| Synth.GPSynth.Note | gpsynth/synthesizer.py:122-165 | renders the current table. On success the cursor advances round robin and the realtime then the WAV sink receive the buffer. A failure before the sinks changes nothing. A WAV pack failure is reported after both sinks were written |
| Synth.GPSynth.SaveWavetables | gpsynth/synthesizer.py:167-178 | writes the tables in order until the first unwritable one. It succeeds iff every table is writable. On failure it ends with that table's partial file and pack error. Each file is its table's expected file |

## Where the code departs from the published design

The model follows the code in each of these places:

- The dB(B) weight has `f² + 20.6` in its denominator, where the published curve has `f² + 20.6²`. `Loudness.Weight` models the code, and `Loudness.DenominatorIncreasing` shows that the code's denominator is the smaller one.
- The polynomial kernel is selected by the name `Poly`; the name `Polynomial` raises `LookupError`.
- The fade-out test `samples_total - i < 10000` scales the last 9999 samples, not 10000.
- The wavetable-mode positions include both 0 and 2π, so the path has 2206 samples. The last is dropped, which leaves 2205.
- `StdPeriodic` is not a subclass of GPy's `Periodic` class. Despite its name it is anchored at both ends when continuity is on.

## Left out

- GPy (kernel evaluation, regression and `jitchol`), numpy's FFT, square root and sine (`np.sin` in the waveshaping positions), and scipy's `butter`/`filtfilt` are not modelled. They enter as parameters with the properties stated in `Numerics` and `Sampler.IsFactorOracle`; the sine is unconstrained.
- Numerics.Trunc: floating-point rounding is not modelled; arithmetic is exact over the reals.
- Loudness.WeightedLoudness: the floating-point summation order is not modelled. `Loudness.SortOrderIrrelevant` holds only over the reals.
- Pitch.MidiToFrequency: notes are integers, because there is no real exponentiation; fractional MIDI notes are left out. The ratio `2 ** (1 / 12)` is a parameter `h` with `h^12 = 2`.
- Sampler.FastNormal: the `while True` loop over fresh random draws becomes a loop over a finite sequence of draws. When that sequence is exhausted the sampler reports `None` (`SamplingExhausted` in `make_wavetables`).
- Sampler.Normalise: a zero standard deviation or zero loudness yields NaN or infinite samples in numpy, which fail the acceptance test. The model rejects such an attempt directly. The loudness of 300 (`Sampler.NormalisedLoudness`) rests on the assumption `Numerics.IsHomogeneous`, that scaling a signal by c > 0 scales its FFT magnitudes by c; the FFT itself is not modelled.
- Render.Filtered: only length preservation is assumed of the filter. Its frequency response is not modelled. `filtfilt`'s refusal of short signals uses its default padding of 18 samples for a fifth-order filter.
- Render.PlayFrequency: the PCM buffer is `float32` in the code and exact reals in the model.
- AudioOutput.Wrap16: numpy's float-to-int16 cast is modelled as truncation followed by 16-bit wrap-around. Values beyond 32 bits, where the cast is undefined, follow the same rule.
- AudioOutput.WavFile.WriteSamples: the `wave` module's header patching, the `close()` call and the file system are left out. A file is the list of frame bytes written to it.
- AudioOutput.RealtimeAudio.WriteSamples: the pyaudio device is the list of bytes handed to it; `close()` is left out. `samples.tostring()` uses the machine's native byte order; the model fixes little-endian frames, which is what a little-endian machine sends.
- Synth.GPSynth.Create: `config.good_continuation_regression` is a parameter (`continuity`). The random state is the `draws` parameter.
- Synth.GPSynth.Note: the method returns the rendered buffer or the error; the code returns `None` and raises. It requires the class invariant `Valid()`, which the constructor establishes and every method keeps.
- Synth.GPSynth.SaveWavetables: `os.path.exists` and `os.mkdir` are left out. Saved files are returned as values (path, header, frames) instead of being written to disk.
- The plotting, the kernel sweep (`big_sweep`), `main`, the evaluation scripts and the user interface are outside the core.
