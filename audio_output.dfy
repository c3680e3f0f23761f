/** `gpsynth/audio_output.py`: turning float samples into 16-bit PCM, for a
    WAV file (`WavFile`) and for the sound card (`RealtimeAudio`). The
    `wave` file handle and the pyaudio stream are modelled by the bytes
    written to them. */
module AudioOutput {
  import opened Wrappers
  import opened Numerics

  newtype byte = x: int | 0 <= x < 256

  const Int16Min: int := -0x8000
  const Int16Max: int := 0x7FFF

  predicate InInt16(v: int)
  {
    Int16Min <= v <= Int16Max
  }

  /** `struct.pack("<h", v)` of an in-range value: two's complement, low byte first. */
  function Frame(v: int): (f: seq<byte>)
    requires InInt16(v)
    ensures |f| == 2
  {
    var u := if v < 0 then v + 0x10000 else v;
    [(u % 256) as byte, (u / 256) as byte]
  }

  /** `struct.unpack("<h", bytes([lo, hi]))[0]`. */
  function Unframe(lo: byte, hi: byte): (v: int)
    ensures InInt16(v)
  {
    var u := lo as int + 256 * hi as int;
    if u >= 0x8000 then u - 0x10000 else u
  }

  /** Reading a frame back gives the value packed. */
  lemma FrameRoundTrip(v: int)
    requires InInt16(v)
    ensures Unframe(Frame(v)[0], Frame(v)[1]) == v
  {
  }

  /** Every pair of bytes is the frame of exactly one value. */
  lemma UnframeRoundTrip(lo: byte, hi: byte)
    ensures Frame(Unframe(lo, hi)) == [lo, hi]
  {
  }

  /** `struct.error`: the value does not fit the `h` format. */
  datatype PackError = PackError(value: int)

  /** `struct.pack("<h", v)`, which raises for values outside 16 bits. */
  function Pack(v: int): (r: Result<seq<byte>, PackError>)
    ensures r.Success? <==> InInt16(v)
    ensures r.Success? ==> |r.value| == 2 && Unframe(r.value[0], r.value[1]) == v
    ensures r.Failure? ==> r.error.value == v
  {
    if InInt16(v) then
      FrameRoundTrip(v);
      Success(Frame(v))
    else Failure(PackError(v))
  }

  /** The frames of a sequence of values, one after the other. */
  function Frames(vs: seq<int>): (bs: seq<byte>)
    requires forall i :: 0 <= i < |vs| ==> InInt16(vs[i])
    ensures |bs| == 2 * |vs|
  {
    if vs == [] then [] else Frames(vs[..|vs| - 1]) + Frame(vs[|vs| - 1])
  }

  /** Reads consecutive frames back. */
  function Unframes(bs: seq<byte>): (vs: seq<int>)
    requires |bs| % 2 == 0
    ensures |vs| == |bs| / 2
  {
    if bs == [] then [] else Unframes(bs[..|bs| - 2]) + [Unframe(bs[|bs| - 2], bs[|bs| - 1])]
  }

  /** The byte stream decodes to the values written, in order. */
  lemma {:induction false} FramesRoundTrip(vs: seq<int>)
    requires forall i :: 0 <= i < |vs| ==> InInt16(vs[i])
    ensures Unframes(Frames(vs)) == vs
  {
    if vs != [] {
      var p := vs[..|vs| - 1];
      var bs := Frames(vs);
      assert bs[..|bs| - 2] == Frames(p);
      FramesRoundTrip(p);
      FrameRoundTrip(vs[|vs| - 1]);
      assert vs == p + [vs[|vs| - 1]];
    }
  }

  /** Frame `i` of the stream sits at bytes `2 i` and `2 i + 1`. */
  lemma {:induction false} FramesAt(vs: seq<int>, i: nat)
    requires forall j :: 0 <= j < |vs| ==> InInt16(vs[j])
    requires i < |vs|
    ensures Frames(vs)[2 * i..2 * i + 2] == Frame(vs[i])
  {
    var p := vs[..|vs| - 1];
    if i < |vs| - 1 {
      FramesAt(p, i);
      assert Frames(vs)[..2 * |p|] == Frames(p);
    }
  }

  /** `math.pow(2, 15) - 1`: the WAV writer's full scale. */
  const WavScale: real := 32767.0

  /** `int(sample * (math.pow(2, 15) - 1))`: scaled, then truncated toward zero. */
  function Quantise(sample: real): (q: int)
    ensures sample >= 0.0 ==> 0 <= q && q as real <= sample * WavScale < q as real + 1.0
    ensures sample < 0.0 ==> q <= 0 && q as real - 1.0 < sample * WavScale <= q as real
  {
    Trunc(sample * WavScale)
  }

  /** A sample in [-1, 1] lands in [-32767, 32767], so packing never fails
      and -32768 is never produced. */
  lemma QuantiseInRange(sample: real)
    requires -1.0 <= sample <= 1.0
    ensures -Int16Max <= Quantise(sample) <= Int16Max
  {
    if sample >= 0.0 {
      assert sample * WavScale <= WavScale;
    } else {
      assert sample * WavScale >= -WavScale;
    }
  }

  /** Truncation, not rounding: half of full scale toward minus one gives
      -16383, where rounding down would give -16384. */
  lemma QuantiseTruncates()
    ensures Quantise(-0.5) == -16383
    ensures Quantise(0.99999) == 32766
  {
  }

  function Quantised(samples: seq<real>): (qs: seq<int>)
    ensures |qs| == |samples|
    ensures forall i :: 0 <= i < |samples| ==> qs[i] == Quantise(samples[i])
  {
    seq(|samples|, i requires 0 <= i < |samples| => Quantise(samples[i]))
  }

  /** How many samples the writer gets through before `struct.pack` raises:
      the length of the longest prefix whose quantised values fit 16 bits. */
  function WritablePrefix(samples: seq<real>): (k: nat)
    ensures k <= |samples|
    ensures forall i :: 0 <= i < k ==> InInt16(Quantise(samples[i]))
    ensures k < |samples| ==> !InInt16(Quantise(samples[k]))
  {
    if samples == [] || !InInt16(Quantise(samples[0])) then 0
    else
      var k := 1 + WritablePrefix(samples[1..]);
      assert forall i :: 1 <= i < k ==> samples[i] == samples[1..][i - 1];
      k
  }

  /** The bytes the WAV writer stores for `samples`: the frames of the
      writable prefix. */
  function StoredFrames(samples: seq<real>): (bs: seq<byte>)
    ensures |bs| == 2 * WritablePrefix(samples)
  {
    Frames(Quantised(samples[..WritablePrefix(samples)]))
  }

  /** Samples inside [-1, 1] are all written. */
  lemma {:induction false} UnitRangeWritesAll(samples: seq<real>)
    requires forall i :: 0 <= i < |samples| ==> -1.0 <= samples[i] <= 1.0
    ensures WritablePrefix(samples) == |samples|
  {
    var k := WritablePrefix(samples);
    if k < |samples| {
      QuantiseInRange(samples[k]);
    }
  }

  /** The parameters `wave` is given: channels, sample width in bytes,
      frame rate, frame count, compression type and name. */
  datatype WavParams = WavParams(nchannels: int, sampwidth: int, framerate: int, nframes: int,
                                 comptype: string, compname: string)

  /** Mono, 16 bits, 44100 Hz, uncompressed; the frame count is patched by
      `wave` when the file is closed. */
  const WavHeader: WavParams := WavParams(1, 2, 44100, 0, "NONE", "not compressed")

  /** Every packed frame is exactly one frame of the declared format. */
  lemma FrameMatchesHeader(v: int)
    requires InInt16(v)
    ensures |Frame(v)| == WavHeader.nchannels * WavHeader.sampwidth
  {
  }

  /** `WavFile`: a WAV file being written. */
  class WavFile {
    const path: string
    const params: WavParams
    /** The raw frame bytes written so far. */
    var frames: seq<byte>

    constructor (path: string)
      ensures this.path == path && params == WavHeader && frames == []
    {
      this.path := path;
      params := WavHeader;
      frames := [];
    }

    /** `write_samples`: one frame per sample, in order, until a sample's
        quantised value does not fit 16 bits; then `struct.error` propagates
        and the frames already written stay in the file. */
    method WriteSamples(samples: seq<real>) returns (r: Result<(), PackError>)
      modifies this
      ensures frames == old(frames) + StoredFrames(samples)
      ensures r.Success? <==> WritablePrefix(samples) == |samples|
      ensures r.Failure? ==> r.error == PackError(Quantise(samples[WritablePrefix(samples)]))
    {
      var i := 0;
      while i < |samples|
        invariant 0 <= i <= WritablePrefix(samples)
        invariant frames == old(frames) + Frames(Quantised(samples[..i]))
      {
        var sample := samples[i];
        var audioSample := Quantise(sample);
        var frame := Pack(audioSample);
        if frame.Failure? {
          return Failure(frame.error);
        }
        assert Quantised(samples[..i + 1]) == Quantised(samples[..i]) + [audioSample];
        frames := frames + frame.value;
        i := i + 1;
      }
      assert samples[..i] == samples;
      return Success(());
    }
  }

  /** `2 ** 15`: the realtime writer's scale, one more than `WavScale`. */
  const RealtimeScale: real := 32768.0

  /** numpy's float-to-int16 cast as the x86 conversion performs it for
      values within 32 bits: truncate, then keep the low 16 bits. */
  function Wrap16(v: int): (w: int)
    ensures InInt16(w)
    ensures (w - v) % 0x10000 == 0
    ensures InInt16(v) ==> w == v
  {
    (v + 0x8000) % 0x10000 - 0x8000
  }

  /** One sample of `(samples * (2 ** 15)).astype(np.int16)`. */
  function RealtimeSample(x: real): (v: int)
    ensures InInt16(v)
    ensures (v - Trunc(x * RealtimeScale)) % 0x10000 == 0
  {
    Wrap16(Trunc(x * RealtimeScale))
  }

  /** Inputs in [-1, 1) keep their truncated value. */
  lemma RealtimeExactBelowOne(x: real)
    requires -1.0 <= x < 1.0
    ensures RealtimeSample(x) == Trunc(x * RealtimeScale)
    ensures InInt16(Trunc(x * RealtimeScale))
  {
    if x >= 0.0 {
      assert x * RealtimeScale < RealtimeScale;
    } else {
      assert x * RealtimeScale >= -RealtimeScale;
    }
  }

  /** Full scale wraps around: a sample of exactly 1.0 plays as -32768. */
  lemma FullScaleWraps()
    ensures Trunc(1.0 * RealtimeScale) == 0x8000
    ensures RealtimeSample(1.0) == Int16Min
  {
  }

  function RealtimeSamples(samples: seq<real>): (vs: seq<int>)
    ensures |vs| == |samples|
    ensures forall i :: 0 <= i < |vs| ==> InInt16(vs[i]) && vs[i] == RealtimeSample(samples[i])
  {
    seq(|samples|, i requires 0 <= i < |samples| => RealtimeSample(samples[i]))
  }

  /** `RealtimeAudio`: a mono 16-bit 44100 Hz output stream. */
  class RealtimeAudio {
    const channels: int
    const rate: int
    /** The bytes handed to the stream so far. */
    var played: seq<byte>

    constructor ()
      ensures channels == 1 && rate == 44100 && played == []
    {
      channels := 1;
      rate := 44100;
      played := [];
    }

    /** `write_samples`: the whole buffer is converted, then written in one call. */
    method WriteSamples(samples: seq<real>)
      modifies this
      ensures played == old(played) + Frames(RealtimeSamples(samples))
    {
      var converted := RealtimeSamples(samples);
      played := played + Frames(converted);
    }
  }
}
