/** Class `GPSynth` of `gpsynth/synthesizer.py`: a bank of generated
    wavetables, a round-robin cursor over it, and the optional sinks every
    played note is written to. */
module Synth {
  import opened Wrappers
  import opened Numerics
  import opened Pitch
  import opened Kernels
  import opened Covariance
  import opened Sampler
  import opened AudioOutput
  import opened Render

  /** The index after `idx` in a bank of `n` tables, `(idx + 1) % n`: the
      next table, wrapping from the last back to the first. */
  function NextIndex(idx: nat, n: nat): (j: nat)
    requires idx < n
    ensures j < n
    ensures j == if idx + 1 == n then 0 else idx + 1
  {
    (idx + 1) % n
  }

  /** The cursor after `k` successful notes on a fresh bank of `n` tables. */
  function CursorAfter(n: nat, k: nat): (c: nat)
    requires n > 0
    ensures c < n
  {
    if k == 0 then 0 else NextIndex(CursorAfter(n, k - 1), n)
  }

  /** The first `n` notes play the tables in bank order. */
  lemma {:induction false} CursorWithinFirstRound(n: nat, r: nat)
    requires r < n
    ensures CursorAfter(n, r) == r
  {
    if r > 0 {
      CursorWithinFirstRound(n, r - 1);
    }
  }

  /** After `n` more notes the cursor is back where it was. */
  lemma {:induction false} CursorPeriodic(n: nat, k: nat)
    requires n > 0
    ensures CursorAfter(n, k + n) == CursorAfter(n, k)
  {
    if k == 0 {
      CursorWithinFirstRound(n, n - 1);
    } else {
      CursorPeriodic(n, k - 1);
    }
  }

  /** The tables are played round robin: note `q * n + r` reads table `r`. */
  lemma {:induction false} RoundRobin(n: nat, q: nat, r: nat)
    requires r < n
    ensures CursorAfter(n, q * n + r) == r
  {
    if q == 0 {
      CursorWithinFirstRound(n, r);
    } else {
      assert q * n + r == (q - 1) * n + r + n;
      RoundRobin(n, q - 1, r);
      CursorPeriodic(n, (q - 1) * n + r);
    }
  }

  /** The character of a decimal digit. */
  function DigitChar(d: nat): (c: char)
    requires d < 10
    ensures '0' <= c <= '9'
  {
    ('0' as int + d) as char
  }

  function DigitValue(c: char): (d: nat)
    requires '0' <= c <= '9'
    ensures d < 10
  {
    (c as int - '0' as int) as nat
  }

  predicate AllDigits(s: string)
  {
    forall i :: 0 <= i < |s| ==> '0' <= s[i] <= '9'
  }

  /** `str(n)` of a natural number: its decimal digits, most significant first. */
  function Decimal(n: nat): (s: string)
    ensures |s| >= 1 && AllDigits(s)
    ensures n >= 10 ==> |s| >= 2
    ensures n >= 100 ==> |s| >= 3
    ensures n < 10 ==> |s| == 1
  {
    if n < 10 then [DigitChar(n)] else Decimal(n / 10) + [DigitChar(n % 10)]
  }

  /** `int(s)` of a string of decimal digits. */
  function ParseDecimal(s: string): nat
    requires AllDigits(s)
  {
    if s == [] then 0 else 10 * ParseDecimal(s[..|s| - 1]) + DigitValue(s[|s| - 1])
  }

  /** Reading a number's digits back gives the number. */
  lemma {:induction false} DecimalRoundTrip(n: nat)
    ensures ParseDecimal(Decimal(n)) == n
  {
    var s := Decimal(n);
    if n < 10 {
      assert s[..0] == [];
    } else {
      assert s[..|s| - 1] == Decimal(n / 10);
      DecimalRoundTrip(n / 10);
    }
  }

  /** A leading zero does not change the value. */
  lemma {:induction false} LeadingZero(s: string)
    requires AllDigits(s)
    ensures ParseDecimal("0" + s) == ParseDecimal(s)
  {
    if s != [] {
      var t := "0" + s;
      assert t[..|t| - 1] == "0" + s[..|s| - 1];
      LeadingZero(s[..|s| - 1]);
    } else {
      var t := "0" + s;
      assert t[..|t| - 1] == [];
    }
  }

  /** `f'{i:02d}'`: at least two digits, padded with a leading zero. */
  function Pad2(i: nat): (s: string)
    ensures AllDigits(s) && |s| >= 2
    ensures i < 100 ==> |s| == 2
  {
    if i < 10 then "0" + Decimal(i) else Decimal(i)
  }

  /** Padding loses nothing: the index is recovered from its padded form. */
  lemma Pad2RoundTrip(i: nat)
    ensures ParseDecimal(Pad2(i)) == i
  {
    DecimalRoundTrip(i);
    if i < 10 {
      LeadingZero(Decimal(i));
    }
  }

  /** The file name of table `i`: the prefix, the padded index, `.wav`. */
  function WavetableFileName(prefix: string, i: nat): string
  {
    prefix + Pad2(i) + ".wav"
  }

  /** A file name is the prefix, two or more digits giving the index, and `.wav`. */
  lemma FileNameShape(prefix: string, i: nat)
    ensures var name := WavetableFileName(prefix, i);
      && |name| == |prefix| + |Pad2(i)| + 4
      && name[..|prefix|] == prefix && name[|name| - 4..] == ".wav"
      && name[|prefix|..|name| - 4] == Pad2(i)
  {
  }

  /** Different tables get different file names. */
  lemma FileNamesDistinct(prefix: string, i: nat, j: nat)
    requires i != j
    ensures WavetableFileName(prefix, i) != WavetableFileName(prefix, j)
  {
    FileNameShape(prefix, i);
    FileNameShape(prefix, j);
    Pad2RoundTrip(i);
    Pad2RoundTrip(j);
  }

  /** `os.path.join(path, name)` for POSIX paths: an absolute name replaces
      the directory; otherwise a separator is added unless the directory is
      empty or already ends in one. */
  function JoinPath(path: string, name: string): string
  {
    if |name| > 0 && name[0] == '/' then name
    else if path == [] || path[|path| - 1] == '/' then path + name
    else path + "/" + name
  }

  /** The joined path ends with the name, and an absolute name is kept as is. */
  lemma JoinEndsWithName(path: string, name: string)
    ensures var p := JoinPath(path, name);
      |p| >= |name| && p[|p| - |name|..] == name
    ensures |name| > 0 && name[0] == '/' ==> JoinPath(path, name) == name
  {
  }

  /** The path `save_wavetables` writes table `i` to. */
  function WavetablePath(path: string, prefix: string, i: nat): string
  {
    JoinPath(path, WavetableFileName(prefix, i))
  }

  /** Every table of the bank is saved under a path of its own. */
  lemma WavetablePathsDistinct(path: string, prefix: string, i: nat, j: nat)
    requires i != j
    ensures WavetablePath(path, prefix, i) != WavetablePath(path, prefix, j)
  {
    var a := WavetableFileName(prefix, i);
    var b := WavetableFileName(prefix, j);
    FileNamesDistinct(prefix, i, j);
    var dir := if |prefix| > 0 && prefix[0] == '/' then []
      else if path == [] || path[|path| - 1] == '/' then path
      else path + "/";
    SameDirectory(path, prefix, i, dir);
    SameDirectory(path, prefix, j, dir);
    assert (dir + a)[|dir|..] == a;
    assert (dir + b)[|dir|..] == b;
  }

  /** The directory part of a table's path depends only on `path` and the prefix. */
  lemma SameDirectory(path: string, prefix: string, i: nat, dir: string)
    requires dir == if |prefix| > 0 && prefix[0] == '/' then []
      else if path == [] || path[|path| - 1] == '/' then path
      else path + "/"
    ensures WavetablePath(path, prefix, i) == dir + WavetableFileName(prefix, i)
  {
    var name := WavetableFileName(prefix, i);
    if |prefix| > 0 {
      assert name[0] == prefix[0];
    } else {
      assert name[0] == Pad2(i)[0];
    }
  }

  /** Whether the WAV writer gets through a whole table. */
  predicate Writable(table: seq<real>)
  {
    WritablePrefix(table) == |table|
  }

  /** The index of the first table `save_wavetables` fails on, or the bank size. */
  function FirstUnwritable(tables: seq<seq<real>>): (k: nat)
    ensures k <= |tables|
    ensures forall i :: 0 <= i < k ==> Writable(tables[i])
    ensures k < |tables| ==> !Writable(tables[k])
  {
    if tables == [] || !Writable(tables[0]) then 0
    else
      var k := 1 + FirstUnwritable(tables[1..]);
      assert forall i :: 1 <= i < k ==> tables[i] == tables[1..][i - 1];
      k
  }

  /** A bank inside [-1, 1], as every generated bank is, saves completely. */
  lemma {:induction false} UnitRangeBankSaves(tables: seq<seq<real>>)
    requires forall i, j :: 0 <= i < |tables| && 0 <= j < |tables[i]| ==> -1.0 <= tables[i][j] <= 1.0
    ensures FirstUnwritable(tables) == |tables|
  {
    var k := FirstUnwritable(tables);
    if k < |tables| {
      UnitRangeWritesAll(tables[k]);
    }
  }

  /** A WAV file as left on disk: where it is, its format, its frame bytes. */
  datatype SavedFile = SavedFile(path: string, params: WavParams, frames: seq<byte>)

  /** The file `save_wavetables` leaves for table `i`. */
  function ExpectedFile(path: string, prefix: string, i: nat, table: seq<real>): SavedFile
  {
    SavedFile(WavetablePath(path, prefix, i), WavHeader, StoredFrames(table))
  }

  /** The files `save_wavetables` leaves for the first `n` tables, in order. */
  function ExpectedFiles(path: string, prefix: string, tables: seq<seq<real>>, n: nat): (fs: seq<SavedFile>)
    requires n <= |tables|
    ensures |fs| == n
  {
    if n == 0 then [] else ExpectedFiles(path, prefix, tables, n - 1) + [ExpectedFile(path, prefix, n - 1, tables[n - 1])]
  }

  /** Entry `i` of the list is table `i`'s file. */
  lemma {:induction false} ExpectedFilesAt(path: string, prefix: string, tables: seq<seq<real>>, n: nat, i: nat)
    requires i < n <= |tables|
    ensures ExpectedFiles(path, prefix, tables, n)[i] == ExpectedFile(path, prefix, i, tables[i])
  {
    if i < n - 1 {
      ExpectedFilesAt(path, prefix, tables, n - 1, i);
    }
  }

  /** The outcome of writing one table: `struct.error` for the first
      sample that does not pack. */
  function TableWrite(table: seq<real>): (r: Result<(), PackError>)
    ensures r.Success? <==> Writable(table)
  {
    if Writable(table) then Success(())
    else Failure(PackError(Quantise(table[WritablePrefix(table)])))
  }

  /** One round of `save_wavetables`: a new `WavFile` at the path of table
      `i`, then `write_samples` of the table; the result is the file as
      written. */
  method SaveTable(path: string, prefix: string, i: nat, table: seq<real>) returns (saved: SavedFile, r: Result<(), PackError>)
    ensures saved == ExpectedFile(path, prefix, i, table)
    ensures r == TableWrite(table)
  {
    var location := JoinPath(path, prefix + Pad2(i) + ".wav");
    var wavFile := new WavFile(location);
    r := wavFile.WriteSamples(table);
    assert [] + StoredFrames(table) == StoredFrames(table);
    if r.Success? {
      assert r.value == ();
    }
    saved := SavedFile(wavFile.path, wavFile.params, wavFile.frames);
  }

  /** The sinks a finished note is handed to. */
  datatype Sink = ToRealtime | ToWav

  /** The sinks present, realtime first. */
  function SinkOrder(hasRealtime: bool, hasWav: bool): (s: seq<Sink>)
    ensures ToRealtime in s <==> hasRealtime
    ensures ToWav in s <==> hasWav
    ensures forall i, j :: 0 <= i < j < |s| ==> s[i] == ToRealtime && s[j] == ToWav
  {
    (if hasRealtime then [ToRealtime] else []) + (if hasWav then [ToWav] else [])
  }

  /** What `note` on table `idx` of the bank produces before its buffer
      reaches the sinks. */
  function Rendition(bank: seq<seq<real>>, idx: nat, midiNote: int, duration: real, h: real,
                     lowpass: (real, seq<real>) -> seq<real>): Result<seq<real>, NoteError>
    requires IsSemitone(h) && IsLengthPreserving(lowpass)
  {
    if idx < |bank| then Play(bank[idx], midiNote, duration, h, lowpass) else Failure(EmptyBank)
  }

  /** The result of `note` once the sinks have been written: a WAV sink that
      cannot pack a sample turns a rendered note into an error. */
  function NoteResult(p: Result<seq<real>, NoteError>, hasWav: bool): Result<seq<real>, NoteError>
  {
    if p.Success? && hasWav && WritablePrefix(p.value) < |p.value|
    then Failure(WavPackFailed(Quantise(p.value[WritablePrefix(p.value)])))
    else p
  }

  class GPSynth {
    const wavetables: seq<seq<real>>
    var tableIdx: nat
    const outRt: RealtimeAudio?
    const outWav: WavFile?
    /** The sinks written to, in order, across all notes. */
    ghost var deliveries: seq<Sink>

    /** The cursor points into the bank (or stays 0 on an empty bank). */
    ghost predicate Valid()
      reads this
    {
      if wavetables == [] then tableIdx == 0 else tableIdx < |wavetables|
    }

    /** The field assignments of `__init__`, given the generated bank. */
    constructor (wavetables: seq<seq<real>>, outRt: RealtimeAudio?, outWav: WavFile?)
      ensures Valid()
      ensures this.wavetables == wavetables && tableIdx == 0
      ensures this.outRt == outRt && this.outWav == outWav && deliveries == []
    {
      this.wavetables := wavetables;
      tableIdx := 0;
      this.outRt := outRt;
      this.outWav := outWav;
      deliveries := [];
    }

    /** `__init__`: generate the bank with `make_wavetables`, whose errors
        propagate, and start the cursor at the first table. */
    static method Create(kernel: Kernel, outRt: RealtimeAudio?, outWav: WavFile?, n: int, waveshaping: bool,
                         continuity: bool, draws: seq<seq<real>>, sin: real -> real,
                         jitchol: CovRequest -> Option<Matrix>, sqrt: real -> real,
                         absFft: seq<real> -> seq<real>)
        returns (r: Result<GPSynth, GenerationError>)
      requires IsSqrt(sqrt) && IsMagnitudeSpectrum(absFft) && IsFactorOracle(jitchol)
      requires DrawsFit(draws, PathLength(waveshaping))
      ensures var g := Generated(kernel, n, waveshaping, continuity, draws, sin, jitchol, sqrt, absFft);
        (r.Failure? <==> g.Failure?) && (r.Failure? ==> r.error == g.error)
      ensures r.Success? ==>
        var s := r.value;
        fresh(s) && s.Valid() && s.tableIdx == 0 && s.deliveries == [] &&
        s.wavetables == Generated(kernel, n, waveshaping, continuity, draws, sin, jitchol, sqrt, absFft).value &&
        s.outRt == outRt && s.outWav == outWav
      ensures r.Success? ==> |r.value.wavetables| == (if n < 0 then 0 else n)
      ensures r.Success? ==> forall j :: 0 <= j < |r.value.wavetables| ==>
        |r.value.wavetables[j]| == PathLength(waveshaping) - 1 && Acceptable(r.value.wavetables[j])
    {
      var bank := MakeWavetables(kernel, n, waveshaping, continuity, draws, sin, jitchol, sqrt, absFft);
      if bank.Failure? {
        return Failure(bank.error);
      }
      var s := new GPSynth(bank.value, outRt, outWav);
      return Success(s);
    }

    /** `note`: render the current table at the note's pitch; on success
        advance the cursor, then write the buffer to the realtime sink and
        then to the WAV sink. Any error before the cursor moves leaves the
        object and the sinks as they were. */
    method Note(midiNote: int, duration: real, h: real, lowpass: (real, seq<real>) -> seq<real>)
        returns (r: Result<seq<real>, NoteError>)
      requires Valid() && IsSemitone(h) && IsLengthPreserving(lowpass)
      modifies this, outRt, outWav
      ensures Valid()
      ensures var p := Rendition(wavetables, old(tableIdx), midiNote, duration, h, lowpass);
        && r == NoteResult(p, outWav != null)
        && tableIdx == (if p.Success? then NextIndex(old(tableIdx), |wavetables|) else old(tableIdx))
        && deliveries == old(deliveries) + (if p.Success? then SinkOrder(outRt != null, outWav != null) else [])
        && (outRt != null ==> outRt.played == old(outRt.played) + (if p.Success? then Frames(RealtimeSamples(p.value)) else []))
        && (outWav != null ==> outWav.frames == old(outWav.frames) + (if p.Success? then StoredFrames(p.value) else []))
    {
      if |wavetables| == 0 {
        return Failure(EmptyBank);
      }
      var wavetable := wavetables[tableIdx];
      var pcm := PlayTable(wavetable, MidiToFrequency(h, midiNote), duration, lowpass);
      if pcm.Failure? {
        return pcm;
      }
      tableIdx := NextIndex(tableIdx, |wavetables|);
      if outRt != null {
        outRt.WriteSamples(pcm.value);
        deliveries := deliveries + [ToRealtime];
      }
      if outWav != null {
        var written := outWav.WriteSamples(pcm.value);
        deliveries := deliveries + [ToWav];
        if written.Failure? {
          return Failure(WavPackFailed(written.error.value));
        }
      }
      return pcm;
    }

    /** `save_wavetables`: one WAV file per table, in bank order, at
        `WavetablePath`; the first table with a sample that does not pack
        stops the loop with that file partly written. */
    method SaveWavetables(path: string, prefix: string) returns (files: seq<SavedFile>, r: Result<(), PackError>)
      ensures var k := FirstUnwritable(wavetables);
        && (r.Success? <==> k == |wavetables|)
        && |files| == (if r.Success? then k else k + 1)
        && (r.Failure? ==> r == TableWrite(wavetables[k]))
      ensures |files| <= |wavetables| && files == ExpectedFiles(path, prefix, wavetables, |files|)
    {
      files := [];
      var i := 0;
      while i < |wavetables|
        invariant i <= FirstUnwritable(wavetables) && |files| == i
        invariant files == ExpectedFiles(path, prefix, wavetables, i)
      {
        var saved, written := SaveTable(path, prefix, i, wavetables[i]);
        files := files + [saved];
        if written.Failure? {
          return files, written;
        }
        i := i + 1;
      }
      return files, Success(());
    }
  }

  /** A generated bank, whose samples all lie inside (-0.9, 0.9), saves
      every table completely. */
  lemma GeneratedBankSaves(tables: seq<seq<real>>)
    requires forall j :: 0 <= j < |tables| ==> Acceptable(tables[j])
    ensures FirstUnwritable(tables) == |tables|
  {
    UnitRangeBankSaves(tables);
  }
}
