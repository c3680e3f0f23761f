/** `perceptual_amplitude_dbb` and `weighted_loudness`: the perceived
    loudness of a wavetable as the dB(B)-weighted sum of its magnitude
    spectrum over the positive frequencies. The magnitudes
    (`np.abs(np.fft.fft(x))`) and the square root are parameters; the bin
    frequencies (`np.fft.fftfreq`) and their sort order (`np.argsort`) are
    computed exactly. */
module Loudness {
  import opened Numerics

  /** The weighting curve exactly as `perceptual_amplitude_dbb` computes it. */
  function Weight(frequency: real, sqrt: real -> real): (w: real)
    requires IsSqrt(sqrt)
  {
    12200.0 * 12200.0 * (frequency * frequency * frequency) / Denominator(frequency * frequency, 20.6, sqrt)
  }

  /** `(f^2 + c) * (f^2 + 12200^2) * sqrt(f^2 + 158.5^2)` for `f2 = f^2`. */
  function Denominator(f2: real, c: real, sqrt: real -> real): (d: real)
    requires IsSqrt(sqrt) && f2 >= 0.0 && c > 0.0
    ensures d > 0.0
  {
    SqrtOfPositive(sqrt, f2 + 158.5 * 158.5);
    DenominatorPositive(f2 + c, f2 + 12200.0 * 12200.0, sqrt(f2 + 158.5 * 158.5));
    (f2 + c) * (f2 + 12200.0 * 12200.0) * sqrt(f2 + 158.5 * 158.5)
  }

  /** The weight has the sign of the frequency, and vanishes at 0 Hz. */
  lemma WeightSign(frequency: real, sqrt: real -> real)
    requires IsSqrt(sqrt)
    ensures frequency > 0.0 ==> Weight(frequency, sqrt) > 0.0
    ensures frequency == 0.0 ==> Weight(frequency, sqrt) == 0.0
    ensures frequency < 0.0 ==> Weight(frequency, sqrt) < 0.0
  {
    SignedQuotient(frequency, Denominator(frequency * frequency, 20.6, sqrt));
  }

  /** The numerator `12200^2 * f^3` over a positive denominator has the sign of f. */
  lemma SignedQuotient(x: real, den: real)
    requires den > 0.0
    ensures x > 0.0 ==> 12200.0 * 12200.0 * (x * x * x) / den > 0.0
    ensures x == 0.0 ==> 12200.0 * 12200.0 * (x * x * x) / den == 0.0
    ensures x < 0.0 ==> 12200.0 * 12200.0 * (x * x * x) / den < 0.0
  {
    var num := 12200.0 * 12200.0 * (x * x * x);
    if x != 0.0 {
      assert x * x > 0.0;
      assert x > 0.0 ==> x * x * x > 0.0;
      assert x < 0.0 ==> x * x * x < 0.0;
    }
    QuotientSign(num, den);
  }

  lemma SqrtOfPositive(sqrt: real -> real, x: real)
    requires IsSqrt(sqrt) && x > 0.0
    ensures sqrt(x) > 0.0
  {
    assert 0.0 <= sqrt(x) && sqrt(x) * sqrt(x) == x;
  }

  lemma DenominatorPositive(a: real, b: real, c: real)
    requires a > 0.0 && b > 0.0 && c > 0.0
    ensures a * b * c > 0.0
  {
    assert a * b > 0.0;
  }

  lemma QuotientSign(num: real, den: real)
    requires den > 0.0
    ensures num > 0.0 ==> num / den > 0.0
    ensures num == 0.0 ==> num / den == 0.0
    ensures num < 0.0 ==> num / den < 0.0
  {
  }

  /** A larger constant in the first factor gives a larger denominator, so
      the code's `f^2 + 20.6` weighs every positive frequency more than the
      published dB(B) curve's `f^2 + 20.6^2` would. */
  lemma DenominatorIncreasing(f2: real, c1: real, c2: real, sqrt: real -> real)
    requires IsSqrt(sqrt) && f2 >= 0.0 && 0.0 < c1 < c2
    ensures Denominator(f2, c1, sqrt) < Denominator(f2, c2, sqrt)
  {
    var big := f2 + 12200.0 * 12200.0;
    var root := sqrt(f2 + 158.5 * 158.5);
    SqrtOfPositive(sqrt, f2 + 158.5 * 158.5);
    assert Denominator(f2, c1, sqrt) == (f2 + c1) * big * root;
    assert Denominator(f2, c2, sqrt) == (f2 + c2) * big * root;
    ScaledByPositive(f2 + c1, f2 + c2, big, root);
  }

  lemma ScaledByPositive(a: real, b: real, c: real, d: real)
    requires 0.0 < a < b && c > 0.0 && d > 0.0
    ensures a * c * d < b * c * d
  {
    assert a * c < b * c;
  }

  /** `np.fft.fftfreq(n, 1 / 44100)`: bin `i` is at `i * 44100 / n` Hz for
      the first `ceil(n / 2)` bins and at `(i - n) * 44100 / n` Hz after.
      numpy divides by `n`, so `n` is positive. */
  function FftFreq(n: nat): (freqs: seq<real>)
    requires n > 0
    ensures |freqs| == n
  {
    FftFreqPrefix(n, n)
  }

  /** The first `k` bin frequencies of an `n`-point transform. */
  function FftFreqPrefix(n: nat, k: nat): (freqs: seq<real>)
    requires 0 < n && k <= n
    ensures |freqs| == k
  {
    if k == 0 then []
    else
      var i := k - 1;
      FftFreqPrefix(n, i) + [if i < (n + 1) / 2 then i as real * SampleRate / n as real
                             else (i - n) as real * SampleRate / n as real]
  }

  lemma {:induction false} FftFreqAt(n: nat, i: nat)
    requires i < n
    ensures FftFreq(n)[i] == SignedBin(n, i) as real * (SampleRate / n as real)
  {
    FftFreqPrefixAt(n, n, i);
  }

  lemma {:induction false} FftFreqPrefixAt(n: nat, k: nat, i: nat)
    requires i < k <= n
    ensures FftFreqPrefix(n, k)[i] == SignedBin(n, i) as real * (SampleRate / n as real)
    decreases k
  {
    if i < k - 1 {
      FftFreqPrefixAt(n, k - 1, i);
    }
  }

  /** The bin number fftfreq scales: `i` in the first half, `i - n` after. */
  function SignedBin(n: nat, i: nat): int
  {
    if i < (n + 1) / 2 then i else i - n
  }

  /** `np.argsort(fftfreq(n))`: the negative bins first, then 0 and the
      positive bins. */
  function ArgsortOrder(n: nat): (order: seq<nat>)
    ensures |order| == n
    ensures forall j :: 0 <= j < n ==> order[j] < n && SignedBin(n, order[j]) == j - n / 2
  {
    seq(n, j => if j < n / 2 then (n + 1) / 2 + j else j - n / 2)
  }

  /** Exactly the bins `1 .. ceil(n / 2) - 1` have a positive frequency;
      bin 0 is the DC bin at 0 Hz. */
  lemma PositiveBins(n: nat, i: nat)
    requires i < n
    ensures FftFreq(n)[i] > 0.0 <==> 1 <= i < (n + 1) / 2
    ensures i == 0 ==> FftFreq(n)[i] == 0.0
  {
    var step := SampleRate / n as real;
    assert step > 0.0;
    FftFreqAt(n, i);
    SignScales(SignedBin(n, i), step);
  }

  lemma SignScales(k: int, step: real)
    requires step > 0.0
    ensures k > 0 <==> k as real * step > 0.0
    ensures k == 0 ==> k as real * step == 0.0
  {
  }

  /** The argsort order is a permutation of the bins that lists their
      frequencies in strictly increasing order. */
  lemma ArgsortSorts(n: nat)
    requires n > 0
    ensures forall i :: 0 <= i < n ==> ArgsortOrder(n)[ArgsortPosition(n, i)] == i
    ensures forall j :: 0 <= j < n - 1 ==> FftFreq(n)[ArgsortOrder(n)[j]] < FftFreq(n)[ArgsortOrder(n)[j + 1]]
  {
    var order, freqs := ArgsortOrder(n), FftFreq(n);
    var step := SampleRate / n as real;
    assert step > 0.0;
    forall j | 0 <= j < n - 1
      ensures freqs[order[j]] < freqs[order[j + 1]]
    {
      FftFreqAt(n, order[j]);
      FftFreqAt(n, order[j + 1]);
      Increasing((j - n / 2) as real, (j + 1 - n / 2) as real, step);
    }
  }

  lemma Increasing(a: real, b: real, step: real)
    requires a < b && step > 0.0
    ensures a * step < b * step
  {
  }

  /** Where bin `i` stands in the argsort order. */
  function ArgsortPosition(n: nat, i: nat): nat
    requires i < n
  {
    if i < (n + 1) / 2 then i + n / 2 else i - (n + 1) / 2
  }

  predicate IndicesBelow(order: seq<nat>, n: nat)
  {
    forall j :: 0 <= j < |order| ==> order[j] < n
  }

  /** The contribution of bin `i`: weighted magnitude if its frequency is
      positive, nothing otherwise. */
  function BinTerm(i: nat, mags: seq<real>, freqs: seq<real>, multFreq: real, sqrt: real -> real): real
    requires IsSqrt(sqrt) && i < |mags| == |freqs|
  {
    if freqs[i] > 0.0 then Contribution(freqs[i], mags[i], multFreq, sqrt) else 0.0
  }

  /** The weighted magnitude of one bin: the dB(B)-curve weight at the scaled frequency times the magnitude. */
  function Contribution(freq: real, mag: real, multFreq: real, sqrt: real -> real): real
    requires IsSqrt(sqrt)
  {
    Weight(freq * multFreq, sqrt) * mag
  }

  /** The weighted sum over the bins in the order given. */
  function WeightedSum(order: seq<nat>, mags: seq<real>, freqs: seq<real>, multFreq: real, sqrt: real -> real): real
    requires IsSqrt(sqrt) && |mags| == |freqs| && IndicesBelow(order, |freqs|)
  {
    if order == [] then 0.0
    else WeightedSum(order[..|order| - 1], mags, freqs, multFreq, sqrt) + BinTerm(order[|order| - 1], mags, freqs, multFreq, sqrt)
  }

  /** `weighted_loudness(wavetable, mult_freq)` as a value. */
  function Loudness(wavetable: seq<real>, multFreq: real, sqrt: real -> real, absFft: seq<real> -> seq<real>): (l: real)
    requires IsSqrt(sqrt) && IsMagnitudeSpectrum(absFft) && |wavetable| > 0
    ensures multFreq >= 0.0 ==> l >= 0.0
  {
    var n := |wavetable|;
    if multFreq >= 0.0 then
      WeightedSumNonNegative(ArgsortOrder(n), absFft(wavetable), FftFreq(n), multFreq, sqrt);
      WeightedSum(ArgsortOrder(n), absFft(wavetable), FftFreq(n), multFreq, sqrt)
    else WeightedSum(ArgsortOrder(n), absFft(wavetable), FftFreq(n), multFreq, sqrt)
  }

  /** Loudness is linear in the signal's amplitude: a wavetable scaled by a
      positive constant is that many times as loud. */
  lemma LoudnessScaled(wavetable: seq<real>, c: real, multFreq: real, sqrt: real -> real, absFft: seq<real> -> seq<real>)
    requires IsSqrt(sqrt) && IsMagnitudeSpectrum(absFft) && IsHomogeneous(absFft)
    requires |wavetable| > 0 && c > 0.0
    ensures Loudness(Scale(wavetable, c), multFreq, sqrt, absFft) == c * Loudness(wavetable, multFreq, sqrt, absFft)
  {
    var n := |wavetable|;
    assert absFft(Scale(wavetable, c)) == Scale(absFft(wavetable), c);
    WeightedSumScaled(ArgsortOrder(n), absFft(wavetable), FftFreq(n), multFreq, sqrt, c);
  }

  /** The weighted sum is linear in the magnitudes. */
  lemma {:induction false} WeightedSumScaled(order: seq<nat>, mags: seq<real>, freqs: seq<real>, multFreq: real, sqrt: real -> real, c: real)
    requires IsSqrt(sqrt) && |mags| == |freqs| && IndicesBelow(order, |freqs|)
    ensures WeightedSum(order, Scale(mags, c), freqs, multFreq, sqrt) == c * WeightedSum(order, mags, freqs, multFreq, sqrt)
    decreases |order|
  {
    if order != [] {
      var init := order[..|order| - 1];
      var i := order[|order| - 1];
      WeightedSumScaled(init, mags, freqs, multFreq, sqrt, c);
      if freqs[i] > 0.0 {
        Regroup(Weight(freqs[i] * multFreq, sqrt), mags[i], c);
      }
      FactorOut(WeightedSum(init, mags, freqs, multFreq, sqrt), BinTerm(i, mags, freqs, multFreq, sqrt), c);
    }
  }

  lemma Regroup(w: real, m: real, c: real)
    ensures w * (m * c) == c * (w * m)
  {
  }

  lemma FactorOut(a: real, b: real, c: real)
    ensures c * a + c * b == c * (a + b)
  {
  }

  /** `weighted_loudness`: the loop over the argsorted bins. */
  method WeightedLoudness(wavetable: seq<real>, multFreq: real, sqrt: real -> real, absFft: seq<real> -> seq<real>)
      returns (weightedSum: real)
    requires IsSqrt(sqrt) && IsMagnitudeSpectrum(absFft) && |wavetable| > 0
    ensures weightedSum == Loudness(wavetable, multFreq, sqrt, absFft)
    ensures multFreq >= 0.0 ==> weightedSum >= 0.0
  {
    var ps := absFft(wavetable);
    var freqs := FftFreq(|wavetable|);
    var idx := ArgsortOrder(|wavetable|);
    weightedSum := 0.0;
    for k := 0 to |idx|
      invariant weightedSum == WeightedSum(idx[..k], ps, freqs, multFreq, sqrt)
    {
      var i := idx[k];
      var freq := freqs[i];
      WeightedSumStep(idx, k, ps, freqs, multFreq, sqrt);
      if freq > 0.0 {
        weightedSum := weightedSum + Contribution(freq, ps[i], multFreq, sqrt);
      }
    }
    assert idx[..|idx|] == idx;
  }

  /** One more bin in the loop adds that bin's term. */
  lemma WeightedSumStep(order: seq<nat>, k: nat, mags: seq<real>, freqs: seq<real>, multFreq: real, sqrt: real -> real)
    requires IsSqrt(sqrt) && |mags| == |freqs| && IndicesBelow(order, |freqs|) && k < |order|
    ensures WeightedSum(order[..k + 1], mags, freqs, multFreq, sqrt) ==
      WeightedSum(order[..k], mags, freqs, multFreq, sqrt) + BinTerm(order[k], mags, freqs, multFreq, sqrt)
  {
    assert order[..k + 1][..k] == order[..k];
  }

  /** With a non-negative frequency multiplier every term is a non-negative
      weight times a non-negative magnitude. */
  lemma {:induction false} WeightedSumNonNegative(order: seq<nat>, mags: seq<real>, freqs: seq<real>, multFreq: real, sqrt: real -> real)
    requires IsSqrt(sqrt) && |mags| == |freqs| && IndicesBelow(order, |freqs|)
    requires multFreq >= 0.0
    requires forall i :: 0 <= i < |mags| ==> mags[i] >= 0.0
    ensures WeightedSum(order, mags, freqs, multFreq, sqrt) >= 0.0
    decreases |order|
  {
    if order != [] {
      WeightedSumNonNegative(order[..|order| - 1], mags, freqs, multFreq, sqrt);
      var i := order[|order| - 1];
      if freqs[i] > 0.0 {
        NonNegativeProduct(freqs[i], multFreq);
        WeightSign(freqs[i] * multFreq, sqrt);
        NonNegativeProduct(Weight(freqs[i] * multFreq, sqrt), mags[i]);
      }
    }
  }

  lemma NonNegativeProduct(a: real, b: real)
    requires a >= 0.0 && b >= 0.0
    ensures a * b >= 0.0
  {
  }

  /** Bins at zero or negative frequency never contribute: two spectra that
      agree on the positive bins have the same weighted sum. */
  lemma {:induction false} OnlyPositiveBinsCount(order: seq<nat>, mags: seq<real>, other: seq<real>, freqs: seq<real>,
                                                  multFreq: real, sqrt: real -> real)
    requires IsSqrt(sqrt) && |mags| == |other| == |freqs| && IndicesBelow(order, |freqs|)
    requires forall i :: 0 <= i < |freqs| && freqs[i] > 0.0 ==> mags[i] == other[i]
    ensures WeightedSum(order, mags, freqs, multFreq, sqrt) == WeightedSum(order, other, freqs, multFreq, sqrt)
    decreases |order|
  {
    if order != [] {
      OnlyPositiveBinsCount(order[..|order| - 1], mags, other, freqs, multFreq, sqrt);
    }
  }

  lemma {:induction false} WeightedSumAppend(a: seq<nat>, b: seq<nat>, mags: seq<real>, freqs: seq<real>, multFreq: real, sqrt: real -> real)
    requires IsSqrt(sqrt) && |mags| == |freqs| && IndicesBelow(a, |freqs|) && IndicesBelow(b, |freqs|)
    ensures IndicesBelow(a + b, |freqs|)
    ensures WeightedSum(a + b, mags, freqs, multFreq, sqrt)
         == WeightedSum(a, mags, freqs, multFreq, sqrt) + WeightedSum(b, mags, freqs, multFreq, sqrt)
    decreases |b|
  {
    if b == [] {
      assert a + b == a;
    } else {
      var c := b[..|b| - 1];
      assert (a + b)[..|a + b| - 1] == a + c;
      WeightedSumAppend(a, c, mags, freqs, multFreq, sqrt);
    }
  }

  /** `[lo, lo + 1, ..., hi - 1]`. */
  function Range(lo: nat, hi: nat): (r: seq<nat>)
    requires lo <= hi
    ensures |r| == hi - lo && forall j :: 0 <= j < |r| ==> r[j] == lo + j
  {
    seq(hi - lo, j => lo + j)
  }

  /** The argsort in the loop only reorders the terms: the loudness is the
      sum over the bins in index order. */
  lemma SortOrderIrrelevant(wavetable: seq<real>, multFreq: real, sqrt: real -> real, absFft: seq<real> -> seq<real>)
    requires IsSqrt(sqrt) && IsMagnitudeSpectrum(absFft) && |wavetable| > 0
    ensures Loudness(wavetable, multFreq, sqrt, absFft)
         == WeightedSum(Range(0, |wavetable|), absFft(wavetable), FftFreq(|wavetable|), multFreq, sqrt)
  {
    var n := |wavetable|;
    var m := (n + 1) / 2;
    var mags, freqs := absFft(wavetable), FftFreq(n);
    assert ArgsortOrder(n) == Range(m, n) + Range(0, m);
    assert Range(0, n) == Range(0, m) + Range(m, n);
    WeightedSumAppend(Range(m, n), Range(0, m), mags, freqs, multFreq, sqrt);
    WeightedSumAppend(Range(0, m), Range(m, n), mags, freqs, multFreq, sqrt);
  }
}
