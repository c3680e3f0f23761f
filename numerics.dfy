/** Python's numeric conversions and the properties the model assumes of the
    numerical routines it does not model (numpy, scipy, GPy). Each such
    routine is passed to the model as a function-typed parameter; the
    predicates below state what callers may rely on. */
module Numerics {

  /** The sample rate of every table, note and file, in Hz. */
  const SampleRate: real := 44100.0

  /** Python's `int(x)` on a float: truncation toward zero. */
  function Trunc(x: real): (n: int)
    ensures x >= 0.0 ==> n as real <= x < n as real + 1.0
    ensures x < 0.0 ==> n as real - 1.0 < x <= n as real
  {
    if x >= 0.0 then x.Floor else -((-x).Floor)
  }

  /** The square root `np.sqrt` on non-negative arguments. */
  ghost predicate IsSqrt(sqrt: real -> real)
  {
    forall x: real {:trigger sqrt(x)} :: 0.0 <= x ==> 0.0 <= sqrt(x) && sqrt(x) * sqrt(x) == x
  }

  /** `np.abs(np.fft.fft(x))`: one non-negative magnitude per input sample. */
  ghost predicate IsMagnitudeSpectrum(absFft: seq<real> -> seq<real>)
  {
    forall x {:trigger absFft(x)} :: |absFft(x)| == |x| && forall k :: 0 <= k < |x| ==> absFft(x)[k] >= 0.0
  }

  /** `x * c`, elementwise. */
  function Scale(x: seq<real>, c: real): (y: seq<real>)
    ensures |y| == |x|
  {
    seq(|x|, i requires 0 <= i < |x| => x[i] * c)
  }

  /** The magnitude spectrum scales with the signal: multiplying every
      sample by a positive constant multiplies every magnitude by it, as
      `|fft(c * x)| == c * |fft(x)|` for `c > 0`. */
  ghost predicate IsHomogeneous(absFft: seq<real> -> seq<real>)
  {
    forall x, c {:trigger absFft(Scale(x, c))} :: c > 0.0 ==> absFft(Scale(x, c)) == Scale(absFft(x), c)
  }

  /** `filtfilt(*butter(5, cutoff), x)`: a zero-phase filter keeps the length. */
  ghost predicate IsLengthPreserving(lowpass: (real, seq<real>) -> seq<real>)
  {
    forall cutoff, x {:trigger lowpass(cutoff, x)} :: |lowpass(cutoff, x)| == |x|
  }

  /** Sum of a sequence, accumulated from the front as a Python loop does. */
  function Sum(s: seq<real>): real
  {
    if s == [] then 0.0 else Sum(s[..|s| - 1]) + s[|s| - 1]
  }

  lemma {:induction false} SumAppend(s: seq<real>, t: seq<real>)
    ensures Sum(s + t) == Sum(s) + Sum(t)
    decreases |t|
  {
    if t == [] {
      assert s + t == s;
    } else {
      var u := t[..|t| - 1];
      assert (s + t)[..|s + t| - 1] == s + u;
      SumAppend(s, u);
    }
  }
}
