/** The sequential part of `make_cov_cholesky` and
    `make_cov_cholesky_waveshaping`: which positions the Gaussian process is
    evaluated at, and which observations it is conditioned on. Evaluating
    the kernel, the regression and the jittered Cholesky factorisation are
    GPy's; the model hands GPy a `CovRequest` and receives the factor. */
module Covariance {
  import opened Wrappers
  import opened Kernels

  /** `44100 / 20`: samples in one cycle of a 20 Hz wave at 44.1 kHz. */
  const SamplesPerCycle: nat := 2205

  /** Angle of sample `i` in a cycle of `SamplesPerCycle` samples. */
  function Angle(i: int): real
  {
    i as real * 2.0 * Pi / SamplesPerCycle as real
  }

  /** `np.arange(samples + 1) * 2. * np.pi / samples`: the cycle including
      both of its end points. */
  function WavetablePositions(): (xs: seq<real>)
    ensures |xs| == SamplesPerCycle + 1
    ensures xs[0] == 0.0 && xs[SamplesPerCycle] == TwoPi
    ensures forall i :: 0 <= i < SamplesPerCycle ==> xs[i + 1] - xs[i] == TwoPi / SamplesPerCycle as real
  {
    seq(SamplesPerCycle + 1, i => Angle(i))
  }

  /** `np.sin(np.arange(samples) * 2. * np.pi / samples)`: the cycle without
      its end point, warped through the sine. */
  function WaveshapingPositions(sin: real -> real): (xs: seq<real>)
    ensures |xs| == SamplesPerCycle
    ensures forall i :: 0 <= i < SamplesPerCycle ==> xs[i] == sin(Angle(i))
  {
    seq(SamplesPerCycle, i => sin(Angle(i)))
  }

  /** An observation `(x, y)` the process is conditioned on. */
  datatype Anchor = Anchor(x: real, y: real)

  /** What the model asks GPy for: the prior covariance `kernel.K(xs, xs)`,
      or the noiseless posterior covariance given some observations. */
  datatype CovRequest =
    | Prior(kernel: Kernel, positions: seq<real>)
    | Posterior(kernel: Kernel, positions: seq<real>, anchors: seq<Anchor>)

  /** The observations `make_cov_cholesky` regresses on. */
  function Anchors(kernel: Kernel, continuity: bool, xs: seq<real>): (a: seq<Anchor>)
    requires |xs| > 0
    ensures |a| == 1 <==> IsPeriodicSubclass(kernel) || !continuity
    ensures |a| == 2 <==> !IsPeriodicSubclass(kernel) && continuity
    ensures a[0] == Anchor(xs[0], 0.0)
    ensures |a| == 2 ==> a[1] == Anchor(xs[|xs| - 1], 0.0)
  {
    if IsPeriodicSubclass(kernel) || !continuity then [Anchor(xs[0], 0.0)]
    else [Anchor(xs[0], 0.0), Anchor(xs[|xs| - 1], 0.0)]
  }

  /** The covariance request of one generation call. `continuity` is the
      configuration flag `good_continuation_regression`. */
  function CovarianceRequest(kernel: Kernel, waveshaping: bool, continuity: bool, sin: real -> real): (q: CovRequest)
    ensures q.kernel == kernel
    ensures waveshaping <==> q.Prior?
    ensures |q.positions| == if waveshaping then SamplesPerCycle else SamplesPerCycle + 1
  {
    if waveshaping then Prior(kernel, WaveshapingPositions(sin))
    else
      var xs := WavetablePositions();
      Posterior(kernel, xs, Anchors(kernel, continuity, xs))
  }

  /** Number of samples a generated path has, before the last is dropped. */
  function PathLength(waveshaping: bool): nat
  {
    if waveshaping then SamplesPerCycle else SamplesPerCycle + 1
  }

  /** In wavetable mode every observation is a zero at an end of the cycle:
      at angle 0 always, and at angle 2 pi as well exactly when the kernel is
      not a `Periodic` subclass and continuity is enforced. */
  lemma {:induction false} WavetableAnchorsAreSeamZeros(kernel: Kernel, continuity: bool, sin: real -> real)
    ensures CovarianceRequest(kernel, false, continuity, sin).Posterior?
    ensures CovarianceRequest(kernel, false, continuity, sin).anchors ==
      if IsPeriodicSubclass(kernel) || !continuity then [Anchor(0.0, 0.0)]
      else [Anchor(0.0, 0.0), Anchor(TwoPi, 0.0)]
  {
    var xs := WavetablePositions();
    assert xs[|xs| - 1] == TwoPi;
  }

  /** A periodic kernel built by name is never conditioned at the far end,
      whatever the continuity flag says; `StdPeriodic`, which is not a
      `Periodic` subclass, is. */
  lemma PeriodicPrecedence(name: string, lengthscale: real, continuity: bool, sin: real -> real)
    requires KernelForString(name, lengthscale).Success?
    ensures var q := CovarianceRequest(KernelForString(name, lengthscale).value, false, continuity, sin);
      |q.anchors| == if continuity && name !in ["PeriodicExponential", "PeriodicMatern32", "PeriodicMatern52"] then 2 else 1
  {
  }

  /** A sum of two periodic kernels is no longer a `Periodic` instance, so
      with continuity enforced it is conditioned at both ends. */
  lemma SumOfPeriodicIsAnchoredTwice(k1: Kernel, k2: Kernel, sin: real -> real)
    ensures |CovarianceRequest(Add(k1, k2), false, true, sin).anchors| == 2
  {
  }
}
