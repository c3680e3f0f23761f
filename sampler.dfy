/** `fast_normal_from_cholesky` and `make_wavetables`: drawing Gaussian-process
    paths from a Cholesky factor, normalising them to a fixed perceived
    loudness and keeping only those that stay below 0.9 in magnitude.

    The random source is a finite sequence of standard-normal vectors; the
    sampler consumes them in order, one per attempt. */
module Sampler {
  import opened Wrappers
  import opened Numerics
  import opened Kernels
  import opened Covariance
  import opened Loudness

  type Matrix = seq<seq<real>>

  /** `good_loudness`: the perceived loudness every accepted path is scaled to. */
  const TargetLoudness: real := 300.0
  /** `mult_freq` of the loudness measurement: a 2205-sample cycle is heard at 263 Hz, 263/20 times 20 Hz. */
  const TargetMultiplier: real := 263.0 / 20.0
  /** `result / np.std(result) / 10.0`. */
  const StdDivisor: real := 10.0
  /** Paths whose largest magnitude reaches this bound are drawn again. */
  const AcceptBound: real := 0.9

  /** Why `make_wavetables` produced no bank. */
  datatype GenerationError =
    | FactorizationFailed   // GPy's `jitchol` gave up: the covariance stayed singular after all jitter
    | SamplingExhausted     // the normal draws ran out before enough paths were accepted

  /** An `n` by `n` matrix. */
  predicate IsSquare(m: Matrix, n: nat)
  {
    |m| == n && forall i :: 0 <= i < n ==> |m[i]| == n
  }

  /** `GPy.util.linalg.jitchol` applied to the covariance GPy computes for a
      request: when it succeeds, the factor has one row and one column per
      position. */
  ghost predicate IsFactorOracle(jitchol: CovRequest -> Option<Matrix>)
  {
    forall q {:trigger jitchol(q)} :: jitchol(q).Some? ==> IsSquare(jitchol(q).value, |q.positions|)
  }

  /** Every draw of `np.random.normal(0, 1, (1, n))` has `n` entries. */
  predicate DrawsFit(draws: seq<seq<real>>, n: nat)
  {
    forall k :: 0 <= k < |draws| ==> |draws[k]| == n
  }

  function Dot(a: seq<real>, b: seq<real>): real
    requires |a| == |b|
  {
    if a == [] then 0.0 else Dot(a[..|a| - 1], b[..|b| - 1]) + a[|a| - 1] * b[|b| - 1]
  }

  /** The `einsum('nij,njk->nik', ...)` product of the factor with one draw. */
  function MatVec(m: Matrix, z: seq<real>): (y: seq<real>)
    requires forall i :: 0 <= i < |m| ==> |m[i]| == |z|
    ensures |y| == |m|
  {
    seq(|m|, i requires 0 <= i < |m| => Dot(m[i], z))
  }

  /** `np.mean`. */
  function Mean(x: seq<real>): real
    requires |x| > 0
  {
    Sum(x) / |x| as real
  }

  /** `x - c`, elementwise. */
  function Shift(x: seq<real>, c: real): (y: seq<real>)
    ensures |y| == |x|
  {
    seq(|x|, i requires 0 <= i < |x| => x[i] - c)
  }

  /** `x / d`, elementwise. */
  function DivideBy(x: seq<real>, d: real): (y: seq<real>)
    requires d != 0.0
    ensures |y| == |x|
  {
    seq(|x|, i requires 0 <= i < |x| => x[i] / d)
  }

  /** The sum of the squared deviations of `x` from `c`. */
  function SquaredDeviation(x: seq<real>, c: real): real
  {
    if x == [] then 0.0
    else SquaredDeviation(x[..|x| - 1], c) + (x[|x| - 1] - c) * (x[|x| - 1] - c)
  }

  /** `np.std`: the root of the mean squared deviation from the mean. */
  function Std(x: seq<real>, sqrt: real -> real): (s: real)
    requires IsSqrt(sqrt) && |x| > 0
    ensures s >= 0.0
  {
    SquaredDeviationNonNegative(x, Mean(x));
    sqrt(SquaredDeviation(x, Mean(x)) / |x| as real)
  }

  lemma {:induction false} SquaredDeviationNonNegative(x: seq<real>, c: real)
    ensures SquaredDeviation(x, c) >= 0.0
  {
    if x != [] {
      SquaredDeviationNonNegative(x[..|x| - 1], c);
      SquareNonNegative(x[|x| - 1] - c);
    }
  }

  lemma SquareNonNegative(a: real)
    ensures a * a >= 0.0
  {
    if a < 0.0 {
      assert (-a) * (-a) > 0.0;
    }
  }

  /** `np.max(np.abs(result)) < 0.9`. */
  predicate Acceptable(v: seq<real>)
  {
    forall i :: 0 <= i < |v| ==> -AcceptBound < v[i] < AcceptBound
  }

  /** One attempt of the sampler on the correlated draw `y`: centre it,
      divide by ten standard deviations, then scale it to the target
      loudness. A zero deviation or a zero loudness makes numpy divide by
      zero; the resulting NaN or infinite entries fail the acceptance test,
      so those attempts yield `None`. */
  function Normalise(y: seq<real>, sqrt: real -> real, absFft: seq<real> -> seq<real>): (r: Option<seq<real>>)
    requires IsSqrt(sqrt) && IsMagnitudeSpectrum(absFft) && |y| > 0
    ensures r.Some? ==> |r.value| == |y|
  {
    var centred := Shift(y, Mean(y));
    var std := Std(centred, sqrt);
    if std == 0.0 then None
    else
      var scaled := DivideBy(DivideBy(centred, std), StdDivisor);
      var loudness := Loudness.Loudness(scaled, TargetMultiplier, sqrt, absFft);
      if loudness == 0.0 then None
      else Some(Scale(DivideBy(scaled, loudness), TargetLoudness))
  }

  /** The candidate path the draw `z` gives under the factor `chol`. */
  function Candidate(chol: Matrix, z: seq<real>, sqrt: real -> real, absFft: seq<real> -> seq<real>): (r: Option<seq<real>>)
    requires IsSqrt(sqrt) && IsMagnitudeSpectrum(absFft)
    requires |chol| > 0 && IsSquare(chol, |chol|) && |z| == |chol|
    ensures r.Some? ==> |r.value| == |chol|
  {
    Normalise(MatVec(chol, z), sqrt, absFft)
  }

  /** The candidates of all draws, in draw order. */
  function Candidates(chol: Matrix, draws: seq<seq<real>>, sqrt: real -> real, absFft: seq<real> -> seq<real>): (cs: seq<Option<seq<real>>>)
    requires IsSqrt(sqrt) && IsMagnitudeSpectrum(absFft)
    requires |chol| > 0 && IsSquare(chol, |chol|) && DrawsFit(draws, |chol|)
    ensures |cs| == |draws| && OfLength(cs, |chol|)
    decreases |draws|
  {
    if draws == [] then []
    else Candidates(chol, draws[..|draws| - 1], sqrt, absFft) + [Candidate(chol, draws[|draws| - 1], sqrt, absFft)]
  }

  lemma {:induction false} CandidatesAt(chol: Matrix, draws: seq<seq<real>>, k: nat, sqrt: real -> real, absFft: seq<real> -> seq<real>)
    requires IsSqrt(sqrt) && IsMagnitudeSpectrum(absFft)
    requires |chol| > 0 && IsSquare(chol, |chol|) && DrawsFit(draws, |chol|) && k < |draws|
    ensures Candidates(chol, draws, sqrt, absFft)[k] == Candidate(chol, draws[k], sqrt, absFft)
    decreases |draws|
  {
    if k < |draws| - 1 {
      CandidatesAt(chol, draws[..|draws| - 1], k, sqrt, absFft);
    }
  }

  /** Every candidate that exists has `n` samples. */
  predicate OfLength(cands: seq<Option<seq<real>>>, n: nat)
  {
    forall k :: 0 <= k < |cands| && cands[k].Some? ==> |cands[k].value| == n
  }

  /** The sampler's exit condition on attempt `k`. */
  predicate AcceptedAt(cands: seq<Option<seq<real>>>, k: nat)
    requires k < |cands|
  {
    cands[k].Some? && Acceptable(cands[k].value)
  }

  /** The index of the first accepted attempt at or after `start`, if any. */
  function FirstAccepted(cands: seq<Option<seq<real>>>, start: nat): (k: Option<nat>)
    requires start <= |cands|
    ensures k.Some? ==> start <= k.value < |cands| && AcceptedAt(cands, k.value)
    ensures k.Some? ==> forall j :: start <= j < k.value ==> !AcceptedAt(cands, j)
    ensures k.None? ==> forall j :: start <= j < |cands| ==> !AcceptedAt(cands, j)
    decreases |cands| - start
  {
    if start == |cands| then None
    else if AcceptedAt(cands, start) then Some(start)
    else FirstAccepted(cands, start + 1)
  }

  /** `fast_normal_from_cholesky`: tries the draws from `start` on, in order,
      and returns the first candidate that passes the acceptance test,
      together with the index of the draw it came from. */
  method FastNormal(chol: Matrix, draws: seq<seq<real>>, start: nat, sqrt: real -> real, absFft: seq<real> -> seq<real>)
      returns (r: Option<seq<real>>, used: nat)
    requires IsSqrt(sqrt) && IsMagnitudeSpectrum(absFft)
    requires |chol| > 0 && IsSquare(chol, |chol|) && DrawsFit(draws, |chol|) && start <= |draws|
    ensures var cands := Candidates(chol, draws, sqrt, absFft);
      (r.Some? <==> FirstAccepted(cands, start).Some?) &&
      (r.Some? ==> FirstAccepted(cands, start) == Some(used) && r == cands[used])
    ensures r.Some? ==> |r.value| == |chol| && Acceptable(r.value)
    ensures r.Some? && IsHomogeneous(absFft) ==> Loudness.Loudness(r.value, TargetMultiplier, sqrt, absFft) == TargetLoudness
  {
    ghost var cands := Candidates(chol, draws, sqrt, absFft);
    used := start;
    while used < |draws|
      invariant start <= used <= |draws|
      invariant FirstAccepted(cands, start) == FirstAccepted(cands, used)
      decreases |draws| - used
    {
      CandidatesAt(chol, draws, used, sqrt, absFft);
      var result := MatVec(chol, draws[used]);
      result := Shift(result, Mean(result));
      var std := Std(result, sqrt);
      if std != 0.0 {
        result := DivideBy(DivideBy(result, std), StdDivisor);
        var actualLoudness := WeightedLoudness(result, TargetMultiplier, sqrt, absFft);
        if actualLoudness != 0.0 {
          result := Scale(DivideBy(result, actualLoudness), TargetLoudness);
          if Acceptable(result) {
            if IsHomogeneous(absFft) {
              NormalisedLoudness(MatVec(chol, draws[used]), sqrt, absFft);
            }
            return Some(result), used;
          }
        }
      }
      used := used + 1;
    }
    return None, used;
  }

  /** Every candidate has mean zero: centring comes first and the steps after
      it only multiply. */
  lemma NormalisedIsCentred(y: seq<real>, sqrt: real -> real, absFft: seq<real> -> seq<real>)
    requires IsSqrt(sqrt) && IsMagnitudeSpectrum(absFft) && |y| > 0
    requires Normalise(y, sqrt, absFft).Some?
    ensures Sum(Normalise(y, sqrt, absFft).value) == 0.0
  {
    var centred := Shift(y, Mean(y));
    var std := Std(centred, sqrt);
    var once := DivideBy(centred, std);
    var scaled := DivideBy(once, StdDivisor);
    var loudness := Loudness.Loudness(scaled, TargetMultiplier, sqrt, absFft);
    var quiet := DivideBy(scaled, loudness);
    assert Normalise(y, sqrt, absFft).value == Scale(quiet, TargetLoudness);
    CentredSumsToZero(y);
    SumDivideBy(centred, std);
    ZeroQuotient(std);
    SumDivideBy(once, StdDivisor);
    ZeroQuotient(StdDivisor);
    SumDivideBy(scaled, loudness);
    ZeroQuotient(loudness);
    SumScale(quiet, TargetLoudness);
  }

  /** Every candidate is as loud as the target: after centring and
      dividing by ten deviations, the path is divided by its own weighted
      loudness and multiplied by 300. */
  lemma NormalisedLoudness(y: seq<real>, sqrt: real -> real, absFft: seq<real> -> seq<real>)
    requires IsSqrt(sqrt) && IsMagnitudeSpectrum(absFft) && IsHomogeneous(absFft) && |y| > 0
    ensures var r := Normalise(y, sqrt, absFft);
      r.Some? ==> Loudness.Loudness(r.value, TargetMultiplier, sqrt, absFft) == TargetLoudness
  {
    var r := Normalise(y, sqrt, absFft);
    if r.Some? {
      var centred := Shift(y, Mean(y));
      var std := Std(centred, sqrt);
      var scaled := DivideBy(DivideBy(centred, std), StdDivisor);
      var loudness := Loudness.Loudness(scaled, TargetMultiplier, sqrt, absFft);
      assert loudness > 0.0;
      var gain := TargetLoudness / loudness;
      assert r.value == Scale(DivideBy(scaled, loudness), TargetLoudness);
      DivideThenScale(scaled, loudness, TargetLoudness);
      PositiveQuotient(TargetLoudness, loudness);
      LoudnessScaled(scaled, gain, TargetMultiplier, sqrt, absFft);
      QuotientCancels(TargetLoudness, loudness);
    }
  }

  /** Dividing by `d` and then multiplying by `t` is one scaling by `t / d`. */
  lemma DivideThenScale(x: seq<real>, d: real, t: real)
    requires d != 0.0
    ensures Scale(DivideBy(x, d), t) == Scale(x, t / d)
  {
    forall i | 0 <= i < |x|
      ensures Scale(DivideBy(x, d), t)[i] == Scale(x, t / d)[i]
    {
      QuotientTimes(x[i], d, t);
    }
  }

  lemma QuotientTimes(x: real, d: real, t: real)
    requires d != 0.0
    ensures x / d * t == x * (t / d)
  {
  }

  lemma PositiveQuotient(t: real, d: real)
    requires t > 0.0 && d > 0.0
    ensures t / d > 0.0
  {
  }

  lemma QuotientCancels(t: real, d: real)
    requires d != 0.0
    ensures t / d * d == t
  {
  }

  lemma ZeroQuotient(d: real)
    requires d != 0.0
    ensures 0.0 / d == 0.0
  {
  }

  lemma CentredSumsToZero(y: seq<real>)
    requires |y| > 0
    ensures Sum(Shift(y, Mean(y))) == 0.0
  {
    SumShift(y, Mean(y));
    MeanTimesCount(Sum(y), |y| as real);
  }

  lemma MeanTimesCount(s: real, n: real)
    requires n > 0.0
    ensures s - n * (s / n) == 0.0
  {
  }

  lemma {:induction false} SumShift(x: seq<real>, c: real)
    ensures Sum(Shift(x, c)) == Sum(x) - |x| as real * c
  {
    if x != [] {
      var p := x[..|x| - 1];
      assert Shift(x, c)[..|x| - 1] == Shift(p, c);
      SumShift(p, c);
    }
  }

  lemma {:induction false} SumScale(x: seq<real>, c: real)
    ensures Sum(Scale(x, c)) == Sum(x) * c
  {
    if x != [] {
      var p := x[..|x| - 1];
      forall i | 0 <= i < |p|
        ensures Scale(x, c)[..|x| - 1][i] == Scale(p, c)[i]
      {
      }
      assert Scale(x, c)[..|x| - 1] == Scale(p, c);
      SumScale(p, c);
      Distribute(Sum(p), x[|x| - 1], c);
    }
  }

  lemma {:induction false} SumDivideBy(x: seq<real>, d: real)
    requires d != 0.0
    ensures Sum(DivideBy(x, d)) == Sum(x) / d
  {
    if x != [] {
      var p := x[..|x| - 1];
      assert DivideBy(x, d)[..|x| - 1] == DivideBy(p, d);
      SumDivideBy(p, d);
      AddQuotients(Sum(p), x[|x| - 1], d);
    }
  }

  lemma Distribute(a: real, b: real, c: real)
    ensures a * c + b * c == (a + b) * c
  {
  }

  lemma AddQuotients(a: real, b: real, d: real)
    requires d != 0.0
    ensures a / d + b / d == (a + b) / d
  {
  }

  /** A path with its last sample dropped, as `wavetable[:-1]`. */
  function DropLast(v: seq<real>): (t: seq<real>)
    ensures v != [] ==> |t| == |v| - 1
    ensures |t| <= |v| && forall i :: 0 <= i < |t| ==> t[i] == v[i]
  {
    if v == [] then [] else v[..|v| - 1]
  }

  /** `Some(p + t)` when the rest succeeded. */
  function Prepend<T>(p: seq<T>, rest: Option<seq<T>>): Option<seq<T>>
  {
    match rest
    case None => None
    case Some(t) => Some(p + t)
  }

  /** The bank of `count` tables taken from the attempts at and after `start`. */
  function Tables(cands: seq<Option<seq<real>>>, start: nat, count: nat): Option<seq<seq<real>>>
    requires start <= |cands|
    decreases count
  {
    if count == 0 then Some([])
    else match FirstAccepted(cands, start)
      case None => None
      case Some(k) => Prepend([DropLast(cands[k].value)], Tables(cands, k + 1, count - 1))
  }

  /** A generated bank has the requested number of tables, each one sample
      shorter than the paths and inside the acceptance bound. */
  lemma {:induction false} TablesShape(cands: seq<Option<seq<real>>>, n: nat, start: nat, count: nat)
    requires n > 0 && OfLength(cands, n) && start <= |cands|
    requires Tables(cands, start, count).Some?
    ensures var ts := Tables(cands, start, count).value;
      |ts| == count && forall j :: 0 <= j < |ts| ==> |ts[j]| == n - 1 && Acceptable(ts[j])
    decreases count
  {
    if count > 0 {
      var k := FirstAccepted(cands, start).value;
      var t := DropLast(cands[k].value);
      var rest := Tables(cands, k + 1, count - 1);
      TablesShape(cands, n, k + 1, count - 1);
      var ts := [t] + rest.value;
      assert Tables(cands, start, count) == Some(ts);
      forall j | 0 <= j < |ts|
        ensures |ts[j]| == n - 1 && Acceptable(ts[j])
      {
        if j > 0 {
          assert ts[j] == rest.value[j - 1];
        }
      }
    }
  }

  /** One more round of the generation loop: the first accepted attempt
      from `start` on becomes the next table. */
  lemma TablesAdvance(cands: seq<Option<seq<real>>>, start: nat, count: nat, k: nat, path: seq<real>, done: seq<seq<real>>)
    requires start <= |cands| && count > 0
    requires FirstAccepted(cands, start) == Some(k) && cands[k] == Some(path)
    ensures Prepend(done, Tables(cands, start, count)) == Prepend(done + [DropLast(path)], Tables(cands, k + 1, count - 1))
  {
    PrependTwice(done, [DropLast(path)], Tables(cands, k + 1, count - 1));
  }

  /** When no attempt from `start` on is accepted, the loop cannot finish. */
  lemma TablesExhausted(cands: seq<Option<seq<real>>>, start: nat, count: nat, done: seq<seq<real>>)
    requires start <= |cands| && count > 0
    requires FirstAccepted(cands, start) == None
    ensures Prepend(done, Tables(cands, start, count)) == None
  {
  }

  lemma PrependTwice<T>(p: seq<T>, q: seq<T>, rest: Option<seq<T>>)
    ensures Prepend(p, Prepend(q, rest)) == Prepend(p + q, rest)
  {
    if rest.Some? {
      assert p + (q + rest.value) == (p + q) + rest.value;
    }
  }

  /** The bank `make_wavetables` returns, or the error it raises: the
      factorisation fails, or the draws run out before `n` paths are accepted. */
  function Generated(kernel: Kernel, n: int, waveshaping: bool, continuity: bool, draws: seq<seq<real>>,
                     sin: real -> real, jitchol: CovRequest -> Option<Matrix>,
                     sqrt: real -> real, absFft: seq<real> -> seq<real>): Result<seq<seq<real>>, GenerationError>
    requires IsSqrt(sqrt) && IsMagnitudeSpectrum(absFft) && IsFactorOracle(jitchol)
    requires DrawsFit(draws, PathLength(waveshaping))
  {
    match jitchol(CovarianceRequest(kernel, waveshaping, continuity, sin))
    case None => Failure(FactorizationFailed)
    case Some(chol) =>
      match Tables(Candidates(chol, draws, sqrt, absFft), 0, if n < 0 then 0 else n)
      case None => Failure(SamplingExhausted)
      case Some(ts) => Success(ts)
  }

  /** `make_wavetables`: one factorisation of the covariance the request
      describes, then `n` accepted paths from consecutive draws, each with
      its last sample dropped. */
  method MakeWavetables(kernel: Kernel, n: int, waveshaping: bool, continuity: bool, draws: seq<seq<real>>,
                        sin: real -> real, jitchol: CovRequest -> Option<Matrix>,
                        sqrt: real -> real, absFft: seq<real> -> seq<real>)
      returns (r: Result<seq<seq<real>>, GenerationError>)
    requires IsSqrt(sqrt) && IsMagnitudeSpectrum(absFft) && IsFactorOracle(jitchol)
    requires DrawsFit(draws, PathLength(waveshaping))
    ensures r == Generated(kernel, n, waveshaping, continuity, draws, sin, jitchol, sqrt, absFft)
    ensures r.Success? ==> |r.value| == (if n < 0 then 0 else n)
    ensures r.Success? ==> forall j :: 0 <= j < |r.value| ==>
      |r.value[j]| == PathLength(waveshaping) - 1 && Acceptable(r.value[j])
  {
    var q := CovarianceRequest(kernel, waveshaping, continuity, sin);
    var factor := jitchol(q);
    if factor.None? {
      return Failure(FactorizationFailed);
    }
    var cholesky := factor.value;
    var count: nat := if n < 0 then 0 else n;
    var wavetables := DrawTables(cholesky, draws, count, sqrt, absFft);
    if wavetables.None? {
      return Failure(SamplingExhausted);
    }
    TablesShape(Candidates(cholesky, draws, sqrt, absFft), |cholesky|, 0, count);
    return Success(wavetables.value);
  }

  /** The `for _ in range(n)` loop of `make_wavetables`: each round runs the
      sampler on the draws the previous rounds left over. */
  method DrawTables(cholesky: Matrix, draws: seq<seq<real>>, count: nat, sqrt: real -> real, absFft: seq<real> -> seq<real>)
      returns (r: Option<seq<seq<real>>>)
    requires IsSqrt(sqrt) && IsMagnitudeSpectrum(absFft)
    requires |cholesky| > 0 && IsSquare(cholesky, |cholesky|) && DrawsFit(draws, |cholesky|)
    ensures r == Tables(Candidates(cholesky, draws, sqrt, absFft), 0, count)
  {
    ghost var cands := Candidates(cholesky, draws, sqrt, absFft);
    var wavetables: seq<seq<real>> := [];
    var cursor: nat := 0;
    assert Prepend(wavetables, Tables(cands, cursor, count)) == Tables(cands, cursor, count) by {
      var rest := Tables(cands, cursor, count);
      if rest.Some? {
        assert [] + rest.value == rest.value;
      }
    }
    for i := 0 to count
      invariant cursor <= |draws|
      invariant Tables(cands, 0, count) == Prepend(wavetables, Tables(cands, cursor, count - i))
    {
      var wavetable, used := FastNormal(cholesky, draws, cursor, sqrt, absFft);
      if wavetable.None? {
        TablesExhausted(cands, cursor, count - i, wavetables);
        return None;
      }
      TablesAdvance(cands, cursor, count - i, used, wavetable.value, wavetables);
      wavetables := wavetables + [DropLast(wavetable.value)];
      cursor := used + 1;
    }
    assert wavetables + [] == wavetables;
    return Some(wavetables);
  }
}
