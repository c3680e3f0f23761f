/** `kernel_for_string` and `all_kernels`: the kernel names the synthesizer
    accepts and the GPy kernel objects they build. A kernel is a closed
    datatype; an argument the source leaves out (so that GPy applies its
    own default) is `None`. */
module Kernels {
  import opened Wrappers

  /** The GPy kernel classes the source can construct. */
  datatype KernelClass =
    | RBF | Exponential | Matern32 | Matern52
    | PeriodicExponential | PeriodicMatern32 | PeriodicMatern52 | StdPeriodic
    | Brownian | ExpQuad | OU | RatQuad | White | MLP | Spline | Poly

  /** A kernel object: one class with the arguments passed to it, or the
      sum (`k1 + k2`) or product (`k1 * k2`) of two kernels. */
  datatype Kernel =
    | Base(cls: KernelClass, period: Option<real>, lengthscale: Option<real>, variance: Option<real>)
    | Add(left: Kernel, right: Kernel)
    | Prod(left: Kernel, right: Kernel)

  /** Python's `LookupError`, raised for a name no branch matches. */
  datatype LookupError = LookupError(name: string)

  /** `np.pi` as a double. */
  const Pi: real := 3.141592653589793
  const TwoPi: real := 2.0 * Pi

  /** `.3 ** 2`, passed only to the two periodic kernels that take a variance. */
  const PeriodicVariance: real := 0.3 * 0.3

  /** `all_kernels`: the names a sweep chooses from. */
  const AllKernels: seq<string> := [
    "RBF", "Exponential", "Matern32", "Matern52", "PeriodicExponential", "PeriodicMatern32",
    "PeriodicMatern52", "StdPeriodic", "ExpQuad", "OU", "RatQuad", "MLP", "Spline", "Poly"
  ]

  /** The name `kernel_for_string` accepts for each class. */
  function ClassName(cls: KernelClass): string
  {
    match cls
    case RBF => "RBF"
    case Exponential => "Exponential"
    case Matern32 => "Matern32"
    case Matern52 => "Matern52"
    case PeriodicExponential => "PeriodicExponential"
    case PeriodicMatern32 => "PeriodicMatern32"
    case PeriodicMatern52 => "PeriodicMatern52"
    case StdPeriodic => "StdPeriodic"
    case Brownian => "Brownian"
    case ExpQuad => "ExpQuad"
    case OU => "OU"
    case RatQuad => "RatQuad"
    case White => "White"
    case MLP => "MLP"
    case Spline => "Spline"
    case Poly => "Poly"
  }

  /** Classes built with `period=2. * np.pi`. */
  predicate HasFixedPeriod(cls: KernelClass)
  {
    cls.PeriodicExponential? || cls.PeriodicMatern32? || cls.PeriodicMatern52? || cls.StdPeriodic?
  }

  /** Classes built with `variance=.3 ** 2`. */
  predicate HasFixedVariance(cls: KernelClass)
  {
    cls.PeriodicExponential? || cls.PeriodicMatern32?
  }

  /** Classes built without the lengthscale argument. */
  predicate IgnoresLengthscale(cls: KernelClass)
  {
    cls.Brownian? || cls.White? || cls.MLP? || cls.Spline? || cls.Poly?
  }

  /** Subclasses of GPy's `Periodic` (the base class of
      `PeriodicExponential`); `StdPeriodic` derives from `Kern` directly, and
      sums and products are combination kernels. */
  predicate IsPeriodicSubclass(k: Kernel)
  {
    k.Base? && (k.cls.PeriodicExponential? || k.cls.PeriodicMatern32? || k.cls.PeriodicMatern52?)
  }

  /** The name tests of `kernel_for_string`, in the source's order. */
  function ClassNamed(name: string): (r: Option<KernelClass>)
    ensures r.Some? <==> name in AllKernels || name == "Brownian" || name == "White"
    ensures r.Some? ==> ClassName(r.value) == name
  {
    if name == "RBF" then Some(RBF)
    else if name == "Exponential" then Some(Exponential)
    else if name == "Matern32" then Some(Matern32)
    else if name == "Matern52" then Some(Matern52)
    else if name == "PeriodicExponential" then Some(PeriodicExponential)
    else if name == "PeriodicMatern32" then Some(PeriodicMatern32)
    else if name == "PeriodicMatern52" then Some(PeriodicMatern52)
    else if name == "StdPeriodic" then Some(StdPeriodic)
    else if name == "Brownian" then Some(Brownian)
    else if name == "ExpQuad" then Some(ExpQuad)
    else if name == "OU" then Some(OU)
    else if name == "RatQuad" then Some(RatQuad)
    else if name == "White" then Some(White)
    else if name == "MLP" then Some(MLP)
    else if name == "Spline" then Some(Spline)
    else if name == "Poly" then Some(Poly)
    else None
  }

  /** The constructor call each branch of `kernel_for_string` makes. */
  function Construct(cls: KernelClass, lengthscale: real): (k: Kernel)
    ensures k.Base? && k.cls == cls
    ensures k.period == (if HasFixedPeriod(cls) then Some(TwoPi) else None)
    ensures k.variance == (if HasFixedVariance(cls) then Some(PeriodicVariance) else None)
    ensures k.lengthscale == (if IgnoresLengthscale(cls) then None else Some(lengthscale))
  {
    var variance := PeriodicVariance;
    var ls := Some(lengthscale);
    match cls
    case RBF => Base(RBF, None, ls, None)
    case Exponential => Base(Exponential, None, ls, None)
    case Matern32 => Base(Matern32, None, ls, None)
    case Matern52 => Base(Matern52, None, ls, None)
    case PeriodicExponential => Base(PeriodicExponential, Some(TwoPi), ls, Some(variance))
    case PeriodicMatern32 => Base(PeriodicMatern32, Some(TwoPi), ls, Some(variance))
    case PeriodicMatern52 => Base(PeriodicMatern52, Some(TwoPi), ls, None)
    case StdPeriodic => Base(StdPeriodic, Some(TwoPi), ls, None)
    case Brownian => Base(Brownian, None, None, None)
    case ExpQuad => Base(ExpQuad, None, ls, None)
    case OU => Base(OU, None, ls, None)
    case RatQuad => Base(RatQuad, None, ls, None)
    case White => Base(White, None, None, None)
    case MLP => Base(MLP, None, None, None)
    case Spline => Base(Spline, None, None, None)
    case Poly => Base(Poly, None, None, None)
  }

  /** `kernel_for_string(name, lengthscale)`: the kernel a name selects, or
      `LookupError` for any other name. */
  function KernelForString(name: string, lengthscale: real): (r: Result<Kernel, LookupError>)
    ensures r.Success? <==> name in AllKernels || name == "Brownian" || name == "White"
    ensures r.Failure? ==> r.error == LookupError(name)
    ensures r.Success? ==> r.value.Base? && ClassName(r.value.cls) == name
  {
    match ClassNamed(name)
    case Some(cls) => Success(Construct(cls, lengthscale))
    case None => Failure(LookupError(name))
  }

  /** Every class is reachable by its name, and the name selects exactly
      that class. */
  lemma NameRoundTrip(cls: KernelClass, lengthscale: real)
    ensures KernelForString(ClassName(cls), lengthscale).Success?
    ensures KernelForString(ClassName(cls), lengthscale).value.cls == cls
  {
    var r := KernelForString(ClassName(cls), lengthscale);
    assert ClassName(cls) in AllKernels || ClassName(cls) == "Brownian" || ClassName(cls) == "White";
    ClassNameInjective(r.value.cls, cls);
  }

  /** No two classes answer to the same name. */
  lemma ClassNameInjective(a: KernelClass, b: KernelClass)
    requires ClassName(a) == ClassName(b)
    ensures a == b
  {
  }

  /** The name of the polynomial kernel is "Poly"; the longer name fails. */
  lemma PolynomialIsUnknown(lengthscale: real)
    ensures KernelForString("Polynomial", lengthscale) == Failure(LookupError("Polynomial"))
  {
  }

  /** Every name of `all_kernels` builds a kernel. */
  lemma AllKernelsAccepted(lengthscale: real)
    ensures forall i :: 0 <= i < |AllKernels| ==> KernelForString(AllKernels[i], lengthscale).Success?
  {
  }
}
