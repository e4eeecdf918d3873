/** Peak estimation, curve-fit fallback and conversion to map units
    (PowerSpectrumAnalysis.estimate_hypercolumn_distance). */
module Estimation {
  import opened Base
  import opened Stats
  import opened Binning

  /** The six coefficients of the Kaschube radial profile model: Gaussian height a0,
      peak position a1, spread a2, baseline a3, linear falloff a4, quadratic falloff a5. */
  datatype Coefficients = Coefficients(a0: real, a1: real, a2: real, a3: real, a4: real, a5: real)

  /** The analysed values: best peak wavenumber, its offset from the raw argmax, map units
      per hypercolumn and cycles relative to the map density. */
  datatype Estimate = Estimate(kmax: real, kDelta: real, unitsPerHc: real, cycles: real)

  /** What estimate_hypercolumn_distance returns: the profile with its edges, the fit if
      it is valid, and the analysed values. */
  datatype Outcome = Outcome(profile: Profile, fit: Option<Coefficients>, info: Estimate)

  /** The least-squares solver: given the wavenumbers, the profile and an initial guess it
      either returns coefficients or fails (any exception it raises). */
  type CurveFit = (seq<nat>, seq<real>, Coefficients) -> Option<Coefficients>

  /** The raw peak: the first wavenumber of largest power among bins 1.., so the DC bin 0
      is never chosen. */
  function RawPeak(amps: seq<real>): (k: nat)
    requires |amps| >= 2
    ensures 1 <= k < |amps|
    ensures forall i :: 1 <= i < |amps| ==> amps[i] <= amps[k]
    ensures forall i :: 1 <= i < k ==> amps[i] < amps[k]
  {
    var j := ArgMax(amps[1..]);
    assert forall i :: 1 <= i < |amps| ==> amps[i] == amps[1..][i - 1];
    j + 1
  }

  /** The automatic initial guess: a Gaussian of height amps[k] - mean centred on the raw
      peak k with spread 4.0, over the mean as baseline, with no falloff. */
  function AutoInitialGuess(amps: seq<real>): (c: Coefficients)
    requires |amps| >= 2
    ensures c.a1 == RawPeak(amps) as real && c.a1 >= 1.0
    ensures c.a0 + c.a3 == amps[RawPeak(amps)]
    ensures c.a3 == Mean(amps) && c.a2 == 4.0 && c.a4 == 0.0 && c.a5 == 0.0
  {
    var k := RawPeak(amps);
    var baseline := Mean(amps);
    Coefficients(amps[k] - baseline, k as real, 4.0, baseline, 0.0, 0.0)
  }

  /** The wavenumbers 0..n-1 the profile is fitted against. */
  function Wavenumbers(n: nat): (ks: seq<nat>)
    ensures |ks| == n && forall k :: 0 <= k < n ==> ks[k] == k
  {
    seq(n, k requires 0 <= k < n => k)
  }

  /** A fit is kept only if the solver succeeded and the peak position a1 is positive. */
  function ValidFit(fit: Option<Coefficients>): (r: Option<Coefficients>)
    ensures r.Some? <==> fit.Some? && fit.value.a1 > 0.0
    ensures r.Some? ==> r == fit
  {
    if fit.Some? && fit.value.a1 > 0.0 then fit else None
  }

  /** Units per hypercolumn: the full map width when kmax <= 1.0, else width / kmax. */
  function UnitsPerHypercolumn(dim: nat, kmax: real): (u: real)
    requires dim > 0 && kmax > 0.0
    ensures kmax <= 1.0 ==> u == dim as real
    ensures kmax > 1.0 ==> u * kmax == dim as real
    ensures 0.0 < u <= dim as real
  {
    if kmax <= 1.0 then dim as real else dim as real / kmax
  }

  /** The analysed values from the side length, the raw peak and the validated fit:
      kmax is the fit's a1 when there is a fit and the raw peak otherwise, k_delta their
      difference, and cycles the density in units of units_per_hc. */
  function Conclude(dim: nat, raw: nat, fit: Option<Coefficients>, density: real): (e: Estimate)
    requires dim > 0 && raw >= 1
    requires fit.Some? ==> fit.value.a1 > 0.0
    ensures fit.Some? ==> e.kmax == fit.value.a1
    ensures fit.None? ==> e.kmax == raw as real && e.kDelta == 0.0
    ensures e.kDelta == e.kmax - raw as real
    ensures e.kmax > 0.0
    ensures e.kmax <= 1.0 ==> e.unitsPerHc == dim as real
    ensures e.kmax > 1.0 ==> e.unitsPerHc * e.kmax == dim as real
    ensures 0.0 < e.unitsPerHc <= dim as real
    ensures e.cycles * e.unitsPerHc == density
  {
    var kmax := if fit.Some? then fit.value.a1 else raw as real;
    var units := UnitsPerHypercolumn(dim, kmax);
    DivMul(density, units);
    Estimate(kmax, kmax - raw as real, units, density / units)
  }

  lemma DivMul(x: real, y: real)
    requires y != 0.0
    ensures (x / y) * y == x
  {
  }

  /** Only a spectrum of side 3 or more has a wavenumber besides DC. */
  lemma ProfileHasPeakCandidate(g: Grid, agg: seq<real> -> real)
    requires g.Valid() && g.rows == g.cols && g.rows > 0
    ensures WavenumberSpectrum(g, agg).Success?
    ensures |WavenumberSpectrum(g, agg).value.amplitudes| >= 2 <==> g.rows >= 3
  {
  }

  /** estimate_hypercolumn_distance on a spectrum of the given density; `initFit` is the
      user-supplied initial guess, if any, and `agg` the per-bin aggregation. */
  function EstimateHypercolumnDistance(spectrum: Grid, agg: seq<real> -> real,
                                       initFit: Option<Coefficients>, curveFit: CurveFit,
                                       density: real): (r: Result<Outcome, Error>)
    requires spectrum.Valid()
    ensures r.Failure? <==> spectrum.rows != spectrum.cols || spectrum.rows < 3
    ensures spectrum.rows != spectrum.cols ==> r == Failure(NotSquare)
    ensures spectrum.rows == spectrum.cols == 0 ==> r == Failure(EmptySpectrum)
    ensures spectrum.rows == spectrum.cols && 0 < spectrum.rows < 3 ==> r == Failure(NoPeakCandidate)
    ensures r.Success? ==> WavenumberSpectrum(spectrum, agg) == Success(r.value.profile)
    ensures r.Success? ==> r.value.info.kmax > 0.0
  {
    match WavenumberSpectrum(spectrum, agg)
    case Failure(err) => Failure(err)
    case Success(profile) =>
      ProfileHasPeakCandidate(spectrum, agg);
      var amps := profile.amplitudes;
      if |amps| < 2 then Failure(NoPeakCandidate)
      else
        var raw := RawPeak(amps);
        var fit := ValidFit(Attempt(amps, initFit, curveFit));
        Success(Outcome(profile, fit, Conclude(spectrum.rows, raw, fit, density)))
  }

  /** The curve fit attempted by the estimate: seeded with the user's guess if given,
      else with the automatic one. */
  function Attempt(amps: seq<real>, initFit: Option<Coefficients>, curveFit: CurveFit): (r: Option<Coefficients>)
    requires |amps| >= 2
    ensures initFit.Some? ==> r == curveFit(Wavenumbers(|amps|), amps, initFit.value)
    ensures initFit.None? ==> r == curveFit(Wavenumbers(|amps|), amps, AutoInitialGuess(amps))
  {
    curveFit(Wavenumbers(|amps|), amps, initFit.GetOr(AutoInitialGuess(amps)))
  }

  /** Fit fallback: the fit is returned iff the solver succeeded with a1 > 0, and then
      kmax is a1; otherwise kmax is the raw peak and k_delta is 0. Either way kmax > 0,
      k_delta = kmax - raw peak, and units and cycles are those of Conclude for the
      original, untruncated side length. */
  lemma FitFallback(spectrum: Grid, agg: seq<real> -> real, initFit: Option<Coefficients>,
                    curveFit: CurveFit, density: real)
    requires spectrum.Valid() && spectrum.rows == spectrum.cols && spectrum.rows >= 3
    ensures
      var r := EstimateHypercolumnDistance(spectrum, agg, initFit, curveFit, density);
      && r.Success?
      && var amps := r.value.profile.amplitudes;
      && |amps| >= 2
      && var attempt := Attempt(amps, initFit, curveFit);
      && var e := r.value.info;
      && (r.value.fit.Some? <==> attempt.Some? && attempt.value.a1 > 0.0)
      && (r.value.fit.Some? ==> r.value.fit == attempt && e.kmax == attempt.value.a1)
      && (r.value.fit.None? ==> e.kmax == RawPeak(amps) as real && e.kDelta == 0.0)
      && e.kDelta == e.kmax - RawPeak(amps) as real
      && e.kmax > 0.0
      && e == Conclude(spectrum.rows, RawPeak(amps), r.value.fit, density)
  {
  }
}
