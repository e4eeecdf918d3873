/** The numeric steps of PowerSpectrumAnalysis._process around the estimate: the density
    check, the pinwheel density rho and the fit-coefficient table. */
module Analysis {
  import opened Base
  import opened Binning
  import opened Estimation

  /** The bounding box of the preference map, as (left, bottom, right, top). */
  datatype Bounds = Bounds(l: real, b: real, r: real, t: real)

  function Abs(x: real): real {
    if x < 0.0 then -x else x
  }

  /** Samples per unit length of a dim1 x dim2 map over the given bounds: the x and y
      densities must agree, and that common value is the density. A zero width or height
      is a division by zero. */
  function Density(dim1: nat, dim2: nat, box: Bounds): (r: Result<real, Error>)
    ensures r.Success? <==>
      box.r != box.l && box.t != box.b && dim1 as real / Abs(box.r - box.l) == dim2 as real / Abs(box.t - box.b)
    ensures box.r == box.l || box.t == box.b ==> r == Failure(ZeroExtent)
    ensures (box.r != box.l && box.t != box.b &&
             dim1 as real / Abs(box.r - box.l) != dim2 as real / Abs(box.t - box.b)) ==>
      r == Failure(DensityMismatch)
    ensures r.Success? ==>
      && r.value * Abs(box.r - box.l) == dim1 as real
      && r.value * Abs(box.t - box.b) == dim2 as real
  {
    if box.r == box.l || box.t == box.b then Failure(ZeroExtent)
    else
      var xdensity := dim1 as real / Abs(box.r - box.l);
      var ydensity := dim2 as real / Abs(box.t - box.b);
      DivMul(dim1 as real, Abs(box.r - box.l));
      DivMul(dim2 as real, Abs(box.t - box.b));
      if xdensity != ydensity then Failure(DensityMismatch)
      else Success(xdensity)
  }

  /** Pinwheel density: the pinwheel count per kmax squared. */
  function Rho(count: nat, kmax: real): (rho: real)
    requires kmax != 0.0
    ensures rho * (kmax * kmax) == count as real
  {
    count as real / (kmax * kmax)
  }

  /** A cell of the fit-coefficient table: a coefficient, or the "no value" marker '-'. */
  datatype TableCell = Value(v: real) | NoValue

  const CoefficientNames: seq<string> := ["a0", "a1", "a2", "a3", "a4", "a5"]

  function CoefficientSeq(c: Coefficients): seq<real> {
    [c.a0, c.a1, c.a2, c.a3, c.a4, c.a5]
  }

  function Table(cells: seq<TableCell>): map<string, TableCell>
    requires |cells| == 6
  {
    map["a0" := cells[0], "a1" := cells[1], "a2" := cells[2],
        "a3" := cells[3], "a4" := cells[4], "a5" := cells[5]]
  }

  /** The fit-coefficient table, present only when requested: the six coefficients of the
      valid fit, or '-' for each of a0..a5 when there is none. */
  function FitTable(fitTable: bool, fit: Option<Coefficients>): (r: Option<map<string, TableCell>>)
    ensures r.Some? <==> fitTable
    ensures r.Some? ==> r.value.Keys == {"a0", "a1", "a2", "a3", "a4", "a5"}
    ensures r.Some? && fit.None? ==> forall k :: 0 <= k < 6 ==> r.value[CoefficientNames[k]] == NoValue
    ensures r.Some? && fit.Some? ==>
      forall k :: 0 <= k < 6 ==> r.value[CoefficientNames[k]] == Value(CoefficientSeq(fit.value)[k])
  {
    if !fitTable then None
    else
      match fit
      case None => Some(Table([NoValue, NoValue, NoValue, NoValue, NoValue, NoValue]))
      case Some(c) =>
        Some(Table([Value(c.a0), Value(c.a1), Value(c.a2), Value(c.a3), Value(c.a4), Value(c.a5)]))
  }

  /** The result table of the analysis: the estimate plus rho and its quality score. */
  datatype Info = Info(kmax: real, kDelta: real, unitsPerHc: real, cycles: real, rho: real, rhoMetric: real)

  datatype Report = Report(profile: Profile, fit: Option<Coefficients>, info: Info,
                           fitTable: Option<map<string, TableCell>>)

  /** The numeric core of _process for a dim1 x dim2 preference map over `box` with
      `pinwheels` detected singularities and its power spectrum: the density is checked
      before anything is binned, then the estimate is made and rho derived from its kmax.
      `gammaMetric` stands for the gamma-kernel quality score of rho. */
  function Process(dim1: nat, dim2: nat, box: Bounds, pinwheels: nat, spectrum: Grid,
                   agg: seq<real> -> real, initFit: Option<Coefficients>, curveFit: CurveFit,
                   gammaMetric: real -> real, fitTable: bool): (r: Result<Report, Error>)
    requires spectrum.Valid()
    ensures Density(dim1, dim2, box).Failure? ==> r == Failure(Density(dim1, dim2, box).error)
    ensures r.Success? <==>
      && Density(dim1, dim2, box).Success?
      && EstimateHypercolumnDistance(spectrum, agg, initFit, curveFit, Density(dim1, dim2, box).value).Success?
    ensures r.Success? ==>
      var out := EstimateHypercolumnDistance(spectrum, agg, initFit, curveFit, Density(dim1, dim2, box).value).value;
      && r.value.profile == out.profile && r.value.fit == out.fit
      && r.value.info.kmax == out.info.kmax && r.value.info.kDelta == out.info.kDelta
      && r.value.info.unitsPerHc == out.info.unitsPerHc && r.value.info.cycles == out.info.cycles
      && r.value.info.rho == Rho(pinwheels, out.info.kmax)
      && r.value.info.rhoMetric == gammaMetric(r.value.info.rho)
      && r.value.fitTable == FitTable(fitTable, out.fit)
  {
    match Density(dim1, dim2, box)
    case Failure(err) => Failure(err)
    case Success(density) =>
      match EstimateHypercolumnDistance(spectrum, agg, initFit, curveFit, density)
      case Failure(err) => Failure(err)
      case Success(out) =>
        var e := out.info;
        var rho := Rho(pinwheels, e.kmax);
        Success(Report(out.profile, out.fit,
                       Info(e.kmax, e.kDelta, e.unitsPerHc, e.cycles, rho, gammaMetric(rho)),
                       FitTable(fitTable, out.fit)))
  }

  /** A preference map whose x- and y-densities differ is rejected before its spectrum is
      looked at: the result does not depend on the spectrum at all. */
  lemma DensityMismatchRejected(dim1: nat, dim2: nat, box: Bounds, pinwheels: nat, spectrum: Grid,
                                agg: seq<real> -> real, initFit: Option<Coefficients>,
                                curveFit: CurveFit, gammaMetric: real -> real, fitTable: bool)
    requires spectrum.Valid()
    requires box.r != box.l && box.t != box.b
    requires dim1 as real / Abs(box.r - box.l) != dim2 as real / Abs(box.t - box.b)
    ensures Process(dim1, dim2, box, pinwheels, spectrum, agg, initFit, curveFit, gammaMetric, fitTable)
      == Failure(DensityMismatch)
  {
  }
}
