# Hypercolumn distance from the Fourier power spectrum — a Dafny model

This project models the deterministic core of `PowerSpectrumAnalysis` in
`featuremapper/analysis/hypercolumns.py`. That class estimates the hypercolumn distance of a
cyclic preference map from the ring in its 2D Fourier power spectrum, following
Kaschube et al. 2010. The model covers four steps:

- **Radial binning** (`wavenumber_spectrum`). A square spectrum is truncated to an odd side
  N = 2h+1. Its values are inverted (`1 - v`). Each cell is allocated to a wavenumber bin
  0..h as `np.digitize` does against the integer edges 0..h. The values of each bin are
  handed to the aggregation function in ascending order; the default aggregation is the mean.
- **Peak estimation** (`estimate_hypercolumn_distance`). The raw peak is the first argmax
  over bins 1.., so the DC bin is never chosen. From it comes the automatic initial guess.
  The curve fit is an oracle. The fit is kept only if a1 > 0, and otherwise kmax falls back
  to the raw peak. The estimate also gives `k_delta`, `units_per_hc` and `cycles`.
- **Density check and rho** (`_process`). The x- and y-densities of the preference map must
  agree. Rho is `pinwheel count / kmax²`.
- **Fit-coefficient table** (`_process`). When a table is asked for and there is no fit,
  every coefficient a0..a5 is shown as `'-'`.

Modules: `Base` holds Option, Result and the error conditions. `Stats` holds sum, mean,
sort and argmax. `Binning` is `wavenumber_spectrum`. `Estimation` is
`estimate_hypercolumn_distance`. `Analysis` holds the numeric steps of `_process`.

Modelling notes:

- A 2D numpy array is a `Grid` (rows, cols, rows of reals). `Valid()` says it is
  rectangular, which every numpy 2D array is.
- The source is Python 2: `dim / 2` is integer division.
- The bin is computed on integers. A cell at offset (x, y) is in bin b < h iff
  b² ≤ x²+y² < (b+1)². It is in bin h iff x²+y² ≥ h². This is what digitize does on the
  float distance `(x²+y²) ** 0.5` (line 201) as long as that power lands on the right side
  of every integer edge. For a squared distance d² = b² it must give exactly b, and for
  b² < d² < (b+1)² it must stay strictly between b and b+1. The gaps to the edges are at
  least about 1/(2(b+1)), while one float64 unit in the last place at b is about b·2⁻⁵²,
  so the two agree whenever (h+1)² is far below 2⁵² (sides up to millions of cells) and the
  power is rounded to within one unit in the last place. Rounding itself is not modelled
  (see "Floating point" under "## Left out").
- `sorted` followed by `groupby` over the (bin, value) pairs is modelled bin by bin.
  `GroupBins` gives one group per non-empty bin, in increasing bin order, holding that
  bin's values sorted. This is the same thing, because every bin index lies in 0..h.
- Real arithmetic is exact (`real`). The curve fit is a parameter
  `(wavenumbers, profile, initial guess) -> Option<Coefficients>`, where `None` stands for
  any exception it raises. The gamma-kernel metric is a parameter `real -> real`. The
  density, the aggregation and the optional user-supplied initial guess are explicit
  arguments.
- Error paths are `Result` failures:
  - `NotSquare`: the shape assertion fails.
  - `EmptySpectrum`: a 0×0 spectrum leaves nothing to unpack from `zip(*hist_values)`.
  - `NoPeakCandidate`: a side of 1 or 2 leaves only the DC bin, and `np.argmax` of an
    empty slice raises on line 261, outside the `try`.
  - `ZeroExtent`: the map has zero width or height, so the density divides by zero.
  - `DensityMismatch`: the x- and y-densities differ.
  - `EmptyBin`: the length assertion fails. This is proved unreachable.
- The model follows the code as written, including these points a reader might not expect:
  - The last bin collects every cell with distance ≥ h, corners included, and not only
    the cells whose distance rounds down to h.
  - The aggregation receives each bin's values sorted ascending.
  - A non-square spectrum is rejected inside the binning, by its assertion.
  - Sides 1 and 2 make the estimate fail.

## Model

| member | source | states |
|---|---|---|
| `Binning.Truncate` | featuremapper/analysis/hypercolumns.py:185-191 | An even side N > 0 becomes N-1 and an odd input is returned unchanged. Every kept cell (i, j) equals the input's cell (i, j), so only the last row and the last column are dropped. |
| `Binning.TruncatedSideOdd` | featuremapper/analysis/hypercolumns.py:187-191 | After truncation a non-empty square spectrum has an odd side: N-1 for an even N, N for an odd N. |
| `Binning.Bin` | featuremapper/analysis/hypercolumns.py:205 | The digitize bin of a squared distance against the edges 0..h always lies in 0..h. Its exact range is stated by `BinMembership`. |
| `Binning.CellBin` | featuremapper/analysis/hypercolumns.py:196-205 | The bin of cell (i, j), at offset (i-h, j-h) from the centre as `mgrid` gives it, lies in 0..h. A bin b < h means b² ≤ (i-h)²+(j-h)² < (b+1)². The bin h means (i-h)²+(j-h)² ≥ h². The central DC cell is in bin 0. |
| `Binning.RowAllocation` | featuremapper/analysis/hypercolumns.py:200-207 | One row of the flattened spectrum zipped with the bins: one entry per column, each bin in 0..h. |
| `Binning.Allocation` | featuremapper/analysis/hypercolumns.py:200-207 | The flattened, zipped spectrum has one entry per cell, n·cols for the first n rows. What each entry holds is stated by `AllocationContains`. |
| `Binning.Members` | featuremapper/analysis/hypercolumns.py:208-210 | The values grouped under one bin are at most as many as the entries. Which values they are is stated by `MembersContain` and `MembersSound`. |
| `Binning.MembersSound` | featuremapper/analysis/hypercolumns.py:208-210 | Every value grouped under bin b comes from an entry allocated to bin b, so a group holds no foreign value. |
| `Binning.GroupBins` | featuremapper/analysis/hypercolumns.py:208-210 | `groupby` over the sorted pairs yields at most one group per bin. `GroupBinsComplete` and `GroupBinsIncomplete` state when it yields exactly one per bin. |
| `Binning.EdgesAtOrBelowExact` | featuremapper/analysis/hypercolumns.py:205 | Digitize counts exactly the edges at or below the distance: edge e is among the counted ones iff e² ≤ x²+y². |
| `Binning.BinMembership` | featuremapper/analysis/hypercolumns.py:195-205 | Every bin lies in 0..h. A cell is in bin b < h iff b² ≤ d² < (b+1)². It is in bin h iff d² ≥ h², so the corners fall in the last bin. Both directions are stated. |
| `Binning.AxisCellBin` | featuremapper/analysis/hypercolumns.py:200-205 | The cell at offset (b, 0) from the centre lands in bin b, for every b in 0..h. |
| `Binning.NoEmptyBins` | featuremapper/analysis/hypercolumns.py:207-213 | For every b in 0..h, the inverted value of the truncated spectrum's cell (h+b, h) is among bin b's values. So no bin is empty. |
| `Binning.NoEmptyBinsOdd` | featuremapper/analysis/hypercolumns.py:200-210 | The same statement for an odd-sided spectrum given directly. |
| `Binning.AllBinsNonEmpty` | featuremapper/analysis/hypercolumns.py:207-213 | Every bin 0..h of an odd-sided spectrum has at least one value. |
| `Binning.AllocationContains` | featuremapper/analysis/hypercolumns.py:200-207 | Every cell (i, j) appears in the flattened allocation, paired with its bin and its inverted value 1 - v. |
| `Binning.AllocationBinsBounded` | featuremapper/analysis/hypercolumns.py:195-205 | Every allocated bin index is at most h. |
| `Binning.MembersContain` | featuremapper/analysis/hypercolumns.py:207-210 | A value allocated to bin b is among the values grouped for bin b. |
| `Binning.GroupsPartition` | featuremapper/analysis/hypercolumns.py:207-210 | When all bins are below n, the group sizes of bins 0..n-1 add up to the number of cells: each cell is in exactly one group. |
| `Binning.BinsPartitionCells` | featuremapper/analysis/hypercolumns.py:200-211 | For the truncated N×N spectrum, the sizes of bins 0..h add up to N·N. |
| `Binning.GroupBinsComplete` | featuremapper/analysis/hypercolumns.py:208-211 | With no empty bin, groupby yields exactly n groups. Group b has key b and holds bin b's values in ascending order, so the groups come in increasing wavenumber order. |
| `Binning.GroupBinsIncomplete` | featuremapper/analysis/hypercolumns.py:208-213 | If some bin is empty, fewer than n groups come out, so the length assertion would fail. |
| `Binning.WavenumberSpectrum` | featuremapper/analysis/hypercolumns.py:178-214 | It fails iff the spectrum is non-square (NotSquare) or 0×0 (EmptySpectrum), so the empty-bin assertion never fails. Otherwise it returns h+1 values and the edges 0..h. Value b is the aggregation of the sorted values 1 - v of exactly the cells in bin b. |
| `Binning.Edges` | featuremapper/analysis/hypercolumns.py:195 | The returned edges are the h+1 integers 0..h in increasing order. |
| `Binning.MeanProfile` | featuremapper/analysis/hypercolumns.py:208-212 | Under the mean, each bin's value is the mean of 1 - v over that bin's cells. The sorting does not change it. |
| `Binning.ConstantSpectrum` | featuremapper/analysis/hypercolumns.py:194-212 | A constant spectrum c yields 1 - c in every bin under the mean, for every side length. |
| `Stats.Mean` | featuremapper/analysis/hypercolumns.py:212 | `np.mean`, the default aggregation (line 76) and also the baseline of the guess (line 245): for a non-empty sequence, mean times length equals the sum. |
| `Stats.Sort` | featuremapper/analysis/hypercolumns.py:208 | `sorted` keeps the length. That it returns an ascending permutation is stated by `SortSpec`. |
| `Stats.SortSpec` | featuremapper/analysis/hypercolumns.py:208 | `sorted` returns an ascending permutation of its input. |
| `Stats.InsertSorted` | featuremapper/analysis/hypercolumns.py:208 | Inserting into a sorted sequence keeps it sorted. |
| `Stats.InsertPermutes` | featuremapper/analysis/hypercolumns.py:208 | Insertion adds exactly the new element to the multiset. |
| `Stats.SumSort` | featuremapper/analysis/hypercolumns.py:208-212 | Sorting preserves the sum. |
| `Stats.MeanSort` | featuremapper/analysis/hypercolumns.py:208-212 | Sorting preserves the mean, so the order of the values does not matter to `np.mean`. |
| `Stats.MeanOfConstant` | featuremapper/analysis/hypercolumns.py:212 | The mean of a non-empty constant sequence is that constant. |
| `Stats.ArgMax` | featuremapper/analysis/hypercolumns.py:244 | `np.argmax` returns an index of a largest element, and it is the first such index. |
| `Estimation.RawPeak` | featuremapper/analysis/hypercolumns.py:244 | The raw peak lies in 1..len-1, so DC is never chosen. It has the largest power among bins 1.., and every earlier bin 1..k-1 has strictly less. |
| `Estimation.AutoInitialGuess` | featuremapper/analysis/hypercolumns.py:244-249 | The automatic guess is centred on the raw peak (a1 = peak, at least 1.0). Its baseline a3 is the profile mean and its height plus baseline equal the peak's power. Spread a2 is 4.0 and a4 = a5 = 0. |
| `Estimation.Wavenumbers` | featuremapper/analysis/hypercolumns.py:241 | The fit's x values are 0..n-1. |
| `Estimation.Attempt` | featuremapper/analysis/hypercolumns.py:248-255 | The solver is called on the wavenumbers 0..n-1 and the profile, seeded with the user's guess when one is given and with the automatic guess otherwise. |
| `Estimation.ValidFit` | featuremapper/analysis/hypercolumns.py:256-262 | A fit is kept iff the solver returned coefficients with a1 > 0, and it is then returned as is. |
| `Estimation.UnitsPerHypercolumn` | featuremapper/analysis/hypercolumns.py:268-269 | The full width when kmax ≤ 1.0, with 1.0 itself included. Otherwise units·kmax = width. Always 0 < units ≤ width. |
| `Estimation.Conclude` | featuremapper/analysis/hypercolumns.py:261-277 | kmax is a1 with a fit and the raw peak without one, and then k_delta = 0. Always k_delta = kmax - raw peak and kmax > 0. Units follow the full-width rule, and cycles·units = density. |
| `Estimation.ProfileHasPeakCandidate` | featuremapper/analysis/hypercolumns.py:240-244 | The profile of a non-empty square spectrum has a bin besides DC iff the side is at least 3. |
| `Estimation.EstimateHypercolumnDistance` | featuremapper/analysis/hypercolumns.py:234-277 | It fails iff the spectrum is non-square or its side is below 3, each with its own error. On success the profile is the binning's, and kmax > 0. |
| `Estimation.FitFallback` | featuremapper/analysis/hypercolumns.py:242-277 | A fit is returned iff the solver, seeded with the user's guess or the automatic one, succeeded with a1 > 0, and then kmax = a1. Otherwise kmax is the raw peak and k_delta = 0. kmax > 0 in both cases. Units and cycles are computed from the original, untruncated side length. |
| `Analysis.Density` | featuremapper/analysis/hypercolumns.py:116-123 | It succeeds iff the width and height are non-zero and dim1/\|r-l\| = dim2/\|t-b\|. A zero extent fails with ZeroExtent. The density times the width gives dim1, and times the height gives dim2. |
| `Analysis.Rho` | featuremapper/analysis/hypercolumns.py:134 | rho·kmax² equals the pinwheel count. |
| `Analysis.FitTable` | featuremapper/analysis/hypercolumns.py:151-156 | There is a table iff one is requested. Its keys are exactly a0..a5. Each key holds '-' when there is no fit and the matching coefficient when there is one. |
| `Analysis.Process` | featuremapper/analysis/hypercolumns.py:113-157 | A density failure is returned before any binning. It succeeds iff the density check and the estimate both succeed. The report carries the estimate's values, `Rho` of the pinwheel count and kmax (so rho·kmax² = count), the metric of rho, and the fit table. |
| `Analysis.DensityMismatchRejected` | featuremapper/analysis/hypercolumns.py:118-122 | Mismatched x- and y-densities give DensityMismatch whatever the spectrum. |

## Left out

- The gamma metric. `gamma_dist` and `gamma_metric` (lines 160-175) use `exp`, real powers and the Gamma function. They are the opaque parameter `gammaMetric` of `Process`.
- The Kaschube fit function, `fit_samples` and scipy's `curve_fit` (lines 217-231, 253-255). These are a float model, sampling and a foreign iterative solver. They are the oracle `CurveFit`, so the model does not check that a fit recovers known coefficients.
- A user-supplied `init_fit`. The source declares it a dictionary (line 57) and passes it as is to `curve_fit` (lines 251-255). Read as text, the solver would then receive a one-element object array rather than six numbers, and may well raise, which the bare `except` turns into "no fit". The model hands six coefficients to the solver oracle. The oracle is unconstrained, so "no fit" is among its outcomes, but the model does not state that a user guess always fails.
- The tree plumbing of `_process` (lines 93-115, 124-131, 137-150, 154-157). This covers the cyclic-map search and its exception, the pinwheel search and `PinwheelAnalysis`, the in-place pop/append on `elements`, the spectrum search and `fft_power`, and the holoviews elements built for display. The pinwheel count and the spectrum are arguments.
- The `self._density` field. The density is an explicit argument of the estimate instead.
- Style registration (lines 280-284) and the truncation warning (line 188). They are presentation and logging.
- Floating point. NaN, infinities and rounding are not modelled: reals are exact. The source is Python 2, so `/` on two integers floor-divides. With integer bounds the density (lines 118-119) is an integer quotient. When in addition kmax ≤ 1.0, `units_per_hypercolumn` is the integer `dim` (line 269), so `cycles` (line 270) floor-divides too. The model uses real division in both places.
- `Stats.Mean` of an empty sequence is 0.0, where numpy gives NaN. The binning never applies it to an empty bin, and the estimate never applies it to an empty profile.
- `Analysis.Rho` states rho·kmax² = count, not that rho is non-negative.
