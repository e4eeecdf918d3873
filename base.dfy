/** Failure-compatible wrappers and the error conditions of the power-spectrum analysis. */
module Base {

  datatype Option<+T> = None | Some(value: T) {
    function GetOr(default: T): T {
      match this
      case Some(v) => v
      case None => default
    }
  }

  datatype Result<+T, +E> = Success(value: T) | Failure(error: E)

  /** The ways an analysis call can fail. */
  datatype Error =
    | NotSquare        // the spectrum is not square (assertion in wavenumber_spectrum)
    | EmptySpectrum    // a 0x0 spectrum: nothing to group, the unpacking of the groups raises
    | EmptyBin         // some wavenumber bin received no cell (the length assertion)
    | NoPeakCandidate  // only the DC bin exists, so argmax over bins 1.. has nothing to choose from
    | ZeroExtent       // the preference map has zero width or height: the density divides by zero
    | DensityMismatch  // x- and y-density of the preference map differ
}
