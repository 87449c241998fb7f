/** Shared value types: optional values, results with an error, and the
    errors the fitting engine raises at call time. */
module Common {

  datatype Option<T> = None | Some(value: T)
  {
    function GetOr(default: T): T
    {
      match this
      case Some(v) => v
      case None => default
    }
  }

  datatype Result<T, E> = Success(value: T) | Failure(error: E)

  /** The exceptions the fitting code raises while a model is in use. */
  datatype Error =
    | WidthMismatch      // y and s have different numbers of columns (assertion)
    | StimulusRows       // s does not have ds rows (assertion)
    | TooWide            // the window is wider than M_lim (ValueError)
    | IndicatorShape     // the indicator cannot be written into the data block
    | MissingOfflineData // the LNP fitter reads its offline data in online mode
    | EmptyDrawRange     // randint with an empty range: the data are narrower than M_lim
    | NoDrawForStep      // the batch of random offsets has no entry for this step
    | NegativeDimension  // an array of negative length was asked for (ValueError)
    | BatchShape         // `_ll` cannot combine the batch's shapes with θ (shape error while tracing)

  function Min(a: int, b: int): int { if a <= b then a else b }

  function Max(a: int, b: int): int { if a >= b then a else b }

  function Pow2(k: nat): (r: nat)
    ensures r >= 1
  {
    if k == 0 then 1 else 2 * Pow2(k - 1)
  }
}
