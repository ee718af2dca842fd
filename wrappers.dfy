/** Option and Result values, and the error conditions the forecasting code raises. */
module Wrappers {

  datatype Option<+T> = None | Some(value: T)

  /** The ways an operation of the forecasting code can fail, each named after
      the Python exception or the situation that raises it. */
  datatype Error =
    | ModelNotFound      // ValueError "Model for station ... not found."
    | EmptySeries        // IndexError on `serie.index[-1]` of an empty series
    | MissingKey         // KeyError on a dictionary or column lookup
    | LengthMismatch     // ValueError when a column of the wrong length is assigned
    | NotEnoughHistory   // ValueError "Expected ... data points, but got ..."
    | NoWindows          // IndexError on `models[-1]` when no window was fitted
    | NoSamples          // ValueError when a metric is asked of empty arrays
    | ZeroWeights       // ZeroDivisionError when the sample weights sum to zero
    | ZeroStep           // ValueError when a range step is zero
    | MissingSeparator   // ValueError when a line cannot be unpacked at '='
    | IllegalName        // ValueError for an empty environment variable name
    | NotTrained         // AttributeError when predict runs before train
    | FeatureMismatch    // ValueError "The feature names should match those that were passed during fit."

  datatype Result<+T> = Ok(value: T) | Err(error: Error)
}
