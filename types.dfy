/** Shared value types of the strategy pipeline. */
module Types {

  /** An entry of a pandas column that may be NaN: `None` stands for NaN. */
  datatype Option<+T> = None | Some(value: T)

  /** The outcome of a stage that can raise. */
  datatype Result<+R, +E> = Ok(value: R) | Err(error: E)

  /** The exceptions the evaluation can end in. */
  datatype Error =
    | InvalidWindow(window: int)     // pandas refuses a negative rolling window
    | UnknownStrategy(name: string)  // no signal column was ever created
    | NoPrices                       // the last row of an empty frame was asked for
}
