/** Failure-carrying datatypes shared by the whole model.

    The source signals a detection miss by returning `None` and lets a few
    Python exceptions escape; the model keeps the two apart. */
module Outcomes {

  /** Python's `None` versus a present value. */
  datatype Option<+T> = None | Some(value: T)

  /** The Python exceptions that can escape the modelled code. */
  datatype Exception =
    | IndexError         // `markers_lengths[1]` on a one-element list
    | FileNotFoundError  // `preprocess_image` on an unreadable path

  /** The outcome of a Python call: it returned a value or raised. */
  datatype Attempt<+T> = Returned(value: T) | Raised(exception: Exception)
}
