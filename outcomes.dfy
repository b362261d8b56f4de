/** Option, the exceptions the loss code can raise, and a failure-compatible Result. */
module Outcomes {

  datatype Option<+T> = None | Some(value: T)

  /** The exceptions that can leave the Fast R-CNN loss code, by kind. */
  datatype Error =
    | SubsampleNotCalled        // RuntimeError: the loss is asked for before any subsample
    | MissingField(name: string) // KeyError from BoxList.get_field / copy_with_fields
    | NoneTensor                // TypeError: a field or list entry holding None used as a tensor
    | IndexOutOfRange           // IndexError from indexing a list or a tensor
    | EmptyConcat               // concatenation of an empty list of tensors
    | NoBranch                  // AssertionError: neither class logits nor box regression given
    | ShapeMismatch             // tensors whose shapes do not fit together
    | TargetOutOfBounds         // a class label outside the range of the logits

  datatype Result<+T> = Ok(value: T) | Err(error: Error) {
    predicate IsFailure() { Err? }

    function PropagateFailure<U>(): Result<U>
      requires Err?
    {
      Err(error)
    }

    function Extract(): T
      requires Ok?
    {
      value
    }

    /** An Ok value wrapped in Some, an error passed on. */
    function Lift(): Result<Option<T>> {
      if Ok? then Ok(Some(value)) else Err(error)
    }
  }
}
