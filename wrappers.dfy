/** Option and Result types shared by the whole model.  A Python exception
    that the source lets escape (an index past the end of a list, a text
    that int() refuses) is modelled as an Err value of the matching kind. */
module Wrappers {

  datatype Option<T> = None | Some(value: T)

  /** The Python exceptions the modelled code can raise on malformed input. */
  datatype PyError =
    | IndexError   // a list or string index past its end
    | ValueError   // int() or float() given text that is not a number

  datatype Result<T> = Ok(value: T) | Err(error: PyError)
  {
    predicate IsFailure() { Err? }

    function PropagateFailure<U>(): Result<U>
      requires Err?
    {
      Err(error)
    }

    function Extract(): T
      requires Ok?
    {
      value
    }
  }
}
