/** Exceptions that the modelled Python code can raise, and the Option/Result
    wrappers that carry them. */
module Outcome {

  /** The Python exception a call ends with. */
  datatype Error =
    | ValueError(msg: string)        // raise ValueError(...)
    | UnboundTrainer                 // a bare `ValueError` expression leaves `trainer` unbound
    | TypeError(msg: string)
    | IndexError
    | KeyError(key: string)
    | AttributeError(msg: string)
    | FileNotFound(path: string)     // torch.load of a path that is absent
    | UnpicklingError(path: string)  // pickle.load of a file torch.save wrote
    | IOError(path: string)          // torch.save to a path that cannot be opened
    | ZeroDivision
    | RuntimeError(msg: string)

  datatype Option<+T> = None | Some(value: T)

  datatype Result<+T> = Ok(value: T) | Err(error: Error) {
    predicate IsFailure() { Err? }

    function PropagateFailure<U>(): Result<U>
      requires Err?
    {
      Err(error)
    }

    function Extract(): T
      requires Ok?
    {
      value
    }
  }
}
