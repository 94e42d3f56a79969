/**
 * Optional values and the Python exceptions the memo filler can raise.
 * A Python call that may raise is modelled as a function returning `Result`.
 */
module Wrappers {

  datatype Option<T> = None | Some(value: T)

  /** The exception classes the modelled code can raise (or turn into an HTTP error). */
  datatype PyError =
    | AttributeError   // `.get`, `.items`, `.lower` ... on an object that lacks it
    | TypeError        // `+`/`-` on mismatched operands, iterating a number, `in` on a number
    | ValueError       // `int()` / `float()` of malformed text
    | KeyError         // `d[k]` with `k` absent
    | IndexError       // `xs[i]` past the end
    | RecursionError   // unbounded recursion through a cyclic structure
    | HttpError(status: nat)  // `HTTPException(status_code=...)`

  datatype Result<T> = Ok(value: T) | Err(error: PyError)
  {
    predicate IsFailure() { Err? }

    function PropagateFailure<U>(): Result<U>
      requires Err?
    {
      Err(error)
    }

    function Extract(): T
      requires Ok?
    {
      value
    }
  }
}
