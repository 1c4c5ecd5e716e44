/** Failure-compatible wrappers shared by the scraping model.

    The scripts signal failure by raising (Python) or by returning
    `undefined` (JavaScript); the model makes both explicit. */
module Results {

  /** A value that may be absent: Python's `None`, JavaScript's `undefined`. */
  datatype Option<+T> = None | Some(value: T)

  /** The exceptions the Python scraping cycle can raise from its own data
      processing (not from the automation driver or the network). */
  datatype Error =
    | NoDigitRun               // `re.findall(...)[0]` on a label without digits: IndexError
    | PopFromEmptyList         // `list.pop(0)` on an empty list: IndexError
    | KeyNotFound(key: string) // `orders_hash[name]` for an absent name: KeyError
    | NotAnInteger(text: string) // `int(text)` on a non-numeric text: ValueError

  datatype Result<+T> = Success(value: T) | Failure(error: Error) {

    predicate IsFailure() {
      Failure?
    }

    function PropagateFailure<U>(): Result<U>
      requires Failure?
    {
      Failure(error)
    }

    function Extract(): T
      requires Success?
    {
      value
    }
  }
}
