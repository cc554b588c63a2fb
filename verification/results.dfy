/** Optional values, the exceptions the query layer raises, and a failure-compatible
    result type so that a chain of steps stops at the first raised exception. */
module Results {

  datatype Option<+T> = None | Some(value: T)

  /** One variant per exception the modelled code raises, named after its cause. */
  datatype Error =
    | DurationNotInteger               // ValueError('Durations must be integers.')
    | FieldMandatory(field: string)    // RuntimeError('The field … is mandatory')
    | FieldDoesNotExist(field: string) // RuntimeError('Field "…" does not exists for "…"'), from the compiler
    | UnknownKeyword(key: string)      // RuntimeError('The field … does not exists.'), from a model constructor
    | MeasurementIsNone                // RuntimeError('measurement cannot be None.')
    | AttributeMissing(name: string)   // AttributeError: the object has no attribute `name`
    | UnpackMismatch(count: nat)       // ValueError: a split that did not give exactly two names
    | TypeMismatch                     // TypeError: a None or a tuple where text is expected
    | NotInList(item: string)          // ValueError raised by list.index
    | IndexOutOfRange                  // IndexError
    | KeyMissing(key: string)          // KeyError

  datatype Result<+T> = Ok(value: T) | Err(error: Error) {
    predicate IsFailure() {
      Err?
    }

    function PropagateFailure<U>(): Result<U>
      requires Err?
    {
      Err(error)
    }

    function Extract(): T
      requires Ok?
    {
      value
    }
  }
}
