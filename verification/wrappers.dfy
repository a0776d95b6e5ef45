/** Failure-compatible wrappers shared by every module of the model.
    `None` stands for a Java `null`; `Err` stands for a thrown exception. */
module Wrappers {

  datatype Option<+T> = None | Some(value: T)

  /** The exceptions the modelled code can throw. */
  datatype Error =
    | NullParam(param: string, caller: string)  // requireNonNullParam rejected a null argument
    | NullPointer                               // a method was called on a null reference
    | NoSuchElement                             // an iterator's next() on an empty collection
    | UnitMissing                               // a Position whose unit is null reached a unit switch
    | BufferOverflow                            // ByteBuffer.putDouble past the limit
    | BufferUnderflow                           // ByteBuffer.getDouble past the limit

  datatype Result<+T> = Ok(value: T) | Err(error: Error) {

    predicate IsFailure() {
      Err?
    }

    function PropagateFailure<U>(): Result<U>
      requires Err?
    {
      Err(error)
    }

    function Extract(): T
      requires Ok?
    {
      value
    }
  }
}
