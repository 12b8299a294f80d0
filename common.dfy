/** Shared value types: the null-able wrappers and the exceptions the core raises. */
module Common {

  /** A value that may be `null` in C#. */
  datatype Option<+T> = None | Some(value: T)

  /** A call that either returns a value or throws. */
  datatype Result<+R, +E> = Success(value: R) | Failure(error: E)

  /** A call that returns nothing or throws. */
  datatype Outcome<+E> = Pass | Fail(error: E)

  /** The argument of an `Equals(object)` override: null, an object of another type, or an instance. */
  datatype Obj<+T> = NullRef | Foreign | Inst(value: T)

  /** The run-time type of a handler (`GetType()`), identified by its full name. */
  type HandlerType = string

  /** The exceptions raised by the core. */
  datatype Error =
    | ArgumentNull                        // ArgumentNullException
    | NotSupported                        // NotSupportedException
    | KeyNotFound                         // KeyNotFoundException from a dictionary indexer
    | NullReference                       // NullReferenceException
    | CoHandlerRule(handler: HandlerType) // CoHandlerRuleException for a registered handler type
    | DuplicateKey(handler: HandlerType)  // ArgumentException from ToDictionary on a repeated key
    | ObjectDisposed                      // ObjectDisposedException when writing to a released stream
}
