/** Optional values, the exceptions the pipeline can raise, and results that carry them. */
module Wrappers {

  /** A JavaScript value that may be `undefined` or `null`. */
  datatype Option<+T> = None | Some(value: T) {
    /** The `??` operator: the value when present, otherwise the default. */
    function GetOr(default: T): T {
      match this
      case Some(v) => v
      case None => default
    }
  }

  /** The exceptions thrown along the export pipeline, by kind. */
  datatype Fault =
    | SchemaViolation                 // a zod `parse` rejected the record
    | InvalidBase64                   // `atob` rejected its argument (DOMException)
    | UndefinedRead(property: string) // a property read or written on `undefined` (TypeError)
    | NullRead(property: string)      // a property read on `null` (TypeError)
    | InvalidJson                     // `JSON.parse` of a text that is not JSON (SyntaxError)
    | NotFound(message: string)       // `throw new Error('... not found')`
    | InvalidColor                    // `throw new Error('Invalid color format')`
    | NullField(message: string)      // `throw new Error('<field> is null')`

  /** The outcome of a call that either returns a value or throws. */
  datatype Result<+T> = Ok(value: T) | Err(error: Fault)

  /** The outcome of a call that returns nothing or throws. */
  datatype Outcome = Pass | Fail(error: Fault)
}
