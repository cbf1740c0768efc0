/**
 * Failure-carrying values shared by every module of the model.
 *
 * Python raises an exception where the model returns `Err(e)`; the
 * error kinds name the exception the original code would raise.
 */
module Wrappers {

  datatype Option<+T> = None | Some(value: T)

  /** The exceptions the modelled Python code can raise on malformed input. */
  datatype Error =
    | IndexError(what: string)        // a list or array index past the end
    | KeyError(what: string)          // a missing dictionary or DataFrame key
    | AttributeError(what: string)    // a method the object does not have
    | UnboundLocalError(what: string) // a local read before any branch assigned it
    | ZeroDivisionError(what: string) // Python float division by 0.0
    | ValueError(what: string)        // int()/float() of non-numeric text, or math.log10 below 0
    | TypeError(what: string)         // arithmetic on a value of the wrong type

  datatype Result<+T> = Ok(value: T) | Err(error: Error)
}
