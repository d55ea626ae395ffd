/// Optional values, results, and the exceptions the library raises.
module Wrappers {

  /// A value that may be absent: a point label's missing `t2`, an unfilled
  /// (NaN) slot of a tier's time index, a lookup that finds nothing.
  datatype Option<+T> = None | Some(value: T)

  /// The exceptions the code raises, named after the Python class raised.
  datatype Error =
    | TimeValueError   // LabelTimeValueError: a label without t1
    | IndexError       // no such position, tier or label; ambiguous time slice
    | ValueError       // float()/int() refused a text, list.index missed, bad unpacking
    | TypeError        // iterating over a single Label
    | AttributeError   // a pattern did not match and its group was read anyway
    | ParseError       // LabelManagerParseError
    | RuntimeError     // ELAN annotation that cannot be placed in time
    | ReadError        // the bare Exception("Could not read file.")
    | KeyError         // ELAN time slot id that the document does not declare
    | Diverges         // the source loops forever here instead of raising

  /// The outcome of an operation that may raise.
  datatype Result<+T> = Ok(value: T) | Err(error: Error)
}
