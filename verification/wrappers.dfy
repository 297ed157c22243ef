/** The conventional Some/None datatype, used for C# references that may be null. */
module Wrappers {

  datatype Option<+T> = None | Some(value: T)

  /** Outcome of a call into a collaborator that may throw. */
  datatype Attempt<+T> = Ok(value: T) | Throw(fault: Fault)

  /** An exception escaping a collaborator, identified only by its message. */
  datatype Fault = Fault(message: string)
}
