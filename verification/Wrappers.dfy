/** The optional value and the outcome of an operation that may be refused. */
module Wrappers {

  datatype Option<+T> = None | Some(value: T)

  /** What a caller of a storage operation can observe going wrong underneath it. */
  datatype Fault =
    | Done      // the write lands and the call returns
    | Refused   // the call throws and nothing was written
    | Lost      // the write lands and the call throws all the same
}
