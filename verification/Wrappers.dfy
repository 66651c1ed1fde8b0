/** The Option type the models use for a column, a field or an answer that may be absent, and names that
    are compared and never read. */
module Wrappers {
  datatype Option<+T> = None | Some(value: T)

  datatype Name = Name(text: string)
}
