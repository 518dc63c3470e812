/** Values the source shares across its modules. */
module Wrappers {
  /** In place of the source's `undefined` and `null`. */
  datatype Option<+T> = None | Some(value: T)

  /** A number from outside: NaN, the infinities and what is no number carry no value. */
  datatype Number = Finite(value: real) | NotFinite
}
