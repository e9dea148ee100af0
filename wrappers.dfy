/** Optional values and pass/fail outcomes, for optional request fields and
    for calls that throw an error. */
module Wrappers {

  datatype Option<T> = None | Some(value: T)

  /** `Fail(e)` stands for a call that throws `e`; `Pass` for one that returns normally. */
  datatype Outcome<E> = Pass | Fail(error: E)
}
