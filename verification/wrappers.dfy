/** Small result types used in place of Java's null and exceptions. */
module Wrappers {

  /** A reference that may be null: `None` stands for Java's `null`. */
  datatype Option<+T> = None | Some(value: T)

  /** The outcome of a check that either returns normally or throws
      `IllegalArgumentException`; `Fail` carries why it threw. */
  datatype Outcome<+E> = Pass | Fail(error: E)
}
