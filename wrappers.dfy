/** Small failure-compatible wrapper used across the race model. */
module Wrappers {

  /** `None` stands for a value the program has not produced yet
      (or, for a best lap, Python's `float("inf")`). */
  datatype Option<+T> = None | Some(value: T)
}
