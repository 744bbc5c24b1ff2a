/** Optional values and pass/fail outcomes, the two wrappers the model needs. */
module Wrappers {

  /** std::optional, and the null-handle sentinel of a Vulkan handle. */
  datatype Option<+T> = None | Some(value: T)

  /** The outcome of an initialisation step: it either finishes or throws
      a runtime error, described by E. */
  datatype Outcome<+E> = Pass | Fail(error: E)
}
