/** Option datatype shared by the lowering and the visitor. */
module Wrappers {

  /** `None` stands for "no output": the process stopped (abort, failed assertion, thrown exception). */
  datatype Option<+T> = None | Some(value: T)
}
