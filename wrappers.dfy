/** The Option type used for operations that can reject their input. */
module Wrappers {

  /** `None` stands for an operation that fails (in the modelled program: throws). */
  datatype Option<+T> = None | Some(value: T)
}
