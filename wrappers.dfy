/** The optional value used throughout the model: `None` stands for JavaScript's
    `null`/`undefined` where the source reads something that may be missing. */
module Wrappers {

  datatype Option<+T> = None | Some(value: T)
}
