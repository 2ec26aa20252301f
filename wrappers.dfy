/** The optional-value wrapper used throughout the model: a JavaScript
    `undefined`/`null`, a rejected promise or a missing entry is `None`. */
module Wrappers {
  datatype Option<+T> = None | Some(value: T)
}
