/** The absence-of-value marker shared by the model: a JavaScript `null` or `undefined`
    result is `None`, a present value is `Some`. */
module Wrappers {

  datatype Option<+T> = None | Some(value: T)

}
