/** The nullable-value wrapper shared by every module of the model: `None` stands
    for Java's `null`. */
module Wrappers {

  datatype Option<+T> = None | Some(value: T)
}
