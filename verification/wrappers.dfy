/** The conventional Some/None datatype, used wherever the source has a
    Python `None` or a dictionary lookup that can miss. */
module Wrappers {

  datatype Option<+T> = None | Some(value: T)

}
