/** Small value types shared by the model of every source file. */
module Basics {

  /** Python's None-or-value, used wherever the source keeps an attribute that may be None. */
  datatype Option<+T> = None | Some(value: T)

  /** One octet, as Python's `bytes` holds it. */
  type Byte = b: int | 0 <= b < 256
}
