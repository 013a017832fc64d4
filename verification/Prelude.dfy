/** Small shared datatypes. */
module Prelude {
  datatype Option<+T> = None | Some(value: T)

  // size_t is 64 bits wide.
  const SIZE_LIMIT: nat := 0x1_0000_0000_0000_0000
}
