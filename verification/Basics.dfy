/** What every part of the model uses: an optional value, and the limits of the machine words. */
module Basics {
  datatype Option<+T> = None | Some(value: T)

  const USIZE_MAX: nat := 0xFFFF_FFFF_FFFF_FFFF
  const ISIZE_MAX: nat := 0x7FFF_FFFF_FFFF_FFFF
}
