/** The few types that several parts share. */
module Basics {

  datatype Option<T> = None | Some(value: T)

  type Byte = b: int | 0 <= b < 256

  /** A 16-bit word. */
  type Word = w: int | 0 <= w < 0x1_0000

  /** `htons` on a host of either byte order. */
  function Htons(little: bool, w: Word): Word {
    if little then w % 256 * 256 + w / 256 else w
  }

  /** A mark for invariants that stay folded until somebody mentions it. */
  predicate Unfold(b: bool) {
    true
  }
}
