/** Small helpers shared by every module. */
module Basics {

  datatype Option<+T> = None | Some(value: T)

  /** 1 for true and 0 for false, so that occurrences can be added up. */
  function Bit(b: bool): nat {
    if b then 1 else 0
  }

  function Max(a: int, b: int): int {
    if a < b then b else a
  }

  ghost predicate NoDuplicates<T>(s: seq<T>) {
    forall i, j | 0 <= i < j < |s| :: s[i] != s[j]
  }
}
