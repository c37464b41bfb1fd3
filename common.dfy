/** Small value types shared by the modules of this model. */
module Common {

  /** A Python value that may be `None`. */
  datatype Option<+T> = None | Some(value: T)

  /** One element of a Python `bytes` object. */
  newtype byte = x: int | 0 <= x < 0x100

  /** `s` repeated `n` times, as Python's `s * n` on lists. */
  function Repeat<T>(s: seq<T>, n: nat): (r: seq<T>)
    ensures |r| == n * |s|
  {
    if n == 0 then [] else Repeat(s, n - 1) + s
  }
}
