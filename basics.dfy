/**
 * Small shared vocabulary: an optional value (C#'s nullable references) and
 * the fixed-width integer types of the .NET runtime.
 */
module Basics {

  /** A value that may be absent; `None` plays the role of C#'s `null`. */
  datatype Option<+T> = None | Some(value: T) {
    /** `x ?? d` */
    function GetOr(d: T): T {
      match this
      case Some(v) => v
      case None => d
    }
  }

  const TwoTo31: int := 0x8000_0000
  const TwoTo32: int := 0x1_0000_0000
  const TwoTo63: int := 0x8000_0000_0000_0000

  /** C# `int`. */
  type Int32 = x: int | -TwoTo31 <= x < TwoTo31

  /** C# `long`. */
  type Int64 = x: int | -TwoTo63 <= x < TwoTo63

  function Min(a: int, b: int): int { if a <= b then a else b }

  function Max(a: int, b: int): int { if a <= b then b else a }

  /**
   * Unchecked 32-bit two's-complement arithmetic, the default for C# `int`
   * expressions: the result is the unique `int` congruent to `x` modulo 2^32.
   */
  function Wrap32(x: int): (r: Int32)
    ensures (r - x) % TwoTo32 == 0
    ensures -TwoTo31 <= x < TwoTo31 ==> r == x
  {
    var m := x % TwoTo32;
    if m >= TwoTo31 then m - TwoTo32 else m
  }
}
