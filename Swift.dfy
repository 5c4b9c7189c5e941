/** The pieces of Swift's standard library that the examples rely on:
    the 64-bit `Int`, arithmetic that traps on overflow, and `Optional`. */
module Swift {

  /** Bounds of Swift's `Int` on a 64-bit platform. */
  const IntMin: int := -0x8000_0000_0000_0000
  const IntMax: int := 0x7fff_ffff_ffff_ffff

  predicate InRange(x: int) {
    IntMin <= x <= IntMax
  }

  type Int = x: int | InRange(x)

  /** Outcome of Swift's `+` or `*` on `Int`: the exact value, or a runtime
      trap when it does not fit (Swift does not wrap around). */
  datatype Checked = Value(value: Int) | Overflow

  /** `x + y` on `Int`. */
  function Add(x: Int, y: Int): Checked {
    if InRange(x + y) then Value(x + y) else Overflow
  }

  /** `x * y` on `Int`. */
  function Mul(x: Int, y: Int): Checked {
    if InRange(x * y) then Value(x * y) else Overflow
  }

  /** Swift's `T?`. */
  datatype Optional<T> = None | Some(value: T)

  /** Adding zero never traps and changes nothing. */
  lemma AddZero(x: Int)
    ensures Add(x, 0) == Value(x)
  {
  }
}
