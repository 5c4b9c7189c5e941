/** Example 10, "closure vs method": adding two numbers through a stored
    closure instead of a named function. */
module Closures {
  import opened Swift

  /** The commented-out `func sum(x: Int, y: Int) -> Int { return x + y }`. */
  function Sum(x: Int, y: Int): Checked {
    Add(x, y)
  }

  /** The global `var sumUsingClosure: (Int, Int) -> (Int) = { $0 + $1 }`.
      Nothing reassigns it, so it is modelled as a constant. */
  const SumUsingClosure: (Int, Int) -> Checked := (a: Int, b: Int) => Add(a, b)

  /** The closure and the function agree on every pair of `Int`s, and a sum
      that does not trap is the exact sum. */
  lemma ClosureIsSum(x: Int, y: Int)
    ensures SumUsingClosure(x, y) == Sum(x, y)
    ensures Sum(x, y).Value? <==> InRange(x + y)
    ensures Sum(x, y).Value? ==> Sum(x, y).value == x + y
  {
  }

  /** `ten()`: `sumUsingClosure(5, 6)`. */
  function Ten(): (result: Int)
    ensures result == 11
  {
    SumUsingClosure(5, 6).value
  }
}
