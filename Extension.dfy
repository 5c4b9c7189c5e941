/** Example 1, "Extension": squaring a number through an `Int` extension
    property instead of a free function. */
module Extension {
  import opened Swift

  /** The largest `Int` whose square is still an `Int`: the integer part of
      the square root of `IntMax`. */
  const LargestSquarable: int := 3037000499

  /** `extension Int { var squared: Int { return self * self } }` */
  function Squared(x: Int): Checked {
    Mul(x, x)
  }

  /** `func squarefunc(x: Int) -> Int { return x * x }`, the version the
      extension replaces. */
  function Squarefunc(x: Int): Checked {
    Mul(x, x)
  }

  /** `one()`: `5.squared`. */
  function SquaredOfFive(): (squaredOfFive: Int)
    ensures squaredOfFive == 25
  {
    Squared(5).value
  }

  /** The extension property and the free function agree on every `Int`,
      trapping included, and a result that does not trap is the exact,
      non-negative square. */
  lemma SquaredIsSquarefunc(x: Int)
    ensures Squared(x) == Squarefunc(x)
    ensures Squared(x).Value? ==> Squared(x).value == x * x >= 0
  {
  }

  /** `x.squared` traps exactly when `|x|` exceeds `LargestSquarable`. */
  lemma {:induction false} SquaredTrapsExactlyBeyond(x: Int)
    ensures Squared(x).Value? <==> -LargestSquarable <= x <= LargestSquarable
  {
    var n: int := x;
    var a: nat := if n < 0 then -n else n;
    var sq := x * x;
    assert sq == a * a by {
      if x < 0 { NegSquare(x); }
    }
    SquareFits(a);
    assert Squared(x).Value? <==> sq <= IntMax;
  }

  /** A natural number's square fits in an `Int` exactly up to `LargestSquarable`. */
  lemma SquareFits(a: nat)
    ensures a * a <= IntMax <==> a <= LargestSquarable
  {
    if a <= LargestSquarable {
      SquareMonotone(a, LargestSquarable);
      assert LargestSquarable * LargestSquarable == 9223372030926249001;
    } else {
      SquareMonotone(LargestSquarable + 1, a);
      assert (LargestSquarable + 1) * (LargestSquarable + 1) == 9223372037000250000;
    }
  }

  lemma NegSquare(x: int)
    ensures x * x == (-x) * (-x)
  {
  }

  lemma SquareMonotone(a: nat, b: nat)
    requires a <= b
    ensures a * a <= b * b
  {
    var d: nat := b - a;
    var e: nat := 2 * a + d;
    var g: nat := d * e;
    calc {
      b * b;
      (a + d) * (a + d);
      a * a + d * (2 * a + d);
      a * a + g;
    }
  }
}
