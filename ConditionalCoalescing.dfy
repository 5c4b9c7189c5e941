/** Example 8, "Conditional Coalescing": a ternary instead of an if/else
    that reassigns `finalHeight`. */
module ConditionalCoalescing {
  import opened Swift

  /** `let currentHeight = 185` */
  const CurrentHeight: Int := 185
  /** `let hasSpikyHair = true` */
  const HasSpikyHair: bool := true

  /** `currentHeight + (hasSpikyHair ? 5 : 0)`; the addition traps on overflow. */
  function TernaryHeight(currentHeight: Int, hasSpikyHair: bool): Checked {
    Add(currentHeight, if hasSpikyHair then 5 else 0)
  }

  /** The commented-out version: `var finalHeight = 0`, then
      `finalHeight = currentHeight + 5` or `finalHeight = currentHeight`. */
  method IfElseHeight(currentHeight: Int, hasSpikyHair: bool) returns (finalHeight: Checked)
    ensures finalHeight == TernaryHeight(currentHeight, hasSpikyHair)
  {
    finalHeight := Value(0);
    if hasSpikyHair {
      finalHeight := Add(currentHeight, 5);
    } else {
      finalHeight := Value(currentHeight);
    }
  }

  /** Spiky hair adds exactly 5 and otherwise the height is unchanged; the
      only trap is a height within 5 of `IntMax`. */
  lemma TernaryHeightAdds(currentHeight: Int, hasSpikyHair: bool)
    ensures !hasSpikyHair ==> TernaryHeight(currentHeight, hasSpikyHair) == Value(currentHeight)
    ensures hasSpikyHair ==>
              (TernaryHeight(currentHeight, hasSpikyHair).Overflow? <==> currentHeight > IntMax - 5)
    ensures TernaryHeight(currentHeight, hasSpikyHair).Value? ==>
              TernaryHeight(currentHeight, hasSpikyHair).value
              == currentHeight + (if hasSpikyHair then 5 else 0)
  {
    AddZero(currentHeight);
  }

  /** `eight()`: 185 with spiky hair gives 190. */
  function Eight(): (finalHeight: Int)
    ensures finalHeight == 190
  {
    TernaryHeight(CurrentHeight, HasSpikyHair).value
  }
}
