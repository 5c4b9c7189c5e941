/** Example 7, "Nil Coalescing": choosing a theme colour with `??` instead
    of an if/else. */
module NilCoalescing {
  import opened Swift

  /** `let defaultColor = "Red"` */
  const DefaultColor: string := "Red"

  /** `userChosenColor` after `userChosenColor = "red"`. */
  const UserChosenColor: Optional<string> := Some("red")

  /** Swift's `optional ?? default`. */
  function Coalesce<T>(optional: Optional<T>, default: T): T {
    match optional
    case Some(v) => v
    case None => default
  }

  /** The if/else that `??` replaces, as evidently intended: the chosen
      colour when there is one, the default otherwise. */
  function ColorByIfElse(chosen: Optional<string>, default: string): string {
    if chosen.Some? then chosen.value else default
  }

  /** The commented-out if/else as written: both branches assign a string
      literal ("Color", "defaultColor") rather than the variables. */
  function ColorByIfElseAsWritten(chosen: Optional<string>): string {
    if chosen.Some? then "Color" else "defaultColor"
  }

  /** `??` yields the wrapped value when present and the default otherwise,
      which is what the intended if/else computes. */
  lemma CoalesceIsIfElse(chosen: Optional<string>, default: string)
    ensures chosen.Some? ==> Coalesce(chosen, default) == chosen.value
    ensures chosen.None? ==> Coalesce(chosen, default) == default
    ensures Coalesce(chosen, default) == ColorByIfElse(chosen, default)
  {
  }

  /** The if/else as written agrees with `??` only when the user chose the
      colour literally named "Color"; for the demo's "red" it reports "Color". */
  lemma AsWrittenDisagrees(chosen: Optional<string>)
    ensures ColorByIfElseAsWritten(chosen) == Coalesce(chosen, DefaultColor)
            <==> chosen == Some("Color")
    ensures ColorByIfElseAsWritten(UserChosenColor) == "Color"
    ensures Coalesce(UserChosenColor, DefaultColor) == "red"
  {
    if chosen.None? {
      assert "defaultColor" != DefaultColor by {
        assert "defaultColor"[0] != DefaultColor[0];
      }
    }
  }

  /** `seven()`: `userChosenColor ?? defaultColor`. */
  function Seven(): (colorToUse: string)
    ensures colorToUse == "red"
  {
    Coalesce(UserChosenColor, DefaultColor)
  }
}
