# GoodCoder tips, modelled in Dafny

GoodCoder is a teaching app with one table screen. Each of its ten rows runs a
short Swift "tip". Each tip pairs a clumsy version of a snippet (marked "💩 Code"
and usually commented out) with a cleaner one that does the same job. The tip
then reports its result in a status toast.

This project models:

- the row dispatcher `tableView(_:didSelectRowAt:)`;
- each tip's computation, as a function or method;
- for each pair, a proof that the clean and the clumsy version agree, or a
  proof that they do not.

Modules:

- `Swift`: the 64-bit `Int`, `+` and `*` that trap on overflow (`Checked`), and `Optional`.
- `Extension` (tip 1): `Int.squared` against `squarefunc(x:)`.
- `Loops` (tip 3): `for _ in 1...5` against the `while 5 > i` counter.
- `OptionalUnwrapping` (tip 4): `guard let` against nested `if … != nil`.
- `ComputedProperty` (tip 5): the global `radius` with its computed `diameter`, as class `Circle`, against `getDiameter`/`getRadius`.
- `EnumSafety` (tip 6): the exhaustive `People` switch against the string switch with a `default`.
- `NilCoalescing` (tip 7): `??` against the if/else.
- `ConditionalCoalescing` (tip 8): the ternary against the if/else that reassigns `finalHeight`.
- `Functional` (tip 9): `filter { $0 % 2 == 0 }` over `1...10` against the loop that appends to `newEvens`.
- `Closures` (tip 10): the stored closure `sumUsingClosure` against `sum(x:y:)`.
- `RowSelection`: the row `switch`, the toast each tip shows, and the method that runs the selected tip.

Two behaviours of the code are worth stating up front:

- The dispatcher has no out-of-range case. Every row other than 0 to 8, including 9 and negative rows, runs `ten()`.
- `myUsername` and `myPassword` are never assigned, so both stay `nil`. `four()` therefore never prints "Welcome!", as its own toast ("console stays quiet") says.

## Model

| member | source | states |
|---|---|---|
| RowSelection.Dispatch | GoodCoder/TableViewController.swift:24-48 | row k in 0..8 selects the k-th example in table order; any other row selects `ten` |
| RowSelection.DispatchInOrder | GoodCoder/TableViewController.swift:26-47 | rows 0..8 select examples 1..9 in order; `ten` is selected exactly when the row is outside 0..8 |
| RowSelection.EveryExampleReachable | GoodCoder/TableViewController.swift:26-47 | every example is selected by the row one below its number |
| RowSelection.DidSelectRow | GoodCoder/TableViewController.swift:24-48 | running the selected example produces the toast that example shows (25, fare $7 for an adult, "red", 190, [2, 4, 6, 8, 10], 11, the circle's diameter and radius); "Welcome!" is printed only by `four` and only when both optionals are set |
| Extension.SquaredOfFive | GoodCoder/TableViewController.swift:56 | `5.squared` is 25 |
| Extension.SquaredIsSquarefunc | GoodCoder/TableViewController.swift:59-63 | `x.squared` and `squarefunc(x:)` agree on every Int, traps included; a result that does not trap is the exact, non-negative square |
| Extension.SquaredTrapsExactlyBeyond | GoodCoder/TableViewController.swift:62 | `x.squared` traps exactly when abs(x) > 3037000499 |
| Loops.RepeatWhile | GoodCoder/TableViewController.swift:99-103 | the counter loop runs its body max(limit, 0) times and leaves i equal to that count |
| Loops.RepeatFor | GoodCoder/TableViewController.swift:104 | `for _ in lo...hi` runs its body hi - lo + 1 times |
| Loops.Three | GoodCoder/TableViewController.swift:104 | `for _ in 1...5` runs its body 5 times |
| Loops.ThreeWithWhile | GoodCoder/TableViewController.swift:99-103 | `while 5 > i` runs its body 5 times and ends with i == 5 |
| OptionalUnwrapping.GuardLet | GoodCoder/TableViewController.swift:122-127 | the `guard let` reaches "Welcome!" exactly when both optionals hold a value |
| OptionalUnwrapping.NestedIf | GoodCoder/TableViewController.swift:115-121 | the nested `if != nil` reaches "Welcome!" on exactly the same inputs as the `guard let` |
| OptionalUnwrapping.FourStaysQuiet | GoodCoder/TableViewController.swift:110-127 | with both globals left nil, "Welcome!" is not printed |
| ComputedProperty.GetRadiusGetDiameter | GoodCoder/TableViewController.swift:146-147 | `getRadius` and `getDiameter` are inverse to each other |
| ComputedProperty.Circle.constructor | GoodCoder/TableViewController.swift:131 | the radius starts at 10 |
| ComputedProperty.Circle.Diameter | GoodCoder/TableViewController.swift:132-133 | the getter agrees with `getDiameter(radius:)`, and `getRadius` of it gives the radius back |
| ComputedProperty.Circle.SetDiameter | GoodCoder/TableViewController.swift:134 | after the setter, the radius is `getRadius(newValue)` and the getter returns `newValue` |
| ComputedProperty.DiameterSetterRoundTrip | GoodCoder/TableViewController.swift:132-135 | writing back the diameter just read leaves the radius unchanged |
| ComputedProperty.FiveAtLaunch | GoodCoder/TableViewController.swift:138-143 | at launch, `five` reports diameter 20 and radius 10 |
| EnumSafety.FareByLabelAgrees | GoodCoder/TableViewController.swift:156-174 | the string switch and the enum switch give the same fare; the string switch takes `default` exactly for strings that name no person |
| EnumSafety.FareFacts | GoodCoder/TableViewController.swift:162-174 | different people have different labels; the demo's adult pays $7 |
| NilCoalescing.CoalesceIsIfElse | GoodCoder/TableViewController.swift:186-193 | `??` yields the wrapped value when there is one and the default otherwise, which is what the intended if/else computes |
| NilCoalescing.AsWrittenDisagrees | GoodCoder/TableViewController.swift:186-191 | the commented-out if/else agrees with `??` only for the choice "Color"; for the demo's "red" it gives "Color" |
| NilCoalescing.Seven | GoodCoder/TableViewController.swift:183-193 | `seven` uses the colour "red" |
| ConditionalCoalescing.IfElseHeight | GoodCoder/TableViewController.swift:205-211 | the if/else that reassigns `finalHeight` computes the same result as the ternary, traps included |
| ConditionalCoalescing.TernaryHeightAdds | GoodCoder/TableViewController.swift:213 | spiky hair adds exactly 5 and otherwise the height is unchanged; it traps only for a height above IntMax - 5 |
| ConditionalCoalescing.Eight | GoodCoder/TableViewController.swift:203-213 | height 185 with spiky hair gives 190 |
| Functional.ClosedRange | GoodCoder/TableViewController.swift:230 | `Array(lo...hi)` has hi - lo + 1 elements, and element k is lo + k |
| Functional.Filter | GoodCoder/TableViewController.swift:230 | `filter` keeps exactly the elements that satisfy the predicate, each as many times as it occurs, and never gets longer |
| Functional.FilterKeepsIncreasing | GoodCoder/TableViewController.swift:230 | `filter` keeps an ascending array ascending |
| Functional.EvensExactly | GoodCoder/TableViewController.swift:230 | the filtered range holds every even number from lo to hi and nothing else, in ascending order |
| Functional.EvensAre | GoodCoder/TableViewController.swift:230 | any ascending sequence of exactly those even numbers is the filtered range |
| Functional.EvensOneToTen | GoodCoder/TableViewController.swift:228-230 | filtering 1...10 gives [2, 4, 6, 8, 10] |
| Functional.EvensByLoop | GoodCoder/TableViewController.swift:224-227 | the loop that appends to `newEvens` builds the same array as the `filter` |
| Functional.Nine | GoodCoder/TableViewController.swift:230 | `nine` shows [2, 4, 6, 8, 10] |
| Closures.ClosureIsSum | GoodCoder/TableViewController.swift:238-249 | the closure and `sum(x:y:)` agree on every pair of Ints; a sum that does not trap is exact, and it traps exactly when x + y is out of range |
| Closures.Ten | GoodCoder/TableViewController.swift:241-244 | `sumUsingClosure(5, 6)` is 11 |

## Left out

- GoodCoder/SwiftProgressHUD.swift: a pass-through to a third-party toast library. The model records which toast is shown, not how it looks.
- Toast wording: the interpolated message strings, including the Chinese text and how numbers and arrays are printed, are not modelled. A `Toast` carries the values the message reports.
- Console output: every `print` is left out. That includes all of `two()`, with `printElementFromArray` and the `print*Array` helpers, which only print. The one console effect that is modelled is whether `four()` reaches "Welcome!". The loops of `three()` report how many times their body ran.
- The UIKit plumbing: `viewDidLoad`, `didReceiveMemoryWarning`, and everything about the table view except `indexPath.row`.
- Double: `radius`, `diameter`, `getDiameter` and `getRadius` use `real`, an idealisation of IEEE `Double`. Rounding is not modelled.
- Int width: Swift's `Int` is taken to be 64 bits wide. Overflow of `*` and `+` is a trap (`Checked.Overflow`), not wrap-around.
- Globals: `myUsername`, `myPassword` and `sumUsingClosure` are mutable globals that nothing reassigns, so they are modelled as constants.
- The global `radius` is a `Circle` object. `RowSelection.DidSelectRow` receives it as a parameter. Nothing in the program calls the `diameter` setter.
- Evaluation order in tip 7: the commented-out if/else reads `userChosenColor` before the `let` has been assigned. Swift would reject that order. The model evaluates it with the value assigned at line 192.
- The members below model source lines but carry no `ensures` of their own, so they have no row above. The lemmas and methods named on each line state their properties.
- Swift.Add: Swift's `+` on `Int`; its exactness and trap are stated by Closures.ClosureIsSum and ConditionalCoalescing.TernaryHeightAdds.
- Swift.Mul: Swift's `*` on `Int`; its exactness and trap are stated by Extension.SquaredIsSquarefunc and Extension.SquaredTrapsExactlyBeyond.
- Extension.Squared: `Int.squared` (line 62); see Extension.SquaredIsSquarefunc, Extension.SquaredTrapsExactlyBeyond and Extension.SquaredOfFive.
- Extension.Squarefunc: `squarefunc(x:)` (line 59); see Extension.SquaredIsSquarefunc.
- ComputedProperty.GetDiameter: `getDiameter(radius:)` (line 146); see ComputedProperty.GetRadiusGetDiameter and ComputedProperty.Circle.Diameter.
- ComputedProperty.GetRadius: `getRadius(diameter:)` (line 147); see ComputedProperty.GetRadiusGetDiameter and ComputedProperty.Circle.SetDiameter.
- EnumSafety.Fare: the enum `switch` (lines 164-174); see EnumSafety.FareByLabelAgrees and EnumSafety.FareFacts.
- EnumSafety.Label: the case strings of the string `switch` (lines 157-159); see EnumSafety.FareByLabelAgrees and EnumSafety.FareFacts.
- EnumSafety.FareByLabel: the string `switch` with `default` (lines 156-161); see EnumSafety.FareByLabelAgrees.
- NilCoalescing.Coalesce: `??` (line 193); see NilCoalescing.CoalesceIsIfElse and NilCoalescing.Seven.
- NilCoalescing.ColorByIfElse: the if/else of lines 186-191 as evidently intended; see NilCoalescing.CoalesceIsIfElse.
- NilCoalescing.ColorByIfElseAsWritten: the if/else of lines 186-191 as written; see NilCoalescing.AsWrittenDisagrees.
- ConditionalCoalescing.TernaryHeight: the ternary (line 213); see ConditionalCoalescing.TernaryHeightAdds, ConditionalCoalescing.IfElseHeight and ConditionalCoalescing.Eight.
- Functional.Evens: `Array(lo...hi).filter { $0 % 2 == 0 }` (line 230); see Functional.EvensExactly, Functional.EvensAre, Functional.EvensOneToTen and Functional.EvensByLoop.
- Closures.Sum: `sum(x:y:)` (line 249); see Closures.ClosureIsSum.
- Closures.SumUsingClosure: the closure `{ $0 + $1 }` (line 238), a constant; see Closures.ClosureIsSum and Closures.Ten.
- RowSelection.ShownToast: the toast of each example (the `showSuccess` calls at lines 57, 81, 105, 123, 143, 167-173, 194, 214, 231 and 245); see RowSelection.DidSelectRow.

## Findings

| source | as written | input that shows it | evidently intended | confidence | as-written member | corrected member |
|---|---|---|---|---|---|---|
| GoodCoder/TableViewController.swift:186-191 | the if/else that `??` replaces assigns the string literals "Color" and "defaultColor" | `userChosenColor = "red"`: the if/else gives "Color", `userChosenColor ?? defaultColor` gives "red"; with nil it gives "defaultColor" instead of "Red" | assign `userChosenColor!` and `defaultColor` | not executed; high (plain string literals) | NilCoalescing.ColorByIfElseAsWritten, shown by NilCoalescing.AsWrittenDisagrees | NilCoalescing.ColorByIfElse, proved equal to `??` by NilCoalescing.CoalesceIsIfElse |
