/** The table screen: selecting a row runs one of the ten examples, which
    reports its result in a status toast. */
module RowSelection {
  import opened Swift
  import Extension
  import Loops
  import OptionalUnwrapping
  import ComputedProperty
  import EnumSafety
  import NilCoalescing
  import ConditionalCoalescing
  import Functional
  import Closures

  /** The ten example routines, `one()` to `ten()`. */
  datatype Example = One | Two | Three | Four | Five | Six | Seven | Eight | Nine | Ten

  /** The examples in the order of the table's rows. */
  const Catalog: seq<Example> := [One, Two, Three, Four, Five, Six, Seven, Eight, Nine, Ten]

  /** The number in each example's name. */
  function Number(example: Example): nat {
    match example
    case One => 1
    case Two => 2
    case Three => 3
    case Four => 4
    case Five => 5
    case Six => 6
    case Seven => 7
    case Eight => 8
    case Nine => 9
    case Ten => 10
  }

  /** The `switch indexRow` of `tableView(_:didSelectRowAt:)`. There is no
      out-of-range case: every row that is not 0 to 8 takes the `default`
      branch and runs `ten()`. */
  function Dispatch(row: int): (example: Example)
    ensures 0 <= row < |Catalog| ==> example == Catalog[row]
    ensures !(0 <= row < |Catalog|) ==> example == Ten
  {
    match row
    case 0 => One
    case 1 => Two
    case 2 => Three
    case 3 => Four
    case 4 => Five
    case 5 => Six
    case 6 => Seven
    case 7 => Eight
    case 8 => Nine
    case _ => Ten
  }

  /** Rows 0 to 8 select the examples in order, and `ten()` runs exactly for
      the rows outside 0 to 8: row 9, larger rows and negative ones. */
  lemma DispatchInOrder(row: int)
    ensures 0 <= row < 9 ==> Number(Dispatch(row)) == row + 1
    ensures Dispatch(row) == Ten <==> !(0 <= row < 9)
  {
  }

  /** Every example is reachable, from the row one below its number. */
  lemma EveryExampleReachable(example: Example)
    ensures 1 <= Number(example) <= 10
    ensures Dispatch(Number(example) - 1) == example
  {
  }

  /** What the status toast shows. The wording of the messages is not
      modelled, only the values they report. */
  datatype Toast =
    | SquareOfFive(square: int)               // one()
    | SeeConsole                              // two(), three()
    | ConsoleStaysQuiet                       // four()
    | CircleSize(diameter: real, radius: real) // five()
    | FarePaid(person: EnumSafety.People, dollars: nat) // six()
    | ThemeColor(color: string)               // seven()
    | FinalHeight(height: int)                // eight()
    | EvenNumbers(evens: seq<int>)            // nine()
    | FivePlusSix(sum: int)                   // ten()

  /** The toast each example shows; `five()` reports the current state of
      the circle. */
  function ShownToast(example: Example, radius: real): Toast {
    match example
    case One => SquareOfFive(25)
    case Two => SeeConsole
    case Three => SeeConsole
    case Four => ConsoleStaysQuiet
    case Five => CircleSize(ComputedProperty.GetDiameter(radius), radius)
    case Six => FarePaid(EnumSafety.Adult, 7)
    case Seven => ThemeColor("red")
    case Eight => FinalHeight(190)
    case Nine => EvenNumbers([2, 4, 6, 8, 10])
    case Ten => FivePlusSix(11)
  }

  /** `tableView(_:didSelectRowAt:)`: run the example the row selects. The
      toast is the one that example shows, and "Welcome!" is printed only by
      `four()` and only when both optionals hold a value. */
  method DidSelectRow(row: int, circle: ComputedProperty.Circle) returns (toast: Toast, welcomed: bool)
    ensures toast == ShownToast(Dispatch(row), circle.radius)
    ensures welcomed <==> Dispatch(row) == Four
                          && OptionalUnwrapping.MyUsername.Some?
                          && OptionalUnwrapping.MyPassword.Some?
  {
    welcomed := false;
    match Dispatch(row)
    case One =>
      toast := SquareOfFive(Extension.SquaredOfFive());
    case Two =>
      toast := SeeConsole;
    case Three =>
      var _ := Loops.Three();
      toast := SeeConsole;
    case Four =>
      toast := ConsoleStaysQuiet;
      welcomed := OptionalUnwrapping.GuardLet(OptionalUnwrapping.MyUsername, OptionalUnwrapping.MyPassword);
    case Five =>
      toast := CircleSize(circle.Diameter(), circle.radius);
    case Six =>
      var person := EnumSafety.Person;
      toast := FarePaid(person, EnumSafety.Fare(person));
    case Seven =>
      toast := ThemeColor(NilCoalescing.Seven());
    case Eight =>
      toast := FinalHeight(ConditionalCoalescing.Eight());
    case Nine =>
      toast := EvenNumbers(Functional.Nine());
    case Ten =>
      toast := FivePlusSix(Closures.Ten());
  }
}
