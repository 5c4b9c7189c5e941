/** Example 6, "Enum type safety": a ticket fare chosen by an exhaustive
    `switch` over an enum instead of a string `switch` with a `default`. */
module EnumSafety {
  import opened Swift

  /** `enum People { case adult, child, senior }` */
  datatype People = Adult | Child | Senior

  /** `let person = People.adult` */
  const Person: People := Adult

  /** The enum `switch` of `six()`: the dollars to pay. It needs no
      `default`, and Dafny checks that the match covers every case. */
  function Fare(person: People): (dollars: nat) {
    match person
    case Adult => 7
    case Child => 3
    case Senior => 4
  }

  /** The string each case stands for in the commented-out version. */
  function Label(person: People): string {
    match person
    case Adult => "Adult"
    case Child => "Child"
    case Senior => "Senior"
  }

  /** The commented-out string `switch`; `None` is its `default` branch,
      which prints "You alive, bruh?" instead of a fare. */
  function FareByLabel(person: string): Optional<nat> {
    if person == "Adult" then Some(7)
    else if person == "Child" then Some(3)
    else if person == "Senior" then Some(4)
    else None
  }

  /** The two switches agree on every person, and the string one falls into
      its `default` exactly for strings that name no person. */
  lemma FareByLabelAgrees(person: People, s: string)
    ensures FareByLabel(Label(person)) == Some(Fare(person))
    ensures FareByLabel(s).None? <==> forall p: People :: Label(p) != s
  {
    if FareByLabel(s).Some? {
      var p := if s == "Adult" then Adult else if s == "Child" then Child else Senior;
      assert Label(p) == s;
    }
  }

  /** Distinct people have distinct labels and the demo person pays $7. */
  lemma FareFacts(p: People, q: People)
    ensures Label(p) == Label(q) ==> p == q
    ensures Fare(Person) == 7
  {
  }
}
