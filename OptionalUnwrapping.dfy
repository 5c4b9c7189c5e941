/** Example 4, "Optional Unwrapping": `guard let` instead of nested `if`s.
    Each form reports whether it reaches the line that prints "Welcome!". */
module OptionalUnwrapping {
  import opened Swift

  /** The globals `var myUsername: Double?` and `var myPassword: Double?`.
      Nothing assigns them, so both keep their initial value, `nil`. */
  const MyUsername: Optional<real> := None
  const MyPassword: Optional<real> := None

  /** `four()`: `guard let _ = myUsername, let _ = myPassword else { return }`,
      then print "Welcome!". */
  function GuardLet(username: Optional<real>, password: Optional<real>): (welcomed: bool)
    ensures welcomed <==> username.Some? && password.Some?
  {
    match username
    case None => false
    case Some(_) =>
      match password
      case None => false
      case Some(_) => true
  }

  /** The commented-out `four()`: `if myUsername != nil { if myPassword != nil
      { print("Welcome!") } }`. */
  method NestedIf(username: Optional<real>, password: Optional<real>) returns (welcomed: bool)
    ensures welcomed == GuardLet(username, password)
  {
    welcomed := false;
    if username.Some? {
      if password.Some? {
        welcomed := true;
      }
    }
  }

  /** With the globals as the program leaves them, "Welcome!" is not printed,
      which is what the status message of `four()` tells the user to expect. */
  lemma FourStaysQuiet()
    ensures !GuardLet(MyUsername, MyPassword)
  {
  }
}
