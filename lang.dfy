/** The few java.lang notions the adapter's control flow depends on. */
module Lang {

  /** A Java reference that may be null. */
  datatype Option<T> = None | Some(value: T)

  /** The unchecked exceptions the modelled code can raise. */
  datatype Exception =
    | NullPointerException
    | IllegalArgumentException
    | RuntimeException(message: string)

  /** How a void Java method returned: normally, by throwing, or because the
      model's step bound ran out while the engine kept the recursion going. */
  datatype Outcome = Normal | Thrown(exception: Exception) | OutOfFuel
  {
    predicate IsNormal() { Normal? }
  }
}
