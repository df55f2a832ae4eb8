/** Small types that several modules share. */
module Options {
  datatype Option<+T> = None | Some(value: T)

  // A predicate that quantifies over Seal stays closed to the solver until a proof asks for it.
  datatype Seal = Seal
}
