module Options {
  datatype Option<T> = None | Some(value: T)

  /** Some element of a set, for loops that visit all elements in no particular order. */
  method AnyOf<T>(s: set<T>) returns (x: T)
    requires s != {}
    ensures x in s
  {
    x :| x in s;
  }
}
