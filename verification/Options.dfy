/** The optional values of the model: a field that can be absent, a reply that can be null. */
module Options {

  datatype Option<+T> = None | Some(value: T)

  /** The value as a set of at most one element. */
  function SetOf<T(==)>(o: Option<T>): (s: set<T>) {
    match o
    case None => {}
    case Some(v) => {v}
  }
}
