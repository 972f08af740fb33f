/** A value that may be missing: TypeScript's `null`/`undefined` and Python's `None`. */
module Optional {

  datatype Option<+T> = None | Some(value: T)

  /** JavaScript truthiness of a `number | null` (there are no NaNs here): present and not 0. */
  predicate Truthy(x: Option<int>) {
    x.Some? && x.value != 0
  }
}
