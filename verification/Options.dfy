// A value that may be missing: the source's null and undefined.
module Options {
  datatype Option<+T> = None | Some(value: T)

  /** The source's `value ?? otherwise`. */
  function GetOr<T>(o: Option<T>, otherwise: T): T {
    if o.Some? then o.value else otherwise
  }
}
