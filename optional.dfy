/** Values that may be absent: a form field that was not sent, a record key
    that was never set, a lookup that found nothing. */
module Optional {

  datatype Option<+T> = None | Some(value: T)

  /** The value, or `default` when absent (Python's `dict.get(key, default)`). */
  function ValueOr<T>(o: Option<T>, default: T): T {
    match o
    case Some(v) => v
    case None => default
  }

  /** Python's `str(x)` on a form value that may be `None`. */
  function Show(o: Option<string>): string {
    ValueOr(o, "None")
  }

  /** Python's `not x` on such a value: `None` and the empty string are both falsy. */
  predicate Blank(o: Option<string>) {
    o == None || o == Some("")
  }
}
