/** Optional values, results, and the two lookups the server uses on optional
    arguments: `d.get(key, default)` and Python's `value or default`. */
module Options {

  datatype Option<+T> = None | Some(value: T)

  datatype Result<+T, +E> = Success(value: T) | Failure(error: E)

  /** Python truthiness of an optional string: absent (None) and "" are false. */
  predicate Truthy(o: Option<string>) {
    o.Some? && o.value != ""
  }

  /** `d.get(key, default)`: the stored value when the key is present. */
  function GetOr<T>(o: Option<T>, default: T): T {
    match o
    case Some(v) => v
    case None => default
  }

  /** `d.get(key) or default`: the stored value only when it is truthy. */
  function OrElse(o: Option<string>, default: string): string {
    if Truthy(o) then o.value else default
  }
}
