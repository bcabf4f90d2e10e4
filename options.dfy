/** Python's `None`-or-value, used for optional request fields and for values
    that may be missing from a stored record. */
module Options {

  datatype Option<T> = None | Some(value: T) {
    /** Python `d.get(key, default)` once the lookup has produced this option. */
    function GetOr(default: T): T {
      match this
      case Some(v) => v
      case None => default
    }
  }

  /** Python truthiness of an optional string: present and non-empty. */
  predicate Truthy(o: Option<string>) {
    o.Some? && o.value != ""
  }
}
