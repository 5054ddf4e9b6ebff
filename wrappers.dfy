/** Failure-compatible wrappers used across the model: `Option` for Python's
    `Optional[...]` / `None`, `Result` for an operation that may raise. */
module Wrappers {

  datatype Option<+T> = None | Some(value: T)

  datatype Result<+T, +E> = Success(value: T) | Failure(error: E)

  /** `d.get(k, default)` on a Python dict modelled as a map. */
  function GetOr<K, V>(m: map<K, V>, k: K, default: V): V
  {
    if k in m then m[k] else default
  }
}
