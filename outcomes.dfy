/** Failure-carrying wrappers used across the model. */
module Outcomes {

  /** A value that may be absent (`undefined`/`None` in the source). */
  datatype Option<+T> = None | Some(value: T)

  /** Either a result or the error the source raises or rejects with. */
  datatype Result<+T, +E> = Ok(value: T) | Err(error: E)

  /** An operation without a result value that either passes or fails. */
  datatype Outcome<+E> = Pass | Fail(error: E)

  /** `d.get(key)` on a dictionary or `obj[key]` on an object: `None` when the key is absent. */
  function Get<K, V>(d: map<K, V>, key: K): (r: Option<V>)
    ensures r.Some? <==> key in d
    ensures r.Some? ==> r.value == d[key]
  {
    if key in d then Some(d[key]) else None
  }
}
