/** Absent-value and construction-failure results used across the model. */
module Wrappers {

  /** A lookup result: the registries return `None` where the entity returns null. */
  datatype Option<+T> = None | Some(value: T)

  /** The outcome of an operation that can fail with an error of type E. */
  datatype Result<+R, +E> = Success(value: R) | Failure(error: E)

  /** Looks `k` up in `m`, turning a missing key into None. */
  function Lookup<K, V>(m: map<K, V>, k: K): (r: Option<V>)
    ensures r.Some? <==> k in m
    ensures r.Some? ==> r.value == m[k]
  {
    if k in m then Some(m[k]) else None
  }
}
