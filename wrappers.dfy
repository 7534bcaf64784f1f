/** Option and Result, the two failure-carrying types the kernel returns. */
module Wrappers {

  /** Rust's `Option<T>`. */
  datatype Option<+T> = None | Some(value: T)

  /** Rust's `Result<T, E>`; `Result<(), E>` is written with the unit type `()`. */
  datatype Result<+T, +E> = Ok(value: T) | Err(error: E)

  /** Looks a key up in a map, as `BTreeMap::get` does. */
  function Get<K, V>(m: map<K, V>, k: K): (r: Option<V>)
    ensures r.Some? <==> k in m
    ensures r.Some? ==> r.value == m[k]
  {
    if k in m then Some(m[k]) else None
  }
}
