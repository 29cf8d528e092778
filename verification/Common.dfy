/** Shared value types. */
module Common {

  datatype Option<+T> = None | Some(value: T)

  datatype Result<+T, +E> = Ok(value: T) | Err(error: E)

  /** The largest Go uint64. */
  const MAX_UINT64: nat := 0xFFFF_FFFF_FFFF_FFFF

  /** A Go map read: the zero value stands for a missing key. */
  function GetOr<K, V>(m: map<K, V>, k: K, zero: V): V {
    if k in m then m[k] else zero
  }

  function Lookup<K, V>(m: map<K, V>, k: K): Option<V> {
    if k in m then Some(m[k]) else None
  }
}
