/**
 Go's map reads: indexing a `map[K]V` with an absent key yields the zero
 value of `V` rather than failing.
 */
module GoMaps {

  /** Go's `m[k]` on a `map[K]V`: the stored value, or `zero` when `k` is absent. */
  function Read<K, V>(m: map<K, V>, k: K, zero: V): V
  {
    if k in m then m[k] else zero
  }
}
