/** Optional values: JavaScript's `undefined` for a missing pool, a missing
    `Map` entry or an APY that has no numeric value. */
module Wrappers {

  datatype Option<+T> = None | Some(value: T) {

    /** The wrapped value, or `default` when there is none. */
    function GetOr(default: T): T {
      match this
      case Some(v) => v
      case None => default
    }
  }

  /** `m.get(k)` on a JavaScript `Map`: the entry, or `undefined` when `k` has none. */
  function Lookup<K, V>(m: map<K, V>, k: K): Option<V> {
    if k in m then Some(m[k]) else None
  }
}
