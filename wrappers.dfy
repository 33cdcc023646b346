/** Optional values: a JavaScript value that may be `undefined`, a row a query may not find. */
module Wrappers {
  datatype Option<+T> = None | Some(value: T)

  /** Looks a key up in a table, as a SELECT by primary key does. */
  function Lookup<K, V>(m: map<K, V>, k: K): (r: Option<V>)
    ensures r.Some? <==> k in m
    ensures r.Some? ==> r.value == m[k]
  {
    if k in m then Some(m[k]) else None
  }
}
