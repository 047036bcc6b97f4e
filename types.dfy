/** Option and Result, the two shapes the daemon's Rust code returns everywhere. */
module Types {

  datatype Option<T> = None | Some(value: T) {
    function GetOr(default: T): T {
      match this
      case Some(v) => v
      case None => default
    }
  }

  /** `Err` carries a human-readable message, as `Box<dyn Error>` does in the source. */
  datatype Result<T> = Ok(value: T) | Err(error: string)

  /** Map lookup as `HashMap::get`. */
  function Get<K, V>(m: map<K, V>, k: K): (r: Option<V>)
    ensures r.Some? <==> k in m
    ensures r.Some? ==> r.value == m[k]
  {
    if k in m then Some(m[k]) else None
  }
}
