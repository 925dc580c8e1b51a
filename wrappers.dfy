/** Failure-carrying result types and the usage counter shared by the three toolchains. */
module Wrappers {

  datatype Option<+T> = None | Some(value: T)

  /** The outcome of an operation that the source either completes or aborts by raising. */
  datatype Result<+T, +E> = Ok(value: T) | Err(error: E)

  /** A usage counter: dict.setdefault(k, 0) followed by `+= 1`. */
  function Bump<K(!new)>(m: map<K, nat>, k: K): (r: map<K, nat>)
    ensures k in r && r[k] == (if k in m then m[k] else 0) + 1
    ensures forall x :: x != k ==> (x in r <==> x in m) && (x in m ==> r[x] == m[x])
  {
    m[k := (if k in m then m[k] else 0) + 1]
  }
}
