/** Vocabulary shared by every module of the model. */
module Common {

  /** What a queue node or a key-value entry carries: a string the server never looks into. */
  type Value(==, !new)

  datatype Option<+T> = None | Some(value: T)

  function Last<T>(s: seq<T>): T
    requires s != []
  {
    s[|s| - 1]
  }

  function Front<T>(s: seq<T>): seq<T>
    requires s != []
  {
    s[..|s| - 1]
  }

  function Get<K, V>(m: map<K, V>, k: K): Option<V> {
    if k in m then Some(m[k]) else None
  }

  /** Does a Go channel ever accept `n` values, if its capacity and the receives made from it come to `limit`?
      There is no limit when the receiver goes on until the channel is closed. */
  predicate Accepts(limit: Option<nat>, n: nat) {
    limit.Some? ==> n <= limit.value
  }

  /** Go's delete(m, k): a missing key is no error. */
  function Without<K, V>(m: map<K, V>, k: K): map<K, V> {
    map x | x in m && x != k :: m[x]
  }

  function Min(a: nat, b: nat): nat {
    if a <= b then a else b
  }
}
