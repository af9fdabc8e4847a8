/** The one generic datatype that the other modules share. */
module Wrappers {

  datatype Option<+T> = None | Some(value: T)

  lemma SomeKey<K, V>(m: map<K, V>) returns (k: K)
    requires m != map[]
    ensures k in m
  {
    k :| k in m;
  }
}
