/** Sequences of any kind: what is in them, and whether it is there once only. */
module Sequences {

  function Elements<V>(s: seq<V>): set<V> {
    set v | v in s
  }

  ghost predicate Distinct<V>(s: seq<V>) {
    forall i, k | 0 <= i < k < |s| :: s[i] != s[k]
  }
}
