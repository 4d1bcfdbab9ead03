/** The first-match linear search behind every `find` / `findIndex` call of the
    backend (services/mockBackend.ts:64, 77, 101, 129, 163, 181, 230, 241). */
module Lookup {
  import opened Types

  /** `i` is the index of the first element of `s` whose key is `k`. */
  ghost predicate IsFirst<T, K>(s: seq<T>, key: T -> K, k: K, i: nat)
  {
    i < |s| && key(s[i]) == k && forall j :: 0 <= j < i ==> key(s[j]) != k
  }

  /** No element of `s` has key `k`. */
  ghost predicate NoneHas<T, K>(s: seq<T>, key: T -> K, k: K)
  {
    forall j :: 0 <= j < |s| ==> key(s[j]) != k
  }

  /** Array.prototype.findIndex: the position of the first match, or None for -1. */
  function FindIndex<T, K(==)>(s: seq<T>, key: T -> K, k: K): (r: Option<nat>)
    ensures r.Some? ==> IsFirst(s, key, k, r.value)
    ensures r.None? ==> NoneHas(s, key, k)
    decreases |s|
  {
    if s == [] then None
    else if key(s[0]) == k then Some(0)
    else match FindIndex(s[1..], key, k)
      case None => None
      case Some(i) => Some(i + 1)
  }

  /** The first match is determined by the sequence: any index that is first is the one found. */
  lemma FindIndexIsFirst<T, K>(s: seq<T>, key: T -> K, k: K, i: nat)
    requires IsFirst(s, key, k, i)
    ensures FindIndex(s, key, k) == Some(i)
  {
  }

  /** Replacing an element by one with the same key does not move any first match. */
  lemma FindIndexAfterUpdate<T, K>(s: seq<T>, key: T -> K, k: K, j: nat, v: T)
    requires j < |s| && key(v) == key(s[j])
    ensures FindIndex(s[j := v], key, k) == FindIndex(s, key, k)
  {
    var t := s[j := v];
    assert forall m :: 0 <= m < |s| ==> key(t[m]) == key(s[m]);
    var r := FindIndex(s, key, k);
    if r.Some? {
      FindIndexIsFirst(t, key, k, r.value);
    }
  }
}
