/** Small shared vocabulary: optional values and lookups with a default. */
module Prelude {
  datatype Option<+T> = None | Some(value: T)

  function Max(a: int, b: int): int {
    if a < b then b else a
  }

  function Min(a: int, b: int): int {
    if a < b then a else b
  }

  /** Python's `d.get(key)`. */
  function At<K, V>(m: map<K, V>, key: K): Option<V> {
    if key in m then Some(m[key]) else None
  }

  /** Python's `d.get(key, 0)` for a dict of counters. */
  function Count<K>(m: map<K, nat>, key: K): nat {
    if key in m then m[key] else 0
  }

  /** Maps that answer every lookup alike are equal. */
  lemma SameMap<K, V>(m: map<K, V>, n: map<K, V>)
    requires forall k :: At(m, k) == At(n, k)
    ensures m == n
  {
    forall k ensures k in m <==> k in n { assert At(m, k) == At(n, k); }
    forall k | k in m ensures m[k] == n[k] { assert At(m, k) == At(n, k); }
  }

  lemma SmallerSet<T>(a: set<T>, b: set<T>)
    requires a <= b
    ensures |a| <= |b| && (b - a != {} ==> |a| < |b|)
  {
    assert b == a + (b - a);
  }

  /** A set growing inside `all` leaves fewer to add. */
  lemma FewerLeft<T>(all: set<T>, a: set<T>, b: set<T>)
    requires a < b <= all
    ensures |all - b| < |all - a|
  {
    assert !(b <= a);
    var x :| x in b && x !in a;
    assert x in (all - a) - (all - b);
    SmallerSet(all - b, all - a);
  }
}
