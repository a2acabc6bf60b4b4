/** Shared vocabulary: optional values, results, and facts about finite sets and maps. */
module Basics {

  datatype Option<+T> = None | Some(value: T)

  datatype Result<+T, +E> = Ok(value: T) | Err(error: E)

  /** A set of cardinality one holds exactly one element. */
  lemma SingletonElements<T>(s: set<T>, x: T)
    requires |s| == 1 && x in s
    ensures s == {x}
  {
    assert |s - {x}| == 0;
  }

  /** Cardinality follows inclusion, and equal cardinality means equal sets. */
  lemma SubsetSize<T>(a: set<T>, b: set<T>)
    requires a <= b
    ensures |a| <= |b|
    ensures |a| == |b| ==> a == b
  {
    assert b == a + (b - a);
    assert |b| == |a| + |b - a|;
  }

  ghost function Elements<T>(s: seq<T>): set<T> {
    set x | x in s
  }

  lemma MapSizes<K, V>(m: map<K, V>, k: K, v: V)
    ensures |m[k := v]| == |m| + if k in m then 0 else 1
    ensures |m - {k}| == |m| - if k in m then 1 else 0
  {
    var put, cut := m[k := v], m - {k};
    assert put.Keys == m.Keys + {k} && cut.Keys == m.Keys - {k};
    assert |put| == |put.Keys| && |cut| == |cut.Keys| && |m| == |m.Keys|;
  }
}
