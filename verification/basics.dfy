/** Shared vocabulary: optional values, instants, and counting the keys of a map
    that carry a given value (a reference count is always such a count). */
module Basics {

  datatype Option<+T> = None | Some(value: T)

  /** The logical name of a database. */
  datatype DbName = DbName(text: string)

  /** An instant on the server's clock, in nanoseconds. */
  type Instant = int

  /** `s` lists every member of `all` exactly once. */
  ghost predicate Enumerates<T(!new)>(s: seq<T>, all: set<T>) {
    && (forall i, j :: 0 <= i < j < |s| ==> s[i] != s[j])
    && (forall x :: x in s <==> x in all)
  }

  ghost function KeysWith<K, V>(m: map<K, V>, v: V): set<K> {
    set k | k in m && m[k] == v
  }

  ghost function Count<K, V>(m: map<K, V>, v: V): nat {
    |KeysWith(m, v)|
  }

  lemma CountInsert<K, V>(m: map<K, V>, k: K, v: V, w: V)
    requires k !in m
    ensures Count(m[k := v], w) == Count(m, w) + (if w == v then 1 else 0)
  {
    var added := if w == v then {k} else {};
    assert KeysWith(m[k := v], w) == KeysWith(m, w) + added;
  }

  lemma CountRemove<K, V>(m: map<K, V>, k: K, w: V)
    requires k in m
    ensures Count(m - {k}, w) == Count(m, w) - (if w == m[k] then 1 else 0)
  {
    var dropped := if w == m[k] then {k} else {};
    assert KeysWith(m, w) == KeysWith(m - {k}, w) + dropped;
  }

  lemma CountPositive<K, V>(m: map<K, V>, k: K)
    requires k in m
    ensures Count(m, m[k]) > 0
  {
    assert k in KeysWith(m, m[k]);
  }
}
