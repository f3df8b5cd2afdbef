/** Small things that several modules need. */
module Prelude {

  datatype Option<+T> = None | Some(value: T)

  function Members<T>(s: seq<T>): set<T> { set x | x in s }

  lemma Assoc<T>(x: seq<T>, y: seq<T>, z: seq<T>)
    ensures x + y + z == x + (y + z)
  {}

  lemma SameMap<K, V>(m: map<K, V>, m': map<K, V>)
    requires m'.Keys == m.Keys && forall k | k in m :: m'[k] == m[k]
    ensures m' == m
  {}

  /** The maps differ in one entry at most. */
  lemma OnlyKey<K, V>(m: map<K, V>, m': map<K, V>, k: K)
    requires k in m && m'.Keys == m.Keys && forall j | j in m && j != k :: m'[j] == m[j]
    ensures m' == m[k := m'[k]]
  {}

  /** One map has one entry more than the other. */
  lemma OnlyNewKey<K, V>(m: map<K, V>, m': map<K, V>, k: K)
    requires k !in m && m'.Keys == m.Keys + {k} && forall j | j in m :: m'[j] == m[j]
    ensures m' == m[k := m'[k]]
  {}

  predicate Distinct<T(==)>(s: seq<T>) {
    forall i, j | 0 <= i < j < |s| :: s[i] != s[j]
  }

  /** The keys of a map in the order in which it happens to give them. */
  method AnyOrder<T(==)>(keys: set<T>) returns (order: seq<T>)
    ensures multiset(order) == multiset(keys) && Members(order) == keys && Distinct(order)
  {
    order := [];
    var todo := keys;
    while todo != {}
      invariant todo <= keys && multiset(order) == multiset(keys - todo) && Members(order) == keys - todo && Distinct(order)
    {
      var k :| k in todo;
      assert keys - (todo - {k}) == (keys - todo) + {k};
      assert Members(order + [k]) == Members(order) + {k};
      order, todo := order + [k], todo - {k};
    }
    assert keys - todo == keys;
  }
}
