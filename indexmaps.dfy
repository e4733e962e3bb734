/** The insertion-ordered map of the `indexmap` crate, as import resolution
    (program.rs) uses it: its keys in the order they were first inserted,
    each with its value at the same index.  Inserting a key that is already
    present replaces its value and keeps its position. */
module IndexMaps {

  datatype IndexMap<K, V> = IndexMap(keys: seq<K>, values: seq<V>)

  predicate Distinct<K(==)>(s: seq<K>) {
    forall i, j :: 0 <= i < j < |s| ==> s[i] != s[j]
  }

  /** The map's invariant: each key listed once, each with one value. */
  predicate Valid<K(==), V>(m: IndexMap<K, V>) {
    Distinct(m.keys) && |m.values| == |m.keys|
  }

  /** The keys, as a set. */
  function KeySet<K(==), V>(m: IndexMap<K, V>): set<K> {
    set k | k in m.keys
  }

  /** `IndexMap::new()`. */
  function Empty<K(==), V>(): (m: IndexMap<K, V>)
    ensures Valid(m) && m.keys == [] && KeySet(m) == {}
  {
    IndexMap([], [])
  }

  /** `contains_key`. */
  predicate ContainsKey<K(==), V>(m: IndexMap<K, V>, k: K) {
    k in m.keys
  }

  /** The index of the first occurrence of `k`. */
  function IndexOf<K(==)>(s: seq<K>, k: K): (i: nat)
    requires k in s
    ensures i < |s| && s[i] == k && k !in s[..i]
  {
    if s[0] == k then 0
    else
      var i := IndexOf(s[1..], k);
      assert s[..i + 1] == [s[0]] + s[1..][..i];
      i + 1
  }

  /** In a sequence without repetitions a key's index is its only one. */
  lemma IndexOfDistinct<K>(s: seq<K>, i: nat)
    requires Distinct(s) && i < |s|
    ensures IndexOf(s, s[i]) == i
  {
    var j := IndexOf(s, s[i]);
  }

  /** `get(k)`: the value of a present key. */
  function Get<K(==), V>(m: IndexMap<K, V>, k: K): V
    requires Valid(m) && k in m.keys
  {
    m.values[IndexOf(m.keys, k)]
  }

  /** `insert(k, v)`: a present key gets `v` in its place, a new one goes
      last; the invariant is kept. */
  function Insert<K(==), V>(m: IndexMap<K, V>, k: K, v: V): (r: IndexMap<K, V>)
    requires Valid(m)
    ensures Valid(r)
  {
    if k in m.keys then IndexMap(m.keys, m.values[IndexOf(m.keys, k) := v])
    else IndexMap(m.keys + [k], m.values + [v])
  }

  /** Inserting never moves a key: a present key keeps its index, a new one
      is appended; `k` then has `v`, every other key its old value. */
  lemma InsertKeepsPositions<K, V>(m: IndexMap<K, V>, k: K, v: V)
    requires Valid(m)
    ensures var r := Insert(m, k, v);
            (k in m.keys ==> r.keys == m.keys)
            && (k !in m.keys ==> r.keys == m.keys + [k])
            && ContainsKey(r, k) && Get(r, k) == v
            && (forall k' :: k' in m.keys && k' != k ==> Get(r, k') == Get(m, k'))
            && KeySet(r) == KeySet(m) + {k}
  {
    var r := Insert(m, k, v);
    forall k' | k' in m.keys && k' != k
      ensures Get(r, k') == Get(m, k')
    {
      IndexOfDistinct(r.keys, IndexOf(m.keys, k'));
    }
    if k !in m.keys {
      IndexOfDistinct(r.keys, |m.keys|);
    }
  }

  /** The entries from index `t` of `n` inserted into `m`, in `n`'s order:
      the loop `for (k, v) in n { m.insert(k, v) }` from `t` on. */
  function InsertFrom<K(==), V>(m: IndexMap<K, V>, n: IndexMap<K, V>, t: nat): (r: IndexMap<K, V>)
    requires Valid(m) && Valid(n) && t <= |n.keys|
    ensures Valid(r)
    decreases |n.keys| - t
  {
    if t == |n.keys| then m else InsertFrom(Insert(m, n.keys[t], n.values[t]), n, t + 1)
  }

  /** Every entry of `n` inserted into `m`. */
  function InsertAll<K(==), V>(m: IndexMap<K, V>, n: IndexMap<K, V>): (r: IndexMap<K, V>)
    requires Valid(m) && Valid(n)
    ensures Valid(r)
  {
    InsertFrom(m, n, 0)
  }

  /** Inserting the entries of `n` from `t` on adds their keys. */
  lemma {:induction false} InsertFromKeys<K, V>(m: IndexMap<K, V>, n: IndexMap<K, V>, t: nat)
    requires Valid(m) && Valid(n) && t <= |n.keys|
    ensures KeySet(InsertFrom(m, n, t)) == KeySet(m) + (set k | k in n.keys[t..])
    decreases |n.keys| - t
  {
    if t < |n.keys| {
      var k := n.keys[t];
      InsertKeepsPositions(m, k, n.values[t]);
      var m' := Insert(m, k, n.values[t]);
      InsertFromKeys(m', n, t + 1);
      assert InsertFrom(m, n, t) == InsertFrom(m', n, t + 1);
      assert n.keys[t..] == [k] + n.keys[t + 1..];
    } else {
      assert n.keys[t..] == [];
    }
  }

  /** Inserting never reorders: the keys of `m` stay in front, in their order. */
  lemma {:induction false} InsertFromKeepsPrefix<K, V>(m: IndexMap<K, V>, n: IndexMap<K, V>, t: nat)
    requires Valid(m) && Valid(n) && t <= |n.keys|
    ensures var r := InsertFrom(m, n, t);
            |m.keys| <= |r.keys| && r.keys[..|m.keys|] == m.keys
    decreases |n.keys| - t
  {
    if t < |n.keys| {
      var k := n.keys[t];
      var m' := Insert(m, k, n.values[t]);
      assert |m.keys| <= |m'.keys| && m'.keys[..|m.keys|] == m.keys;
      InsertFromKeepsPrefix(m', n, t + 1);
      var r := InsertFrom(m, n, t);
      assert r == InsertFrom(m', n, t + 1);
      assert r.keys[..|m'.keys|][..|m.keys|] == m.keys;
    }
  }

  /** The keys of all of `n` added to those of `m`, which stay in front. */
  lemma InsertAllKeys<K, V>(m: IndexMap<K, V>, n: IndexMap<K, V>)
    requires Valid(m) && Valid(n)
    ensures var r := InsertAll(m, n);
            KeySet(r) == KeySet(m) + KeySet(n) && |m.keys| <= |r.keys| && r.keys[..|m.keys|] == m.keys
  {
    InsertFromKeys(m, n, 0);
    InsertFromKeepsPrefix(m, n, 0);
    assert n.keys[0..] == n.keys;
  }

  /** After inserting `n[t..]`, a key of `n[t..]` has `n`'s value, any other
      key of `m` its value in `m`. */
  lemma {:induction false} InsertFromValues<K, V>(m: IndexMap<K, V>, n: IndexMap<K, V>, t: nat, k: K)
    requires Valid(m) && Valid(n) && t <= |n.keys|
    requires k in m.keys || k in n.keys[t..]
    ensures var r := InsertFrom(m, n, t);
            k in r.keys && Get(r, k) == if k in n.keys[t..] then Get(n, k) else Get(m, k)
    decreases |n.keys| - t
  {
    InsertFromKeys(m, n, t);
    if t < |n.keys| {
      var k0 := n.keys[t];
      InsertKeepsPositions(m, k0, n.values[t]);
      var m' := Insert(m, k0, n.values[t]);
      assert n.keys[t..] == [k0] + n.keys[t + 1..];
      InsertFromValues(m', n, t + 1, k);
      assert InsertFrom(m, n, t) == InsertFrom(m', n, t + 1);
      if k == k0 && k !in n.keys[t + 1..] {
        IndexOfDistinct(n.keys, t);
      }
    } else {
      assert n.keys[t..] == [];
    }
  }

  /** Re-inserting a key keeps it at its first position: 1 stays before 2. */
  lemma ReinsertExample()
    ensures var m := Insert(Insert(Insert(Empty<int, int>(), 1, 10), 2, 20), 1, 30);
            m.keys == [1, 2] && m.values == [30, 20]
  {
    var m1 := Insert(Empty<int, int>(), 1, 10);
    assert m1.keys == [1];
    var m2 := Insert(m1, 2, 20);
    assert m2.keys == [1, 2] && m2.values == [10, 20];
    assert IndexOf(m2.keys, 1) == 0;
  }
}
