/** JavaScript's `Map`, whose iteration order is insertion order, as a list of
    entries with distinct keys; `Set` on a present key replaces its value in
    place, on a new key appends an entry. */
module OrderedMap {
  import opened Wrappers

  datatype Entry<K, V> = Entry(key: K, value: V)

  function Keys<K, V>(m: seq<Entry<K, V>>): (ks: seq<K>)
    ensures |ks| == |m| && forall i :: 0 <= i < |m| ==> ks[i] == m[i].key
  {
    seq(|m|, i requires 0 <= i < |m| => m[i].key)
  }

  function Values<K, V>(m: seq<Entry<K, V>>): (vs: seq<V>)
    ensures |vs| == |m| && forall i :: 0 <= i < |m| ==> vs[i] == m[i].value
  {
    seq(|m|, i requires 0 <= i < |m| => m[i].value)
  }

  predicate Unique<K(==)>(ks: seq<K>) {
    forall i, j :: 0 <= i < j < |ks| ==> ks[i] != ks[j]
  }

  /** `m.get(k)`. */
  function Get<K(==), V>(m: seq<Entry<K, V>>, k: K): (r: Option<V>)
    ensures r.None? <==> k !in Keys(m)
    ensures r.Some? ==> Entry(k, r.value) in m
  {
    if m == [] then None
    else if m[0].key == k then Some(m[0].value)
    else
      assert Keys(m) == [m[0].key] + Keys(m[1..]);
      Get(m[1..], k)
  }

  /** `m.set(k, v)`. */
  function Set<K(==), V>(m: seq<Entry<K, V>>, k: K, v: V): (r: seq<Entry<K, V>>)
    ensures Keys(r) == if k in Keys(m) then Keys(m) else Keys(m) + [k]
  {
    if m == [] then [Entry(k, v)]
    else if m[0].key == k then
      assert Keys([Entry(k, v)] + m[1..]) == Keys(m);
      [Entry(k, v)] + m[1..]
    else
      assert Keys(m) == [m[0].key] + Keys(m[1..]);
      var r := [m[0]] + Set(m[1..], k, v);
      assert Keys(r) == [m[0].key] + Keys(Set(m[1..], k, v));
      r
  }

  /** After `m.set(k, v)`, `get(k)` is `v` and every other key reads as before. */
  lemma {:induction false} GetSet<K, V>(m: seq<Entry<K, V>>, k: K, v: V, k2: K)
    ensures Get(Set(m, k, v), k2) == if k2 == k then Some(v) else Get(m, k2)
  {
    if m != [] && m[0].key != k {
      GetSet(m[1..], k, v, k2);
      assert Set(m, k, v)[1..] == Set(m[1..], k, v);
    } else if m != [] {
      assert Set(m, k, v)[1..] == m[1..];
    }
  }

  /** Setting a key keeps the keys distinct. */
  lemma SetUnique<K, V>(m: seq<Entry<K, V>>, k: K, v: V)
    requires Unique(Keys(m))
    ensures Unique(Keys(Set(m, k, v)))
  {
  }

  /** The distinct elements of `xs` in order of first occurrence. */
  function Distinct<K(==)>(xs: seq<K>): (ds: seq<K>)
    ensures forall i :: 0 <= i < |ds| ==> ds[i] in xs
    ensures forall i :: 0 <= i < |xs| ==> xs[i] in ds
    ensures Unique(ds)
  {
    if xs == [] then []
    else
      var d := Distinct(xs[..|xs| - 1]);
      assert xs == xs[..|xs| - 1] + [xs[|xs| - 1]];
      if xs[|xs| - 1] in d then d else d + [xs[|xs| - 1]]
  }
}
