/** Insertion-ordered maps, the behaviour of Java's `LinkedHashMap` that the
    rating table relies on: `put` of a new key appends it, `put` of a present
    key replaces its value and keeps its position. */
module LinkedMaps {
  import opened Common

  /** The bindings of a map in the order their keys were first put. */
  type LinkedMap<K, V> = seq<(K, V)>

  /** The keys in iteration order. */
  function Keys<K, V>(m: LinkedMap<K, V>): seq<K> {
    seq(|m|, j requires 0 <= j < |m| => m[j].0)
  }

  /** No element occurs twice. */
  ghost predicate Distinct<T>(xs: seq<T>) {
    forall j, k :: 0 <= j < k < |xs| ==> xs[j] != xs[k]
  }

  lemma KeysCons<K, V>(m: LinkedMap<K, V>)
    requires |m| > 0
    ensures Keys(m) == [m[0].0] + Keys(m[1..])
  {
  }

  /** `get`: the value bound to `k`, if any. */
  function Get<K(==), V>(m: LinkedMap<K, V>, k: K): (r: Option<V>)
    ensures r.None? <==> k !in Keys(m)
    ensures r.Some? ==> (k, r.value) in m
    decreases |m|
  {
    if |m| == 0 then None
    else
      KeysCons(m);
      if m[0].0 == k then Some(m[0].1) else Get(m[1..], k)
  }

  /** `put`: bind `k` to `v`. A new key goes to the end of the iteration
      order; a present key keeps its place. Every other key keeps its value. */
  function Put<K(==,!new), V>(m: LinkedMap<K, V>, k: K, v: V): (r: LinkedMap<K, V>)
    ensures PutResult(m, k, v, r)
    decreases |m|
  {
    if |m| == 0 then [(k, v)]
    else if m[0].0 == k then
      PutHead(m, k, v);
      [(k, v)] + m[1..]
    else
      var rest := Put(m[1..], k, v);
      PutTail(m, k, v, rest);
      [m[0]] + rest
  }

  /** What `put` promises of its result `r`. */
  ghost predicate PutResult<K(!new), V>(m: LinkedMap<K, V>, k: K, v: V, r: LinkedMap<K, V>) {
    && Keys(r) == (if k in Keys(m) then Keys(m) else Keys(m) + [k])
    && Get(r, k) == Some(v)
    && (forall k' :: k' != k ==> Get(r, k') == Get(m, k'))
    && (Distinct(Keys(m)) ==> Distinct(Keys(r)))
  }

  /** Replacing the value of the first key. */
  lemma PutHead<K(!new), V>(m: LinkedMap<K, V>, k: K, v: V)
    requires |m| > 0 && m[0].0 == k
    ensures PutResult(m, k, v, [(k, v)] + m[1..])
  {
    var r := [(k, v)] + m[1..];
    KeysCons(m);
    KeysCons(r);
    assert r[1..] == m[1..];
  }

  /** Putting past a first key that differs from `k`. */
  lemma PutTail<K(!new), V>(m: LinkedMap<K, V>, k: K, v: V, rest: LinkedMap<K, V>)
    requires |m| > 0 && m[0].0 != k
    requires PutResult(m[1..], k, v, rest)
    ensures PutResult(m, k, v, [m[0]] + rest)
  {
    var r := [m[0]] + rest;
    KeysCons(m);
    KeysCons(r);
    assert r[1..] == rest;
    if Distinct(Keys(m)) {
      DistinctTail(m);
      DistinctCons(m[0].0, Keys(rest));
    }
  }

  /** The keys after the first of a map with distinct keys are distinct and
      do not include the first. */
  lemma DistinctTail<K, V>(m: LinkedMap<K, V>)
    requires |m| > 0 && Distinct(Keys(m))
    ensures Distinct(Keys(m[1..])) && m[0].0 !in Keys(m[1..])
  {
    forall j | 0 <= j < |m| - 1
      ensures Keys(m[1..])[j] == Keys(m)[j + 1] != m[0].0
    {
      assert Keys(m)[0] == m[0].0;
    }
  }

  /** Putting a new element in front of distinct elements keeps them distinct. */
  lemma DistinctCons<T>(x: T, xs: seq<T>)
    requires Distinct(xs) && x !in xs
    ensures Distinct([x] + xs)
  {
    var ys := [x] + xs;
    forall j, j' | 0 <= j < j' < |ys|
      ensures ys[j] != ys[j']
    {
      assert ys[j'] == xs[j' - 1];
    }
  }

  /** With distinct keys, a binding is in the map exactly when `get` finds it. */
  lemma {:induction false} GetIffBinding<K, V>(m: LinkedMap<K, V>, k: K, v: V)
    requires Distinct(Keys(m))
    ensures Get(m, k) == Some(v) <==> (k, v) in m
    decreases |m|
  {
    if |m| > 0 {
      KeysCons(m);
      if m[0].0 != k {
        forall j, j' | 0 <= j < j' < |m| - 1
          ensures Keys(m[1..])[j] != Keys(m[1..])[j']
        {
          assert Keys(m[1..])[j] == Keys(m)[j + 1] && Keys(m[1..])[j'] == Keys(m)[j' + 1];
        }
        GetIffBinding(m[1..], k, v);
        assert (k, v) in m <==> (k, v) in m[1..];
      } else {
        if (k, v) in m {
          var j :| 0 <= j < |m| && m[j] == (k, v);
          assert Keys(m)[j] == Keys(m)[0];
        }
      }
    }
  }
}
