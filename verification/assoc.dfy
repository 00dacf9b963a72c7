/** Insertion-ordered dictionaries. Python's `dict` remembers the order in
    which keys were first inserted, and `list(d.keys())` is shown to users as
    button options, so the model keeps each dictionary as a list of
    key/value pairs: assigning to an existing key replaces its value in
    place, a new key goes to the end. */
module Assoc {
  import opened Wrappers

  type Assoc<K, V> = seq<(K, V)>

  /** `list(d.keys())`. */
  function Keys<K, V>(m: Assoc<K, V>): (ks: seq<K>)
    ensures |ks| == |m|
    ensures forall i :: 0 <= i < |m| ==> ks[i] == m[i].0
  {
    if |m| == 0 then [] else [m[0].0] + Keys(m[1..])
  }

  /** `list(d.values())`. */
  function Values<K, V>(m: Assoc<K, V>): (vs: seq<V>)
    ensures |vs| == |m|
    ensures forall i :: 0 <= i < |m| ==> vs[i] == m[i].1
  {
    if |m| == 0 then [] else [m[0].1] + Values(m[1..])
  }

  /** No key occurs twice, as in every dictionary. */
  predicate Unique<K(==), V>(m: Assoc<K, V>) {
    forall i, j :: 0 <= i < j < |m| ==> m[i].0 != m[j].0
  }

  predicate HasKey<K(==), V>(m: Assoc<K, V>, k: K) {
    k in Keys(m)
  }

  /** `d[k]` when present. */
  function Get<K(==), V>(m: Assoc<K, V>, k: K): (r: Option<V>)
    ensures r.None? <==> k !in Keys(m)
  {
    if |m| == 0 then None
    else if m[0].0 == k then Some(m[0].1)
    else
      assert Keys(m) == [m[0].0] + Keys(m[1..]);
      Get(m[1..], k)
  }

  /** A value found under `k` is stored with `k`. */
  lemma {:induction false} GetStored<K, V>(m: Assoc<K, V>, k: K)
    requires Get(m, k).Some?
    ensures (k, Get(m, k).value) in m
  {
    if m[0].0 != k {
      GetStored(m[1..], k);
    }
  }

  /** `d.get(k, default)`. */
  function GetOr<K(==), V>(m: Assoc<K, V>, k: K, default: V): V {
    Get(m, k).GetOr(default)
  }

  /** `d[k] = v`. */
  function Put<K(==,!new), V>(m: Assoc<K, V>, k: K, v: V): (r: Assoc<K, V>)
    ensures Get(r, k) == Some(v)
    ensures forall k' :: k' != k ==> Get(r, k') == Get(m, k')
    ensures Keys(r) == if k in Keys(m) then Keys(m) else Keys(m) + [k]
  {
    if |m| == 0 then [(k, v)]
    else if m[0].0 == k then [(k, v)] + m[1..]
    else
      var rest := Put(m[1..], k, v);
      PutStep(m, k, v, rest);
      [m[0]] + rest
  }

  /** The recursive step of `Put`: a pair in front of a different key
      leaves the assignment to the rest as it was. */
  lemma PutStep<K, V>(m: Assoc<K, V>, k: K, v: V, rest: Assoc<K, V>)
    requires |m| > 0 && m[0].0 != k
    requires Get(rest, k) == Some(v)
    requires forall k' :: k' != k ==> Get(rest, k') == Get(m[1..], k')
    requires Keys(rest) == if k in Keys(m[1..]) then Keys(m[1..]) else Keys(m[1..]) + [k]
    ensures Get([m[0]] + rest, k) == Some(v)
    ensures forall k' :: k' != k ==> Get([m[0]] + rest, k') == Get(m, k')
    ensures Keys([m[0]] + rest) == if k in Keys(m) then Keys(m) else Keys(m) + [k]
  {
    PutStepGet(m, k, v, rest);
    PutStepKeys(m, k, rest);
  }

  lemma PutStepGet<K, V>(m: Assoc<K, V>, k: K, v: V, rest: Assoc<K, V>)
    requires |m| > 0 && m[0].0 != k
    requires Get(rest, k) == Some(v)
    requires forall k' :: k' != k ==> Get(rest, k') == Get(m[1..], k')
    ensures Get([m[0]] + rest, k) == Some(v)
    ensures forall k' :: k' != k ==> Get([m[0]] + rest, k') == Get(m, k')
  {
    assert m == [m[0]] + m[1..];
    ConsGet(m[0], m[1..]);
    ConsGet(m[0], rest);
  }

  lemma PutStepKeys<K, V>(m: Assoc<K, V>, k: K, rest: Assoc<K, V>)
    requires |m| > 0 && m[0].0 != k
    requires Keys(rest) == if k in Keys(m[1..]) then Keys(m[1..]) else Keys(m[1..]) + [k]
    ensures Keys([m[0]] + rest) == if k in Keys(m) then Keys(m) else Keys(m) + [k]
  {
    var tail := Keys(m[1..]);
    assert m == [m[0]] + m[1..];
    ConsKeys(m[0], m[1..]);
    ConsKeys(m[0], rest);
    assert Keys(m) == [m[0].0] + tail;
    assert k in Keys(m) <==> k in tail;
    if k !in tail {
      assert [m[0].0] + (tail + [k]) == ([m[0].0] + tail) + [k];
    }
  }

  /** The keys of a dictionary with one more pair in front. */
  lemma ConsKeys<K, V>(p: (K, V), m: Assoc<K, V>)
    ensures Keys([p] + m) == [p.0] + Keys(m)
  {
    assert ([p] + m)[1..] == m;
  }

  /** Looking up in a dictionary with one more pair in front. */
  lemma ConsGet<K, V>(p: (K, V), m: Assoc<K, V>)
    ensures forall k :: Get([p] + m, k) == if p.0 == k then Some(p.1) else Get(m, k)
  {
    assert ([p] + m)[1..] == m;
  }

  /** Assignment keeps the keys distinct. */
  lemma PutUnique<K(!new), V>(m: Assoc<K, V>, k: K, v: V)
    requires Unique(m)
    ensures Unique(Put(m, k, v))
  {
    var r := Put(m, k, v);
    DistinctKeys(m);
    DistinctKeys(r);
    if k !in Keys(m) {
      var ks := Keys(m);
      assert forall i :: 0 <= i < |ks| ==> (ks + [k])[i] == ks[i];
    }
  }

  /** Distinct keys, stated on the key list. */
  lemma DistinctKeys<K, V>(m: Assoc<K, V>)
    ensures Unique(m) <==> forall i, j :: 0 <= i < j < |Keys(m)| ==> Keys(m)[i] != Keys(m)[j]
  {
    var ks := Keys(m);
    if Unique(m) {
      forall i, j | 0 <= i < j < |ks| ensures ks[i] != ks[j] {
        assert ks[i] == m[i].0 && ks[j] == m[j].0;
      }
    } else {
      var i, j :| 0 <= i < j < |m| && m[i].0 == m[j].0;
      assert ks[i] == m[i].0 && ks[j] == m[j].0;
      assert 0 <= i < j < |Keys(m)| && Keys(m)[i] == Keys(m)[j];
    }
  }

  /** The same dictionary with every value transformed (a dict comprehension
      over `d.items()`). */
  function MapValues<K(==,!new), V, W>(m: Assoc<K, V>, f: V -> W): (r: Assoc<K, W>)
    ensures Keys(r) == Keys(m)
    ensures forall k :: Get(r, k) == (if k in Keys(m) then Some(f(Get(m, k).value)) else None)
  {
    if |m| == 0 then []
    else
      var rest := MapValues(m[1..], f);
      assert Keys(m) == [m[0].0] + Keys(m[1..]);
      [(m[0].0, f(m[0].1))] + rest
  }
}
