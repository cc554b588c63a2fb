/** Insertion-ordered dictionaries keyed by text, as Python's `dict` and `OrderedDict`
    behave: an entry list with at most one entry per key. */
module Dicts {
  import opened Results

  type Entries<V> = seq<(string, V)>

  /** The keys in iteration order. */
  function Keys<V>(d: Entries<V>): (ks: seq<string>)
    ensures |ks| == |d|
    ensures forall i :: 0 <= i < |d| ==> ks[i] == d[i].0
    decreases |d|
  {
    if d == [] then [] else [d[0].0] + Keys(d[1..])
  }

  predicate DistinctKeys<V>(d: Entries<V>) {
    forall i, j :: 0 <= i < j < |d| ==> d[i].0 != d[j].0
  }

  /** `d.get(k)`. */
  function Get<V>(d: Entries<V>, k: string): (r: Option<V>)
    ensures r.None? <==> k !in Keys(d)
    decreases |d|
  {
    if d == [] then None else if d[0].0 == k then Some(d[0].1) else Get(d[1..], k)
  }

  lemma KeysCons<V>(y: (string, V), t: Entries<V>)
    ensures Keys([y] + t) == [y.0] + Keys(t)
  {
    assert ([y] + t)[1..] == t;
  }

  /** Looking up in a list with a given first entry: that entry when its key matches, else the rest. */
  lemma GetCons<V>(y: (string, V), t: Entries<V>, k: string)
    ensures Get([y] + t, k) == if y.0 == k then Some(y.1) else Get(t, k)
  {
    assert ([y] + t)[1..] == t;
  }

  /** `d[k] = v`: an existing key keeps its position and takes the new value; a new key goes last. */
  function Put<V>(d: Entries<V>, k: string, v: V): Entries<V>
    decreases |d|
  {
    if d == [] then [(k, v)]
    else if d[0].0 == k then [(k, v)] + d[1..]
    else [d[0]] + Put(d[1..], k, v)
  }

  /** `d.update(other)`, `other` taken in its own order. */
  function Update<V>(d: Entries<V>, other: Entries<V>): Entries<V>
    decreases |other|
  {
    if other == [] then d else Update(Put(d, other[0].0, other[0].1), other[1..])
  }

  /** After `d[k] = v`, `k` maps to `v` and every other key to what it mapped to before. */
  lemma {:induction false} PutGet<V>(d: Entries<V>, k: string, v: V, k2: string)
    ensures Get(Put(d, k, v), k2) == if k2 == k then Some(v) else Get(d, k2)
    decreases |d|
  {
    if d != [] && d[0].0 != k {
      PutGet(d[1..], k, v, k2);
      assert Put(d, k, v)[1..] == Put(d[1..], k, v);
    }
  }

  /** `d[k] = v` keeps the key order and appends a key it has not seen. */
  lemma {:induction false} PutKeys<V>(d: Entries<V>, k: string, v: V)
    ensures Keys(Put(d, k, v)) == if k in Keys(d) then Keys(d) else Keys(d) + [k]
    decreases |d|
  {
    if d != [] && d[0].0 != k {
      PutKeys(d[1..], k, v);
      assert Keys(d) == [d[0].0] + Keys(d[1..]);
      assert Put(d, k, v) == [d[0]] + Put(d[1..], k, v);
      assert Keys(Put(d, k, v)) == [d[0].0] + Keys(Put(d[1..], k, v));
    } else if d != [] {
      assert Keys(Put(d, k, v)) == [k] + Keys(d[1..]);
    }
  }

  /** `d[k] = v` keeps the keys distinct. */
  lemma PutDistinct<V>(d: Entries<V>, k: string, v: V)
    requires DistinctKeys(d)
    ensures DistinctKeys(Put(d, k, v))
  {
    var p := Put(d, k, v);
    PutKeys(d, k, v);
    forall i, j | 0 <= i < j < |p|
      ensures p[i].0 != p[j].0
    {
      assert Keys(p)[i] == p[i].0 && Keys(p)[j] == p[j].0;
      if j < |d| {
        assert Keys(d)[i] == d[i].0 && Keys(d)[j] == d[j].0;
      } else {
        assert Keys(d)[i] == d[i].0;
      }
    }
  }

  /** The keys of `other` absent from `seen`, in order, each once. */
  function Unseen(seen: seq<string>, ks: seq<string>): seq<string>
    decreases |ks|
  {
    if ks == [] then []
    else if ks[0] in seen then Unseen(seen, ks[1..])
    else [ks[0]] + Unseen(seen + [ks[0]], ks[1..])
  }

  /** `d.update(other)` keeps the existing keys in place and appends the new ones in `other`'s order. */
  lemma {:induction false} UpdateKeys<V>(d: Entries<V>, other: Entries<V>)
    ensures Keys(Update(d, other)) == Keys(d) + Unseen(Keys(d), Keys(other))
    decreases |other|
  {
    if other != [] {
      var k, v := other[0].0, other[0].1;
      var seen, rest := Keys(d), Keys(other[1..]);
      UpdateKeys(Put(d, k, v), other[1..]);
      PutKeys(d, k, v);
      assert Keys(other) == [k] + rest;
      assert Unseen(seen, Keys(other)) == if k in seen then Unseen(seen, rest) else [k] + Unseen(seen + [k], rest) by {
        assert ([k] + rest)[1..] == rest;
      }
      if k !in seen {
        var u := Unseen(seen + [k], rest);
        assert seen + [k] + u == seen + ([k] + u);
      }
    }
  }

  /** After `d.update(other)` a key holds `other`'s value when `other` has it and its old value otherwise. */
  lemma {:induction false} UpdateGet<V>(d: Entries<V>, other: Entries<V>, k: string)
    requires DistinctKeys(other)
    ensures Get(Update(d, other), k) == if Get(other, k).Some? then Get(other, k) else Get(d, k)
    decreases |other|
  {
    if other != [] {
      var k0, v0 := other[0].0, other[0].1;
      UpdateGet(Put(d, k0, v0), other[1..], k);
      PutGet(d, k0, v0, k);
      if k == k0 {
        assert k !in Keys(other[1..]);
      }
    }
  }

  /** `d.update(other)` keeps the keys distinct. */
  lemma {:induction false} UpdateDistinct<V>(d: Entries<V>, other: Entries<V>)
    requires DistinctKeys(d)
    ensures DistinctKeys(Update(d, other))
    decreases |other|
  {
    if other != [] {
      PutDistinct(d, other[0].0, other[0].1);
      UpdateDistinct(Put(d, other[0].0, other[0].1), other[1..]);
    }
  }
}
