/**
 * String-keyed dictionaries that remember insertion order: a Python `dict`
 * and the string-keyed properties of a JavaScript object. An association
 * list holds the entries in the order their keys were first assigned.
 */
module Dicts {
  import opened Wrappers

  type Dict<V> = seq<(string, V)>

  /** The keys, in order. */
  function Keys<V>(d: Dict<V>): (ks: seq<string>)
    ensures |ks| == |d| && forall i :: 0 <= i < |d| ==> ks[i] == d[i].0
  {
    seq(|d|, i requires 0 <= i < |d| => d[i].0)
  }

  /** Every key occurs once. */
  predicate UniqueKeys<V>(d: Dict<V>) {
    forall i, j :: 0 <= i < j < |d| ==> d[i].0 != d[j].0
  }

  /** `d.get(k)` in Python, `d[k]` in JavaScript. */
  function Lookup<V>(d: Dict<V>, k: string): (r: Option<V>)
    ensures r.None? <==> k !in Keys(d)
    ensures r.Some? ==> (k, r.value) in d
    decreases |d|
  {
    if d == [] then None
    else if d[0].0 == k then Some(d[0].1)
    else
      var r := Lookup(d[1..], k);
      assert Keys(d) == [d[0].0] + Keys(d[1..]);
      r
  }

  /** `d[k] = v`: an existing key keeps its place, a new key goes last. */
  function Put<V>(d: Dict<V>, k: string, v: V): (r: Dict<V>)
    ensures k in Keys(d) ==> |r| == |d| && Keys(r) == Keys(d)
    ensures k !in Keys(d) ==> r == d + [(k, v)]
    decreases |d|
  {
    if d == [] then [(k, v)]
    else if d[0].0 == k then [(k, v)] + d[1..]
    else
      assert Keys(d) == [d[0].0] + Keys(d[1..]);
      [d[0]] + Put(d[1..], k, v)
  }

  /** After `d[k] = v`, `k` maps to `v`. */
  lemma {:induction false} PutLookupSame<V>(d: Dict<V>, k: string, v: V)
    ensures Lookup(Put(d, k, v), k) == Some(v)
    decreases |d|
  {
    if d != [] && d[0].0 != k {
      PutLookupSame(d[1..], k, v);
      assert Put(d, k, v)[1..] == Put(d[1..], k, v);
    }
  }

  /** After `d[k] = v`, every other key maps to what it did. */
  lemma {:induction false} PutLookupOther<V>(d: Dict<V>, k: string, v: V, other: string)
    requires other != k
    ensures Lookup(Put(d, k, v), other) == Lookup(d, other)
    decreases |d|
  {
    if d != [] {
      assert Put(d, k, v)[1..] == (if d[0].0 == k then d[1..] else Put(d[1..], k, v));
      if d[0].0 != k {
        PutLookupOther(d[1..], k, v, other);
      }
    }
  }

  /** A lookup after `d[k] = v`. */
  lemma PutLookup<V>(d: Dict<V>, k: string, v: V, other: string)
    ensures Lookup(Put(d, k, v), other) == if other == k then Some(v) else Lookup(d, other)
  {
    if other == k {
      PutLookupSame(d, k, v);
    } else {
      PutLookupOther(d, k, v, other);
    }
  }

  /** Three assignments to distinct keys can each be read back. */
  lemma PutThreeLookup<V>(d: Dict<V>, k1: string, v1: V, k2: string, v2: V, k3: string, v3: V)
    requires k1 != k2 && k1 != k3 && k2 != k3
    ensures var r := Put(Put(Put(d, k1, v1), k2, v2), k3, v3);
      Lookup(r, k1) == Some(v1) && Lookup(r, k2) == Some(v2) && Lookup(r, k3) == Some(v3)
  {
    var d1 := Put(d, k1, v1);
    var d2 := Put(d1, k2, v2);
    PutLookupSame(d, k1, v1);
    PutLookupOther(d1, k2, v2, k1);
    PutLookupOther(d2, k3, v3, k1);
    PutLookupSame(d1, k2, v2);
    PutLookupOther(d2, k3, v3, k2);
    PutLookupSame(d2, k3, v3);
  }

  /** `d[k] = v` for each `k` of `keys` in turn. */
  function PutEach<V>(d: Dict<V>, keys: seq<string>, v: V): Dict<V>
    decreases |keys|
  {
    if keys == [] then d else PutEach(Put(d, keys[0], v), keys[1..], v)
  }

  /** After `PutEach`, the listed keys read `v` and every other key is unchanged. */
  lemma {:induction false} PutEachLookup<V>(d: Dict<V>, keys: seq<string>, v: V, k: string)
    ensures Lookup(PutEach(d, keys, v), k) == if k in keys then Some(v) else Lookup(d, k)
    decreases |keys|
  {
    if keys != [] {
      PutEachLookup(Put(d, keys[0], v), keys[1..], v, k);
      PutLookup(d, keys[0], v, k);
      InHeadOrTail(keys, k);
    }
  }

  lemma InHeadOrTail(keys: seq<string>, k: string)
    requires keys != []
    ensures k in keys <==> k == keys[0] || k in keys[1..]
  {
    assert keys == [keys[0]] + keys[1..];
  }

  /** `d[k] = v` keeps every key unique. */
  lemma PutUnique<V>(d: Dict<V>, k: string, v: V)
    requires UniqueKeys(d)
    ensures UniqueKeys(Put(d, k, v))
  {
    var r := Put(d, k, v);
    if k in Keys(d) {
      forall i, j | 0 <= i < j < |r| ensures r[i].0 != r[j].0 {
        assert r[i].0 == Keys(r)[i] == Keys(d)[i] == d[i].0;
        assert r[j].0 == Keys(r)[j] == Keys(d)[j] == d[j].0;
      }
    } else {
      forall i, j | 0 <= i < j < |r| ensures r[i].0 != r[j].0 {
        if j == |d| {
          assert Keys(d)[i] == d[i].0;
        }
      }
    }
  }

  /** `{...a, ...b}`: the entries of `b` assigned over those of `a`, in order. */
  function Spread<V>(a: Dict<V>, b: Dict<V>): Dict<V>
    decreases |b|
  {
    if b == [] then a else Spread(Put(a, b[0].0, b[0].1), b[1..])
  }

  /** A key of `b` takes its value from `b`; any other key keeps its value from `a`. */
  lemma {:induction false} SpreadLookup<V>(a: Dict<V>, b: Dict<V>, k: string)
    requires UniqueKeys(b)
    ensures Lookup(Spread(a, b), k) == if k in Keys(b) then Lookup(b, k) else Lookup(a, k)
    decreases |b|
  {
    if b != [] {
      var rest := b[1..];
      assert Keys(b) == [b[0].0] + Keys(rest);
      assert UniqueKeys(rest);
      SpreadLookup(Put(a, b[0].0, b[0].1), rest, k);
      PutLookup(a, b[0].0, b[0].1, k);
      if k == b[0].0 {
        assert k !in Keys(rest) by {
          forall i | 0 <= i < |rest| ensures Keys(rest)[i] != k {
            assert rest[i] == b[i + 1];
          }
        }
      }
    }
  }

  /** Spreading onto a dictionary with unique keys keeps them unique. */
  lemma {:induction false} SpreadUnique<V>(a: Dict<V>, b: Dict<V>)
    requires UniqueKeys(a)
    ensures UniqueKeys(Spread(a, b))
    decreases |b|
  {
    if b != [] {
      PutUnique(a, b[0].0, b[0].1);
      SpreadUnique(Put(a, b[0].0, b[0].1), b[1..]);
    }
  }

  /** An entry is what its key looks up when no earlier entry has that key. */
  lemma {:induction false} LookupAt<V>(d: Dict<V>, i: nat)
    requires i < |d| && forall j :: 0 <= j < i ==> d[j].0 != d[i].0
    ensures Lookup(d, d[i].0) == Some(d[i].1)
    decreases i
  {
    if i > 0 {
      assert d[0].0 != d[i].0;
      assert d[1..][i - 1] == d[i];
      LookupAt(d[1..], i - 1);
    }
  }
}
