/** A plain JavaScript object used as a dictionary.  Besides its key/value
    entries it remembers the order in which keys were first inserted, which
    is the order `Object.keys`, `Object.values` and `for ... in` visit them. */
module Dicts {

  /** Property names of a plain object are strings. */
  type Key = string

  /** No element occurs twice. */
  predicate Distinct<K(==)>(s: seq<K>) {
    forall i, j :: 0 <= i < j < |s| ==> s[i] != s[j]
  }

  datatype RawDict<V> = RawDict(keys: seq<Key>, entries: map<Key, V>)

  /** The key order lists every key of the entries exactly once. */
  ghost predicate Listed<V>(d: RawDict<V>) {
    && Distinct(d.keys)
    && (forall k :: k in d.entries <==> k in d.keys)
  }

  type Dict<V> = d: RawDict<V> | Listed(d) witness RawDict([], map[])

  /** `{}` */
  function Empty<V>(): Dict<V> {
    RawDict([], map[])
  }

  /** `o[k] = v`: an existing key keeps its place in the order, a new key goes last. */
  function Put<V>(d: Dict<V>, k: Key, v: V): (r: Dict<V>)
    ensures r.entries == d.entries[k := v]
    ensures k in d.entries ==> r.keys == d.keys
    ensures k !in d.entries ==> r.keys == d.keys + [k]
  {
    if k in d.entries then RawDict(d.keys, d.entries[k := v])
    else RawDict(d.keys + [k], d.entries[k := v])
  }

  /** `s` with every occurrence of `k` dropped, order kept. */
  function Without(s: seq<Key>, k: Key): (r: seq<Key>)
    ensures forall x :: x in r <==> x in s && x != k
    ensures Distinct(s) ==> Distinct(r)
  {
    if s == [] then []
    else
      assert Distinct(s) ==> Distinct(s[1..]) && s[0] !in s[1..] by {
        if Distinct(s) {
          forall j | 0 <= j < |s[1..]| ensures s[1..][j] != s[0] {
            assert s[1..][j] == s[j + 1];
          }
        }
      }
      (if s[0] == k then [] else [s[0]]) + Without(s[1..], k)
  }

  /** `Object.values(o)`: the values in key order. */
  function Values<V>(d: Dict<V>): (vs: seq<V>)
    ensures |vs| == |d.keys|
    ensures forall i :: 0 <= i < |d.keys| ==> vs[i] == d.entries[d.keys[i]]
    ensures forall k :: k in d.entries ==> d.entries[k] in vs
  {
    var vs := seq(|d.keys|, i requires 0 <= i < |d.keys| => d.entries[d.keys[i]]);
    assert forall k :: k in d.entries ==> d.entries[k] in vs by {
      forall k | k in d.entries ensures d.entries[k] in vs {
        var i :| 0 <= i < |d.keys| && d.keys[i] == k;
        assert vs[i] == d.entries[k];
      }
    }
    vs
  }

  /** A list without repeats has as many elements as its set of elements. */
  lemma {:induction false} DistinctCard<K>(s: seq<K>)
    requires Distinct(s)
    ensures |set x | x in s| == |s|
  {
    if s != [] {
      assert Distinct(s[1..]) by {
        forall i, j | 0 <= i < j < |s[1..]| ensures s[1..][i] != s[1..][j] {
          assert s[1..][i] == s[i + 1] && s[1..][j] == s[j + 1];
        }
      }
      DistinctCard(s[1..]);
      assert s[0] !in s[1..] by {
        forall j | 0 <= j < |s[1..]| ensures s[1..][j] != s[0] {
          assert s[1..][j] == s[j + 1];
        }
      }
      assert (set x | x in s) == {s[0]} + (set x | x in s[1..]) by {
        assert s == [s[0]] + s[1..];
      }
    }
  }

  /** Deleting a key that occurs once, between parts that lack it, leaves those parts joined. */
  lemma {:induction false} WithoutSplit(a: seq<Key>, k: Key, b: seq<Key>)
    requires k !in a && k !in b
    ensures Without(a + [k] + b, k) == a + b
  {
    if a == [] {
      assert a + [k] + b == [k] + b;
      assert ([k] + b)[1..] == b;
      WithoutAbsent(b, k);
    } else {
      assert (a + [k] + b)[0] == a[0];
      assert (a + [k] + b)[1..] == a[1..] + [k] + b;
      WithoutSplit(a[1..], k, b);
      assert a == [a[0]] + a[1..];
    }
  }

  /** Deleting a key that is not there leaves the order as it was. */
  lemma {:induction false} WithoutAbsent(s: seq<Key>, k: Key)
    requires k !in s
    ensures Without(s, k) == s
  {
    if s != [] {
      WithoutAbsent(s[1..], k);
      assert s == [s[0]] + s[1..];
    }
  }
}
