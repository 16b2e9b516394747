/** The insertion-ordered Map the source relies on, and the bucketing loop
    (`get` the bucket, push, or `set` a new one) that several pages share. */
module JsCollections {
  datatype Option<+T> = None | Some(value: T)

  datatype Entry<K, V> = Entry(key: K, value: V)

  /** A Map as the sequence of its entries in insertion order. */
  type JsMap<K, V> = seq<Entry<K, V>>

  function IndexOf<K(==), V>(m: JsMap<K, V>, k: K): (i: int)
    ensures -1 <= i < |m|
    ensures i >= 0 ==> m[i].key == k
    ensures i < 0 ==> forall j :: 0 <= j < |m| ==> m[j].key != k
  {
    if m == [] then -1
    else if m[0].key == k then 0
    else
      var i := IndexOf(m[1..], k);
      if i < 0 then -1 else i + 1
  }

  /** `map.set`: an existing key keeps its place, a new one goes last. */
  function Put<K(==), V>(m: JsMap<K, V>, k: K, v: V): JsMap<K, V> {
    var i := IndexOf(m, k);
    if i < 0 then m + [Entry(k, v)] else m[i := Entry(k, v)]
  }

  function Keys<K, V>(m: JsMap<K, V>): (r: seq<K>)
    ensures |r| == |m|
  {
    seq(|m|, i requires 0 <= i < |m| => m[i].key)
  }

  function Values<K, V>(m: JsMap<K, V>): (r: seq<V>)
    ensures |r| == |m|
  {
    seq(|m|, i requires 0 <= i < |m| => m[i].value)
  }

  ghost predicate Distinct<T>(s: seq<T>) {
    forall i, j :: 0 <= i < j < |s| ==> s[i] != s[j]
  }

  ghost predicate Increasing(ks: seq<int>) {
    forall i, j :: 0 <= i < j < |ks| ==> ks[i] < ks[j]
  }

  /** The values of `s`, each once, in order of first appearance. */
  function Firsts<T(==, !new)>(s: seq<T>): (r: seq<T>)
    ensures Distinct(r)
    ensures forall x :: x in r <==> x in s
  {
    if s == [] then []
    else
      var r := Firsts(s[..|s| - 1]);
      var x := s[|s| - 1];
      assert s == s[..|s| - 1] + [x];
      if x in r then r else r + [x]
  }

  lemma FirstsSnoc<T(!new)>(s: seq<T>, x: T)
    ensures Firsts(s + [x]) == if x in s then Firsts(s) else Firsts(s) + [x]
  {
    assert (s + [x])[..|s|] == s;
  }

  function KeysOf<T, K>(items: seq<T>, key: T -> K): (r: seq<K>)
    ensures |r| == |items|
    ensures forall i :: 0 <= i < |items| ==> r[i] == key(items[i])
  {
    seq(|items|, i requires 0 <= i < |items| => key(items[i]))
  }

  /** The items with key `k`, in input order. */
  function Bucket<T, K(==)>(items: seq<T>, key: T -> K, k: K): seq<T> {
    if items == [] then []
    else
      var last := items[|items| - 1];
      var r := Bucket(items[..|items| - 1], key, k);
      if key(last) == k then r + [last] else r
  }

  lemma {:induction false} BucketMembers<T(!new), K>(items: seq<T>, key: T -> K, k: K)
    ensures forall x :: x in Bucket(items, key, k) <==> x in items && key(x) == k
  {
    if items != [] {
      BucketMembers(items[..|items| - 1], key, k);
      assert items == items[..|items| - 1] + [items[|items| - 1]];
    }
  }

  lemma {:induction false} EmptyBucket<T(!new), K>(items: seq<T>, key: T -> K, k: K)
    requires forall x :: x in items ==> key(x) != k
    ensures Bucket(items, key, k) == []
  {
    if items != [] {
      assert items[|items| - 1] in items;
      EmptyBucket(items[..|items| - 1], key, k);
    }
  }

  lemma BucketSnoc<T, K>(items: seq<T>, x: T, key: T -> K, k: K)
    ensures Bucket(items + [x], key, k) ==
            if key(x) == k then Bucket(items, key, k) + [x] else Bucket(items, key, k)
  {
    assert (items + [x])[..|items|] == items;
  }

  lemma {:induction false} BucketCounts<T, K>(items: seq<T>, key: T -> K, k: K, x: T)
    ensures multiset(Bucket(items, key, k))[x] == if key(x) == k then multiset(items)[x] else 0
  {
    if items != [] {
      var init := items[..|items| - 1];
      BucketCounts(init, key, k, x);
      assert items == init + [items[|items| - 1]];
    }
  }

  /** Reordering a list reorders its buckets and no more. */
  lemma BucketIgnoresOrder<T(!new), K>(a: seq<T>, b: seq<T>, key: T -> K, k: K)
    requires multiset(a) == multiset(b)
    ensures multiset(Bucket(a, key, k)) == multiset(Bucket(b, key, k))
  {
    forall x ensures multiset(Bucket(a, key, k))[x] == multiset(Bucket(b, key, k))[x] {
      BucketCounts(a, key, k, x);
      BucketCounts(b, key, k, x);
    }
  }

  function EntriesFor<T, K(==)>(ks: seq<K>, items: seq<T>, key: T -> K): (r: JsMap<K, seq<T>>)
    ensures |r| == |ks|
    ensures forall i :: 0 <= i < |r| ==> r[i].key == ks[i]
    ensures forall i :: 0 <= i < |r| ==> r[i].value == Bucket(items, key, ks[i])
  {
    seq(|ks|, i requires 0 <= i < |ks| => Entry(ks[i], Bucket(items, key, ks[i])))
  }

  /** What bucketing must produce: one entry per key in order of first
      appearance, holding exactly the items with that key in input order. */
  function Grouped<T, K(==, !new)>(items: seq<T>, key: T -> K): JsMap<K, seq<T>> {
    EntriesFor(Firsts(KeysOf(items, key)), items, key)
  }

  /** One pass of the source's loop body. */
  function PushTo<T, K(==)>(m: JsMap<K, seq<T>>, k: K, x: T): JsMap<K, seq<T>> {
    var i := IndexOf(m, k);
    Put(m, k, if i < 0 then [x] else m[i].value + [x])
  }

  lemma {:induction false} BucketOfNewKey<T, K(!new)>(items: seq<T>, key: T -> K, k: K)
    requires k !in KeysOf(items, key)
    ensures Bucket(items, key, k) == []
  {
    if items != [] {
      var init := items[..|items| - 1];
      assert KeysOf(items, key)[|items| - 1] == key(items[|items| - 1]);
      forall n | 0 <= n < |init| ensures KeysOf(init, key)[n] != k {
        assert KeysOf(items, key)[n] == key(items[n]);
      }
      BucketOfNewKey(init, key, k);
    }
  }

  lemma EntriesForSnoc<T, K>(ks: seq<K>, items: seq<T>, x: T, key: T -> K, n: nat)
    requires n < |ks|
    ensures EntriesFor(ks, items + [x], key)[n] ==
            Entry(ks[n], if ks[n] == key(x) then Bucket(items, key, ks[n]) + [x] else Bucket(items, key, ks[n]))
  {
    BucketSnoc(items, x, key, ks[n]);
  }

  lemma EntriesForNew<T, K(!new)>(fs: seq<K>, items: seq<T>, x: T, key: T -> K)
    requires key(x) !in fs && key(x) !in KeysOf(items, key)
    ensures EntriesFor(fs + [key(x)], items + [x], key) == EntriesFor(fs, items, key) + [Entry(key(x), [x])]
  {
    var ks := fs + [key(x)];
    forall n | 0 <= n < |ks|
      ensures EntriesFor(ks, items + [x], key)[n] == (EntriesFor(fs, items, key) + [Entry(key(x), [x])])[n]
    {
      EntriesForSnoc(ks, items, x, key, n);
      if n == |fs| {
        BucketOfNewKey(items, key, key(x));
        assert Bucket(items, key, key(x)) + [x] == [x];
      } else {
        assert ks[n] == fs[n] && fs[n] in fs;
        assert EntriesFor(fs, items, key)[n].value == Bucket(items, key, fs[n]);
      }
    }
  }

  lemma EntriesForOld<T, K(!new)>(fs: seq<K>, items: seq<T>, x: T, key: T -> K, i: nat)
    requires Distinct(fs) && i < |fs| && fs[i] == key(x)
    ensures EntriesFor(fs, items + [x], key) ==
            EntriesFor(fs, items, key)[i := Entry(fs[i], Bucket(items, key, fs[i]) + [x])]
  {
    forall n | 0 <= n < |fs|
      ensures EntriesFor(fs, items + [x], key)[n] ==
              EntriesFor(fs, items, key)[i := Entry(fs[i], Bucket(items, key, fs[i]) + [x])][n]
    {
      EntriesForSnoc(fs, items, x, key, n);
    }
  }

  lemma GroupedSnoc<T, K(!new)>(items: seq<T>, x: T, key: T -> K)
    ensures Grouped(items + [x], key) == PushTo(Grouped(items, key), key(x), x)
  {
    var ks, k := KeysOf(items, key), key(x);
    var fs := Firsts(ks);
    assert KeysOf(items + [x], key) == ks + [k];
    FirstsSnoc(ks, k);
    var es := EntriesFor(fs, items, key);
    var i := IndexOf(es, k);
    if k in fs {
      var j :| 0 <= j < |fs| && fs[j] == k;
      assert es[j].key == k && i >= 0;
      EntriesForOld(fs, items, x, key, i);
    } else {
      assert forall j :: 0 <= j < |fs| ==> es[j].key == fs[j];
      assert i < 0;
      EntriesForNew(fs, items, x, key);
    }
  }

  /** The shared bucketing loop, for any key function. */
  method GroupItems<T, K(==, !new)>(items: seq<T>, key: T -> K) returns (groups: JsMap<K, seq<T>>)
    ensures groups == Grouped(items, key)
  {
    groups := [];
    for n := 0 to |items|
      invariant groups == Grouped(items[..n], key)
    {
      GroupedSnoc(items[..n], items[n], key);
      assert items[..n + 1] == items[..n] + [items[n]];
      groups := PushTo(groups, key(items[n]), items[n]);
    }
    assert items[..|items|] == items;
  }

  function Flatten<T>(ss: seq<seq<T>>): seq<T> {
    if ss == [] then [] else Flatten(ss[..|ss| - 1]) + ss[|ss| - 1]
  }

  lemma FlattenSnoc<T>(ss: seq<seq<T>>, s: seq<T>)
    ensures Flatten(ss + [s]) == Flatten(ss) + s
  {
    assert (ss + [s])[..|ss|] == ss;
  }

  lemma {:induction false} FlattenGrows<T>(ss: seq<seq<T>>, i: nat, x: T)
    requires i < |ss|
    ensures multiset(Flatten(ss[i := ss[i] + [x]])) == multiset(Flatten(ss)) + multiset{x}
  {
    var init, n := ss[..|ss| - 1], |ss| - 1;
    if i == n {
      assert ss[i := ss[i] + [x]] == init + [ss[n] + [x]];
      FlattenSnoc(init, ss[n] + [x]);
    } else {
      FlattenGrows(init, i, x);
      assert ss[i := ss[i] + [x]] == init[i := init[i] + [x]] + [ss[n]];
      FlattenSnoc(init[i := init[i] + [x]], ss[n]);
    }
  }

  lemma PushKeepsAll<T, K(!new)>(g: JsMap<K, seq<T>>, k: K, x: T)
    ensures multiset(Flatten(Values(PushTo(g, k, x)))) == multiset(Flatten(Values(g))) + multiset{x}
  {
    var i := IndexOf(g, k);
    if i < 0 {
      assert Values(PushTo(g, k, x)) == Values(g) + [[x]];
      FlattenSnoc(Values(g), [x]);
    } else {
      assert Values(PushTo(g, k, x)) == Values(g)[i := Values(g)[i] + [x]];
      FlattenGrows(Values(g), i, x);
    }
  }

  /** Bucketing loses and invents nothing. */
  lemma {:induction false} GroupedKeepsAll<T, K(!new)>(items: seq<T>, key: T -> K)
    ensures multiset(Flatten(Values(Grouped(items, key)))) == multiset(items)
  {
    if items == [] {
      assert Values(Grouped(items, key)) == [];
    } else {
      var init, x := items[..|items| - 1], items[|items| - 1];
      assert items == init + [x];
      GroupedKeepsAll(init, key);
      GroupedSnoc(init, x, key);
      PushKeepsAll(Grouped(init, key), key(x), x);
    }
  }

  /** The loop of `map.set(key(x), x)`, item by item. */
  function Latest<T, K(==)>(items: seq<T>, key: T -> K): JsMap<K, T> {
    if items == [] then []
    else
      var x := items[|items| - 1];
      Put(Latest(items[..|items| - 1], key), key(x), x)
  }

  lemma PutKeys<T, K(!new)>(m: JsMap<K, T>, k: K, x: T)
    ensures Keys(Put(m, k, x)) == if k in Keys(m) then Keys(m) else Keys(m) + [k]
  {
    var i := IndexOf(m, k);
    if i >= 0 {
      assert Keys(m)[i] == k;
      assert Keys(Put(m, k, x)) == Keys(m);
    } else {
      assert forall j :: 0 <= j < |m| ==> Keys(m)[j] == m[j].key;
      assert Keys(Put(m, k, x)) == Keys(m) + [k];
    }
  }

  /** Its keys stand in order of first appearance. */
  lemma {:induction false} LatestKeys<T, K(!new)>(items: seq<T>, key: T -> K)
    ensures Keys(Latest(items, key)) == Firsts(KeysOf(items, key))
  {
    if items == [] {
      assert Keys(Latest(items, key)) == [];
    } else {
      var init, x := items[..|items| - 1], items[|items| - 1];
      LatestKeys(init, key);
      PutKeys(Latest(init, key), key(x), x);
      FirstsSnoc(KeysOf(init, key), key(x));
      assert KeysOf(items, key) == KeysOf(init, key) + [key(x)];
    }
  }

  /** Its value at a key is the last item that carried the key. */
  lemma {:induction false} LatestValue<T, K(!new)>(items: seq<T>, key: T -> K, j: nat)
    requires j < |Latest(items, key)|
    ensures var e, b := Latest(items, key)[j], Bucket(items, key, Latest(items, key)[j].key);
            b != [] && e.value == b[|b| - 1]
  {
    var init, x := items[..|items| - 1], items[|items| - 1];
    var m, k := Latest(init, key), key(x);
    var i := IndexOf(m, k);
    if j == i || j == |m| {
      assert Latest(items, key)[j] == Entry(k, x);
    } else {
      LatestValue(init, key, j);
      LatestKeys(init, key);
      assert m[j].key != k by {
        if i >= 0 { assert Keys(m)[i] == k && Keys(m)[j] == m[j].key; }
      }
    }
  }

  /** Taking one occurrence out of a duplicate-free list. */
  lemma DistinctWithout<T(!new)>(s: seq<T>, j: nat)
    requires Distinct(s) && j < |s|
    ensures Distinct(s[..j] + s[j + 1..])
    ensures forall x :: x in s[..j] + s[j + 1..] <==> x in s && x != s[j]
  {
    var r := s[..j] + s[j + 1..];
    forall i | 0 <= i < |r| ensures r[i] == s[if i < j then i else i + 1] {}
    forall x | x in s && x != s[j] ensures x in r {
      var i :| 0 <= i < |s| && s[i] == x;
      assert r[if i < j then i else i - 1] == x;
    }
  }

  lemma NoMembers<T(!new)>(s: seq<T>)
    requires forall x :: x !in s
    ensures s == []
  {
    assert forall x :: x in multiset(s) ==> x in s;
    assert multiset(s) == multiset{};
    assert |multiset(s)| == |s|;
  }
}
