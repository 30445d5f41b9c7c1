/** Python's dict: insertion-ordered, a replaced value keeps its place. */
module OrderedDict {
  import opened Common

  type Items<K, V> = seq<(K, V)>

  ghost predicate Lacks<K, V>(d: Items<K, V>, k: K) {
    forall i :: 0 <= i < |d| ==> d[i].0 != k
  }

  ghost predicate Unique<K, V>(d: Items<K, V>) {
    forall i, j :: 0 <= i < j < |d| ==> d[i].0 != d[j].0
  }

  function Get<K(==), V>(d: Items<K, V>, k: K): Option<V> {
    if d == [] then None else if d[0].0 == k then Some(d[0].1) else Get(d[1..], k)
  }

  function Put<K(==), V>(d: Items<K, V>, k: K, v: V): (r: Items<K, V>)
    ensures |d| <= |r| && r != []
  {
    if d == [] then [(k, v)]
    else if d[0].0 == k then [(k, v)] + d[1..]
    else [d[0]] + Put(d[1..], k, v)
  }

  /** Assigning several items in order. */
  function PutAll<K(==), V>(d: Items<K, V>, items: Items<K, V>): Items<K, V>
    decreases |items|
  {
    if items == [] then d else PutAll(Put(d, items[0].0, items[0].1), items[1..])
  }

  lemma GetOnly<K, V>(item: (K, V), k: K)
    ensures Get([item], k) == if item.0 == k then Some(item.1) else None
  {
    assert [item][1..] == [];
  }

  lemma {:induction false} GetPut<K, V>(d: Items<K, V>, k: K, v: V, other: K)
    ensures Get(Put(d, k, v), other) == if other == k then Some(v) else Get(d, other)
    decreases |d|
  {
    if d != [] && d[0].0 != k { GetPut(d[1..], k, v, other); }
  }

  lemma {:induction false} GetNoneIfLacks<K, V>(d: Items<K, V>, k: K)
    ensures Get(d, k).None? <==> Lacks(d, k)
    decreases |d|
  {
    if d != [] && d[0].0 != k { GetNoneIfLacks(d[1..], k); }
  }

  lemma {:induction false} PutNew<K, V>(d: Items<K, V>, k: K, v: V)
    requires Lacks(d, k)
    ensures Put(d, k, v) == d + [(k, v)]
    decreases |d|
  {
    if d != [] { PutNew(d[1..], k, v); }
  }

  /** The last item is found, and replaced where it is. */
  lemma {:induction false} LastItem<K, V>(d: Items<K, V>, k: K, was: V, v: V)
    requires Lacks(d, k)
    ensures Get(d + [(k, was)], k) == Some(was)
    ensures Put(d + [(k, was)], k, v) == d + [(k, v)]
    decreases |d|
  {
    if d == [] {
      assert [(k, was)][1..] == [];
    } else {
      assert (d + [(k, was)])[1..] == d[1..] + [(k, was)];
      LastItem(d[1..], k, was, v);
    }
  }

  lemma {:induction false} PutKeys<K, V>(d: Items<K, V>, k: K, v: V)
    requires Unique(d)
    ensures Unique(Put(d, k, v))
    ensures forall e :: e in Put(d, k, v) ==> e == (k, v) || (e in d && e.0 != k)
    decreases |d|
  {
    var r := Put(d, k, v);
    if d != [] {
      if d[0].0 == k {
        forall i, j | 0 <= i < j < |r| ensures r[i].0 != r[j].0 { assert r[i].0 == d[i].0 && r[j].0 == d[j].0; }
      } else {
        var rest := Put(d[1..], k, v);
        PutKeys(d[1..], k, v);
        forall i, j | 0 <= i < j < |r| ensures r[i].0 != r[j].0 {
          if i == 0 {
            assert r[j] == rest[j - 1] && rest[j - 1] in rest;
          } else {
            assert r[i] == rest[i - 1] && r[j] == rest[j - 1];
          }
        }
      }
    }
  }

  lemma {:induction false} GotIsIn<K, V>(d: Items<K, V>, k: K)
    ensures Get(d, k).Some? ==> (k, Get(d, k).value) in d
    decreases |d|
  {
    if d != [] && d[0].0 != k { GotIsIn(d[1..], k); }
  }

  lemma {:induction false} GetIsIn<K, V>(d: Items<K, V>, k: K, v: V)
    requires Unique(d)
    ensures Get(d, k) == Some(v) <==> (k, v) in d
    decreases |d|
  {
    if d != [] {
      assert d == [d[0]] + d[1..];
      if d[0].0 != k {
        GetIsIn(d[1..], k, v);
      } else if (k, v) in d[1..] {
        assert false;
      }
    }
  }

  lemma {:induction false} PutAllNew<K, V>(d: Items<K, V>, items: Items<K, V>)
    requires Unique(d + items)
    ensures PutAll(d, items) == d + items
    decreases |items|
  {
    if items == [] {
      assert d + items == d;
    } else {
      var all := d + items;
      forall i | 0 <= i < |d| ensures d[i].0 != items[0].0 {
        assert all[i] == d[i] && all[|d|] == items[0];
      }
      PutNew(d, items[0].0, items[0].1);
      assert d + [(items[0].0, items[0].1)] + items[1..] == all;
      PutAllNew(Put(d, items[0].0, items[0].1), items[1..]);
    }
  }

  lemma {:induction false} PutAllUnique<K, V>(d: Items<K, V>, items: Items<K, V>)
    requires Unique(d)
    ensures Unique(PutAll(d, items))
    decreases |items|
  {
    if items != [] {
      PutKeys(d, items[0].0, items[0].1);
      PutAllUnique(Put(d, items[0].0, items[0].1), items[1..]);
    }
  }

  lemma {:induction false} PutAllConcat<K, V>(d: Items<K, V>, a: Items<K, V>, b: Items<K, V>)
    ensures PutAll(d, a + b) == PutAll(PutAll(d, a), b)
    decreases |a|
  {
    if a == [] {
      assert a + b == b;
    } else {
      assert (a + b)[1..] == a[1..] + b;
      PutAllConcat(Put(d, a[0].0, a[0].1), a[1..], b);
    }
  }

  lemma {:induction false} PutComesFrom<K, V>(d: Items<K, V>, k: K, v: V)
    ensures forall e :: e in Put(d, k, v) ==> e == (k, v) || e in d
    decreases |d|
  {
    if d != [] && d[0].0 != k { PutComesFrom(d[1..], k, v); }
  }

  lemma {:induction false} PutAllComesFrom<K, V>(d: Items<K, V>, items: Items<K, V>)
    ensures forall e :: e in PutAll(d, items) ==> e in d || e in items
    decreases |items|
  {
    if items != [] {
      PutComesFrom(d, items[0].0, items[0].1);
      PutAllComesFrom(Put(d, items[0].0, items[0].1), items[1..]);
    }
  }

  lemma ConcatUnique<K, V>(a: Items<K, V>, b: Items<K, V>)
    requires Unique(a) && Unique(b)
    requires forall i, j :: 0 <= i < |a| && 0 <= j < |b| ==> a[i].0 != b[j].0
    ensures Unique(a + b)
  {
    var s := a + b;
    forall i, j | 0 <= i < j < |s| ensures s[i].0 != s[j].0 {
      if i < |a| <= j { assert s[i] == a[i] && s[j] == b[j - |a|]; }
    }
  }

  lemma UniqueParts<K, V>(a: Items<K, V>, b: Items<K, V>)
    requires Unique(a + b)
    ensures Unique(a) && Unique(b)
    ensures forall i, j :: 0 <= i < |a| && 0 <= j < |b| ==> a[i].0 != b[j].0
  {
    var s := a + b;
    forall i | 0 <= i < |a| ensures s[i] == a[i] {}
    forall j | 0 <= j < |b| ensures s[|a| + j] == b[j] {}
    forall i, j | 0 <= i < j < |b| ensures b[i].0 != b[j].0 { assert s[|a| + i].0 != s[|a| + j].0; }
    forall i, j | 0 <= i < |a| && 0 <= j < |b| ensures a[i].0 != b[j].0 { assert s[i].0 != s[|a| + j].0; }
  }
}
