/** A Python `dict`: key/value pairs in insertion order, each key at most once. */
module Dict {
  import opened Common

  function Keys<K, V>(d: seq<(K, V)>): (r: seq<K>)
    ensures |r| == |d| && forall i :: 0 <= i < |d| ==> r[i] == d[i].0
  {
    if d == [] then [] else [d[0].0] + Keys(d[1..])
  }

  function Values<K, V>(d: seq<(K, V)>): (r: seq<V>)
    ensures |r| == |d| && forall i :: 0 <= i < |d| ==> r[i] == d[i].1
  {
    if d == [] then [] else [d[0].1] + Values(d[1..])
  }

  lemma {:induction false} KeysConcat<K, V>(a: seq<(K, V)>, b: seq<(K, V)>)
    ensures Keys(a + b) == Keys(a) + Keys(b)
  {
    if a != [] {
      assert (a + b)[1..] == a[1..] + b;
      KeysConcat(a[1..], b);
    } else {
      assert a + b == b;
    }
  }

  lemma {:induction false} GetConcat<K, V>(a: seq<(K, V)>, b: seq<(K, V)>, k: K)
    ensures Get(a + b, k) == if k in Keys(a) then Get(a, k) else Get(b, k)
  {
    if a == [] {
      assert a + b == b;
    } else {
      assert (a + b)[0] == a[0];
      assert (a + b)[1..] == a[1..] + b;
      assert Keys(a) == [a[0].0] + Keys(a[1..]);
      GetConcat(a[1..], b, k);
    }
  }

  predicate DistinctKeys<K(==), V>(d: seq<(K, V)>) {
    forall i, j :: 0 <= i < j < |d| ==> d[i].0 != d[j].0
  }

  /** `d.get(k)`. */
  function Get<K(==), V>(d: seq<(K, V)>, k: K): (r: Option<V>)
    ensures r.Some? <==> k in Keys(d)
  {
    if d == [] then None
    else if d[0].0 == k then Some(d[0].1)
    else
      assert Keys(d) == [d[0].0] + Keys(d[1..]);
      Get(d[1..], k)
  }

  /** With distinct keys, each entry's key looks up that entry's value. */
  lemma {:induction false} GetAt<K, V>(d: seq<(K, V)>, i: nat)
    requires DistinctKeys(d) && i < |d|
    ensures Get(d, d[i].0) == Some(d[i].1)
  {
    if i > 0 {
      assert d[i] == d[1..][i - 1];
      GetAt(d[1..], i - 1);
    }
  }

  /** `d[k] = v`: an existing key keeps its position, a new key goes last. */
  function Put<K(==), V>(d: seq<(K, V)>, k: K, v: V): seq<(K, V)> {
    if d == [] then [(k, v)]
    else if d[0].0 == k then [(k, v)] + d[1..]
    else [d[0]] + Put(d[1..], k, v)
  }

  /** `del d[k]` / `d.pop(k)` for a key that may be absent. */
  function Remove<K(==), V>(d: seq<(K, V)>, k: K): seq<(K, V)> {
    if d == [] then []
    else if d[0].0 == k then d[1..]
    else [d[0]] + Remove(d[1..], k)
  }

  lemma {:induction false} GetPut<K, V>(d: seq<(K, V)>, k: K, v: V, k': K)
    ensures Get(Put(d, k, v), k') == if k' == k then Some(v) else Get(d, k')
  {
    if d != [] && d[0].0 != k {
      GetPut(d[1..], k, v, k');
    }
  }

  lemma KeysCons<K, V>(e: (K, V), d: seq<(K, V)>)
    ensures Keys([e] + d) == [e.0] + Keys(d)
  {
    assert forall i :: 0 <= i < |d| ==> ([e] + d)[i + 1] == d[i];
  }

  /** Assigning keeps the key order, appending the key when it is new. */
  lemma {:induction false} KeysPut<K, V>(d: seq<(K, V)>, k: K, v: V)
    ensures Keys(Put(d, k, v)) == if k in Keys(d) then Keys(d) else Keys(d) + [k]
  {
    if d == [] {
      assert Keys(Put(d, k, v)) == [k];
    } else {
      assert d == [d[0]] + d[1..];
      KeysCons(d[0], d[1..]);
      if d[0].0 != k {
        KeysPut(d[1..], k, v);
        KeysCons(d[0], Put(d[1..], k, v));
      } else {
        KeysCons((k, v), d[1..]);
      }
    }
  }

  lemma {:induction false} PutDistinct<K, V>(d: seq<(K, V)>, k: K, v: V)
    requires DistinctKeys(d)
    ensures DistinctKeys(Put(d, k, v))
  {
    KeysPut(d, k, v);
    var r := Put(d, k, v);
    forall i, j | 0 <= i < j < |r| ensures r[i].0 != r[j].0 {
      assert Keys(r)[i] == r[i].0 && Keys(r)[j] == r[j].0;
      if j < |d| {
        assert Keys(d)[i] == d[i].0 && Keys(d)[j] == d[j].0;
      }
    }
  }

  /** With distinct keys, a put replaces the entry of its key in place, or appends one. */
  lemma {:induction false} PutAt<K, V>(d: seq<(K, V)>, k: K, v: V)
    requires DistinctKeys(d)
    ensures |Put(d, k, v)| == if k in Keys(d) then |d| else |d| + 1
    ensures forall j :: 0 <= j < |Put(d, k, v)| ==>
      Put(d, k, v)[j] == if j < |d| && d[j].0 != k then d[j] else (k, v)
  {
    if d != [] {
      assert Keys(d) == [d[0].0] + Keys(d[1..]);
      if d[0].0 != k {
        PutAt(d[1..], k, v);
        var p := Put(d, k, v);
        assert p == [d[0]] + Put(d[1..], k, v);
        forall j | 0 < j < |p| ensures p[j] == if j < |d| && d[j].0 != k then d[j] else (k, v) {
          assert p[j] == Put(d[1..], k, v)[j - 1];
        }
      }
    }
  }

  /** Every entry after a put is the new one or was there before. */
  lemma {:induction false} PutMembers<K, V>(d: seq<(K, V)>, k: K, v: V)
    ensures forall e :: e in Put(d, k, v) ==> e == (k, v) || e in d
  {
    if d != [] && d[0].0 != k {
      PutMembers(d[1..], k, v);
      assert d == [d[0]] + d[1..];
    }
  }

  lemma {:induction false} GetRemove<K, V>(d: seq<(K, V)>, k: K, k': K)
    requires DistinctKeys(d)
    ensures Get(Remove(d, k), k') == if k' == k then None else Get(d, k')
  {
    if d != [] {
      assert DistinctKeys(d[1..]);
      if d[0].0 == k {
        if k' == k {
          assert Keys(d) == [d[0].0] + Keys(d[1..]);
          assert k !in Keys(d[1..]);
        }
      } else {
        GetRemove(d[1..], k, k');
      }
    }
  }

  lemma {:induction false} RemoveAbsent<K, V>(d: seq<(K, V)>, k: K)
    requires k !in Keys(d)
    ensures Remove(d, k) == d
  {
    if d != [] {
      assert Keys(d) == [d[0].0] + Keys(d[1..]);
      RemoveAbsent(d[1..], k);
    }
  }

  /** Removing a present key cuts out the one entry that holds it. */
  /** Removing a present key cuts out the first entry that holds it. */
  lemma RemoveCut<K, V>(d: seq<(K, V)>, k: K) returns (i: nat)
    requires k in Keys(d)
    ensures i < |d| && d[i].0 == k && (forall j :: 0 <= j < i ==> d[j].0 != k)
    ensures Remove(d, k) == d[..i] + d[i + 1..]
  {
    i := FirstIndex(d, k);
    RemoveAt(d, k, i);
  }

  lemma {:induction false} FirstIndex<K, V>(d: seq<(K, V)>, k: K) returns (i: nat)
    requires k in Keys(d)
    ensures i < |d| && d[i].0 == k && (forall j :: 0 <= j < i ==> d[j].0 != k)
  {
    assert Keys(d) == [d[0].0] + Keys(d[1..]);
    if d[0].0 == k {
      i := 0;
    } else {
      var i' := FirstIndex(d[1..], k);
      i := i' + 1;
      forall j | 0 <= j < i ensures d[j].0 != k {
        if j > 0 {
          assert d[j] == d[1..][j - 1];
        }
      }
    }
  }

  lemma {:induction false} RemoveAt<K, V>(d: seq<(K, V)>, k: K, i: nat)
    requires i < |d| && d[i].0 == k && (forall j :: 0 <= j < i ==> d[j].0 != k)
    ensures Remove(d, k) == d[..i] + d[i + 1..]
  {
    if i > 0 {
      assert forall j :: 0 <= j < i - 1 ==> d[1..][j] == d[j + 1];
      RemoveAt(d[1..], k, i - 1);
      CutCons(d, i - 1);
    }
  }

  lemma CutCons<K, V>(d: seq<(K, V)>, i: nat)
    requires i + 1 < |d|
    ensures d[..i + 1] + d[i + 2..] == [d[0]] + (d[1..][..i] + d[1..][i + 1..])
  {
    assert d[..i + 1] == [d[0]] + d[1..][..i];
    assert d[i + 2..] == d[1..][i + 1..];
  }

  /** Removing drops exactly that key and no other. */
  lemma KeysRemove<K, V>(d: seq<(K, V)>, k: K)
    requires DistinctKeys(d)
    ensures DistinctKeys(Remove(d, k))
    ensures forall x :: x in Keys(Remove(d, k)) <==> x in Keys(d) && x != k
    ensures |Remove(d, k)| == if k in Keys(d) then |d| - 1 else |d|
  {
    if k in Keys(d) {
      var i := RemoveCut(d, k);
      CutDistinct(d, i);
      CutKeys(d, i);
    } else {
      RemoveAbsent(d, k);
      forall x | x in Keys(d) ensures x != k { }
    }
  }

  /** Cutting out one entry keeps the keys distinct. */
  lemma CutDistinct<K, V>(d: seq<(K, V)>, i: nat)
    requires DistinctKeys(d) && i < |d|
    ensures DistinctKeys(d[..i] + d[i + 1..])
  {
    var r := d[..i] + d[i + 1..];
    assert forall j :: 0 <= j < |r| ==> r[j] == if j < i then d[j] else d[j + 1];
  }

  /** The keys left after cutting out the entry at `i` of distinct keys: all but `d[i].0`. */
  lemma CutKeys<K, V>(d: seq<(K, V)>, i: nat)
    requires DistinctKeys(d) && i < |d|
    ensures forall x :: x in Keys(d[..i] + d[i + 1..]) <==> x in Keys(d) && x != d[i].0
  {
    KeysSlices(d, i);
    CutMembers(Keys(d), i);
  }

  lemma KeysSlices<K, V>(d: seq<(K, V)>, i: nat)
    requires i < |d|
    ensures Keys(d[..i] + d[i + 1..]) == Keys(d)[..i] + Keys(d)[i + 1..]
  {
    KeysConcat(d[..i], d[i + 1..]);
    KeysTake(d, i);
    KeysDrop(d, i + 1);
  }

  lemma KeysTake<K, V>(d: seq<(K, V)>, n: nat)
    requires n <= |d|
    ensures Keys(d[..n]) == Keys(d)[..n]
  {
    var l, r := Keys(d[..n]), Keys(d)[..n];
    forall j | 0 <= j < n ensures l[j] == r[j] {
      assert l[j] == d[..n][j].0 == d[j].0;
    }
  }

  lemma KeysDrop<K, V>(d: seq<(K, V)>, n: nat)
    requires n <= |d|
    ensures Keys(d[n..]) == Keys(d)[n..]
  {
    var l, r := Keys(d[n..]), Keys(d)[n..];
    forall j | 0 <= j < |d| - n ensures l[j] == r[j] {
      assert l[j] == d[n..][j].0 == d[n + j].0;
    }
  }

  /** Cutting out an element that occurs nowhere else leaves all the other elements. */
  lemma CutMembers<T>(xs: seq<T>, i: nat)
    requires i < |xs| && forall j :: 0 <= j < |xs| && j != i ==> xs[j] != xs[i]
    ensures forall x :: x in xs[..i] + xs[i + 1..] <==> x in xs && x != xs[i]
  {
    assert xs == xs[..i] + [xs[i]] + xs[i + 1..];
  }
}
