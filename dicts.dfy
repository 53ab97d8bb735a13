/** A Python `dict` with its insertion order: a sequence of key/value entries with distinct
    keys. Assigning to an existing key keeps its position; a new key goes to the end. */
module Dicts {
  import opened Wrappers

  type Dict<K, V> = seq<(K, V)>

  function Keys<K, V>(d: Dict<K, V>): (r: seq<K>)
    ensures |r| == |d| && forall i :: 0 <= i < |d| ==> r[i] == d[i].0
  {
    seq(|d|, i requires 0 <= i < |d| => d[i].0)
  }

  function Values<K, V>(d: Dict<K, V>): (r: seq<V>)
    ensures |r| == |d| && forall i :: 0 <= i < |d| ==> r[i] == d[i].1
  {
    seq(|d|, i requires 0 <= i < |d| => d[i].1)
  }

  /** The keys are pairwise distinct, as in every Python dict. */
  ghost predicate UniqueKeys<K, V>(d: Dict<K, V>) {
    forall i, j :: 0 <= i < j < |d| ==> d[i].0 != d[j].0
  }

  /** `d.get(k)` */
  function Get<K(==), V>(d: Dict<K, V>, k: K): (r: Option<V>)
    ensures r.Some? <==> k in Keys(d)
  {
    if d == [] then None
    else if d[0].0 == k then Some(d[0].1)
    else
      assert Keys(d) == [d[0].0] + Keys(d[1..]);
      Get(d[1..], k)
  }

  /** With distinct keys, the entry at position i is what `Get` finds for its key. */
  lemma GetAt<K, V>(d: Dict<K, V>, i: nat)
    requires UniqueKeys(d) && i < |d|
    ensures Get(d, d[i].0) == Some(d[i].1)
  {
    if i > 0 {
      GetAt(d[1..], i - 1);
    }
  }

  /** `d[k] = v` */
  function Put<K(==), V>(d: Dict<K, V>, k: K, v: V): (r: Dict<K, V>)
    ensures |r| == if k in Keys(d) then |d| else |d| + 1
  {
    if d == [] then [(k, v)]
    else if d[0].0 == k then [(k, v)] + d[1..]
    else
      assert Keys(d) == [d[0].0] + Keys(d[1..]);
      [d[0]] + Put(d[1..], k, v)
  }

  /** An existing key keeps its position; a new one is appended. */
  lemma {:induction false} PutKeys<K, V>(d: Dict<K, V>, k: K, v: V)
    ensures Keys(Put(d, k, v)) == if k in Keys(d) then Keys(d) else Keys(d) + [k]
  {
    if d == [] {
      assert Keys([(k, v)]) == [k];
    } else if d[0].0 == k {
      PutKeysHead(d, k, v);
    } else {
      PutKeys(d[1..], k, v);
      PutKeysStep(d, k, v);
    }
  }

  lemma PutKeysHead<K, V>(d: Dict<K, V>, k: K, v: V)
    requires d != [] && d[0].0 == k
    ensures Keys(Put(d, k, v)) == Keys(d) && k in Keys(d)
  {
    var tail := d[1..];
    KeysCons(d[0], tail);
    assert d == [d[0]] + tail;
    KeysCons((k, v), tail);
  }

  lemma PutKeysStep<K, V>(d: Dict<K, V>, k: K, v: V)
    requires d != [] && d[0].0 != k
    requires Keys(Put(d[1..], k, v)) == if k in Keys(d[1..]) then Keys(d[1..]) else Keys(d[1..]) + [k]
    ensures Keys(Put(d, k, v)) == if k in Keys(d) then Keys(d) else Keys(d) + [k]
  {
    var tail := d[1..];
    var pt := Put(tail, k, v);
    assert Put(d, k, v) == [d[0]] + pt;
    KeysCons(d[0], pt);
    assert d == [d[0]] + tail;
    KeysCons(d[0], tail);
    ConsMembership(d[0].0, Keys(tail), k);
    if k !in Keys(tail) {
      SnocUnderCons(d[0].0, Keys(tail), k);
    }
  }

  lemma ConsMembership<K>(x: K, s: seq<K>, k: K)
    requires x != k
    ensures k in [x] + s <==> k in s
  {
  }

  lemma SnocUnderCons<K>(x: K, s: seq<K>, k: K)
    ensures ([x] + s) + [k] == [x] + (s + [k])
  {
  }

  lemma KeysCons<K, V>(e: (K, V), d: Dict<K, V>)
    ensures Keys([e] + d) == [e.0] + Keys(d)
  {
    assert Keys([e] + d) == [e.0] + Keys(d);
  }

  /** Assignment never introduces a duplicate key. */
  lemma PutUnique<K, V>(d: Dict<K, V>, k: K, v: V)
    requires UniqueKeys(d)
    ensures UniqueKeys(Put(d, k, v))
  {
    var r := Put(d, k, v);
    PutKeys(d, k, v);
    assert forall i :: 0 <= i < |r| ==> r[i].0 == Keys(r)[i];
  }

  /** A lookup after `d[k] = v` finds `v` at `k` and the old value anywhere else. */
  lemma {:induction false} GetPut<K, V>(d: Dict<K, V>, k: K, v: V, k': K)
    ensures Get(Put(d, k, v), k') == if k' == k then Some(v) else Get(d, k')
  {
    if d != [] && d[0].0 != k {
      GetPut(d[1..], k, v, k');
      assert Put(d, k, v)[1..] == Put(d[1..], k, v);
    } else if d != [] {
      assert Put(d, k, v)[1..] == d[1..];
    }
  }

  /** Assigning to a key that is already present changes only that entry's value. */
  lemma {:induction false} PutExisting<K, V>(d: Dict<K, V>, i: nat, v: V)
    requires UniqueKeys(d) && i < |d|
    ensures Put(d, d[i].0, v) == d[i := (d[i].0, v)]
  {
    if i > 0 {
      var k, tail := d[i].0, d[1..];
      assert d[0].0 != k;
      UniqueTail(d);
      assert tail[i - 1] == d[i];
      PutExisting(tail, i - 1, v);
      calc {
        Put(d, k, v);
        [d[0]] + Put(tail, k, v);
        [d[0]] + tail[i - 1 := (k, v)];
        { ConsUpdate(d[0], tail, i - 1, (k, v)); }
        ([d[0]] + tail)[i := (k, v)];
        { assert d == [d[0]] + tail; }
        d[i := (k, v)];
      }
    }
  }

  lemma ConsUpdate<T>(x: T, t: seq<T>, j: nat, e: T)
    requires j < |t|
    ensures ([x] + t)[j + 1 := e] == [x] + t[j := e]
  {
  }

  lemma UniqueTail<K, V>(d: Dict<K, V>)
    requires UniqueKeys(d) && d != []
    ensures UniqueKeys(d[1..])
  {
    assert forall i :: 0 <= i < |d| - 1 ==> d[1..][i] == d[i + 1];
  }

  /** `d.pop(k, None)` */
  function Remove<K(==), V>(d: Dict<K, V>, k: K): (r: Dict<K, V>)
    ensures |r| <= |d|
  {
    if d == [] then []
    else if d[0].0 == k then Remove(d[1..], k)
    else [d[0]] + Remove(d[1..], k)
  }

  /** After `d.pop(k)` the key is gone and every other lookup is as before. */
  lemma {:induction false} GetRemove<K, V>(d: Dict<K, V>, k: K, k': K)
    ensures Get(Remove(d, k), k') == if k' == k then None else Get(d, k')
  {
    if d != [] {
      GetRemove(d[1..], k, k');
      if d[0].0 != k {
        assert Remove(d, k)[1..] == Remove(d[1..], k);
      }
    }
  }

  /** Removal keeps the remaining entries in order, so distinct keys stay distinct. */
  lemma {:induction false} RemoveUnique<K, V>(d: Dict<K, V>, k: K)
    requires UniqueKeys(d)
    ensures UniqueKeys(Remove(d, k))
    ensures forall e :: e in Remove(d, k) ==> e in d
  {
    if d != [] {
      RemoveUnique(d[1..], k);
      if d[0].0 != k {
        var r := Remove(d, k);
        assert r[1..] == Remove(d[1..], k);
        forall j | 1 <= j < |r| ensures r[0].0 != r[j].0 {
          assert r[j] in d[1..];
        }
      }
    }
  }

  /** `for k, v in kvs: d[k] = v` */
  function PutAll<K(==), V>(d: Dict<K, V>, kvs: seq<(K, V)>): (r: Dict<K, V>)
    ensures |r| >= |d|
    decreases |kvs|
  {
    if kvs == [] then d else PutAll(Put(d, kvs[0].0, kvs[0].1), kvs[1..])
  }

  lemma {:induction false} PutAllUnique<K, V>(d: Dict<K, V>, kvs: seq<(K, V)>)
    requires UniqueKeys(d)
    ensures UniqueKeys(PutAll(d, kvs))
    decreases |kvs|
  {
    if kvs != [] {
      PutUnique(d, kvs[0].0, kvs[0].1);
      PutAllUnique(Put(d, kvs[0].0, kvs[0].1), kvs[1..]);
    }
  }

  /** Every entry after `d[k] = v` is an old entry or the new one. */
  lemma {:induction false} PutEntries<K, V>(d: Dict<K, V>, k: K, v: V, e: (K, V))
    requires e in Put(d, k, v)
    ensures e in d || e == (k, v)
  {
    if d != [] && d[0].0 != k {
      if e != d[0] {
        assert e in Put(d[1..], k, v);
        PutEntries(d[1..], k, v, e);
      }
    } else if d != [] && e != (k, v) {
      assert e in d[1..];
    }
  }

  /** Every entry after a bulk assignment is an old entry or one of the assigned ones. */
  lemma {:induction false} PutAllEntries<K, V>(d: Dict<K, V>, kvs: seq<(K, V)>, e: (K, V))
    requires e in PutAll(d, kvs)
    ensures e in d || e in kvs
    decreases |kvs|
  {
    if kvs != [] {
      PutAllEntries(Put(d, kvs[0].0, kvs[0].1), kvs[1..], e);
      if e in Put(d, kvs[0].0, kvs[0].1) {
        PutEntries(d, kvs[0].0, kvs[0].1, e);
      }
    }
  }

  /** Two bulk assignments in a row are one bulk assignment. */
  lemma {:induction false} PutAllAppend<K, V>(d: Dict<K, V>, a: seq<(K, V)>, b: seq<(K, V)>)
    ensures PutAll(d, a + b) == PutAll(PutAll(d, a), b)
    decreases |a|
  {
    if a != [] {
      assert (a + b)[1..] == a[1..] + b;
      PutAllAppend(Put(d, a[0].0, a[0].1), a[1..], b);
    } else {
      assert a + b == b;
    }
  }

  lemma PutAllSnoc<K, V>(d: Dict<K, V>, kvs: seq<(K, V)>, k: K, v: V)
    ensures PutAll(d, kvs + [(k, v)]) == Put(PutAll(d, kvs), k, v)
    decreases |kvs|
  {
    if kvs == [] {
      assert [(k, v)][1..] == [];
    } else {
      assert (kvs + [(k, v)])[1..] == kvs[1..] + [(k, v)];
      PutAllSnoc(Put(d, kvs[0].0, kvs[0].1), kvs[1..], k, v);
    }
  }

  /** After a bulk assignment, a key is found with the value of its last assignment,
      and a key never assigned keeps its old value. */
  lemma {:induction false} GetPutAll<K, V>(d: Dict<K, V>, kvs: seq<(K, V)>, k: K)
    ensures Get(PutAll(d, kvs), k) == LastAssigned(kvs, k, Get(d, k))
    decreases |kvs|
  {
    if kvs != [] {
      GetPutAll(Put(d, kvs[0].0, kvs[0].1), kvs[1..], k);
      GetPut(d, kvs[0].0, kvs[0].1, k);
      LastAssignedCons(kvs, k, Get(d, k));
    }
  }

  /** The value last given to `k` in `kvs`, or `prior` when `kvs` never names `k`. */
  function LastAssigned<K(==), V>(kvs: seq<(K, V)>, k: K, prior: Option<V>): Option<V>
    decreases |kvs|
  {
    if kvs == [] then prior
    else if kvs[|kvs| - 1].0 == k then Some(kvs[|kvs| - 1].1)
    else LastAssigned(kvs[..|kvs| - 1], k, prior)
  }

  lemma {:induction false} LastAssignedCons<K, V>(kvs: seq<(K, V)>, k: K, prior: Option<V>)
    requires kvs != []
    ensures LastAssigned(kvs, k, prior)
         == LastAssigned(kvs[1..], k, if kvs[0].0 == k then Some(kvs[0].1) else prior)
    decreases |kvs|
  {
    if |kvs| > 1 {
      var init := kvs[..|kvs| - 1];
      assert init[1..] == kvs[1..][..|kvs[1..]| - 1];
      if kvs[|kvs| - 1].0 != k {
        LastAssignedCons(init, k, prior);
      }
    }
  }

  /** A second assignment to the same key undoes the first. */
  lemma {:induction false} PutPut<K, V>(d: Dict<K, V>, k: K, v: V, w: V)
    ensures Put(Put(d, k, v), k, w) == Put(d, k, w)
  {
    if d != [] && d[0].0 != k {
      PutPut(d[1..], k, v, w);
      var pd := Put(d, k, v);
      assert pd == [d[0]] + Put(d[1..], k, v);
      assert pd[0] == d[0] && pd[1..] == Put(d[1..], k, v);
    } else if d != [] {
      assert Put(d, k, v)[1..] == d[1..];
    }
  }

  /** A key not yet present is appended. */
  lemma {:induction false} PutNew<K, V>(d: Dict<K, V>, k: K, v: V)
    requires k !in Keys(d)
    ensures Put(d, k, v) == d + [(k, v)]
  {
    if d != [] {
      assert Keys(d) == [d[0].0] + Keys(d[1..]);
      PutNew(d[1..], k, v);
      assert d == [d[0]] + d[1..];
    }
  }

  /** Keys that are pairwise distinct and new are appended in order. */
  lemma {:induction false} PutAllFresh<K, V>(d: Dict<K, V>, kvs: seq<(K, V)>)
    requires UniqueKeys(kvs)
    requires forall i :: 0 <= i < |kvs| ==> kvs[i].0 !in Keys(d)
    ensures PutAll(d, kvs) == d + kvs
    decreases |kvs|
  {
    if kvs != [] {
      PutNew(d, kvs[0].0, kvs[0].1);
      var d' := d + [kvs[0]];
      assert Keys(d') == Keys(d) + [kvs[0].0];
      assert forall i :: 0 <= i < |kvs[1..]| ==> kvs[1..][i].0 !in Keys(d') by {
        forall i | 0 <= i < |kvs[1..]| ensures kvs[1..][i].0 !in Keys(d') {
          assert kvs[1..][i] == kvs[i + 1];
        }
      }
      PutAllFresh(d', kvs[1..]);
      assert d' + kvs[1..] == d + kvs;
    } else {
      assert d + kvs == d;
    }
  }

  /** With distinct keys, the last assignment to a key is its only one. */
  lemma {:induction false} LastAssignedUnique<K, V>(kvs: seq<(K, V)>, i: nat, prior: Option<V>)
    requires UniqueKeys(kvs) && i < |kvs|
    ensures LastAssigned(kvs, kvs[i].0, prior) == Some(kvs[i].1)
    decreases |kvs|
  {
    var n := |kvs| - 1;
    if i < n {
      assert kvs[n].0 != kvs[i].0;
      assert kvs[..n][i] == kvs[i];
      LastAssignedUnique(kvs[..n], i, prior);
    }
  }

  /** A key never assigned keeps its prior value. */
  lemma {:induction false} LastAssignedAbsent<K, V>(kvs: seq<(K, V)>, k: K, prior: Option<V>)
    requires forall i :: 0 <= i < |kvs| ==> kvs[i].0 != k
    ensures LastAssigned(kvs, k, prior) == prior
    decreases |kvs|
  {
    if kvs != [] {
      LastAssignedAbsent(kvs[..|kvs| - 1], k, prior);
    }
  }
}
