/**
 * Plain JavaScript objects used as dictionaries (`timeData`, `dailyData`,
 * `siteStats`, `categories`, ...). An object is modelled as the list of its own
 * properties in insertion order, which is the order `Object.entries`,
 * `Object.keys` and `Object.values` report them in.
 */
module JsObject {
  import opened Wrappers

  type Obj<K, V> = seq<(K, V)>

  /** Position of the property named `k`, or -1 when there is none. */
  function IndexOf<K(==), V>(o: Obj<K, V>, k: K): (i: int)
    ensures -1 <= i < |o|
    ensures 0 <= i ==> o[i].0 == k
  {
    if o == [] then -1
    else if o[0].0 == k then 0
    else
      var i := IndexOf(o[1..], k);
      if i < 0 then -1 else i + 1
  }

  /** No property before the one found, and none at all when nothing is found, is named `k`. */
  lemma {:induction false} IndexOfFirst<K, V>(o: Obj<K, V>, k: K)
    ensures forall j :: 0 <= j < |o| && (IndexOf(o, k) < 0 || j < IndexOf(o, k)) ==> o[j].0 != k
  {
    if o != [] && o[0].0 != k {
      IndexOfFirst(o[1..], k);
      assert forall j :: 1 <= j < |o| ==> o[j] == o[1..][j - 1];
    }
  }

  predicate Has<K(==), V>(o: Obj<K, V>, k: K) {
    IndexOf(o, k) >= 0
  }

  /** `o[k]`, with `undefined` as None. */
  function Get<K(==), V>(o: Obj<K, V>, k: K): Option<V> {
    var i := IndexOf(o, k);
    if i < 0 then None else Some(o[i].1)
  }

  /** `o[k] || 0` on an object whose values are numbers. */
  function OrZero<K(==)>(o: Obj<K, nat>, k: K): nat {
    Get(o, k).GetOr(0)
  }

  /** `o[k] = v`: an existing property keeps its place, a new one goes last. */
  function Put<K(==), V>(o: Obj<K, V>, k: K, v: V): Obj<K, V> {
    var i := IndexOf(o, k);
    if i < 0 then o + [(k, v)] else o[i := (k, v)]
  }

  /** The property names of an object are distinct. */
  predicate KeysUnique<K(==), V>(o: Obj<K, V>) {
    forall i, j :: 0 <= i < j < |o| ==> o[i].0 != o[j].0
  }

  /** Sum of the values (`Object.values(o).reduce((a, b) => a + b, 0)`). */
  function ValuesSum<K>(o: Obj<K, nat>): nat {
    if o == [] then 0 else ValuesSum(o[..|o| - 1]) + o[|o| - 1].1
  }

  /** A write leaves every other property where it was, or absent. */
  lemma IndexOfPut<K, V>(o: Obj<K, V>, k: K, v: V, q: K)
    requires q != k
    ensures IndexOf(Put(o, k, v), q) == IndexOf(o, q)
  {
    var p := Put(o, k, v);
    var iq := IndexOf(o, q);
    IndexOfFirst(o, q);
    IndexOfFirst(p, q);
    if iq >= 0 {
      assert p[iq] == o[iq];
    } else if |p| > |o| {
      assert p[|o|].0 == k;
    }
  }

  /** Reading back a property after a write. */
  lemma GetPut<K, V>(o: Obj<K, V>, k: K, v: V, q: K)
    ensures Get(Put(o, k, v), q) == if q == k then Some(v) else Get(o, q)
  {
    var i := IndexOf(o, k);
    var p := Put(o, k, v);
    var iq := IndexOf(o, q);
    var ip := IndexOf(p, q);
    IndexOfFirst(o, k);
    IndexOfFirst(o, q);
    IndexOfFirst(p, q);
    if q == k {
      if i < 0 {
        assert p[|o|].0 == k;
      } else {
        assert p[i].0 == k;
      }
    } else if iq >= 0 {
      assert p[iq] == o[iq];
      assert ip == iq;
    } else {
      assert ip < 0;
    }
  }

  /** Writing a property twice is writing it once, with the second value. */
  lemma PutPut<K, V>(o: Obj<K, V>, k: K, v1: V, v2: V)
    ensures Put(Put(o, k, v1), k, v2) == Put(o, k, v2)
  {
    var i := IndexOf(o, k);
    var p := Put(o, k, v1);
    IndexOfFirst(o, k);
    IndexOfFirst(p, k);
    if i < 0 {
      assert p[|o|].0 == k;
      assert IndexOf(p, k) == |o|;
    } else {
      assert p[i].0 == k;
      assert IndexOf(p, k) == i;
    }
  }

  /** A write replaces a property in place or appends a new one. */
  lemma PutShape<K, V>(o: Obj<K, V>, k: K, v: V)
    ensures Has(o, k) ==> |Put(o, k, v)| == |o|
    ensures !Has(o, k) ==> Put(o, k, v) == o + [(k, v)]
    ensures forall j :: 0 <= j < |o| ==> Put(o, k, v)[j].0 == o[j].0
  {
  }

  lemma PutHas<K, V>(o: Obj<K, V>, k: K, v: V, q: K)
    ensures Has(Put(o, k, v), q) <==> q == k || Has(o, q)
  {
    GetPut(o, k, v, q);
  }

  lemma PutKeysUnique<K, V>(o: Obj<K, V>, k: K, v: V)
    requires KeysUnique(o)
    ensures KeysUnique(Put(o, k, v))
  {
    IndexOfFirst(o, k);
  }

  /** In an object with distinct names, the property at j is the one found for its name. */
  lemma IndexOfUnique<K, V>(o: Obj<K, V>, j: nat)
    requires KeysUnique(o) && j < |o|
    ensures IndexOf(o, o[j].0) == j
  {
    IndexOfFirst(o, o[j].0);
  }

  lemma {:induction false} ValuesSumUpdate<K>(o: Obj<K, nat>, i: nat, e: (K, nat))
    requires i < |o|
    ensures ValuesSum(o[i := e]) == ValuesSum(o) - o[i].1 + e.1
    decreases |o|
  {
    var n := |o| - 1;
    if i == n {
      assert o[i := e][..n] == o[..n];
    } else {
      assert o[i := e][..n] == o[..n][i := e];
      ValuesSumUpdate(o[..n], i, e);
    }
  }

  lemma ValuesSumAppend<K>(o: Obj<K, nat>, e: (K, nat))
    ensures ValuesSum(o + [e]) == ValuesSum(o) + e.1
  {
    assert (o + [e])[..|o|] == o;
  }

  /** Two runs of properties sum separately. */
  lemma {:induction false} ValuesSumConcat<K>(a: Obj<K, nat>, b: Obj<K, nat>)
    ensures ValuesSum(a + b) == ValuesSum(a) + ValuesSum(b)
    decreases |b|
  {
    if b == [] {
      assert a + b == a;
    } else {
      var b0 := b[..|b| - 1];
      assert (a + b)[..|a + b| - 1] == a + b0;
      ValuesSumConcat(a, b0);
    }
  }

  /** `o[k] = (o[k] || 0) + t` raises the sum of the values by exactly t. */
  lemma ValuesSumPut<K>(o: Obj<K, nat>, k: K, v: nat)
    ensures ValuesSum(Put(o, k, v)) == ValuesSum(o) - OrZero(o, k) + v
  {
    var i := IndexOf(o, k);
    if i < 0 {
      ValuesSumAppend(o, (k, v));
    } else {
      ValuesSumUpdate(o, i, (k, v));
    }
  }

  /**
   * `if (!o[k]) o[k] = d;` followed by `o[k] = v`: the first write only matters
   * through the value read in between, which is `o[k]` or the default.
   */
  lemma DefaultThenPut<K, V>(o: Obj<K, V>, o1: Obj<K, V>, k: K, d: V, v: V)
    requires o1 == o || (o1 == Put(o, k, d) && Get(o, k).GetOr(d) == d)
    requires o1 == o ==> Has(o, k)
    ensures Get(o1, k) == Some(Get(o, k).GetOr(d))
    ensures Put(o1, k, v) == Put(o, k, v)
  {
    if o1 != o {
      GetPut(o, k, d, k);
      PutPut(o, k, d, v);
    }
  }

  /** Appending a property never hides an earlier one of the same name. */
  lemma IndexOfAppend<K, V>(o: Obj<K, V>, e: (K, V), q: K)
    ensures IndexOf(o + [e], q) == if Has(o, q) then IndexOf(o, q) else if e.0 == q then |o| else -1
  {
    var i := IndexOf(o, q);
    IndexOfFirst(o, q);
    IndexOfFirst(o + [e], q);
    if i >= 0 {
      assert (o + [e])[i] == o[i];
    } else if e.0 == q {
      assert (o + [e])[|o|] == e;
    }
  }

  lemma GetAppend<K, V>(o: Obj<K, V>, e: (K, V), q: K)
    ensures Get(o + [e], q) == if Has(o, q) then Get(o, q) else if e.0 == q then Some(e.1) else None
  {
    IndexOfAppend(o, e, q);
    if Has(o, q) {
      assert (o + [e])[IndexOf(o, q)] == o[IndexOf(o, q)];
    } else if e.0 == q {
      assert (o + [e])[|o|] == e;
    }
  }

  /** In an object with distinct names, the last property's name occurs nowhere before it. */
  lemma KeysUniqueSnoc<K, V>(o: Obj<K, V>)
    requires KeysUnique(o) && o != []
    ensures KeysUnique(o[..|o| - 1])
    ensures !Has(o[..|o| - 1], o[|o| - 1].0)
    ensures o == o[..|o| - 1] + [o[|o| - 1]]
  {
  }
}
