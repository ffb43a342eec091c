/** Insertion-ordered dictionaries with string keys, as Python's `dict` behaves:
    assigning to an existing key keeps that key where it is, assigning to a new
    key appends it, and `update` performs those assignments in the argument's
    order. A dictionary is an association list whose keys are pairwise distinct. */
module Dicts {
  import opened Results

  /** The keys of an association list, in order. */
  function Keys<V>(s: seq<(string, V)>): seq<string> {
    seq(|s|, i requires 0 <= i < |s| => s[i].0)
  }

  predicate UniqueKeys<V>(s: seq<(string, V)>) {
    forall i, j :: 0 <= i < j < |s| ==> s[i].0 != s[j].0
  }

  type Dict<V> = s: seq<(string, V)> | UniqueKeys(s) witness []

  /** `d.get(k)`: the value stored under `k`, if any. */
  function Get<V>(d: Dict<V>, k: string): (r: Option<V>)
    ensures r.None? <==> k !in Keys(d)
    ensures forall i :: 0 <= i < |d| && d[i].0 == k ==> r == Some(d[i].1)
  {
    if |d| == 0 then None
    else
      KeysTail(d);
      if d[0].0 == k then Some(d[0].1)
      else Get(d[1..], k)
  }

  /** `d[k] = v`. */
  function Put<V>(d: Dict<V>, k: string, v: V): (r: Dict<V>)
    ensures Get(r, k) == Some(v)
    ensures forall j :: j != k ==> Get(r, j) == Get(d, j)
    ensures k in Keys(d) ==> Keys(r) == Keys(d)
    ensures k !in Keys(d) ==> Keys(r) == Keys(d) + [k]
  {
    if |d| == 0 then [(k, v)]
    else if d[0].0 == k then
      KeysTail(d);
      KeysCons((k, v), d[1..]);
      assert Keys(d)[0] == k;
      [(k, v)] + d[1..]
    else
      var rest := Put(d[1..], k, v);
      KeysTail(d);
      KeysCons(d[0], rest);
      ConsUnique(d[0], rest);
      [d[0]] + rest
  }

  /** The keys of `ks` that are not in `present`, in the order of `ks`. */
  function Missing(ks: seq<string>, present: seq<string>): (r: seq<string>)
    ensures forall k :: k in r <==> k in ks && k !in present
  {
    if |ks| == 0 then []
    else (if ks[0] in present then [] else [ks[0]]) + Missing(ks[1..], present)
  }

  /** `d.update(o)`: every entry of `o` is assigned into `d`, in order. */
  function Update<V>(d: Dict<V>, o: Dict<V>): (r: Dict<V>)
    ensures forall k :: Get(r, k) == (if k in Keys(o) then Get(o, k) else Get(d, k))
    ensures Keys(r) == Keys(d) + Missing(Keys(o), Keys(d))
    ensures forall k :: k in Keys(r) <==> k in Keys(d) || k in Keys(o)
    decreases |o|
  {
    if |o| == 0 then d
    else
      var d' := Put(d, o[0].0, o[0].1);
      var r := Update(d', o[1..]);
      UpdateStepGet(d, o, r);
      KeysTail(o);
      UpdateStepKeys(Keys(d), o[0].0, Keys(o[1..]), Keys(d'), Keys(r));
      r
  }

  lemma UpdateStepGet<V>(d: Dict<V>, o: Dict<V>, r: Dict<V>)
    requires |o| > 0
    requires forall k :: Get(r, k) == (if k in Keys(o[1..])
                                       then Get(o[1..], k)
                                       else Get(Put(d, o[0].0, o[0].1), k))
    ensures forall k :: Get(r, k) == (if k in Keys(o) then Get(o, k) else Get(d, k))
  {
    KeysTail(o);
  }

  lemma UpdateStepKeys(dk: seq<string>, x: string, rest: seq<string>, pk: seq<string>, rk: seq<string>)
    requires x !in rest
    requires x in dk ==> pk == dk
    requires x !in dk ==> pk == dk + [x]
    requires rk == pk + Missing(rest, pk)
    ensures rk == dk + Missing([x] + rest, dk)
  {
    MissingCons(x, rest, dk);
    if x !in dk {
      MissingIgnoresAbsent(rest, dk, x);
      SeqAssoc(dk, [x], Missing(rest, dk));
    }
  }

  lemma MissingCons(x: string, ks: seq<string>, present: seq<string>)
    ensures Missing([x] + ks, present) == (if x in present then [] else [x]) + Missing(ks, present)
  {
    assert ([x] + ks)[1..] == ks;
  }

  lemma SeqAssoc<T>(a: seq<T>, b: seq<T>, c: seq<T>)
    ensures (a + b) + c == a + (b + c)
  {
  }

  lemma KeysTail<V>(d: seq<(string, V)>)
    requires |d| > 0
    ensures Keys(d) == [d[0].0] + Keys(d[1..])
    ensures UniqueKeys(d) ==> d[0].0 !in Keys(d[1..])
  {
  }

  lemma KeysCons<V>(p: (string, V), s: seq<(string, V)>)
    ensures Keys([p] + s) == [p.0] + Keys(s)
  {
  }

  lemma ConsUnique<V>(p: (string, V), s: Dict<V>)
    requires p.0 !in Keys(s)
    ensures UniqueKeys([p] + s)
  {
    forall i, j | 0 <= i < j < |[p] + s|
      ensures ([p] + s)[i].0 != ([p] + s)[j].0
    {
      if i == 0 {
        assert Keys(s)[j - 1] == s[j - 1].0;
      }
    }
  }

  lemma {:induction false} MissingIgnoresAbsent(ks: seq<string>, present: seq<string>, x: string)
    requires x !in ks
    ensures Missing(ks, present + [x]) == Missing(ks, present)
    decreases |ks|
  {
    if |ks| > 0 {
      assert ks[0] in present + [x] <==> ks[0] in present;
      MissingIgnoresAbsent(ks[1..], present, x);
    }
  }

  /** Two dictionaries with the same keys in the same order and the same value
      under every key are the same dictionary. */
  lemma Extensionality<V>(a: Dict<V>, b: Dict<V>)
    requires Keys(a) == Keys(b)
    requires forall k :: Get(a, k) == Get(b, k)
    ensures a == b
  {
    assert |a| == |Keys(a)| == |Keys(b)| == |b|;
    forall i | 0 <= i < |a|
      ensures a[i] == b[i]
    {
      assert a[i].0 == Keys(a)[i] == Keys(b)[i] == b[i].0;
      assert Get(a, a[i].0) == Some(a[i].1);
      assert Get(b, b[i].0) == Some(b[i].1);
    }
  }

  lemma MissingNone(ks: seq<string>, present: seq<string>)
    requires forall k :: k in ks ==> k in present
    ensures Missing(ks, present) == []
  {
  }

  lemma {:induction false} MissingAll(ks: seq<string>, present: seq<string>)
    requires forall k :: k in ks ==> k !in present
    ensures Missing(ks, present) == ks
    decreases |ks|
  {
    if |ks| > 0 {
      assert ks[0] in ks;
      assert forall k :: k in ks[1..] ==> k in ks;
      MissingAll(ks[1..], present);
    }
  }

  /** Updating with keys the dictionary does not have yet appends them, in order. */
  lemma UpdateDisjoint<V>(d: Dict<V>, o: Dict<V>)
    requires forall k :: k in Keys(o) ==> k !in Keys(d)
    ensures Update(d, o) == d + o
  {
    var r := Update(d, o);
    MissingAll(Keys(o), Keys(d));
    assert Keys(r) == Keys(d) + Keys(o);
    forall i | 0 <= i < |r|
      ensures r[i] == (d + o)[i]
    {
      assert r[i].0 == Keys(r)[i];
      assert Get(r, r[i].0) == Some(r[i].1);
      if i < |d| {
        assert Keys(r)[i] == Keys(d)[i] == d[i].0;
        assert d[i].0 !in Keys(o);
      } else {
        var j := i - |d|;
        assert Keys(r)[i] == Keys(o)[j] == o[j].0;
        assert o[j].0 in Keys(o);
      }
    }
  }

  /** `update` is idempotent: applying the same fields twice changes nothing more. */
  lemma UpdateIdempotent<V>(d: Dict<V>, o: Dict<V>)
    ensures Update(Update(d, o), o) == Update(d, o)
  {
    var r1 := Update(d, o);
    var r2 := Update(r1, o);
    MissingNone(Keys(o), Keys(r1));
    assert Keys(r2) == Keys(r1);
    Extensionality(r2, r1);
  }

  /** Assigning the same key twice leaves only the latest value, at the key's
      original position. */
  lemma PutTwice<V>(d: Dict<V>, k: string, v1: V, v2: V)
    ensures Put(Put(d, k, v1), k, v2) == Put(d, k, v2)
  {
    Extensionality(Put(Put(d, k, v1), k, v2), Put(d, k, v2));
  }

  /** Updating with a one-entry dictionary is a single assignment. */
  lemma UpdateSingleton<V>(d: Dict<V>, k: string, v: V)
    ensures Update(d, [(k, v)]) == Put(d, k, v)
  {
    assert [(k, v)][1..] == [];
  }
}
