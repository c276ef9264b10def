/** Python's dict as a value: a map that remembers the order in which its keys were first inserted. */
module Dicts {
  import opened Base

  ghost predicate Distinct<K>(s: seq<K>) {
    forall i, j :: 0 <= i < j < |s| ==> s[i] != s[j]
  }

  datatype DictRep<K, V> = DictRep(order: seq<K>, items: map<K, V>)

  /** `order` lists every key of `items` exactly once, oldest insertion first. */
  type Dict<K(==,!new), V> = d: DictRep<K, V> | Distinct(d.order) && (forall k :: k in d.items <==> k in d.order)
    witness DictRep([], map[])

  function Empty<K(==,!new), V>(): Dict<K, V> {
    DictRep([], map[])
  }

  /** `d.get(k)` */
  function Get<K(==,!new), V>(d: Dict<K, V>, k: K): Option<V> {
    if k in d.items then Some(d.items[k]) else None
  }

  /** `d[k] = v`: a new key goes last, an existing key keeps its place. */
  function Put<K(==,!new), V>(d: Dict<K, V>, k: K, v: V): (r: Dict<K, V>)
    ensures r.items == d.items[k := v]
    ensures r.order == if k in d.items then d.order else d.order + [k]
  {
    if k in d.items then DictRep(d.order, d.items[k := v])
    else DictRep(d.order + [k], d.items[k := v])
  }

  /** `for k in ks: d[k] = v` */
  function PutEach<K(==,!new), V>(d: Dict<K, V>, ks: seq<K>, v: V): Dict<K, V> {
    if ks == [] then d
    else Put(PutEach(d, ks[..|ks| - 1], v), ks[|ks| - 1], v)
  }

  /** Every key of `ks` maps to `v`, every other key keeps its value (or its
      absence), and the keys already present keep their places. */
  lemma {:induction false} PutEachMaps<K(!new), V>(d: Dict<K, V>, ks: seq<K>, v: V)
    ensures var r := PutEach(d, ks, v);
      && (forall k :: k in ks ==> k in r.items && r.items[k] == v)
      && (forall k :: k !in ks ==> (k in r.items <==> k in d.items) && (k in d.items ==> r.items[k] == d.items[k]))
      && d.order <= r.order
  {
    if ks != [] {
      var p, last := ks[..|ks| - 1], ks[|ks| - 1];
      PutEachMaps(d, p, v);
      SplitLast(ks);
      AssignOne(PutEach(d, p, v).items, d.items, p, last, v);
    }
  }

  lemma AssignOne<K, V>(m: map<K, V>, base: map<K, V>, p: seq<K>, last: K, v: V)
    requires forall k :: k in p ==> k in m && m[k] == v
    requires forall k :: k !in p ==> (k in m <==> k in base) && (k in base ==> m[k] == base[k])
    ensures var m' := m[last := v];
      && (forall k :: k in p + [last] ==> k in m' && m'[k] == v)
      && (forall k :: k !in p + [last] ==> (k in m' <==> k in base) && (k in base ==> m'[k] == base[k]))
  {
  }

  /** `s` without its occurrences of `k`, the rest in the same order. */
  function Without<K(==,!new)>(s: seq<K>, k: K): (r: seq<K>)
    ensures forall x :: x in r <==> x in s && x != k
    ensures Distinct(s) ==> Distinct(r)
    ensures |r| <= |s|
  {
    if s == [] then []
    else
      var rest := Without(s[1..], k);
      if s[0] == k then rest
      else
        assert Distinct(s) ==> s[0] !in rest;
        [s[0]] + rest
  }

  /** `del d[k]` once `k` is known to be present. */
  function Remove<K(==,!new), V>(d: Dict<K, V>, k: K): (r: Dict<K, V>)
    ensures r.items == d.items - {k}
    ensures r.order == Without(d.order, k)
  {
    DictRep(Without(d.order, k), d.items - {k})
  }

  /** `list(d.values())` */
  function Values<K(==,!new), V>(d: Dict<K, V>): (r: seq<V>)
    ensures |r| == |d.order|
    ensures forall i :: 0 <= i < |r| ==> d.order[i] in d.items && r[i] == d.items[d.order[i]]
  {
    seq(|d.order|, i requires 0 <= i < |d.order| => d.items[d.order[i]])
  }

  /** `n` statements `del d[k]` in a row: the first removes the key, and any
      `del` that finds it absent raises KeyError and stops the sequence. */
  function DeleteTimes<K(==,!new), V>(d: Dict<K, V>, k: K, n: nat): (r: (Dict<K, V>, Outcome))
    ensures n == 0 ==> r == (d, Done)
    ensures n > 0 ==> r.0 == (if k in d.items then Remove(d, k) else d)
    ensures r.1 == Done <==> n == 0 || (n == 1 && k in d.items)
    ensures r.1 != Done ==> r.1 == Raised(KeyError)
  {
    if n == 0 then (d, Done)
    else if k !in d.items then (d, Raised(KeyError))
    else (Remove(d, k), if n == 1 then Done else Raised(KeyError))
  }

  /** Once a run of `del` statements has raised, further ones change nothing. */
  lemma DeleteTimesSettles<K(!new), V>(d: Dict<K, V>, k: K, m: nat, n: nat)
    requires m <= n
    requires DeleteTimes(d, k, m).1 != Done
    ensures DeleteTimes(d, k, n) == DeleteTimes(d, k, m)
  {
  }

  /** One more `del d[k]` after a run that has not raised. */
  lemma DeleteTimesStep<K(!new), V>(d: Dict<K, V>, k: K, n: nat)
    requires DeleteTimes(d, k, n).1 == Done
    ensures var (d1, _) := DeleteTimes(d, k, n);
      DeleteTimes(d, k, n + 1) == DeleteTimes(d1, k, 1)
  {
  }

  /** `for k in ks: del d[k]`: the keys in order, stopping at the first one
      that is absent (KeyError). */
  function DeleteEach<K(==,!new), V>(d: Dict<K, V>, ks: seq<K>): (r: (Dict<K, V>, Outcome))
    ensures r.1 != Done ==> r.1 == Raised(KeyError)
  {
    if ks == [] then (d, Done)
    else
      var (d1, o) := DeleteEach(d, ks[..|ks| - 1]);
      if o != Done then (d1, o)
      else if ks[|ks| - 1] !in d1.items then (d1, Raised(KeyError))
      else (Remove(d1, ks[|ks| - 1]), Done)
  }

  /** Deleting distinct keys that are all present never raises, and removes
      exactly those keys. */
  lemma {:induction false} DeleteEachPresent<K(!new), V>(d: Dict<K, V>, ks: seq<K>)
    requires Distinct(ks) && forall k :: k in ks ==> k in d.items
    ensures DeleteEach(d, ks).1 == Done
    ensures DeleteEach(d, ks).0.items == d.items - (set k | k in ks)
  {
    if ks != [] {
      var p, k := ks[..|ks| - 1], ks[|ks| - 1];
      assert ks == p + [k];
      assert Distinct(p) && k !in p;
      DeleteEachPresent(d, p);
      DeleteOnePresent(d, p, k);
    }
  }

  /** The last step of `DeleteEachPresent`: one more present key. */
  lemma DeleteOnePresent<K(!new), V>(d: Dict<K, V>, p: seq<K>, k: K)
    requires k in d.items && k !in p
    requires DeleteEach(d, p).1 == Done && DeleteEach(d, p).0.items == d.items - (set x | x in p)
    ensures DeleteEach(d, p + [k]).1 == Done
    ensures DeleteEach(d, p + [k]).0.items == d.items - (set x | x in p + [k])
  {
    var ks := p + [k];
    assert ks[..|ks| - 1] == p;
    KeysOfSnoc(p, k);
    MinusTwice(d.items, (set x | x in p), k);
  }

  lemma KeysOfSnoc<K>(p: seq<K>, k: K)
    ensures (set x | x in p + [k]) == (set x | x in p) + {k}
  {
  }

  lemma MinusTwice<K, V>(m: map<K, V>, a: set<K>, k: K)
    ensures (m - a) - {k} == m - (a + {k})
  {
  }

  lemma {:induction false} DeleteEachFailureSticks<K(!new), V>(d: Dict<K, V>, ks: seq<K>, i: nat)
    requires i <= |ks| && DeleteEach(d, ks[..i]).1 != Done
    ensures DeleteEach(d, ks) == DeleteEach(d, ks[..i])
  {
    if i < |ks| {
      assert ks[..|ks| - 1][..i] == ks[..i];
      DeleteEachFailureSticks(d, ks[..|ks| - 1], i);
    } else {
      assert ks[..i] == ks;
    }
  }

  /** The `del` loop one key further: when the first `i` deletions have not
      raised, the next one behaves as a single `del d[ks[i]]`. */
  lemma DeleteEachStep<K(!new), V>(d: Dict<K, V>, ks: seq<K>, i: nat)
    requires i < |ks| && DeleteEach(d, ks[..i]).1 == Done
    ensures DeleteEach(d, ks[..i + 1]) == DeleteTimes(DeleteEach(d, ks[..i]).0, ks[i], 1)
  {
    assert ks[..i + 1][..i] == ks[..i];
  }
}
