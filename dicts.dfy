/**
 * Python dictionaries with string keys. A Python `dict` remembers the order in
 * which keys were first inserted; `json.dumps` and `to_dict` expose that order,
 * so a dictionary is modelled as its entries in insertion order.
 */
module Dicts {
  import opened Wrappers

  type Dict<V> = seq<(string, V)>

  /** The keys of `d`, in insertion order (`list(d)` in Python). */
  function Keys<V>(d: Dict<V>): (ks: seq<string>)
    ensures |ks| == |d|
    ensures forall i {:trigger ks[i]} :: 0 <= i < |d| ==> ks[i] == d[i].0
  {
    if d == [] then [] else [d[0].0] + Keys(d[1..])
  }

  lemma KeysAppend<V>(d: Dict<V>, k: string, v: V)
    ensures Keys(d + [(k, v)]) == Keys(d) + [k]
  {
    assert |Keys(d + [(k, v)])| == |Keys(d) + [k]|;
    forall i | 0 <= i < |d| + 1 ensures Keys(d + [(k, v)])[i] == (Keys(d) + [k])[i] {
      assert (d + [(k, v)])[i] == if i < |d| then d[i] else (k, v);
    }
  }

  /** No key occurs twice: every dictionary built with `Put` has this shape. */
  predicate Distinct(ks: seq<string>) {
    forall i, j :: 0 <= i < j < |ks| ==> ks[i] != ks[j]
  }

  /** `d.get(k)`: the value stored under `k`, if any. */
  function Get<V>(d: Dict<V>, k: string): (r: Option<V>)
    ensures r.None? <==> k !in Keys(d)
  {
    if d == [] then None
    else if d[0].0 == k then Some(d[0].1)
    else Get(d[1..], k)
  }

  /** An entry appended for another key does not change what `Get` finds for `k`. */
  lemma {:induction false} GetAppendOther<V>(d: Dict<V>, k': string, v: V, k: string)
    requires k != k'
    ensures Get(d + [(k', v)], k) == Get(d, k)
    decreases |d|
  {
    if d != [] {
      assert (d + [(k', v)])[1..] == d[1..] + [(k', v)];
      GetAppendOther(d[1..], k', v, k);
    }
  }

  /**
   * `d[k] = v`: a new key goes to the end; an existing key keeps its place and
   * takes the new value.
   */
  function Put<V>(d: Dict<V>, k: string, v: V): (r: Dict<V>)
    ensures Keys(r) == if k in Keys(d) then Keys(d) else Keys(d) + [k]
    ensures Get(r, k) == Some(v)
    ensures forall k' :: k' != k ==> Get(r, k') == Get(d, k')
  {
    if d == [] then [(k, v)]
    else if d[0].0 == k then [(k, v)] + d[1..]
    else [d[0]] + Put(d[1..], k, v)
  }

  /** Assigning keys never creates a duplicate key. */
  lemma {:induction false} PutKeepsDistinct<V>(d: Dict<V>, k: string, v: V)
    requires Distinct(Keys(d))
    ensures Distinct(Keys(Put(d, k, v)))
  {
    var ks := Keys(d);
    if k !in ks {
      var ks' := ks + [k];
      forall i, j | 0 <= i < j < |ks'| ensures ks'[i] != ks'[j] {
        if j == |ks| { assert ks'[i] == ks[i]; assert ks[i] in ks; }
      }
    }
  }

  /** In a dictionary without repeated keys, each entry is what `Get` finds for its key. */
  lemma {:induction false} GetAt<V>(d: Dict<V>, i: nat)
    requires Distinct(Keys(d))
    requires i < |d|
    ensures Get(d, d[i].0) == Some(d[i].1)
  {
    if i > 0 {
      assert Keys(d)[0] != Keys(d)[i];
      assert Keys(d[1..]) == Keys(d)[1..];
      GetAt(d[1..], i - 1);
    }
  }

  /** A dictionary literal `{k0: v0, k1: v1, ...}` with distinct keys. */
  function FromPairs<V>(ps: seq<(string, V)>): Dict<V>
  {
    if ps == [] then [] else Put(FromPairs(ps[..|ps| - 1]), ps[|ps| - 1].0, ps[|ps| - 1].1)
  }
}
