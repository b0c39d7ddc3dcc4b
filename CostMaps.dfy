/** Insertion-ordered cost maps: the `dict` from service label to monthly cost
    that the inventory responder builds and `build_recs` iterates over.
    A dict keeps its keys in insertion order, so it is modelled as a sequence
    of (label, cost) pairs; a dict never holds a key twice, which is
    `UniqueKeys`. */
module CostMaps {

  type Label = string

  type CostMap = seq<(Label, real)>

  datatype Option<T> = None | Some(value: T)

  /** The keys of `m`, in iteration order. */
  function Keys(m: CostMap): seq<Label>
  {
    seq(|m|, i requires 0 <= i < |m| => m[i].0)
  }

  predicate UniqueKeys(m: CostMap)
  {
    forall i, j :: 0 <= i < j < |m| ==> m[i].0 != m[j].0
  }

  /** `m[k]` when `k in m`, and None otherwise. */
  function Lookup(m: CostMap, k: Label): (r: Option<real>)
    ensures r.None? <==> k !in Keys(m)
    ensures r.Some? ==> exists i :: 0 <= i < |m| && m[i] == (k, r.value)
  {
    if m == [] then None
    else if m[0].0 == k then
      assert Keys(m)[0] == k;
      Some(m[0].1)
    else
      var r := Lookup(m[1..], k);
      assert r.Some? ==> exists i :: 0 <= i < |m[1..]| && m[1..][i] == (k, r.value);
      assert Keys(m) == [m[0].0] + Keys(m[1..]);
      r
  }

  /** `m.get(k, d)`. */
  function GetOr(m: CostMap, k: Label, d: real): (r: real)
    ensures k !in Keys(m) ==> r == d
    ensures k in Keys(m) ==> exists i :: 0 <= i < |m| && m[i] == (k, r)
  {
    match Lookup(m, k)
    case Some(v) => v
    case None => d
  }

  /** In a map without repeated keys, looking up the i-th key gives the i-th cost. */
  lemma {:induction false} LookupAt(m: CostMap, i: nat)
    requires UniqueKeys(m)
    requires i < |m|
    ensures Lookup(m, m[i].0) == Some(m[i].1)
  {
    if i > 0 {
      assert m[0].0 != m[i].0;
      assert m[1..][i - 1] == m[i];
      LookupAt(m[1..], i - 1);
    }
  }

  /** In a dict, a key is present with a positive cost exactly when the
      `in`-and-index test and the `get(k, 0)` test say so. */
  lemma PositiveCostIff(c: CostMap, k: Label)
    requires UniqueKeys(c)
    ensures (k in Keys(c) && Lookup(c, k).value > 0.0) <==> exists i :: 0 <= i < |c| && c[i].0 == k && c[i].1 > 0.0
    ensures GetOr(c, k, 0.0) > 0.0 <==> exists i :: 0 <= i < |c| && c[i].0 == k && c[i].1 > 0.0
  {
    forall i | 0 <= i < |c| && c[i].0 == k ensures Lookup(c, k) == Some(c[i].1) && k in Keys(c) {
      LookupAt(c, i);
      assert Keys(c)[i] == k;
    }
  }
}
