// A Python dict with string keys, as its entries in insertion order.
module Dicts {
  /** Position of a key, or the length of the dict. */
  function IndexOf<V>(d: seq<(string, V)>, id: string): (k: nat)
    ensures k <= |d| && (k < |d| ==> d[k].0 == id) && forall i :: 0 <= i < k ==> d[i].0 != id
  {
    if d == [] || d[0].0 == id then 0 else 1 + IndexOf(d[1..], id)
  }

  ghost predicate DistinctKeys<V>(d: seq<(string, V)>) {
    forall i, j :: 0 <= i < j < |d| ==> d[i].0 != d[j].0
  }
}
