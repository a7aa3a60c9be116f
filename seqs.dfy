/** Linear searches over sequences, the shape of Go's `for ... range` loops that return early. */
module Seqs {
  import opened Wrappers

  /** The index of the first element that satisfies `p`, or None when no element does. */
  function FirstIndex<T>(s: seq<T>, p: T -> bool): (r: Option<nat>)
    ensures r.Some? ==> r.value < |s| && p(s[r.value])
    ensures r.Some? ==> forall j :: 0 <= j < r.value ==> !p(s[j])
    ensures r.None? <==> forall j :: 0 <= j < |s| ==> !p(s[j])
    decreases |s|
  {
    if s == [] then None
    else if p(s[0]) then Some(0)
    else
      match FirstIndex(s[1..], p)
      case None => None
      case Some(k) => Some(k + 1)
  }
}
