/** Linear search, as done by Java's `stream().filter(..).findFirst()` and by first-hit loops. */
module Seqs {
  import opened Wrappers

  /** The index of the first element of `s` satisfying `p`, or None when there is none. */
  function FirstIndexWhere<T>(s: seq<T>, p: T -> bool): (r: Option<nat>)
    ensures r.Some? ==> r.value < |s| && p(s[r.value])
    ensures r.Some? ==> forall k :: 0 <= k < r.value ==> !p(s[k])
    ensures r.None? <==> forall k :: 0 <= k < |s| ==> !p(s[k])
  {
    if s == [] then None
    else if p(s[0]) then Some(0)
    else
      match FirstIndexWhere(s[1..], p)
      case None => None
      case Some(j) => Some(j + 1)
  }
}
