/** Positions of the elements of a sequence that a filter keeps. */
module Sequences {

  /** The indices of `s` whose element satisfies `keep`, in increasing order. */
  function Positions<T>(s: seq<T>, keep: T -> bool): (r: seq<nat>)
    ensures |r| <= |s|
    ensures forall j :: 0 <= j < |r| ==> r[j] < |s| && keep(s[r[j]])
    ensures forall j, k :: 0 <= j < k < |r| ==> r[j] < r[k]
    ensures forall i :: 0 <= i < |s| && keep(s[i]) ==> i in r
  {
    if s == [] then []
    else
      var prefix := s[..|s| - 1];
      assert forall i :: 0 <= i < |prefix| ==> prefix[i] == s[i];
      Positions(prefix, keep) + (if keep(s[|s| - 1]) then [|s| - 1] else [])
  }
}
