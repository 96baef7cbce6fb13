/** Element-wise mapping of a sequence, the `Array.prototype.map` that the
    fetchers and the app use to reshape upstream rows. */
module Sequences {

  /** Applies `f` to every element, front to back. The result has the same
      length as `s` and keeps its order: element `k` of the result is `f`
      of element `k` of `s`. */
  function MapSeq<A, B>(f: A -> B, s: seq<A>): (r: seq<B>)
    ensures |r| == |s|
    ensures forall k :: 0 <= k < |s| ==> r[k] == f(s[k])
  {
    if s == [] then [] else [f(s[0])] + MapSeq(f, s[1..])
  }
}
