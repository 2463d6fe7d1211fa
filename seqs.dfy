/**
 * `Array.prototype.map`, with and without the element's index, as
 * specification functions that loops building arrays with `push` are
 * proved against.
 */
module Seqs {
  /** `s.map(f)` */
  function MapSeq<A, B>(s: seq<A>, f: A -> B): (r: seq<B>)
    ensures |r| == |s|
    ensures forall i :: 0 <= i < |s| ==> r[i] == f(s[i])
  {
    seq(|s|, i requires 0 <= i < |s| => f(s[i]))
  }

  /** `s.map((x, index) => f(x, index))` */
  function MapIndexed<A, B>(s: seq<A>, f: (A, nat) -> B): (r: seq<B>)
    ensures |r| == |s|
    ensures forall i :: 0 <= i < |s| ==> r[i] == f(s[i], i)
  {
    seq(|s|, i requires 0 <= i < |s| => f(s[i], i))
  }

  /** Mapping one more element of a prefix appends its image. */
  lemma MapSeqSnoc<A, B>(s: seq<A>, k: nat, f: A -> B)
    requires k < |s|
    ensures MapSeq(s[..k + 1], f) == MapSeq(s[..k], f) + [f(s[k])]
  {
  }

  /** The same for the indexed map: the new element is mapped with its own index. */
  lemma MapIndexedSnoc<A, B>(s: seq<A>, k: nat, f: (A, nat) -> B)
    requires k < |s|
    ensures MapIndexed(s[..k + 1], f) == MapIndexed(s[..k], f) + [f(s[k], k)]
  {
  }
}
