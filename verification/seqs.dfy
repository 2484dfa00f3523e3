/** Sequence helpers shared by the encoder, the converter and the pipeline. */
module Seqs {
  /** Applies `f` to every element, keeping order and length. */
  function MapSeq<A, B>(xs: seq<A>, f: A -> B): (r: seq<B>)
    ensures |r| == |xs|
    ensures forall i | 0 <= i < |xs| :: r[i] == f(xs[i])
  {
    if |xs| == 0 then [] else [f(xs[0])] + MapSeq(xs[1..], f)
  }
}
