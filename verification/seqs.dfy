/** Small facts about sequences used by the proofs. */
module Seqs {
  lemma Assoc<X>(a: seq<X>, b: seq<X>, c: seq<X>)
    ensures (a + b) + c == a + (b + c)
  {
  }

  /** The first of two known elements in front of a tail, and what follows it. */
  lemma Drop2<X>(x: X, y: X, tail: seq<X>)
    ensures ([x, y] + tail)[0] == x && ([x, y] + tail)[1..] == [y] + tail
    ensures ([y] + tail)[0] == y && ([y] + tail)[1..] == tail
  {
  }

  /** The same for three known elements. */
  lemma Drop3<X>(x: X, y: X, z: X, tail: seq<X>)
    ensures ([x, y, z] + tail)[0] == x && ([x, y, z] + tail)[1..] == [y, z] + tail
    ensures ([y, z] + tail)[0] == y && ([y, z] + tail)[1..] == [z] + tail
    ensures ([z] + tail)[0] == z && ([z] + tail)[1..] == tail
  {
  }
}
