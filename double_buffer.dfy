// The two double-buffer index pairs of the particle system: the particle
// storage (`mCurrVB` is read by the next pass, `mCurrTFB` receives its
// transform-feedback output) and the emitting-surface storage
// (`mSurfaceBack`, `mSurfaceFront`). Each pair names the two slots of a
// two-element buffer array, so the indices are always 0 and 1 in some order.
module DoubleBuffer {
  import opened CppInt

  /** The slot index held by each role of one double buffer. */
  datatype IndexPair = IndexPair(current: UInt32, other: UInt32)

  /** Both slots of a two-element buffer array are in use, one per role. */
  predicate Complementary(p: IndexPair)
  {
    (p.current == 0 && p.other == 1) || (p.current == 1 && p.other == 0)
  }

  /** The roles exchanged: the slot just written becomes the one to read. */
  function Swap(p: IndexPair): (q: IndexPair)
    ensures Complementary(p) ==> Complementary(q)
    ensures Complementary(p) ==> q.current != p.current && q.other != p.other
    ensures q.current == p.other
  {
    IndexPair(p.other, p.current)
  }

  /** The pair after `n` swaps in a row (one per successful simulation step). */
  function SwapTimes(p: IndexPair, n: nat): (q: IndexPair)
  {
    if n == 0 then p else Swap(SwapTimes(p, n - 1))
  }

  /** Swapping twice restores both roles. */
  lemma SwapInvolutive(p: IndexPair)
    ensures Swap(Swap(p)) == p
  {
  }

  /** After any number of swaps the pair is still complementary, and it is the
      starting pair exactly when the number of swaps is even. */
  lemma {:induction false} SwapTimesParity(p: IndexPair, n: nat)
    requires Complementary(p)
    ensures Complementary(SwapTimes(p, n))
    ensures SwapTimes(p, n) == if n % 2 == 0 then p else Swap(p)
    ensures SwapTimes(p, n) == p <==> n % 2 == 0
  {
    if n > 0 {
      SwapTimesParity(p, n - 1);
      SwapInvolutive(p);
    }
  }
}
