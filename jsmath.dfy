/**
 * The pieces of JavaScript's `Math` that the weather app relies on, over
 * exact `real` arithmetic: `Math.round`, and `Math.max(...xs)` /
 * `Math.min(...xs)` on a non-empty list.
 */
module JsMath {

  /** `Math.round`: the nearest integer, halves rounded towards +infinity. */
  function Round(x: real): (n: int)
    ensures x - 0.5 < n as real <= x + 0.5
  {
    (x + 0.5).Floor
  }

  /** Rounding an integral value gives that value back. */
  lemma RoundOfInt(n: int)
    ensures Round(n as real) == n
  {
  }

  /** `Math.round` is monotone. */
  lemma RoundMonotone(x: real, y: real)
    requires x <= y
    ensures Round(x) <= Round(y)
  {
  }

  /** Halves go up, also for negative numbers (-2.5 rounds to -2). */
  lemma RoundHalves()
    ensures Round(2.5) == 3 && Round(-2.5) == -2 && Round(-2.6) == -3
  {
  }

  /** `Math.max(...xs)` for a non-empty list: an element that bounds all others. */
  function SeqMax(xs: seq<real>): (m: real)
    requires |xs| > 0
    ensures m in xs
    ensures forall i :: 0 <= i < |xs| ==> xs[i] <= m
  {
    if |xs| == 1 then xs[0]
    else
      var rest := SeqMax(xs[1..]);
      if xs[0] >= rest then xs[0] else rest
  }

  /** `Math.min(...xs)` for a non-empty list: an element bounded by all others. */
  function SeqMin(xs: seq<real>): (m: real)
    requires |xs| > 0
    ensures m in xs
    ensures forall i :: 0 <= i < |xs| ==> m <= xs[i]
  {
    if |xs| == 1 then xs[0]
    else
      var rest := SeqMin(xs[1..]);
      if xs[0] <= rest then xs[0] else rest
  }

  /** The minimum never exceeds the maximum; for one element both are that element. */
  lemma MinAtMostMax(xs: seq<real>)
    requires |xs| > 0
    ensures SeqMin(xs) <= SeqMax(xs)
    ensures |xs| == 1 ==> SeqMin(xs) == SeqMax(xs) == xs[0]
  {
    assert SeqMin(xs) <= xs[0] <= SeqMax(xs);
  }
}
