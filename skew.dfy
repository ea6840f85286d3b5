/** The power-skewed random skip of MainActivity.playFart: a uniform draw r
    from [0, 1) is squared and scaled to the window, so small skips are much
    more likely than large ones. */
module Skew {
  import opened SelectionQueue

  /** `(int) (r * r * 5)`. The cast truncates toward zero, which is the floor
      for the non-negative values that occur. */
  function SkipAmount(r: real): (k: int)
    requires 0.0 <= r < 1.0
    ensures 0 <= k < Window
  {
    assert r * r <= r;
    (r * r * 5.0).Floor
  }

  /** A larger draw never gives a smaller skip. */
  lemma SkipAmountMonotone(r1: real, r2: real)
    requires 0.0 <= r1 <= r2 < 1.0
    ensures SkipAmount(r1) <= SkipAmount(r2)
  {
    assert r1 * r1 <= r1 * r2 <= r2 * r2;
  }

  /** The skew favours the front of the queue: every draw below 0.44 plays the
      head, while the last position of the window needs a draw above 0.89, so
      a uniform draw gives skip 0 with probability above 0.44 and skip 4 with
      probability below 0.11. */
  lemma SkewFavoursFront(r: real)
    requires 0.0 <= r < 1.0
    ensures r < 0.44 ==> SkipAmount(r) == 0
    ensures SkipAmount(r) == Window - 1 ==> 0.89 < r
  {
    if r < 0.44 {
      assert r * r <= 0.44 * r <= 0.44 * 0.44;
    }
    if r <= 0.89 {
      assert r * r <= 0.89 * r <= 0.89 * 0.89;
    }
  }
}
