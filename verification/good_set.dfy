/**
 * The reference definition of the good-channel set, independent of the scan
 * that computes it, and the properties that follow from it.
 */
module GoodSet {
  import opened ChannelIds

  predicate Between(lo: ChannelId, c: ChannelId, hi: ChannelId) {
    lo <= c <= hi
  }

  /** The identifiers from `lo` to `hi`, both included. */
  function IdRange(lo: ChannelId, hi: ChannelId): set<ChannelId> {
    set c: ChannelId | Between(lo, c, hi)
  }

  /**
   * The good channels up to `last`: the valid identifiers from the first valid
   * one to `last` that are neither bad nor noisy.
   */
  function GoodSetSpec(bad: set<ChannelId>, noisy: set<ChannelId>, last: ChannelId): set<ChannelId> {
    set c: ChannelId | FirstValidId() <= c <= last && IsValid(c) && c !in bad && c !in noisy
  }

  /** A range of identifiers has as many members as its width. */
  lemma {:induction false} IdRangeSize(lo: ChannelId, hi: ChannelId)
    ensures |IdRange(lo, hi)| == if lo <= hi then hi - lo + 1 else 0
    decreases hi
  {
    if hi < lo {
      assert IdRange(lo, hi) == {};
    } else if hi == lo {
      assert IdRange(lo, hi) == {lo};
    } else {
      IdRangeSize(lo, hi - 1);
      assert IdRange(lo, hi) == IdRange(lo, hi - 1) + {hi};
    }
  }

  /** Removing `b` from `a` removes exactly the common part. */
  lemma DifferenceSize<T>(a: set<T>, b: set<T>)
    ensures |a - b| == |a| - |a * b|
  {
    assert a == (a - b) + (a * b);
    assert (a - b) * (a * b) == {};
  }

  /**
   * Size identity: the good set has as many members as the scanned range less
   * the excluded identifiers that fall inside it.
   */
  lemma GoodSetSize(bad: set<ChannelId>, noisy: set<ChannelId>, last: ChannelId)
    requires IsValid(last)
    ensures |GoodSetSpec(bad, noisy, last)|
            == (last - FirstValidId() + 1) - |(bad + noisy) * IdRange(FirstValidId(), last)|
  {
    var range := IdRange(FirstValidId(), last);
    assert GoodSetSpec(bad, noisy, last) == range - (bad + noisy);
    DifferenceSize(range, bad + noisy);
    IdRangeSize(FirstValidId(), last);
  }

  /**
   * Lowering the bound only drops the good channels above the new bound: the
   * good set for `lower` is the good set for `upper` cut at `lower`.
   */
  lemma GoodSetCut(bad: set<ChannelId>, noisy: set<ChannelId>, lower: ChannelId, upper: ChannelId)
    requires lower <= upper
    ensures GoodSetSpec(bad, noisy, lower) == GoodSetSpec(bad, noisy, upper) * IdRange(FirstValidId(), lower)
  {
  }
}
