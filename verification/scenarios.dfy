/**
 * A worked configuration: largest channel 9, bad channels {2, 5}, noisy
 * channels {5, 8}, first with no present bound and then with present bound 6.
 */
module Scenarios {
  import opened Wrappers
  import opened ChannelIds
  import opened SortedIds
  import opened GoodSet
  import opened SimpleChannelFilter

  function Configured(maxPresentChannel: ChannelId): ChannelFilter {
    ChannelFilter([2, 5], [5, 8], 9, maxPresentChannel, None)
  }

  /** With no present bound the whole range up to 9 is scanned. */
  lemma GoodWithoutPresentBound()
    ensures GoodSetOf(Configured(INVALID_CHANNEL)) == {0, 1, 3, 4, 6, 7, 9}
    ensures IsPresent(Configured(INVALID_CHANNEL), 5)
  {
  }

  /** A present bound of 6 cuts the scan at 6; channel 5 is still excluded as bad. */
  lemma GoodWithPresentBound()
    ensures GoodSetOf(Configured(6)) == {0, 1, 3, 4, 6}
    ensures !IsPresent(Configured(6), 7)
    ensures 5 !in GoodSetOf(Configured(6)) && IsPresent(Configured(6), 5)
  {
  }

  /** Before any reconfiguration the fill has no last channel and must fail. */
  lemma UnconfiguredHasNoLastChannel(f: ChannelFilter)
    requires f.maxChannel == INVALID_CHANNEL && f.maxPresentChannel == INVALID_CHANNEL
    ensures !IsValid(LastChannelOf(f))
  {
  }

  /**
   * The same configuration end to end: built from unordered vectors with a
   * repeated entry, set up with no present bound and queried twice.
   */
  method QueryFromVectors() returns (r1: Result<set<ChannelId>, FilterError>, r2: Result<set<ChannelId>, FilterError>)
    ensures r1 == Success({0, 1, 3, 4, 6, 7, 9})
    ensures r2 == r1
  {
    var f := NewFilter(Some([5, 2, 5]), Some([8, 5]));
    assert Elems(f.badChannels) == {2, 5};
    assert Elems(f.noisyChannels) == {5, 8};
    f := Setup(f, 9, INVALID_CHANNEL);
    assert GoodSetOf(f) == {0, 1, 3, 4, 6, 7, 9} by {
      assert forall c: ChannelId :: c in GoodSetOf(f) <==> c in {0, 1, 3, 4, 6, 7, 9};
    }
    f, r1 := GoodChannels(f);
    f, r2 := GoodChannels(f);
  }
}
