/**
 * The channel-quality engine: two write-once exclusion sets (bad, noisy), two
 * mutable bounds (largest channel, largest present channel) and a lazily
 * built cache of the good channels.
 *
 * The engine's state is an immutable value; every operation that changes it
 * returns the new state. The cache is `None` when it has been dropped and
 * `Some(s)` once it has been allocated.
 */
module SimpleChannelFilter {
  import opened Wrappers
  import opened ChannelIds
  import opened SortedIds
  import opened GoodSet
  import opened VetoScan

  /** The only error the engine raises: a fill with no usable largest channel. */
  datatype FilterError = NoLargestChannelSetUp

  datatype ChannelFilter = ChannelFilter(
    badChannels: SortedIds,
    noisyChannels: SortedIds,
    maxChannel: ChannelId,
    maxPresentChannel: ChannelId,
    goodChannels: Option<set<ChannelId>>)

  /**
   * Builds the engine from the configured bad and noisy lists, each of which
   * may be absent (read as empty), unordered and hold duplicates. Both bounds
   * start at the invalid sentinel and there is no cache.
   */
  method NewFilter(badList: Option<seq<ChannelId>>, noisyList: Option<seq<ChannelId>>)
    returns (f: ChannelFilter)
    ensures Elems(f.badChannels) == Elems(badList.GetOr([]))
    ensures Elems(f.noisyChannels) == Elems(noisyList.GetOr([]))
    ensures f.maxChannel == INVALID_CHANNEL && f.maxPresentChannel == INVALID_CHANNEL
    ensures f.goodChannels == None
  {
    var bad := FromVector(badList.GetOr([]));
    var noisy := FromVector(noisyList.GetOr([]));
    f := ChannelFilter(bad, noisy, INVALID_CHANNEL, INVALID_CHANNEL, None);
  }

  /**
   * Reconfigures the bounds. The exclusion sets are kept and the cache is
   * dropped, never rebuilt here.
   */
  function Setup(f: ChannelFilter, maxChannel: ChannelId, maxPresentChannel: ChannelId): (r: ChannelFilter)
    ensures r.maxChannel == maxChannel && r.maxPresentChannel == maxPresentChannel
    ensures r.badChannels == f.badChannels && r.noisyChannels == f.noisyChannels
    ensures r.goodChannels == None
  {
    f.(maxChannel := maxChannel, maxPresentChannel := maxPresentChannel, goodChannels := None)
  }

  /**
   * Whether `channel` is physically present. With no valid present bound every
   * identifier counts as present, the sentinel included.
   */
  function IsPresent(f: ChannelFilter, channel: ChannelId): (r: bool)
    ensures !IsValid(f.maxPresentChannel) ==> r
    ensures IsValid(f.maxPresentChannel) ==> (r <==> IsValid(channel) && channel <= f.maxPresentChannel)
  {
    if IsValid(f.maxPresentChannel) then IsValid(channel) && channel <= f.maxPresentChannel
    else true
  }

  /**
   * The last channel a fill scans: the present bound when it is valid and
   * below the largest channel, otherwise the largest channel. A present bound
   * at or above the largest channel is ignored without complaint.
   */
  function LastChannel(maxChannel: ChannelId, maxPresentChannel: ChannelId): (r: ChannelId)
    ensures r == maxChannel || r == maxPresentChannel
    ensures r <= maxChannel
    ensures IsValid(maxPresentChannel) ==> r <= maxPresentChannel
    ensures !IsValid(maxPresentChannel) ==> r == maxChannel
  {
    if IsValid(maxPresentChannel) && maxPresentChannel < maxChannel then maxPresentChannel
    else maxChannel
  }

  /** The last channel a fill of `f` would scan. */
  function LastChannelOf(f: ChannelFilter): ChannelId {
    LastChannel(f.maxChannel, f.maxPresentChannel)
  }

  /** The good set the current configuration of `f` calls for. */
  function GoodSetOf(f: ChannelFilter): set<ChannelId> {
    GoodSetSpec(Elems(f.badChannels), Elems(f.noisyChannels), LastChannelOf(f))
  }

  /**
   * The cache invariant: a cache that is present holds the good set of the
   * current configuration, or is empty when a fill with that configuration
   * could only fail.
   */
  ghost predicate CacheConsistent(f: ChannelFilter) {
    f.goodChannels.Some? ==>
      f.goodChannels.value == (if IsValid(LastChannelOf(f)) then GoodSetOf(f) else {})
  }

  /**
   * Rebuilds the cache. The cache is allocated and cleared first, so a fill
   * that fails leaves it present and empty. On success every valid identifier
   * from the first valid one to the last channel that no exclusion list holds
   * is in the cache, and nothing else.
   */
  method FillGoodChannels(f: ChannelFilter) returns (f': ChannelFilter, outcome: Outcome<FilterError>)
    ensures f' == f.(goodChannels := f'.goodChannels)
    ensures outcome.Fail? <==> !IsValid(LastChannelOf(f))
    ensures outcome.Fail? ==> f'.goodChannels == Some({})
    ensures outcome.Pass? ==> f'.goodChannels == Some(GoodSetOf(f))
    ensures outcome.Pass? ==> forall c: ChannelId :: c in f'.goodChannels.value <==>
      FirstValidId() <= c <= LastChannelOf(f) && IsValid(c)
      && c !in f.badChannels && c !in f.noisyChannels
  {
    var good: set<ChannelId> := {};
    f' := f.(goodChannels := Some(good));
    var vetoed := [f.badChannels, f.noisyChannels];
    var channel: ChannelId := FirstValidId();
    var last := LastChannel(f.maxChannel, f.maxPresentChannel);
    if !IsValid(last) {
      return f', Fail(NoLargestChannelSetUp);
    }
    while channel <= last
      invariant FirstValidId() <= channel <= last + 1
      invariant forall c: ChannelId :: c in good <==>
        FirstValidId() <= c < channel && c !in f.badChannels && c !in f.noisyChannels
    {
      var isGood := CheckVetoLists(vetoed, channel);
      assert isGood <==> channel !in vetoed[0] && channel !in vetoed[1];
      if isGood {
        good := good + {channel};
      }
      channel := channel + 1;
    }
    assert good == GoodSetOf(f);
    f' := f.(goodChannels := Some(good));
    outcome := Pass;
  }

  /**
   * The good channels, filling the cache first when there is none. A present
   * cache is returned as it is, so the fill runs at most once between two
   * reconfigurations.
   */
  method GoodChannels(f: ChannelFilter) returns (f': ChannelFilter, r: Result<set<ChannelId>, FilterError>)
    ensures f' == f.(goodChannels := f'.goodChannels)
    ensures f'.goodChannels.Some?
    ensures r.Success? ==> f'.goodChannels == Some(r.value)
    ensures r.Failure? ==> f'.goodChannels == Some({})
    ensures f.goodChannels.Some? ==> f' == f && r == Success(f.goodChannels.value)
    ensures f.goodChannels.None? ==> (r.Failure? <==> !IsValid(LastChannelOf(f)))
    ensures f.goodChannels.None? && r.Success? ==> r.value == GoodSetOf(f)
    ensures CacheConsistent(f) ==> CacheConsistent(f')
  {
    f' := f;
    if f.goodChannels.None? {
      var outcome;
      f', outcome := FillGoodChannels(f);
      if outcome.Fail? {
        return f', Failure(outcome.error);
      }
    }
    r := Success(f'.goodChannels.value);
  }

  /**
   * Two queries with no reconfiguration in between: the second agrees with a
   * successful first one, and after a failed first one it returns the empty
   * set without failing.
   */
  method GoodChannelsTwice(f: ChannelFilter)
    returns (f2: ChannelFilter, r1: Result<set<ChannelId>, FilterError>, r2: Result<set<ChannelId>, FilterError>)
    ensures r1.Success? ==> r2 == r1
    ensures r1.Failure? ==> r2 == Success({})
    ensures r2.Success?
    ensures f2 == f.(goodChannels := f2.goodChannels)
  {
    var f1;
    f1, r1 := GoodChannels(f);
    f2, r2 := GoodChannels(f1);
  }

  /** A new configuration replaces the previous one entirely. */
  lemma SetupLastWins(f: ChannelFilter, m1: ChannelId, p1: ChannelId, m2: ChannelId, p2: ChannelId)
    ensures Setup(Setup(f, m1, p1), m2, p2) == Setup(f, m2, p2)
  {
  }

  /** Reconfiguring re-establishes the cache invariant, whatever the cache held. */
  lemma SetupRestoresConsistency(f: ChannelFilter, maxChannel: ChannelId, maxPresentChannel: ChannelId)
    ensures CacheConsistent(Setup(f, maxChannel, maxPresentChannel))
  {
  }

  /**
   * Presence asymmetry: with a valid present bound the sentinel is never
   * present; with none, every identifier is.
   */
  lemma PresenceAsymmetry(f: ChannelFilter, channel: ChannelId)
    ensures IsValid(f.maxPresentChannel) ==> !IsPresent(f, INVALID_CHANNEL)
    ensures !IsValid(f.maxPresentChannel) ==> IsPresent(f, channel)
    ensures IsValid(f.maxPresentChannel) ==>
              (IsPresent(f, channel) <==> IsValid(channel) && channel <= f.maxPresentChannel)
  {
  }

  /** Every good channel is a present one. */
  lemma GoodChannelsArePresent(f: ChannelFilter, channel: ChannelId)
    requires channel in GoodSetOf(f)
    ensures IsPresent(f, channel)
  {
  }

  /** Clamping: a present bound at or above the largest channel does not change the scan. */
  lemma PresentBoundClamped(maxChannel: ChannelId, maxPresentChannel: ChannelId)
    requires maxChannel <= maxPresentChannel
    ensures LastChannel(maxChannel, maxPresentChannel) == maxChannel
  {
  }

  /**
   * An unset largest channel fails the fill only when no valid present bound
   * stands in for it.
   */
  lemma FillFailsOnlyWithoutBound(maxChannel: ChannelId, maxPresentChannel: ChannelId)
    ensures !IsValid(LastChannel(maxChannel, maxPresentChannel))
            <==> !IsValid(maxChannel) && !IsValid(maxPresentChannel)
  {
  }

  /** The good set never meets an exclusion set. */
  lemma GoodDisjointFromExcluded(f: ChannelFilter)
    ensures GoodSetOf(f) * Elems(f.badChannels) == {}
    ensures GoodSetOf(f) * Elems(f.noisyChannels) == {}
  {
  }
}
