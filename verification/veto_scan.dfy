/**
 * The per-candidate check of a channel against the ordered exclusion lists.
 *
 * Each list is walked from its beginning for every candidate: the cursor pair
 * the loop advances is a copy, so an advance never carries over to the next
 * candidate, and the walk is a bounded linear search of a sorted sequence
 * rather than a persistent merge.
 */
module VetoScan {
  import opened ChannelIds
  import opened SortedIds

  /**
   * Walks one ordered exclusion list from its start, stopping at the first
   * entry above `channel` or at the entry equal to it.
   */
  method ScanVetoList(vetoed: SortedIds, channel: ChannelId) returns (found: bool)
    ensures found <==> channel in vetoed
  {
    found := false;
    var cursor := 0;
    while cursor < |vetoed|
      invariant 0 <= cursor <= |vetoed|
      invariant forall i :: 0 <= i < cursor ==> vetoed[i] < channel
    {
      if vetoed[cursor] > channel {
        break;
      }
      if vetoed[cursor] == channel {
        found := true;
        // this advance is made on the copy and is lost
        cursor := cursor + 1;
        break;
      }
      cursor := cursor + 1;
    }
  }

  /**
   * Checks `channel` against each list in turn, giving up on the remaining
   * lists as soon as one of them holds it.
   */
  method CheckVetoLists(lists: seq<SortedIds>, channel: ChannelId) returns (good: bool)
    ensures good <==> forall k :: 0 <= k < |lists| ==> channel !in lists[k]
  {
    good := true;
    var k := 0;
    while k < |lists|
      invariant 0 <= k <= |lists|
      invariant good
      invariant forall j :: 0 <= j < k ==> channel !in lists[j]
    {
      var found := ScanVetoList(lists[k], channel);
      if found {
        good := false;
      }
      if !good {
        break;
      }
      k := k + 1;
    }
  }
}
