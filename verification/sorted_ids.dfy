/**
 * Ordered, duplicate-free sets of channel identifiers, represented the way an
 * ordered set is iterated: as a strictly increasing sequence.
 */
module SortedIds {
  import opened ChannelIds

  predicate StrictlySorted(s: seq<ChannelId>) {
    forall i, j :: 0 <= i < j < |s| ==> s[i] < s[j]
  }

  /** An ordered set of identifiers, in iteration order. */
  type SortedIds = s: seq<ChannelId> | StrictlySorted(s) witness []

  /** The identifiers a sequence holds, order and repetition forgotten. */
  function Elems(s: seq<ChannelId>): set<ChannelId> {
    set c | c in s
  }

  /** Prepending adds exactly the new head to the identifiers held. */
  lemma ElemsCons(h: ChannelId, t: seq<ChannelId>)
    ensures Elems([h] + t) == {h} + Elems(t)
  {
  }

  /** Prepending an identifier below every element keeps a sequence strictly sorted. */
  lemma PrependSorted(h: ChannelId, t: SortedIds)
    requires forall i :: 0 <= i < |t| ==> h < t[i]
    ensures StrictlySorted([h] + t)
  {
  }

  /** The step of `Insert` that keeps the head and inserts into the rest keeps the order. */
  lemma InsertBehindHeadSorted(s: SortedIds, x: ChannelId, tail: SortedIds)
    requires |s| > 0 && s[0] < x
    requires Elems(tail) == Elems(s[1..]) + {x}
    ensures StrictlySorted([s[0]] + tail)
  {
    assert forall i :: 0 <= i < |tail| ==> tail[i] in Elems(tail);
    assert forall i :: 0 < i < |s| ==> s[0] < s[i];
    PrependSorted(s[0], tail);
  }

  /** The same step adds exactly `x`, and nothing when `x` is already present. */
  lemma InsertBehindHeadElems(s: SortedIds, x: ChannelId, tail: SortedIds)
    requires |s| > 0 && s[0] < x
    requires Elems(tail) == Elems(s[1..]) + {x}
    requires x in s[1..] ==> tail == s[1..]
    ensures Elems([s[0]] + tail) == Elems(s) + {x}
    ensures x in s ==> [s[0]] + tail == s
  {
    assert s == [s[0]] + s[1..];
    ElemsCons(s[0], s[1..]);
    ElemsCons(s[0], tail);
  }

  /** Inserts `x` into an ordered set; inserting an identifier already present changes nothing. */
  function Insert(s: SortedIds, x: ChannelId): (r: SortedIds)
    ensures Elems(r) == Elems(s) + {x}
    ensures x in s ==> r == s
    ensures |r| <= |s| + 1
    decreases |s|
  {
    if |s| == 0 then [x]
    else if x < s[0] then
      PrependSorted(x, s);
      ElemsCons(x, s);
      [x] + s
    else if x == s[0] then s
    else
      var rest: SortedIds := s[1..];
      var tail := Insert(rest, x);
      InsertBehindHeadSorted(s, x, tail);
      InsertBehindHeadElems(s, x, tail);
      [s[0]] + tail
  }

  /**
   * Builds an ordered set from an unordered vector that may hold duplicates,
   * inserting the elements one by one from the front.
   */
  method FromVector(v: seq<ChannelId>) returns (s: SortedIds)
    ensures Elems(s) == Elems(v)
    ensures |s| <= |v|
  {
    s := [];
    var k := 0;
    while k < |v|
      invariant 0 <= k <= |v|
      invariant Elems(s) == Elems(v[..k])
      invariant |s| <= k
    {
      assert v[..k + 1] == v[..k] + [v[k]];
      s := Insert(s, v[k]);
      k := k + 1;
    }
    assert v[..|v|] == v;
  }
}
