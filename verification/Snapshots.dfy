/**
 From a session buffer to the frames that aggregation reads: dictionary order does not matter, and the
 buffer's invariants become the order facts that aggregation relies on.
 */
module Snapshots {
  import opened Common
  import opened Observations
  import opened Ingestion
  import opened EvidenceSummary
  import opened EvidenceFacts
  import opened Sorting
  import Aoi = AoiMetadata

  /** `observations` lists every value of the dictionary once, in some order. */
  ghost predicate Enumerates(observations: seq<Frame>, m: map<Key, Frame>) {
    && (forall i, j :: 0 <= i < j < |observations| ==> observations[i].FrameKey() != observations[j].FrameKey())
    && (forall o :: o in observations ==> o.FrameKey() in m && m[o.FrameKey()] == o)
    && (forall k :: k in m ==> m[k].FrameKey() == k && m[k] in observations)
  }

  /** `tuple(state.observations.values())`, in whatever order the dictionary yields */
  method TakeSnapshot(m: map<Key, Frame>) returns (observations: seq<Frame>)
    requires forall k :: k in m ==> m[k].FrameKey() == k
    ensures Enumerates(observations, m)
  {
    observations := [];
    var left := m.Keys;
    while left != {}
      invariant left <= m.Keys
      invariant forall i, j :: 0 <= i < j < |observations| ==> observations[i].FrameKey() != observations[j].FrameKey()
      invariant forall o :: o in observations ==> o.FrameKey() in m && m[o.FrameKey()] == o && o.FrameKey() !in left
      invariant forall k :: k in m && k !in left ==> m[k] in observations
      decreases |left|
    {
      var k :| k in left;
      left := left - {k};
      observations := observations + [m[k]];
    }
  }

  lemma EnumerationCounts(observations: seq<Frame>, m: map<Key, Frame>, f: Frame)
    requires Enumerates(observations, m)
    ensures multiset(observations)[f] == if f.FrameKey() in m && m[f.FrameKey()] == f then 1 else 0
  {
    NoRepeats(observations);
    assert f in multiset(observations) <==> f in observations;
  }

  /** Two enumerations of one dictionary hold the same frames. */
  lemma EnumerationsAgree(a: seq<Frame>, b: seq<Frame>, m: map<Key, Frame>)
    requires Enumerates(a, m) && Enumerates(b, m)
    ensures multiset(a) == multiset(b)
  {
    hide Enumerates;
    forall f ensures multiset(a)[f] == multiset(b)[f] {
      EnumerationCounts(a, m, f);
      EnumerationCounts(b, m, f);
    }
  }

  lemma SequencesUnique(observations: seq<Frame>, m: map<Key, Frame>, index: map<nat, Key>)
    requires Enumerates(observations, m) && Indexed(m, index)
    ensures UniqueSequences(multiset(observations))
  {
    forall a, b | a in multiset(observations) && b in multiset(observations) && a.sequence == b.sequence
      ensures a == b
    {
      assert a in observations && b in observations;
      assert index[a.sequence] == a.FrameKey() && index[b.sequence] == b.FrameKey();
    }
  }

  lemma OrderedMembers(observations: seq<Frame>)
    ensures multiset(Ordered(observations)) == multiset(observations)
    ensures |Ordered(observations)| == |observations|
    ensures forall f :: f in Ordered(observations) <==> f in observations
  {
    SortElements(FrameLess, observations);
    SortMembers(FrameLess, observations);
  }

  /** Frame keys stay distinct under sorting. */
  lemma OrderedDistinct(observations: seq<Frame>, m: map<Key, Frame>)
    requires Enumerates(observations, m)
    ensures forall i, j :: 0 <= i < j < |Ordered(observations)| ==>
      Ordered(observations)[i] != Ordered(observations)[j]
  {
    var fs := Ordered(observations);
    OrderedMembers(observations);
    NoRepeats(observations);
    hide Enumerates;
    forall i, j | 0 <= i < j < |fs| ensures fs[i] != fs[j] {
      RepeatCounts(fs, i, j);
    }
  }

  /** What the buffer's invariants say about the frames in analysis order. */
  lemma OrderedFacts(ctx: SessionContext, b: Buffer, observations: seq<Frame>)
    requires BufferInv(ctx, b) && Enumerates(observations, b.observations)
    ensures var fs := Ordered(observations);
      && |fs| <= MAX_TIMELINE && DistinctSequences(fs) && OffsetsAscend(fs)
      && (forall f :: f in fs ==> f.Valid() && Admissible(ctx, f))
  {
    var fs := Ordered(observations);
    OrderedMembers(observations);
    EnumerationSize(observations, b.observations);
    SequencesUnique(observations, b.observations, b.sequenceIndex);
    OrderedDistinct(observations, b.observations);
    FrameOrderTotal(multiset(observations));
    SortSorted(FrameLess, observations);
    SequencesApart(fs);
    OffsetsInOrder(fs, observations, b.observations);
  }

  lemma SequencesApart(fs: seq<Frame>)
    requires UniqueSequences(multiset(fs)) && forall i, j :: 0 <= i < j < |fs| ==> fs[i] != fs[j]
    ensures DistinctSequences(fs)
  {
    forall i, j | 0 <= i < j < |fs| ensures fs[i].sequence != fs[j].sequence {
      assert fs[i] in multiset(fs) && fs[j] in multiset(fs);
    }
  }

  lemma OffsetsInOrder(fs: seq<Frame>, observations: seq<Frame>, m: map<Key, Frame>)
    requires Enumerates(observations, m) && OffsetsForward(m)
    requires forall f :: f in fs ==> f in observations
    requires TotalOn(FrameLess, multiset(fs)) && Sorted(FrameLess, fs)
    requires forall i, j :: 0 <= i < j < |fs| ==> fs[i] != fs[j]
    ensures OffsetsAscend(fs)
  {
    forall i, j | 0 <= i < j < |fs| ensures fs[i].sessionOffset <= fs[j].sessionOffset {
      assert fs[i] in multiset(fs) && fs[j] in multiset(fs);
      assert fs[i] in observations && fs[j] in observations;
      assert FrameLess(fs[i], fs[j]);
      assert m[fs[i].FrameKey()] == fs[i] && m[fs[j].FrameKey()] == fs[j];
    }
  }

  lemma EnumerationSize(observations: seq<Frame>, m: map<Key, Frame>)
    requires Enumerates(observations, m)
    ensures |observations| == |m|
  {
    var keys := seq(|observations|, i requires 0 <= i < |observations| => observations[i].FrameKey());
    KeySetSize(keys);
    assert KeySet(keys) == m.Keys by {
      forall k | k in m ensures k in keys {
        var i :| 0 <= i < |observations| && observations[i] == m[k];
        assert keys[i] == m[k].FrameKey();
      }
    }
  }

  function KeySet(keys: seq<Key>): set<Key> {
    set k | k in keys
  }

  lemma {:induction false} KeySetSize(keys: seq<Key>)
    requires forall i, j :: 0 <= i < j < |keys| ==> keys[i] != keys[j]
    ensures |KeySet(keys)| == |keys|
  {
    if keys != [] {
      var init, last := keys[..|keys| - 1], keys[|keys| - 1];
      KeySetSize(init);
      assert keys == init + [last];
      assert KeySet(keys) == KeySet(init) + {last};
    }
  }

  /** Enrichment keeps order facts and adds only what approved AOIs say. */
  lemma EnrichedFacts(ordered: seq<Frame>, aoi: Option<Aoi.Metadata>)
    requires forall f :: f in ordered ==> f.Valid()
    requires OffsetsAscend(ordered)
    ensures OffsetsAscend(Enriched(ordered, aoi))
  {
    hide Frame.Valid, Aoi.MapFrame;
    forall i, j | 0 <= i < j < |ordered|
      ensures Enriched(ordered, aoi)[i].sessionOffset <= Enriched(ordered, aoi)[j].sessionOffset
    {
      assert ordered[i].sessionOffset <= ordered[j].sessionOffset;
    }
  }
}
