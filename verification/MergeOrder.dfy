/**
 When order does not matter for the submissions of one frame: `_merge_observation` is a partial operation,
 and a collection of submissions merges in every order exactly if each two of them merge.
 */
module MergeOrder {
  import opened Common
  import opened Observations
  import opened Ingestion
  import C = Confluence

  /** The store's merges of one frame's submissions, in the order in which they come. */
  function MergeAll(os: seq<Frame>): Result<Frame, ErrorCode>
    requires os != []
  {
    if |os| == 1 then Ok(os[0])
    else
      var before := MergeAll(os[..|os| - 1]);
      if before.Err? then before
      else
        var merged := Merge(before.value, os[|os| - 1]);
        if merged.Err? then Err(merged.error) else Ok(merged.value.0)
  }

  predicate Merges(os: seq<Frame>) {
    os != [] && MergeAll(os).Ok?
  }

  predicate AllValid(os: seq<Frame>) {
    forall o :: o in os ==> o.Valid()
  }

  ghost predicate AnyTwoMerge(os: seq<Frame>) {
    forall a, b :: a in os && b in os ==> Merge(a, b).Ok?
  }

  // ----- If each two merge, all merge -----

  /** Each modality of the frame was submitted. */
  ghost predicate Mixed(f: Frame, os: seq<Frame>) {
    && (exists o :: o in os && o.gaze == f.gaze) && (exists o :: o in os && o.expression == f.expression)
    && (exists o :: o in os && o.attention == f.attention) && (exists o :: o in os && o.derived == f.derived)
  }

  ghost predicate Above(f: Frame, os: seq<Frame>) {
    forall o :: o in os ==> FrameLeq(o, f)
  }

  lemma MixMerges(v: Frame, os: seq<Frame>, last: Frame)
    requires v.Valid() && last.Valid() && AllValid(os) && Mixed(v, os) && Above(v, os)
    requires forall o :: o in os ==> Merge(o, last).Ok?
    ensures Merge(v, last).Ok?
  {
    hide Merge, ModalityLeq, Frame.Valid;
    forall o | o in os
      ensures SameContext(v, last) && (o.gaze == v.gaze ==> Comparable(v.gaze, last.gaze))
      ensures o.expression == v.expression ==> Comparable(v.expression, last.expression)
      ensures o.attention == v.attention ==> Comparable(v.attention, last.attention)
      ensures o.derived == v.derived ==> Comparable(v.derived, last.derived)
    {
      MergeDefined(o, last);
    }
    MergeDefined(v, last);
  }

  predicate Comparable<V(==)>(a: Modality<V>, b: Modality<V>) {
    ModalityLeq(a, b) || ModalityLeq(b, a)
  }

  /** The merge of all is the join of all: above each submission, and made of them. */
  lemma {:induction false} PairwiseIsEnough(os: seq<Frame>)
    requires os != [] && AllValid(os) && AnyTwoMerge(os)
    ensures MergeAll(os).Ok? && MergeAll(os).value.Valid()
    ensures Mixed(MergeAll(os).value, os) && Above(MergeAll(os).value, os)
  {
    hide Merge, Frame.Valid, Mixed, Above, FrameLeq;
    var n := |os| - 1;
    if n == 0 {
      OneIsItsOwnJoin(os);
    } else {
      var init, last := os[..n], os[n];
      assert os == init + [last];
      PairwiseIsEnough(init);
      var v := MergeAll(init).value;
      MixMerges(v, init, last);
      JoinGrows(v, init, last);
    }
  }

  lemma OneIsItsOwnJoin(os: seq<Frame>)
    requires |os| == 1
    ensures Mixed(os[0], os) && Above(os[0], os)
  {
    assert os[0] in os;
  }

  lemma JoinGrows(v: Frame, os: seq<Frame>, last: Frame)
    requires v.Valid() && last.Valid() && Mixed(v, os) && Above(v, os) && Merge(v, last).Ok?
    ensures var m := Merge(v, last).value.0; m.Valid() && Mixed(m, os + [last]) && Above(m, os + [last])
  {
    hide Merge, Frame.Valid, FrameLeq;
    MergeIsJoin(v, last);
    var m, more := Merge(v, last).value.0, os + [last];
    assert last in more;
    assert forall o :: o in os ==> o in more;
    forall o | o in more ensures FrameLeq(o, m) {
      if o in os {
        C.LeqTransitive(o, v, m);
      }
    }
  }

  /** There is one join, so the order does not show in the result either. */
  lemma JoinIsUnique(f: Frame, g: Frame, os: seq<Frame>, ps: seq<Frame>)
    requires os != [] && Mixed(f, os) && Above(f, os) && Mixed(g, ps) && Above(g, ps)
    requires forall o :: o in os <==> o in ps
    ensures f == g
  {
    assert os[0] in os;
    assert FrameLeq(os[0], f) && FrameLeq(os[0], g);
  }

  // ----- If two do not merge, some order fails -----

  lemma {:induction false} FailureStays(os: seq<Frame>, more: seq<Frame>)
    requires os != [] && MergeAll(os).Err?
    ensures MergeAll(os + more).Err?
    decreases |more|
  {
    hide Merge;
    if more == [] {
      assert os + more == os;
    } else {
      var n := |more| - 1;
      FailureStays(os, more[..n]);
      assert (os + more)[..|os + more| - 1] == os + more[..n];
    }
  }

  /** An element can be taken out. */
  lemma TakenOut(os: seq<Frame>, a: Frame) returns (rest: seq<Frame>)
    requires a in os
    ensures multiset([a] + rest) == multiset(os)
    ensures forall b :: b in os && b != a ==> b in rest
  {
    var i :| 0 <= i < |os| && os[i] == a;
    rest := os[..i] + os[i + 1..];
    assert os == os[..i] + ([a] + os[i + 1..]);
    assert multiset(os) == multiset(os[..i]) + multiset([a] + os[i + 1..]);
  }

  /** Two elements can be moved to the front. */
  lemma Fronted(os: seq<Frame>, a: Frame, b: Frame) returns (rest: seq<Frame>)
    requires a in os && b in os && a != b
    ensures multiset([a, b] + rest) == multiset(os)
  {
    var r := TakenOut(os, a);
    rest := TakenOut(r, b);
    assert [a, b] + rest == [a] + ([b] + rest);
    assert multiset([a] + ([b] + rest)) == multiset([a]) + multiset([b] + rest) == multiset([a]) + multiset(r);
  }

  lemma SelfMerges(a: Frame)
    requires a.Valid()
    ensures Merge(a, a).Ok?
  {
  }

  lemma SomeOrderFails(os: seq<Frame>, a: Frame, b: Frame) returns (p: seq<Frame>)
    requires AllValid(os) && a in os && b in os && Merge(a, b).Err?
    ensures multiset(p) == multiset(os) && !Merges(p)
  {
    hide Merge, Frame.Valid;
    if a == b {
      SelfMerges(a);
    }
    var rest := Fronted(os, a, b);
    p := [a, b] + rest;
    assert [a, b][..1] == [a];
    FailureStays([a, b], rest);
  }

  // ----- Exactly -----

  lemma SameElements(os: seq<Frame>, p: seq<Frame>)
    requires multiset(p) == multiset(os)
    ensures |p| == |os| && forall o :: o in p <==> o in os
  {
    assert |multiset(p)| == |p| && |multiset(os)| == |os|;
    forall o ensures o in p <==> o in os {
      assert o in p <==> o in multiset(p);
      assert o in os <==> o in multiset(os);
    }
  }

  /** Valid submissions of a frame merge in every order if and only if each two of them merge. */
  lemma MergesInEveryOrder(os: seq<Frame>)
    requires os != [] && AllValid(os)
    ensures (forall p: seq<Frame> :: multiset(p) == multiset(os) ==> Merges(p)) <==> AnyTwoMerge(os)
  {
    hide Merge, Frame.Valid, MergeAll, Mixed, Above;
    if AnyTwoMerge(os) {
      forall p: seq<Frame> | multiset(p) == multiset(os) ensures Merges(p) {
        SameElements(os, p);
        PairwiseIsEnough(p);
      }
    } else {
      var a, b :| a in os && b in os && !Merge(a, b).Ok?;
      var p := SomeOrderFails(os, a, b);
    }
  }

  /** And then every order gives the same frame. */
  lemma EveryOrderAgrees(os: seq<Frame>, p: seq<Frame>)
    requires os != [] && AllValid(os) && AnyTwoMerge(os) && multiset(p) == multiset(os)
    ensures Merges(os) && Merges(p) && MergeAll(p) == MergeAll(os)
  {
    hide Merge, Frame.Valid, MergeAll, Mixed, Above;
    SameElements(os, p);
    PairwiseIsEnough(os);
    PairwiseIsEnough(p);
    JoinIsUnique(MergeAll(os).value, MergeAll(p).value, os, p);
  }

  // ----- What the store does with them -----

  /** Admission takes submissions of one new frame exactly as far as they merge, and stores their merge. */
  lemma {:induction false} AdmittedAsMerged(d: Draft, os: seq<Frame>)
    requires os != [] && forall o :: o in os ==> o.FrameKey() == os[0].FrameKey()
    requires os[0].FrameKey() !in d.observations && os[0].epoch >= d.highestEpoch
    requires |d.observations| < MAX_BUFFERED_OBSERVATIONS && forall o :: o in os ==> o.sequence !in d.sequenceIndex
    ensures AdmitAll(d, os).Ok? <==> Merges(os)
    ensures Merges(os) ==>
      && AdmitAll(d, os).value.0.observations == d.observations[os[0].FrameKey() := MergeAll(os).value]
      && AdmitAll(d, os).value.0.sequenceIndex == d.sequenceIndex[os[0].sequence := os[0].FrameKey()]
  {
    hide Merge;
    var n := |os| - 1;
    if n == 0 {
      FirstAdmitted(d, os);
    } else {
      var init := os[..n];
      assert init[0] == os[0];
      AdmittedAsMerged(d, init);
      NextMerged(d, os);
    }
  }

  lemma FirstAdmitted(d: Draft, os: seq<Frame>)
    requires |os| == 1 && os[0].FrameKey() !in d.observations && os[0].epoch >= d.highestEpoch
    requires |d.observations| < MAX_BUFFERED_OBSERVATIONS && os[0].sequence !in d.sequenceIndex
    ensures AdmitAll(d, os).Ok? && AdmitAll(d, os).value.0.observations == d.observations[os[0].FrameKey() := os[0]]
    ensures AdmitAll(d, os).value.0.sequenceIndex == d.sequenceIndex[os[0].sequence := os[0].FrameKey()]
  {
    hide Merge;
    assert os[..0] == [];
    assert AdmitAll(d, os[..0]) == Ok((d, false));
  }

  lemma NextMerged(d: Draft, os: seq<Frame>)
    requires |os| > 1 && os[|os| - 1].FrameKey() == os[0].FrameKey() && os[|os| - 1].sequence !in d.sequenceIndex
    requires var init := os[..|os| - 1];
      && (AdmitAll(d, init).Ok? <==> Merges(init))
      && (Merges(init) ==>
        && AdmitAll(d, init).value.0.observations == d.observations[os[0].FrameKey() := MergeAll(init).value]
        && AdmitAll(d, init).value.0.sequenceIndex == d.sequenceIndex[os[0].sequence := os[0].FrameKey()])
    ensures AdmitAll(d, os).Ok? <==> Merges(os)
    ensures Merges(os) ==>
      && AdmitAll(d, os).value.0.observations == d.observations[os[0].FrameKey() := MergeAll(os).value]
      && AdmitAll(d, os).value.0.sequenceIndex == d.sequenceIndex[os[0].sequence := os[0].FrameKey()]
  {
    hide Merge;
  }
}
