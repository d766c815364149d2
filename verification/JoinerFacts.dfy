/**
 What a whole life of the joiner guarantees: no sample is handed out more often than it was pushed,
 and flushing until nothing matches is a stable matching of what was stored.
 */
module JoinerFacts {
  import opened Common
  import opened Joiner

  datatype Moment = Moment(event: Event, pair: Option<Joined>, after: Samples)

  /** A history of calls on one joiner, starting from the stored samples `s`. */
  ghost predicate History(tolerance: real, s: Samples, h: seq<Moment>) {
    forall i {:trigger h[i]} :: 0 <= i < |h| ==>
      Stepped(tolerance, if i == 0 then s else h[i - 1].after, h[i].event, h[i].pair, h[i].after)
  }

  function Last(s: Samples, h: seq<Moment>): Samples {
    if h == [] then s else h[|h| - 1].after
  }

  /** How often a sample came in, and how often it left inside a pair. */
  function GazesIn(h: seq<Moment>, g: Gaze): nat {
    if h == [] then 0
    else GazesIn(h[..|h| - 1], g) + if h[|h| - 1].event == PushedGaze(g) then 1 else 0
  }

  function GazesOut(h: seq<Moment>, g: Gaze): nat {
    if h == [] then 0
    else
      var pair := h[|h| - 1].pair;
      GazesOut(h[..|h| - 1], g) + if pair.Some? && pair.value.gaze == g then 1 else 0
  }

  predicate PushesFace(e: Event, f: Face) {
    e.PushedFace? && e.faceSample == f
  }

  function FacesIn(h: seq<Moment>, f: Face): nat {
    if h == [] then 0
    else FacesIn(h[..|h| - 1], f) + if PushesFace(h[|h| - 1].event, f) then 1 else 0
  }

  function FacesOut(h: seq<Moment>, f: Face): nat {
    if h == [] then 0
    else
      var pair := h[|h| - 1].pair;
      FacesOut(h[..|h| - 1], f) + if pair.Some? && pair.value.face == f then 1 else 0
  }

  function GazeHeld(s: Samples, g: Gaze): nat {
    if g.frameId in s.gaze && s.gaze[g.frameId] == g then 1 else 0
  }

  function FaceHeld(s: Samples, f: Face): nat {
    if f.frameId in s.face && s.face[f.frameId].sample == f then 1 else 0
  }

  lemma StepKeepsValid(tolerance: real, s: Samples, e: Event, pair: Option<Joined>, t: Samples)
    requires s.Valid() && Stepped(tolerance, s, e, pair, t)
    ensures t.Valid()
  {
  }

  lemma {:induction false} HistoryKeepsValid(tolerance: real, s: Samples, h: seq<Moment>)
    requires s.Valid() && History(tolerance, s, h)
    ensures Last(s, h).Valid()
  {
    if h != [] {
      var n := |h| - 1;
      HistoryKeepsValid(tolerance, s, h[..n]);
      StepKeepsValid(tolerance, Last(s, h[..n]), h[n].event, h[n].pair, h[n].after);
    }
  }

  /**
   No stored sample enters two pairs: starting empty, a sample left in a pair or is still stored at most
   as often as it was pushed.
   */
  lemma {:induction false} NoSampleTwice(tolerance: real, s: Samples, h: seq<Moment>, g: Gaze, f: Face)
    requires s.Valid() && History(tolerance, s, h)
    ensures GazesOut(h, g) + GazeHeld(Last(s, h), g) <= GazesIn(h, g) + GazeHeld(s, g)
    ensures FacesOut(h, f) + FaceHeld(Last(s, h), f) <= FacesIn(h, f) + FaceHeld(s, f)
  {
    if h != [] {
      var n := |h| - 1;
      HistoryKeepsValid(tolerance, s, h[..n]);
      NoSampleTwice(tolerance, s, h[..n], g, f);
      StepBalances(tolerance, Last(s, h[..n]), h[n].event, h[n].pair, h[n].after, g, f);
    }
  }

  lemma StepBalances(tolerance: real, s: Samples, e: Event, pair: Option<Joined>, t: Samples, g: Gaze, f: Face)
    requires s.Valid() && Stepped(tolerance, s, e, pair, t)
    ensures GazeHeld(t, g) + (if pair.Some? && pair.value.gaze == g then 1 else 0)
            <= GazeHeld(s, g) + if e == PushedGaze(g) then 1 else 0
    ensures FaceHeld(t, f) + (if pair.Some? && pair.value.face == f then 1 else 0)
            <= FaceHeld(s, f) + if PushesFace(e, f) then 1 else 0
  {
  }

  /** Only flushes that found a pair. */
  ghost predicate Flushes(h: seq<Moment>) {
    forall i {:trigger h[i]} :: 0 <= i < |h| ==> h[i].event == Flush && h[i].pair.Some?
  }

  /** The pair of a flush took the gaze or the face that `a`, `b` would have used, and was no worse. */
  ghost predicate Blocks(s: Samples, pair: Joined, a: string, b: string)
    requires a in s.gaze && b in s.face
  {
    && (pair.gaze.frameId == a || pair.face.frameId == b)
    && Gap(pair.gaze, pair.face) <= Gap(s.gaze[a], s.face[b].sample)
  }

  /** Every successful flush uses up one gaze and one face, so flushing ends. */
  lemma {:induction false} FlushingEnds(tolerance: real, s: Samples, h: seq<Moment>)
    requires s.Valid() && History(tolerance, s, h) && Flushes(h)
    ensures |Last(s, h).gaze| + |h| == |s.gaze| && |Last(s, h).face| + |h| == |s.face|
    ensures Last(s, h).gaze.Keys <= s.gaze.Keys && Last(s, h).face.Keys <= s.face.Keys
  {
    if h != [] {
      var n := |h| - 1;
      FlushingEnds(tolerance, s, h[..n]);
      HistoryKeepsValid(tolerance, s, h[..n]);
      FlushUsesOneOfEach(tolerance, Last(s, h[..n]), h[n].pair.value, h[n].after);
    }
  }

  lemma FlushUsesOneOfEach(tolerance: real, s: Samples, pair: Joined, t: Samples)
    requires s.Valid() && Stepped(tolerance, s, Flush, Some(pair), t)
    ensures |t.gaze| + 1 == |s.gaze| && |t.face| + 1 == |s.face|
    ensures t.gaze.Keys <= s.gaze.Keys && t.face.Keys <= s.face.Keys
  {
    var gk, fk := pair.gaze.frameId, pair.face.frameId;
    assert t.gaze.Keys == s.gaze.Keys - {gk};
    assert t.face.Keys == s.face.Keys - {fk};
    assert |t.gaze| == |t.gaze.Keys| && |s.gaze| == |s.gaze.Keys|;
    assert |t.face| == |t.face.Keys| && |s.face| == |s.face.Keys|;
  }

  /** After one flush a pair that was eligible is still eligible, or the flush blocks it. */
  lemma EligibleOrBlocked(tolerance: real, s: Samples, pair: Joined, t: Samples, a: string, b: string)
    requires s.Valid() && Stepped(tolerance, s, Flush, Some(pair), t)
    requires EligiblePair(tolerance, s.gaze, s.face, a, b)
    ensures Blocks(s, pair, a, b)
            || (EligiblePair(tolerance, t.gaze, t.face, a, b)
                && t.gaze[a] == s.gaze[a] && t.face[b] == s.face[b])
    ensures Gap(pair.gaze, pair.face) <= Gap(s.gaze[a], s.face[b].sample)
  {
  }

  /**
   Flushing until no pair is left is a stable matching: for every pair that was eligible at the start,
   some flush took one of its two samples for a pair that was at least as close.
   */
  lemma {:induction false} FlushedMatchingIsStable(tolerance: real, s: Samples, h: seq<Moment>, a: string, b: string)
    requires s.Valid() && History(tolerance, s, h) && Flushes(h)
    requires forall x, y :: !EligiblePair(tolerance, Last(s, h).gaze, Last(s, h).face, x, y)
    requires EligiblePair(tolerance, s.gaze, s.face, a, b)
    ensures exists i :: 0 <= i < |h| && Blocks(s, h[i].pair.value, a, b)
    decreases |h|
  {
    hide Stepped, Gap;
    assert h != [] by { assert h == [] ==> Last(s, h) == s; }
    {
      var after := h[0].after;
      assert Stepped(tolerance, s, h[0].event, h[0].pair, after);
      EligibleOrBlocked(tolerance, s, h[0].pair.value, after, a, b);
      if Blocks(s, h[0].pair.value, a, b) {
        return;
      }
      StepKeepsValid(tolerance, s, h[0].event, h[0].pair, after);
      TailIsHistory(tolerance, s, h);
      assert Last(after, h[1..]) == Last(s, h);
      FlushedMatchingIsStable(tolerance, after, h[1..], a, b);
      var i :| 0 <= i < |h[1..]| && Blocks(after, h[1..][i].pair.value, a, b);
      assert Blocks(s, h[i + 1].pair.value, a, b);
    }
  }

  lemma TailIsHistory(tolerance: real, s: Samples, h: seq<Moment>)
    requires h != [] && History(tolerance, s, h)
    ensures History(tolerance, h[0].after, h[1..])
  {
    forall i {:trigger h[1..][i]} | 0 <= i < |h[1..]|
      ensures Stepped(tolerance, if i == 0 then h[0].after else h[1..][i - 1].after,
                      h[1..][i].event, h[1..][i].pair, h[1..][i].after)
    {
      assert h[1..][i] == h[i + 1];
    }
  }

  /** Successive flushes hand out pairs in order of their gap. */
  lemma {:induction false} GapsNeverShrink(tolerance: real, s: Samples, h: seq<Moment>, i: nat, j: nat)
    requires s.Valid() && History(tolerance, s, h) && Flushes(h) && i <= j < |h|
    ensures Gap(h[i].pair.value.gaze, h[i].pair.value.face) <= Gap(h[j].pair.value.gaze, h[j].pair.value.face)
    decreases j
  {
    hide Stepped, Gap;
    if i < j {
      GapsNeverShrink(tolerance, s, h, i, j - 1);
      var before := Last(s, h[..j - 1]);
      HistoryKeepsValid(tolerance, s, h[..j - 1]);
      assert History(tolerance, s, h[..j - 1]);
      assert before == if j == 1 then s else h[j - 2].after;
      assert Stepped(tolerance, before, h[j - 1].event, h[j - 1].pair, h[j - 1].after);
      assert Stepped(tolerance, h[j - 1].after, h[j].event, h[j].pair, h[j].after);
      NextGapIsNoSmaller(tolerance, before, h[j - 1].pair.value, h[j - 1].after, h[j].pair.value, h[j].after);
    }
  }

  lemma NextGapIsNoSmaller(tolerance: real, s: Samples, p: Joined, t: Samples, q: Joined, u: Samples)
    requires s.Valid() && Stepped(tolerance, s, Flush, Some(p), t) && Stepped(tolerance, t, Flush, Some(q), u)
    ensures Gap(p.gaze, p.face) <= Gap(q.gaze, q.face)
  {
    var a, b := q.gaze.frameId, q.face.frameId;
    assert EligiblePair(tolerance, t.gaze, t.face, a, b);
    assert EligiblePair(tolerance, s.gaze, s.face, a, b);
    EligibleOrBlocked(tolerance, s, p, t, a, b);
  }
}
