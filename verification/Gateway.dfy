/**
 `InProcessVisionGateway` (`vision_gateway/gateway.py`): one pending frame, one frame in flight, and a
 notice for every frame that was dropped instead of dispatched.
 */
module Gateway {
  import opened Common
  import opened Joiner

  datatype Handshake = Handshake(sessionId: string, videoId: string, mode: string)

  datatype Envelope = Envelope(sessionId: string, videoId: string, frameId: string)

  datatype Phase = New | Connected | Disconnected | CancelledPhase | ClosedPhase

  datatype DropReason = Superseded | DroppedByCancel | DroppedByDisconnect

  datatype DropNotice = DropNotice(frameId: string, reason: DropReason)

  datatype GatewayError = ClosedCannotConnect | HandshakeMismatch | NotConnected | EnvelopeMismatch

  /** What finally happened to an offered frame. */
  datatype Fate = Dispatched | Dropped(reason: DropReason)

  /** The notices of the frames that were dropped, in the order in which they were offered. */
  ghost function NoticesOf(offered: seq<Envelope>, fates: seq<Fate>): seq<DropNotice>
    requires |fates| <= |offered|
  {
    if fates == [] then []
    else
      var n := |fates| - 1;
      NoticesOf(offered, fates[..n])
      + if fates[n].Dropped? then [DropNotice(offered[n].frameId, fates[n].reason)] else []
  }

  lemma {:induction false} NoticesIgnoreLaterOffers(offered: seq<Envelope>, more: seq<Envelope>, fates: seq<Fate>)
    requires |fates| <= |offered|
    ensures NoticesOf(offered + more, fates) == NoticesOf(offered, fates)
  {
    if fates != [] {
      NoticesIgnoreLaterOffers(offered, more, fates[..|fates| - 1]);
    }
  }

  ghost function CountDispatched(fates: seq<Fate>): nat {
    if fates == [] then 0
    else CountDispatched(fates[..|fates| - 1]) + if fates[|fates| - 1].Dispatched? then 1 else 0
  }

  /** Every settled frame was dispatched or has its notice. */
  lemma {:induction false} NoticesCount(offered: seq<Envelope>, fates: seq<Fate>)
    requires |fates| <= |offered|
    ensures CountDispatched(fates) + |NoticesOf(offered, fates)| == |fates|
  {
    if fates != [] {
      NoticesCount(offered, fates[..|fates| - 1]);
    }
  }

  lemma NextFate(offered: seq<Envelope>, fates: seq<Fate>, f: Fate)
    requires |fates| < |offered|
    ensures NoticesOf(offered, fates + [f]) == NoticesOf(offered, fates)
            + if f.Dropped? then [DropNotice(offered[|fates|].frameId, f.reason)] else []
    ensures CountDispatched(fates + [f]) == CountDispatched(fates) + if f.Dispatched? then 1 else 0
  {
    assert (fates + [f])[..|fates|] == fates;
  }

  /** A pair matched by frame id that holds one of the two samples just pushed. */
  predicate PairsOneFrame(pair: Joined, gaze: Gaze, face: Face) {
    && pair.matchedBy == ByFrameId
    && pair.gaze.frameId == gaze.frameId && pair.face.frameId == face.frameId
    && (pair.gaze == gaze || pair.face == face)
  }

  /** Pushing both samples of one frame, in either order, pairs exactly once. */
  lemma OnePushPairs(tolerance: real, s: Samples, first: Event, p: Option<Joined>, t: Samples,
                     second: Event, q: Option<Joined>, u: Samples, gaze: Gaze, face: Face)
    requires s.Valid() && gaze.frameId == face.frameId
    requires Stepped(tolerance, s, first, p, t) && Stepped(tolerance, t, second, q, u)
    requires (first == PushedGaze(gaze) && second.PushedFace? && second.faceSample == face)
             || (first.PushedFace? && first.faceSample == face && second == PushedGaze(gaze))
    ensures p.Some? != q.Some?
    ensures PairsOneFrame(if q.Some? then q.value else p.value, gaze, face)
  {
  }

  class InProcessVisionGateway {
    var phase: Phase
    var handshake: Option<Handshake>
    var pending: Option<Envelope>
    var inFlight: bool
    var dropNotices: seq<DropNotice>
    const joiner: ObservationJoiner

    ghost var offered: seq<Envelope>
    ghost var fates: seq<Fate>
    ghost var releases: nat

    /**
     Frames are settled in the order in which they were offered. Only the last one can be unsettled, and
     then it is the pending one. The drop notices are exactly those of the dropped frames, and at most one
     dispatched frame has not been released.
     */
    ghost predicate Valid()
      reads this
    {
      && (pending.Some? ==> |offered| == |fates| + 1 && pending.value == offered[|fates|] && phase == Connected)
      && (pending.None? ==> |offered| == |fates|)
      && dropNotices == NoticesOf(offered, fates)
      && CountDispatched(fates) == releases + (if inFlight then 1 else 0)
      && (phase == Connected ==> handshake.Some?)
      && (pending.Some? ==> pending.value.sessionId == handshake.value.sessionId
                            && pending.value.videoId == handshake.value.videoId)
    }

    constructor ()
      ensures Valid() && offered == [] && phase == New && handshake.None? && fresh(joiner) && joiner.Valid()
      ensures joiner.gaze == map[] && joiner.face == map[]
    {
      phase, handshake, pending, inFlight, dropNotices := New, None, None, false, [];
      joiner := new ObservationJoiner(100.0);
      offered, fates, releases := [], [], 0;
    }

    /** What the source's counters say: offered = dispatched + drop notices + pending */
    lemma OfferedFramesBalance()
      requires Valid()
      ensures |offered| == CountDispatched(fates) + |dropNotices| + if pending.Some? then 1 else 0
      ensures |offered| == releases + |dropNotices| + (if pending.Some? then 1 else 0) + if inFlight then 1 else 0
    {
      NoticesCount(offered, fates);
    }

    method Connect(h: Handshake) returns (result: Result<(), GatewayError>)
      requires Valid()
      modifies this`phase, this`handshake
      ensures Valid()
      ensures result.Err? <==> old(phase).CancelledPhase? || old(phase).ClosedPhase? || old(handshake) !in {None, Some(h)}
      ensures result.Err? ==> phase == old(phase) && handshake == old(handshake)
      ensures result.Ok? ==> phase == Connected && handshake == Some(h)
    {
      if phase.CancelledPhase? || phase.ClosedPhase? {
        return Err(ClosedCannotConnect);
      }
      if handshake.Some? && (h.sessionId != handshake.value.sessionId || h.videoId != handshake.value.videoId
                             || h.mode != handshake.value.mode) {
        return Err(HandshakeMismatch);
      }
      if phase == Connected {
        return Ok(());
      }
      handshake := Some(h);
      phase := Connected;
      return Ok(());
    }

    /** `offer`: the newest frame replaces a pending one, which is reported as superseded. */
    method Offer(envelope: Envelope) returns (result: Result<Option<DropNotice>, GatewayError>)
      requires Valid()
      modifies this`pending, this`dropNotices, this`offered, this`fates
      ensures Valid()
      ensures result.Ok? <==> phase == Connected && envelope.sessionId == handshake.value.sessionId
                              && envelope.videoId == handshake.value.videoId
      ensures result.Err? ==> pending == old(pending) && dropNotices == old(dropNotices)
                              && offered == old(offered) && fates == old(fates)
      ensures result.Ok? ==> offered == old(offered) + [envelope] && pending == Some(envelope)
      ensures result.Ok? ==> fates == old(fates) + if old(pending).Some? then [Dropped(Superseded)] else []
      ensures result.Ok? ==> result.value == (if old(pending).Some?
                                              then Some(DropNotice(old(pending).value.frameId, Superseded)) else None)
    {
      hide NoticesOf, CountDispatched;
      if phase != Connected || handshake.None? {
        return Err(NotConnected);
      }
      if envelope.sessionId != handshake.value.sessionId || envelope.videoId != handshake.value.videoId {
        return Err(EnvelopeMismatch);
      }
      var dropped: Option<DropNotice> := None;
      if pending.Some? {
        dropped := Some(DropNotice(pending.value.frameId, Superseded));
        DropPending(Superseded);
      }
      NoticesIgnoreLaterOffers(offered, [envelope], fates);
      offered := offered + [envelope];
      pending := Some(envelope);
      return Ok(dropped);
    }

    /** The three places that append a notice and forget the pending frame */
    method DropPending(reason: DropReason)
      requires Valid() && pending.Some?
      modifies this`pending, this`dropNotices, this`fates
      ensures Valid() && pending.None?
      ensures fates == old(fates) + [Dropped(reason)]
      ensures dropNotices == old(dropNotices) + [DropNotice(old(pending).value.frameId, reason)]
    {
      hide NoticesOf, CountDispatched;
      NextFate(offered, fates, Dropped(reason));
      dropNotices := dropNotices + [DropNotice(pending.value.frameId, reason)];
      fates := fates + [Dropped(reason)];
      pending := None;
    }

    /** The locked first part of `dispatch_next`: at most one frame is taken in flight. */
    method BeginDispatch() returns (result: Result<Option<Envelope>, GatewayError>)
      requires Valid()
      modifies this`pending, this`inFlight, this`fates
      ensures Valid()
      ensures result.Err? <==> phase != Connected
      ensures result.Ok? && result.value.Some? <==> phase == Connected && !old(inFlight) && old(pending).Some?
      ensures result.Ok? && result.value.Some? ==>
        && result.value == old(pending) && pending.None? && inFlight && fates == old(fates) + [Dispatched]
      ensures !(result.Ok? && result.value.Some?) ==>
        pending == old(pending) && inFlight == old(inFlight) && fates == old(fates)
    {
      hide NoticesOf, CountDispatched;
      if phase != Connected {
        return Err(NotConnected);
      }
      if inFlight || pending.None? {
        return Ok(None);
      }
      NextFate(offered, fates, Dispatched);
      fates := fates + [Dispatched];
      var envelope := pending;
      pending, inFlight := None, true;
      return Ok(envelope);
    }

    /**
     Joining the two results of the dispatched frame. When both carry that frame's id, the pair is always
     one matched by frame id: the capture-time fallback is not reached.
     */
    method Deliver(gaze: Gaze, face: Face, latencyMs: real, eyeFirst: bool) returns (joined: Option<Joined>)
      requires joiner.Valid()
      modifies joiner
      ensures joiner.Valid()
      ensures gaze.frameId == face.frameId ==> joined.Some? && PairsOneFrame(joined.value, gaze, face)
    {
      hide Stepped, Samples.Valid;
      var other: Option<Joined>;
      ghost var before := Samples(joiner.gaze, joiner.face);
      if eyeFirst {
        other := joiner.PushGaze(gaze);
        ghost var between := Samples(joiner.gaze, joiner.face);
        joined := joiner.PushFace(face, latencyMs);
        if gaze.frameId == face.frameId {
          OnePushPairs(joiner.toleranceMs, before, PushedGaze(gaze), other, between,
                       PushedFace(face, latencyMs), joined, Samples(joiner.gaze, joiner.face), gaze, face);
        }
      } else {
        other := joiner.PushFace(face, latencyMs);
        ghost var between := Samples(joiner.gaze, joiner.face);
        joined := joiner.PushGaze(gaze);
        if gaze.frameId == face.frameId {
          OnePushPairs(joiner.toleranceMs, before, PushedFace(face, latencyMs), other, between,
                       PushedGaze(gaze), joined, Samples(joiner.gaze, joiner.face), gaze, face);
        }
      }
      if joined.None? {
        joined := other;
      }
      if joined.None? {
        joined := joiner.FlushNearest();
      }
    }

    /** `_release_in_flight`, called once for every dispatched frame when its adapter call has ended */
    method ReleaseInFlight()
      requires Valid() && inFlight
      modifies this`inFlight, this`releases
      ensures Valid() && !inFlight && releases == old(releases) + 1
    {
      hide NoticesOf, CountDispatched;
      inFlight := false;
      releases := releases + 1;
    }

    method Disconnect()
      requires Valid() && joiner.Valid()
      modifies this`pending, this`dropNotices, this`fates, this`phase, joiner
      ensures Valid() && joiner.Valid() && phase == Disconnected && pending.None?
      ensures joiner.gaze == map[] && joiner.face == map[]
      ensures fates == old(fates) + if old(pending).Some? then [Dropped(DroppedByDisconnect)] else []
    {
      hide NoticesOf, CountDispatched;
      if pending.Some? {
        DropPending(DroppedByDisconnect);
      }
      joiner.Clear();
      phase := Disconnected;
    }

    /** `_finish`, behind both `cancel` and `close` */
    method Finish(target: Phase)
      requires Valid() && joiner.Valid() && (target == CancelledPhase || target == ClosedPhase)
      modifies this`pending, this`dropNotices, this`fates, this`phase, joiner
      ensures Valid() && joiner.Valid() && phase == target && pending.None?
      ensures old(phase) != target ==> joiner.gaze == map[] && joiner.face == map[]
      ensures fates == old(fates) + if old(pending).Some? then [Dropped(DroppedByCancel)] else []
    {
      hide NoticesOf, CountDispatched;
      if phase == target {
        return;
      }
      if pending.Some? {
        DropPending(DroppedByCancel);
      }
      joiner.Clear();
      phase := target;
    }
  }
}
