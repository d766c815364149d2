/**
 Admission of frames to one vision stream (`vision_gateway/server.py`): the bounded duplicate ring, the
 checks on every frame in their order, and the one-frame-in-flight loop.
 */
module StreamAdmission {
  import opened Common

  const RING_SIZE := 512
  const CALIBRATION_MAX_FPS := 20.0

  datatype FrameContext = FrameContext(sessionId: string, videoId: string, frameId: string, sequence: nat,
                                       capturedAt: real, videoTime: nat, epoch: nat)

  datatype FrameKey = FrameKey(epoch: nat, frameId: string)

  function KeyOf(c: FrameContext): FrameKey {
    FrameKey(c.epoch, c.frameId)
  }

  /** One accepted frame, when it was accepted, and the frame rate in force then. */
  datatype Entry = Entry(context: FrameContext, at: real, rate: real)

  datatype DropReason = DuplicateFrame | StaleEpoch | OutOfOrder | InFlight | FpsLimited | SessionClosing

  // ----- What a history of accepted frames looks like -----

  function Keys(h: seq<Entry>): seq<FrameKey> {
    seq(|h|, i requires 0 <= i < |h| => KeyOf(h[i].context))
  }

  /** The last 512 accepted keys, oldest first. */
  function Ring(h: seq<Entry>): seq<FrameKey> {
    if |h| <= RING_SIZE then Keys(h) else Keys(h[|h| - RING_SIZE..])
  }

  function FramePeriod(rate: real): real
    requires rate > 0.0
  {
    1.0 / rate
  }

  /** Sequences strictly increase, epochs never decrease, and accepts are a frame time apart. */
  ghost predicate Ordered(h: seq<Entry>) {
    && (forall i :: 0 <= i < |h| ==> h[i].rate > 0.0)
    && (forall i :: 0 < i < |h| ==>
      && h[i - 1].context.sequence < h[i].context.sequence
      && h[i - 1].context.epoch <= h[i].context.epoch
      && h[i].at - h[i - 1].at >= FramePeriod(h[i].rate))
  }

  lemma {:induction false} SequencesIncrease(h: seq<Entry>, i: nat, k: nat)
    requires Ordered(h) && i < k < |h|
    ensures h[i].context.sequence < h[k].context.sequence && h[i].context.epoch <= h[k].context.epoch
    decreases k
  {
    if i < k - 1 {
      SequencesIncrease(h, i, k - 1);
    }
  }

  /** No frame context is accepted twice, however long ago its key left the ring. */
  lemma NeverTwice(h: seq<Entry>)
    requires Ordered(h)
    ensures forall i, k :: 0 <= i < k < |h| ==> h[i].context != h[k].context
  {
    forall i, k | 0 <= i < k < |h| ensures h[i].context != h[k].context {
      SequencesIncrease(h, i, k);
    }
  }

  lemma FrameTime(rate: real, limit: real)
    requires 0.0 < rate <= limit
    ensures 1.0 / rate >= 1.0 / limit
  {
    if 1.0 / rate < 1.0 / limit {
      Reciprocal(rate);
      Reciprocal(limit);
      Product(1.0 / rate, 1.0 / limit, rate);
      Product(rate, limit, 1.0 / limit);
    }
  }

  lemma Reciprocal(x: real)
    requires x > 0.0
    ensures 1.0 / x > 0.0 && (1.0 / x) * x == 1.0
  {
  }

  lemma Product(a: real, b: real, c: real)
    requires c > 0.0
    ensures a < b ==> a * c < b * c
    ensures a <= b ==> a * c <= b * c
  {
  }

  lemma {:induction false} Spacing(h: seq<Entry>, i: nat, k: nat, limit: real)
    requires Ordered(h) && i <= k < |h|
    requires forall n :: i < n <= k ==> h[n].rate <= limit
    requires limit > 0.0
    ensures h[k].at - h[i].at >= (k - i) as real * (1.0 / limit)
    decreases k
  {
    if i < k {
      Spacing(h, i, k - 1, limit);
      FrameTime(h[k].rate, limit);
      assert (k - i) as real * (1.0 / limit) == (k - 1 - i) as real * (1.0 / limit) + 1.0 / limit;
    }
  }

  /**
   In any interval of length `span`, at most `span * limit + 1` frames are accepted, for the largest rate
   in force.
   */
  lemma RateBound(h: seq<Entry>, i: nat, k: nat, span: real, limit: real)
    requires Ordered(h) && i <= k < |h| && limit > 0.0
    requires forall n :: i <= n <= k ==> h[n].rate <= limit
    requires h[k].at - h[i].at <= span
    ensures (k - i + 1) as real <= span * limit + 1.0
  {
    hide Ordered;
    Spacing(h, i, k, limit);
    Reciprocal(limit);
    Scaled((k - i) as real, span, limit, 1.0 / limit);
  }

  lemma Scaled(count: real, span: real, limit: real, inverse: real)
    requires limit > 0.0 && inverse * limit == 1.0 && count * inverse <= span
    ensures count <= span * limit
  {
    Product(count * inverse, span, limit);
    assert count * inverse * limit == count * (inverse * limit);
  }

  lemma OrderedExtends(h: seq<Entry>, e: Entry)
    requires Ordered(h) && e.rate > 0.0
    requires h != [] ==>
      && h[|h| - 1].context.sequence < e.context.sequence && h[|h| - 1].context.epoch <= e.context.epoch
      && e.at - h[|h| - 1].at >= FramePeriod(e.rate)
    ensures Ordered(h + [e])
  {
    hide FramePeriod;
    var all := h + [e];
    assert forall i :: 0 <= i < |h| ==> all[i] == h[i];
  }

  /** The set and the deque agree, and the deque repeats nothing. */
  ghost predicate Agree(order: seq<FrameKey>, keys: set<FrameKey>) {
    && (forall key :: key in keys <==> key in order)
    && (forall i, k :: 0 <= i < k < |order| ==> order[i] != order[k])
  }

  lemma AgreeAppend(order: seq<FrameKey>, keys: set<FrameKey>, key: FrameKey)
    requires Agree(order, keys) && key !in keys
    ensures Agree(order + [key], keys + {key})
  {
    var all := order + [key];
    forall i, k | 0 <= i < k < |all| ensures all[i] != all[k] {
      assert all[i] in order;
    }
  }

  lemma AgreeDrop(order: seq<FrameKey>, keys: set<FrameKey>)
    requires Agree(order, keys) && order != []
    ensures Agree(order[1..], keys - {order[0]})
  {
    assert order == [order[0]] + order[1..];
    forall key ensures key in keys - {order[0]} <==> key in order[1..] {
      if key in order[1..] {
        var i :| 0 <= i < |order[1..]| && order[1..][i] == key;
        assert order[i + 1] == key;
      }
    }
  }

  lemma RingGrows(h: seq<Entry>, e: Entry)
    ensures Ring(h + [e]) ==
      (if |h| >= RING_SIZE then Ring(h)[1..] else Ring(h)) + [KeyOf(e.context)]
    ensures |Ring(h)| == if |h| <= RING_SIZE then |h| else RING_SIZE
  {
    var g := h + [e];
    if |h| >= RING_SIZE {
      assert g[|g| - RING_SIZE..] == h[|h| - RING_SIZE + 1..] + [e];
      assert |h| == RING_SIZE ==> h[|h| - RING_SIZE..] == h;
    }
  }

  // ----- The state object -----

  class StreamState {
    var maxFps: real
    var inferenceStarted: bool
    var calibrationStarted: bool
    var currentEpoch: Option<nat>
    var lastSequence: int
    var lastReceivedAt: Option<real>
    var frameKeys: set<FrameKey>
    var frameOrder: seq<FrameKey>
    var pendingTasks: set<nat>
    /** Every frame accepted so far. */
    ghost var history: seq<Entry>

    constructor (maxFps: real)
      requires maxFps > 0.0
      ensures Valid() && history == [] && this.maxFps == maxFps && !inferenceStarted && !calibrationStarted
      ensures pendingTasks == {}
    {
      this.maxFps, inferenceStarted, calibrationStarted := maxFps, false, false;
      currentEpoch, lastSequence, lastReceivedAt := None, -1, None;
      frameKeys, frameOrder, pendingTasks, history := {}, [], {}, [];
    }

    /** The deque holds exactly the last 512 accepted keys, and the set agrees with it. */
    ghost predicate Valid()
      reads this
    {
      && maxFps > 0.0 && Ordered(history)
      && frameOrder == Ring(history)
      && Agree(frameOrder, frameKeys)
      && (if history == [] then currentEpoch.None? && lastSequence == -1 && lastReceivedAt.None?
          else
            var last := history[|history| - 1];
            currentEpoch == Some(last.context.epoch) && lastSequence == last.context.sequence
            && lastReceivedAt == Some(last.at))
    }

    /** `rejection_reason` */
    function RejectionReason(c: FrameContext): (r: Option<DropReason>)
      requires Valid()
      reads this
      ensures r.None? <==>
        && KeyOf(c) !in Ring(history)
        && (history != [] ==>
          && history[|history| - 1].context.epoch <= c.epoch
          && history[|history| - 1].context.sequence < c.sequence)
    {
      if KeyOf(c) in frameKeys then Some(DuplicateFrame)
      else if currentEpoch.Some? && c.epoch < currentEpoch.value then Some(StaleEpoch)
      else if c.sequence <= lastSequence then Some(OutOfOrder)
      else None
    }

    /** `rate_rejection_reason` */
    function RateRejectionReason(now: real): (r: Option<DropReason>)
      requires Valid()
      reads this
      ensures r.None? <==> history == [] || now - history[|history| - 1].at >= FramePeriod(maxFps)
    {
      if lastReceivedAt.Some? && now - lastReceivedAt.value < FramePeriod(maxFps) then Some(FpsLimited) else None
    }

    /** `accept` */
    method Accept(c: FrameContext, now: real)
      requires Valid() && RejectionReason(c).None? && RateRejectionReason(now).None?
      modifies this
      ensures Valid() && history == old(history) + [Entry(c, now, maxFps)]
      ensures maxFps == old(maxFps) && inferenceStarted == old(inferenceStarted)
      ensures calibrationStarted == old(calibrationStarted) && pendingTasks == old(pendingTasks)
    {
      hide Ordered, Agree, Ring, FramePeriod;
      var key := KeyOf(c);
      RingGrows(history, Entry(c, now, maxFps));
      OrderedExtends(history, Entry(c, now, maxFps));
      KeyNew(c);
      lastReceivedAt := Some(now);
      var floor := if currentEpoch.Some? && currentEpoch.value != 0 then currentEpoch.value else c.epoch;
      currentEpoch := Some(Max(floor, c.epoch));
      lastSequence := c.sequence;
      if |frameOrder| == RING_SIZE {
        AgreeDrop(frameOrder, frameKeys);
        frameKeys := frameKeys - {frameOrder[0]};
        frameOrder := frameOrder[1..];
      }
      AgreeAppend(frameOrder, frameKeys, key);
      frameOrder := frameOrder + [key];
      frameKeys := frameKeys + {key};
      history := history + [Entry(c, now, maxFps)];
    }

    lemma KeyNew(c: FrameContext)
      requires Valid() && RejectionReason(c).None?
      ensures KeyOf(c) !in frameKeys
    {
    }

    /** `defer_cleanup` and `track_adapter_completion`: work that outlives its frame */
    method Track(task: nat)
      requires Valid()
      modifies this`pendingTasks
      ensures Valid() && pendingTasks == old(pendingTasks) + {task}
    {
      pendingTasks := pendingTasks + {task};
    }

    /** The done callback of tracked work */
    method Settle(task: nat)
      requires Valid()
      modifies this`pendingTasks
      ensures Valid() && pendingTasks == old(pendingTasks) - {task}
    {
      pendingTasks := pendingTasks - {task};
    }
  }

  // ----- The event loop -----

  datatype Answer = ProtocolError | Dropped(reason: DropReason) | Admitted

  /** The frame rate while a calibration runs, and otherwise. */
  function RateInForce(gatewayMaxFps: real, calibrating: bool): real {
    if calibrating then RealMax(gatewayMaxFps, CALIBRATION_MAX_FPS) else gatewayMaxFps
  }

  /** `_handle` between two awaits: its local variables and the stream state it owns. */
  class StreamLoop {
    const gatewayMaxFps: real
    const state: StreamState
    /** `process_task is not None`, `calibration_task is not None`, `close_requested is not None` */
    var processing: bool
    var calibrating: bool
    var closeRequested: bool
    var closed: bool
    /** Outcome messages sent for admitted frames. */
    ghost var outcomes: nat

    constructor (gatewayMaxFps: real)
      requires gatewayMaxFps > 0.0
      ensures Valid() && fresh(state) && !closed && !processing && state.history == [] && outcomes == 0
      ensures state.pendingTasks == {}
      ensures this.gatewayMaxFps == gatewayMaxFps
    {
      this.gatewayMaxFps := gatewayMaxFps;
      state := new StreamState(gatewayMaxFps);
      processing, calibrating, closeRequested, closed, outcomes := false, false, false, false, 0;
    }

    /** While open, exactly the frame in flight has no outcome yet. */
    ghost predicate Valid()
      reads this, state
    {
      && state.Valid() && gatewayMaxFps > 0.0
      && state.calibrationStarted == calibrating && state.maxFps == RateInForce(gatewayMaxFps, calibrating)
      && (!closed ==> |state.history| == outcomes + if processing then 1 else 0)
      && (forall i :: 0 <= i < |state.history| ==>
        state.history[i].rate <= RealMax(gatewayMaxFps, CALIBRATION_MAX_FPS))
    }

    /**
     One binary message. `readable` says that it decodes and belongs to this stream; the checks on a
     readable frame come in the order in which the stream answers them.
     */
    method ReceiveFrame(c: FrameContext, readable: bool, calibrationTarget: bool, now: real) returns (answer: Answer)
      requires Valid() && !closed
      modifies this, state
      ensures Valid()
      ensures closed <==> answer.ProtocolError?
      ensures answer.ProtocolError? <==> !readable
      ensures readable ==> var busy := old(processing) || old(state.pendingTasks) != {};
        answer ==
          if old(state.RejectionReason(c)).Some? then Dropped(old(state.RejectionReason(c)).value)
          else if busy then Dropped(InFlight)
          else if old(state.RateRejectionReason(now)).Some? then Dropped(FpsLimited)
          else if !old(state.calibrationStarted) && (calibrationTarget || !old(state.inferenceStarted)) then
            Dropped(SessionClosing)
          else Admitted
      ensures state.history == old(state.history) + if answer.Admitted? then [Entry(c, now, old(state.maxFps))] else []
      ensures processing == (old(processing) || answer.Admitted?)
      ensures answer.Admitted? ==> !old(processing) && old(state.pendingTasks) == {}
      ensures state.pendingTasks == old(state.pendingTasks)
      ensures outcomes == old(outcomes)
    {
      hide Ordered, Agree, Ring, FramePeriod;
      if !readable {
        closed := true;
        return ProtocolError;
      }
      var rejection := state.RejectionReason(c);
      if rejection.Some? {
        return Dropped(rejection.value);
      }
      if processing || state.pendingTasks != {} {
        return Dropped(InFlight);
      }
      var limited := state.RateRejectionReason(now);
      if limited.Some? {
        return Dropped(FpsLimited);
      }
      if calibrationTarget && !state.calibrationStarted {
        return Dropped(SessionClosing);
      }
      if !state.inferenceStarted && !state.calibrationStarted {
        return Dropped(SessionClosing);
      }
      state.Accept(c, now);
      processing := true;
      answer := Admitted;
    }

    /** The task of the frame in flight is done: its outcome is sent, and a requested close follows. */
    method SendOutcome()
      requires Valid() && !closed && processing
      modifies this
      ensures Valid() && !processing && outcomes == old(outcomes) + 1 && closed == old(closeRequested)
      ensures state.history == old(state.history)
    {
      hide Ordered, Agree, Ring, StreamState.RejectionReason, StreamState.RateRejectionReason;
      processing, outcomes := false, outcomes + 1;
      closed := closeRequested;
    }

    method StartInference() returns (valid: bool)
      requires Valid() && !closed
      modifies state`inferenceStarted
      ensures Valid() && valid == !calibrating
      ensures state.inferenceStarted == (old(state.inferenceStarted) || valid) && state.history == old(state.history)
    {
      hide Ordered, Agree, Ring, StreamState.RejectionReason, StreamState.RateRejectionReason;
      valid := !state.calibrationStarted;
      if valid {
        state.inferenceStarted := true;
      }
    }

    method StopInference()
      requires Valid() && !closed
      modifies state`inferenceStarted
      ensures Valid() && !state.inferenceStarted && state.history == old(state.history)
    {
      hide Ordered, Agree, Ring, StreamState.RejectionReason, StreamState.RateRejectionReason;
      state.inferenceStarted := false;
    }

    /** A second calibration is refused while one runs; the first raises the frame rate. */
    method StartCalibration() returns (started: bool)
      requires Valid() && !closed
      modifies this`calibrating, state`calibrationStarted, state`maxFps
      ensures Valid() && started == !old(calibrating) && calibrating && state.history == old(state.history)
    {
      hide Ordered, Agree, Ring, StreamState.RejectionReason, StreamState.RateRejectionReason;
      started := !calibrating;
      if started {
        state.calibrationStarted, state.maxFps := true, RealMax(gatewayMaxFps, CALIBRATION_MAX_FPS);
        calibrating := true;
      }
    }

    method CalibrationEnds()
      requires Valid() && !closed && calibrating
      modifies this`calibrating, this`closed, state`calibrationStarted, state`maxFps
      ensures Valid() && !calibrating && state.history == old(state.history)
      ensures closed == (closeRequested && !processing)
    {
      hide Ordered, Agree, Ring, StreamState.RejectionReason, StreamState.RateRejectionReason;
      calibrating := false;
      state.calibrationStarted, state.maxFps := false, gatewayMaxFps;
      closed := closeRequested && !processing;
    }

    /** A running calibration is cancelled; a frame in flight is waited for. */
    method StopSession()
      requires Valid() && !closed
      modifies this`calibrating, this`closed, this`closeRequested, state`calibrationStarted, state`maxFps
      ensures Valid() && !calibrating && closed == !processing && (processing ==> closeRequested)
      ensures state.history == old(state.history)
    {
      hide Ordered, Agree, Ring, StreamState.RejectionReason, StreamState.RateRejectionReason;
      if calibrating {
        calibrating := false;
        state.calibrationStarted, state.maxFps := false, gatewayMaxFps;
      }
      if !processing {
        closed := true;
      } else {
        closeRequested := true;
      }
    }
  }
}
