/**
 Admission and ownership together (`server.py`): the stream's busy test reads exactly the deferred work of
 the frames it admitted, so at any time only the newest frame can be open or in use.
 */
module FrameStream {
  import opened StreamAdmission
  import F = FrameOwnership

  /** Nothing of the frame is left: its coroutine answered, and no deferred work of it is pending. */
  predicate AtRest(f: F.Frame) {
    f.coroutine.Finished? && !f.PendingWork()
  }

  /** A frame at rest is closed exactly once, or handed over, or was never decoded; and nobody uses it. */
  lemma RestIsSettled(f: F.Frame)
    requires F.Owned(f) && AtRest(f)
    ensures (f.closes == 1 && !f.handedOver) || (f.closes == 0 && f.handedOver) || (f.decode.Raised? && !f.Settled())
    ensures !f.InUse() && !f.decode.Running?
  {
  }

  lemma RestStays(f: F.Frame, e: F.Event)
    requires F.Owned(f) && AtRest(f) && F.Enabled(f, e)
    ensures AtRest(F.Next(f, e)) && F.Next(f, e).closes == f.closes && F.Next(f, e).handedOver == f.handedOver
  {
  }

  /** A message that is dropped before decoding, or only calibrates: there never is a frame object. */
  const Undecoded := F.Frame(F.Raised, F.Idle, F.Idle, F.Finished, false, false, false, false, 0, false)

  /** The entries of `pending_tasks` that belong to frame `i`. */
  function TasksOf(f: F.Frame, i: nat): set<nat> {
    (if f.decodeDeferred then {4 * i} else {}) + (if f.workerDeferred then {4 * i + 1} else {})
    + (if f.eyeDeferred then {4 * i + 2} else {}) + (if f.tracked then {4 * i + 3} else {})
  }

  function Tasks(frames: seq<F.Frame>): set<nat> {
    if frames == [] then {} else Tasks(frames[..|frames| - 1]) + TasksOf(frames[|frames| - 1], |frames| - 1)
  }

  /** The busy test finds no pending task exactly if no frame has deferred work. */
  lemma {:induction false} NoTasks(frames: seq<F.Frame>)
    ensures Tasks(frames) == {} <==> forall i :: 0 <= i < |frames| ==> !frames[i].PendingWork()
  {
    if frames != [] {
      var n := |frames| - 1;
      NoTasks(frames[..n]);
      NoTasksOf(frames[n], n);
      assert Tasks(frames) == {} <==> Tasks(frames[..n]) == {} && TasksOf(frames[n], n) == {};
    }
  }

  lemma NoTasksOf(f: F.Frame, i: nat)
    ensures TasksOf(f, i) == {} <==> !f.PendingWork()
  {
    if f.PendingWork() {
      var task := if f.decodeDeferred then 4 * i else if f.workerDeferred then 4 * i + 1
                  else if f.eyeDeferred then 4 * i + 2 else 4 * i + 3;
      assert task in TasksOf(f, i);
    }
  }

  class VisionStream {
    const loop: StreamLoop
    /** Every message admitted so far, with what became of its frame. */
    var frames: seq<F.Frame>

    constructor (gatewayMaxFps: real)
      requires gatewayMaxFps > 0.0
      ensures Valid() && frames == []
    {
      loop := new StreamLoop(gatewayMaxFps);
      frames := [];
    }

    /** Every frame but the newest is at rest; the newest is too, unless the stream is busy with it. */
    ghost predicate Valid()
      reads this, loop, loop.state
    {
      && loop.Valid() && loop.state.pendingTasks == Tasks(frames)
      && (forall i :: 0 <= i < |frames| ==> F.Owned(frames[i]))
      && (forall i :: 0 <= i < |frames| - 1 ==> AtRest(frames[i]))
      && (!loop.processing && frames != [] ==> frames[|frames| - 1].coroutine.Finished?)
    }

    /** At most one frame is not settled, or is used by a worker: the newest. */
    lemma OnlyTheNewestIsOpen(i: nat)
      requires Valid() && i < |frames| && (!AtRest(frames[i]) || frames[i].InUse())
      ensures i == |frames| - 1
    {
      if i < |frames| - 1 {
        RestIsSettled(frames[i]);
      }
    }

    /** A frame message. It is admitted only if no frame has work left, and then all earlier ones are settled. */
    method Receive(c: FrameContext, readable: bool, calibrationTarget: bool, decoded: bool, now: real) returns (answer: Answer)
      requires Valid() && !loop.closed
      modifies this`frames, loop, loop.state
      ensures Valid()
      ensures frames == old(frames) + if answer.Admitted? then [if decoded then F.Fresh else Undecoded] else []
      ensures answer.Admitted? ==> forall i :: 0 <= i < |old(frames)| ==> AtRest(old(frames)[i])
    {
      hide F.Owned, Tasks, StreamState.RejectionReason, StreamState.RateRejectionReason, StreamLoop.Valid;
      NoTasks(frames);
      answer := loop.ReceiveFrame(c, readable, calibrationTarget, now);
      if answer.Admitted? {
        var next := if decoded then F.Fresh else Undecoded;
        NewcomerOwned();
        NewcomerTasks(frames, next);
        frames := frames + [next];
      }
    }

    /** Something happens to an admitted frame: a thread, a timeout or a done callback of its deferred work. */
    method Happen(i: nat, e: F.Event)
      requires Valid() && i < |frames| && F.Enabled(frames[i], e)
      modifies this`frames, loop.state`pendingTasks
      ensures Valid() && frames == old(frames)[i := F.Next(old(frames)[i], e)]
    {
      hide F.Owned, F.Next, F.Enabled, Tasks, AtRest, StreamState.RejectionReason, StreamState.RateRejectionReason;
      StepKept(frames[i], e);
      frames := frames[i := F.Next(frames[i], e)];
      loop.state.pendingTasks := Tasks(frames);
    }

    /** The outcome of the newest message is sent once its coroutine has answered. */
    method Outcome()
      requires Valid() && !loop.closed && loop.processing && frames != [] && frames[|frames| - 1].coroutine.Finished?
      modifies loop
      ensures Valid() && !loop.processing && frames == old(frames)
    {
      hide F.Owned, Tasks, AtRest;
      loop.SendOutcome();
    }
  }

  lemma NewcomerOwned()
    ensures F.Owned(F.Fresh) && F.Owned(Undecoded) && AtRest(Undecoded)
  {
  }

  lemma NewcomerTasks(frames: seq<F.Frame>, next: F.Frame)
    requires next == F.Fresh || next == Undecoded
    ensures Tasks(frames + [next]) == Tasks(frames)
  {
    assert (frames + [next])[..|frames|] == frames;
    NoTasksOf(next, |frames|);
  }

  lemma StepKept(f: F.Frame, e: F.Event)
    requires F.Owned(f) && F.Enabled(f, e)
    ensures F.Owned(F.Next(f, e)) && (AtRest(f) ==> AtRest(F.Next(f, e)))
    ensures f.coroutine.Finished? ==> F.Next(f, e).coroutine.Finished?
  {
    F.StepKeepsOwned(f, e);
    if AtRest(f) {
      RestStays(f, e);
    }
  }
}
