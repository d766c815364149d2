/**
 Ownership of one decoded frame in the vision gateway (`server.py`, `_process_frame`): a coroutine, the
 decode thread, the worker thread and the Eye task, with the callbacks that the coroutine leaves behind
 when it gives up waiting. Cancellation of the outer task is not part of this machine.
 */
module FrameOwnership {

  /** What the Face worker answers: whether its adapter keeps the frame, and whether it tells when it is done. */
  datatype Observation = Observation(keepsFrame: bool, completion: bool)

  datatype Thread<R> = Idle | Running | Returned(result: R) | Raised {
    predicate Done() {
      Returned? || Raised?
    }
  }

  datatype Coroutine = AwaitingDecode | AwaitingWorker | AwaitingEye | Finished

  /**
   The `...Deferred` flags are entries of `pending_tasks` whose done callback has not run yet; `tracked`
   is a pending adapter completion. `closes` counts the gateway's closes of the frame; `handedOver` says
   that the adapter keeps it.
   */
  datatype Frame = Frame(decode: Thread<()>, worker: Thread<Observation>, eye: Thread<()>, coroutine: Coroutine,
                         decodeDeferred: bool, workerDeferred: bool, eyeDeferred: bool, tracked: bool,
                         closes: nat, handedOver: bool)
  {
    /** `has_pending_work` */
    predicate PendingWork() {
      decodeDeferred || workerDeferred || eyeDeferred || tracked
    }

    /** `worker.process` is running on the frame. */
    predicate InUse() {
      worker.Running?
    }

    predicate Settled() {
      closes == 1 || handedOver
    }
  }

  const Fresh := Frame(Running, Idle, Idle, AwaitingDecode, false, false, false, false, 0, false)

  datatype Event =
    | DecodeReturns
    | DecodeRaises
    | WorkerReturns(observation: Observation)
    | WorkerRaises
    | EyeEnds
    | DecodeTimeout
    | DecodeFailed
    | StartWorker
    | StartFails(eyeStarted: bool)
    | WorkerTimeout
    | WorkerFailed
    | FinishWithoutEye(deferEye: bool)
    | WaitForEye
    | FinishWithEye(timeout: bool)
    | DecodeCallback
    | WorkerCallback
    | EyeCallback
    | CompletionDone

  predicate Enabled(f: Frame, e: Event) {
    match e
    case DecodeReturns => f.decode.Running?
    case DecodeRaises => f.decode.Running?
    case WorkerReturns(_) => f.worker.Running?
    case WorkerRaises => f.worker.Running?
    case EyeEnds => f.eye.Running?
    case DecodeTimeout => f.coroutine.AwaitingDecode?
    case DecodeFailed => f.coroutine.AwaitingDecode? && f.decode.Raised?
    case StartWorker => f.coroutine.AwaitingDecode? && f.decode.Returned?
    case StartFails(_) => f.coroutine.AwaitingDecode? && f.decode.Returned?
    case WorkerTimeout => f.coroutine.AwaitingWorker?
    case WorkerFailed => f.coroutine.AwaitingWorker? && f.worker.Raised?
    case FinishWithoutEye(_) => f.coroutine.AwaitingWorker? && f.worker.Returned?
    case WaitForEye => f.coroutine.AwaitingWorker? && f.worker.Returned?
    case FinishWithEye(timeout) => f.coroutine.AwaitingEye? && f.worker.Returned? && (timeout || !f.eye.Running?)
    case DecodeCallback => f.decodeDeferred && f.decode.Done()
    case WorkerCallback => f.workerDeferred && f.worker.Done()
    case EyeCallback => f.eyeDeferred && !f.eye.Running?
    case CompletionDone => f.tracked
  }

  function Closed(f: Frame): Frame {
    f.(closes := f.closes + 1)
  }

  /** What the `finally` block and `_finish_worker_frame` do with an observation's frame. */
  function Given(f: Frame, o: Observation): Frame {
    if o.keepsFrame then f.(handedOver := true) else Closed(f)
  }

  function Tracking(f: Frame, o: Observation): Frame {
    f.(tracked := f.tracked || o.completion)
  }

  function Next(f: Frame, e: Event): Frame
    requires Enabled(f, e)
  {
    match e
    case DecodeReturns => f.(decode := Returned(()))
    case DecodeRaises => f.(decode := Raised)
    case WorkerReturns(o) => f.(worker := Returned(o))
    case WorkerRaises => f.(worker := Raised)
    case EyeEnds => f.(eye := Returned(()))
    case DecodeTimeout => f.(decodeDeferred := true, coroutine := Finished)
    case DecodeFailed => f.(coroutine := Finished)
    case StartWorker => f.(worker := Running, eye := Running, coroutine := AwaitingWorker)
    case StartFails(eyeStarted) =>
      Closed(f).(eye := if eyeStarted then Running else f.eye, eyeDeferred := eyeStarted, coroutine := Finished)
    case WorkerTimeout => f.(workerDeferred := true, eyeDeferred := f.eye.Running?, coroutine := Finished)
    case WorkerFailed => Closed(f).(eyeDeferred := f.eye.Running?, coroutine := Finished)
    case FinishWithoutEye(deferEye) =>
      Given(Tracking(f, f.worker.result), f.worker.result).(eyeDeferred := deferEye && f.eye.Running?, coroutine := Finished)
    case WaitForEye => Tracking(f, f.worker.result).(coroutine := AwaitingEye)
    case FinishWithEye(timeout) =>
      Given(f, f.worker.result).(eyeDeferred := timeout, coroutine := Finished)
    case DecodeCallback => (if f.decode.Returned? then Closed(f) else f).(decodeDeferred := false)
    case WorkerCallback =>
      (if f.worker.Returned? then Given(Tracking(f, f.worker.result), f.worker.result) else Closed(f)).(workerDeferred := false)
    case EyeCallback => f.(eyeDeferred := false)
    case CompletionDone => f.(tracked := false)
  }

  // ----- The ownership invariant -----

  /** At every moment one party is responsible for the frame, and it is settled at most once. */
  ghost predicate Owned(f: Frame) {
    && f.closes <= 1 && !(f.closes == 1 && f.handedOver)
    && (f.Settled() ==> f.coroutine.Finished? && f.decode.Returned? && !f.InUse() && !f.decodeDeferred && !f.workerDeferred)
    && (f.handedOver ==> f.worker.Returned? && f.worker.result.keepsFrame)
    && !f.decode.Idle? && (f.eye.Idle? ==> f.worker.Idle?)
    && (match f.coroutine
        case AwaitingDecode => f.worker.Idle? && f.eye.Idle? && !f.decodeDeferred && !f.workerDeferred
        case AwaitingWorker => f.decode.Returned? && !f.worker.Idle? && !f.decodeDeferred && !f.workerDeferred
        case AwaitingEye => f.decode.Returned? && f.worker.Returned? && !f.decodeDeferred && !f.workerDeferred
        case Finished =>
          && (f.Settled() || f.decodeDeferred || f.workerDeferred || f.decode.Raised?)
          && (f.decodeDeferred ==> f.worker.Idle? && !f.workerDeferred)
          && (f.workerDeferred ==> f.decode.Returned? && !f.worker.Idle?)
          && (f.decode.Raised? ==> f.worker.Idle?))
  }

  lemma StepKeepsOwned(f: Frame, e: Event)
    requires Owned(f) && Enabled(f, e)
    ensures Owned(Next(f, e))
    ensures Next(f, e).closes > f.closes ==> !f.InUse() && !Next(f, e).InUse() && f.decode.Returned?
    ensures f.Settled() ==> Next(f, e).closes == f.closes && Next(f, e).handedOver == f.handedOver
  {
  }

  // ----- Whole lives of a frame -----

  ghost predicate Life(fs: seq<Frame>, es: seq<Event>) {
    && |fs| == |es| + 1 && fs[0] == Fresh
    && (forall i :: 0 <= i < |es| ==> Enabled(fs[i], es[i]) && fs[i + 1] == Next(fs[i], es[i]))
  }

  lemma {:induction false} LifeIsOwned(fs: seq<Frame>, es: seq<Event>, i: nat)
    requires Life(fs, es) && i < |fs|
    ensures Owned(fs[i])
  {
    hide Owned, Next, Enabled;
    if i == 0 {
      FreshOwned();
    } else {
      LifeIsOwned(fs, es, i - 1);
      StepKeepsOwned(fs[i - 1], es[i - 1]);
    }
  }

  lemma FreshOwned()
    ensures Owned(Fresh)
  {
  }

  /** Nothing is left to happen. */
  ghost predicate Quiescent(f: Frame) {
    f.coroutine.Finished? && !f.decode.Running? && !f.worker.Running? && !f.PendingWork()
  }

  /** As long as a frame is not quiescent something can happen to it, so no frame is ever stuck. */
  lemma NeverStuck(f: Frame) returns (e: Event)
    requires Owned(f) && !Quiescent(f)
    ensures Enabled(f, e)
  {
    if f.decode.Running? {
      e := DecodeReturns;
    } else if f.worker.Running? {
      e := WorkerRaises;
    } else if f.eye.Running? {
      e := EyeEnds;
    } else {
      match f.coroutine {
        case AwaitingDecode => e := DecodeTimeout;
        case AwaitingWorker => e := WorkerTimeout;
        case AwaitingEye => e := FinishWithEye(true);
        case Finished =>
          e := if f.decodeDeferred then DecodeCallback
               else if f.workerDeferred then WorkerCallback
               else if f.eyeDeferred then EyeCallback
               else CompletionDone;
      }
    }
  }

  function ThreadRank<R>(t: Thread<R>): nat {
    match t
    case Idle => 2
    case Running => 1
    case _ => 0
  }

  function StageRank(c: Coroutine): nat {
    match c
    case AwaitingDecode => 3
    case AwaitingWorker => 2
    case AwaitingEye => 1
    case Finished => 0
  }

  function Flag(b: bool): nat {
    if b then 1 else 0
  }

  /** An upper bound on the events still to come. */
  function Rank(f: Frame): nat {
    8 * StageRank(f.coroutine) + ThreadRank(f.decode) + 4 * ThreadRank(f.worker) + 4 * ThreadRank(f.eye)
    + Flag(f.decodeDeferred) + 3 * Flag(f.workerDeferred) + Flag(f.eyeDeferred) + Flag(f.tracked)
  }

  lemma StepsRunOut(f: Frame, e: Event)
    requires Owned(f) && Enabled(f, e)
    ensures Rank(Next(f, e)) < Rank(f)
  {
  }

  lemma {:induction false} LivesAreShort(fs: seq<Frame>, es: seq<Event>, i: nat)
    requires Life(fs, es) && i < |fs|
    ensures Rank(fs[i]) + i <= Rank(Fresh)
  {
    hide Next, Enabled, Rank, Owned;
    if i > 0 {
      LivesAreShort(fs, es, i - 1);
      LifeIsOwned(fs, es, i - 1);
      StepsRunOut(fs[i - 1], es[i - 1]);
    }
  }

  /**
   Every life is finite, and once nothing more can happen, a frame that was decoded was closed by the
   gateway exactly once or was handed to the adapter, never both; a frame that was not decoded was never
   closed.
   */
  lemma SettledExactlyOnce(fs: seq<Frame>, es: seq<Event>)
    requires Life(fs, es)
    ensures |es| <= Rank(Fresh)
    ensures var f := fs[|es|];
      (forall e :: !Enabled(f, e)) ==>
        if f.decode.Returned? then (f.closes == 1) != f.handedOver && f.closes <= 1
        else f.closes == 0 && !f.handedOver
  {
    hide Next, Enabled, Rank;
    LivesAreShort(fs, es, |es|);
    LifeIsOwned(fs, es, |es|);
    var f := fs[|es|];
    if forall e :: !Enabled(f, e) {
      if !Quiescent(f) {
        var e := NeverStuck(f);
      }
    }
  }

  /** The gateway never closes a frame while `worker.process` is using it. */
  lemma NeverClosedInUse(fs: seq<Frame>, es: seq<Event>, i: nat)
    requires Life(fs, es) && i < |es| && fs[i + 1].closes > fs[i].closes
    ensures !fs[i].InUse() && !fs[i + 1].InUse() && fs[i].closes == 0 && !fs[i].handedOver
  {
    hide Next, Enabled, Owned;
    LifeIsOwned(fs, es, i);
    StepKeepsOwned(fs[i], es[i]);
    ClosesOnce(fs, es, i);
  }

  lemma ClosesOnce(fs: seq<Frame>, es: seq<Event>, i: nat)
    requires Life(fs, es) && i < |es| && fs[i + 1].closes > fs[i].closes
    ensures fs[i].closes == 0 && !fs[i].handedOver
  {
    hide Next, Enabled;
    LifeIsOwned(fs, es, i);
    LifeIsOwned(fs, es, i + 1);
    StepKeepsOwned(fs[i], es[i]);
  }

  /**
   When the coroutine has answered and no deferred work is left, which is when the next frame may be
   admitted, the previous frame is settled or was never decoded.
   */
  lemma NextFrameWaits(fs: seq<Frame>, es: seq<Event>, i: nat)
    requires Life(fs, es) && i < |fs|
    requires fs[i].coroutine.Finished? && !fs[i].PendingWork()
    ensures fs[i].Settled() || fs[i].decode.Raised?
    ensures !fs[i].InUse()
  {
    hide Next, Enabled;
    LifeIsOwned(fs, es, i);
  }
}
