/** What every disciplined run of the scheduler keeps. */
module SchedulerInvariant {
  import opened Common
  import opened SchedulerModel

  type Fibers = map<FiberId, Fiber>

  // ----- fibers -----

  /** A fiber no context of which is loaded: its state, context and stack reference agree. */
  ghost predicate AtRest(fb: Fiber) {
    match fb.state
    case INIT => fb.ctx == Fresh && !fb.own
    case HOLD => fb.ctx == Saved && fb.own
    case READY => fb.ctx == Saved && fb.own
    case EXEC => false
    case _ => fb.ctx == Ended && !fb.own
  }

  ghost predicate Runnable(fb: Fiber) { AtRest(fb) && !Done(fb.state) && fb.task.Some? }

  ghost predicate Loose(fb: Fiber) { AtRest(fb) && fb.state != READY && (fb.state == INIT ==> fb.task.Some?) }

  /** A queued fiber is ready to run; a fiber nobody holds is new, parked or finished. */
  ghost predicate FibersOk(queue: seq<Entry>, workers: seq<Worker>, fibers: Fibers) {
    && (forall i :: 0 <= i < |queue| && queue[i].work.FiberWork? ==>
          queue[i].work.fiber in fibers && Runnable(fibers[queue[i].work.fiber]))
    && (forall f {:trigger Held(workers, FiberWork(f))} ::
          f in fibers && !Queued(queue, FiberWork(f)) && !Held(workers, FiberWork(f)) ==> Loose(fibers[f]))
  }

  ghost predicate IdsOk(s: State) {
    && (forall f :: f in s.fibers ==> f < s.nextFiber)
    && s.ext <= s.fibers.Keys
  }

  // ----- single ownership -----

  ghost predicate Distinct(queue: seq<Entry>) {
    forall i, j :: 0 <= i < j < |queue| ==> queue[i].work != queue[j].work
  }

  ghost predicate Exclusive(queue: seq<Entry>, workers: seq<Worker>) {
    && (forall v, w, work :: (0 <= v < w < |workers| && Holds(workers[v], work)) ==> !Holds(workers[w], work))
    && (forall w, i :: 0 <= w < |workers| && 0 <= i < |queue| ==> !Holds(workers[w], queue[i].work))
  }

  // ----- one worker -----

  ghost predicate OnCb(wk: Worker) {
    wk.ft.Some? && wk.ft.value.CbWork? && (InFiber(wk.pc) || wk.pc == Back || wk.pc == Post || wk.pc == DropCb)
  }

  /** `cb_fiber` outside a callback slice: an INIT fiber that is not also the current slice. */
  ghost predicate SpareOk(fibers: Fibers, wk: Worker) {
    wk.cb.Some? ==>
      && wk.cb.value in fibers
      && (!OnCb(wk) ==>
            && fibers[wk.cb.value] == Fiber(INIT, Fresh, false, None)
            && (wk.pc != Head ==> wk.ft != Some(FiberWork(wk.cb.value))))
  }

  ghost predicate IdleOk(stopped: bool, wk: Worker) {
    && (wk.idle == INIT || wk.idle == HOLD || wk.idle == EXEC || wk.idle == TERM)
    && (wk.idle == EXEC <==> wk.pc == IdleRun)
    && (wk.pc == IdleBack ==> wk.idle == HOLD || wk.idle == TERM)
    && (wk.pc == Exited ==> wk.idle == TERM)
    && (wk.idle == TERM ==> stopped)
    && (wk.pc == IdleRun || wk.pc == IdleBack || wk.pc == Exited ==> wk.ft == None)
  }

  ghost predicate LoadedOk(fb: Fiber, pc: Pc) {
    match pc
    case Entering => fb.state == EXEC && fb.ctx == Fresh && !fb.own
    case Running => fb.state == EXEC && fb.own && fb.ctx != Ended
    case Leaving => (fb.state == HOLD || fb.state == READY) && fb.own && fb.ctx != Ended
    case Ending => Done(fb.state) && fb.own
    case Unreferenced => Done(fb.state) && !fb.own
    case _ => AtRest(fb) && fb.state != INIT
  }

  ghost predicate SliceOk(fibers: Fibers, wk: Worker) {
    && (wk.ft.Some? && wk.ft.value.FiberWork? ==> wk.ft.value.fiber in fibers)
    && (wk.pc == Scanned && wk.ft.Some? && wk.ft.value.FiberWork? ==> Runnable(fibers[wk.ft.value.fiber]))
    && (wk.pc == DropCb ==> OnCb(wk) && wk.cb.Some?)
    && (InFiber(wk.pc) || wk.pc == Back || wk.pc == Post ==>
          Slice(wk).Some? && Slice(wk).value in fibers && LoadedOk(fibers[Slice(wk).value], wk.pc))
  }

  /** `t_fiber` names the fiber whose context is loaded, and the saved context is in that fiber's `swapIn`. */
  ghost predicate CurrentOk(wk: Worker) {
    && wk.resume == wk.current
    && if InFiber(wk.pc) then Slice(wk).Some? && wk.current == Of(Slice(wk).value)
       else wk.current == if wk.pc == IdleRun then Idle else Main
  }

  ghost predicate WorkerOk(fibers: Fibers, stopped: bool, wk: Worker) {
    SpareOk(fibers, wk) && IdleOk(stopped, wk) && SliceOk(fibers, wk) && CurrentOk(wk)
  }

  ghost predicate WorkersOk(fibers: Fibers, stopped: bool, workers: seq<Worker>) {
    forall w :: 0 <= w < |workers| ==> WorkerOk(fibers, stopped, workers[w])
  }

  // ----- the counters -----

  /** Between the pick and the decrement. */
  ghost predicate Counted(wk: Worker) {
    (wk.pc == Scanned && wk.ft.Some?) || InFiber(wk.pc) || wk.pc == Back
  }

  ghost predicate InIdle(wk: Worker) { wk.pc == IdleRun || wk.pc == IdleBack }

  ghost function Where(workers: seq<Worker>, p: Worker -> bool): set<int> {
    set w | 0 <= w < |workers| && p(workers[w])
  }

  ghost predicate CountersOk(s: State) {
    && s.active == |Where(s.workers, wk => Counted(wk))|
    && s.idling == |Where(s.workers, wk => InIdle(wk))|
  }

  // ----- tasks -----

  ghost predicate TaskOk(s: State, fb: Fiber) {
    && (fb.task.Some? ==> fb.task.value < s.nextTask)
    && match fb.state
       case INIT => fb.task.Some? ==> fb.task.value !in s.started
       case EXEC => fb.task.Some? && fb.task.value in s.accepted && fb.task.value !in s.finished
                    && (fb.own <==> fb.task.value in s.started)
       case TERM => fb.task == None
       case EXCEPT => fb.task.Some? && fb.task.value in s.finished
       case _ => fb.task.Some? && fb.task.value in s.started && fb.task.value !in s.finished
  }

  /** A callback waiting to be started: accepted, never started, on no fiber yet. */
  ghost predicate CbOk(s: State, t: TaskId) {
    t in s.accepted && t !in s.started && forall f :: f in s.fibers ==> s.fibers[f].task != Some(t)
  }

  /** An unfinished fiber carries task `t`. */
  ghost predicate Carried(fibers: Fibers, t: TaskId) {
    exists f :: f in fibers && fibers[f].task == Some(t) && !Done(fibers[f].state)
  }

  ghost predicate Located(s: State, t: TaskId) {
    Queued(s.queue, CbWork(t)) || Held(s.workers, CbWork(t)) || Carried(s.fibers, t)
  }

  ghost predicate HistoryOk(s: State) {
    && s.finished <= s.started <= s.accepted
    && (forall t :: t in s.accepted ==> t < s.nextTask)
  }

  ghost predicate OneFiberPerTask(fibers: Fibers) {
    forall f, g :: f in fibers && g in fibers && f != g && fibers[f].task.Some? ==> fibers[f].task != fibers[g].task
  }

  /** A fiber that never ran has its task accepted exactly when somebody holds the fiber. */
  ghost predicate AcceptedOk(s: State) {
    forall f {:trigger Held(s.workers, FiberWork(f))} ::
      f in s.fibers && s.fibers[f].state == INIT && s.fibers[f].task.Some? ==>
      (s.fibers[f].task.value in s.accepted <==>
        Queued(s.queue, FiberWork(f)) || Held(s.workers, FiberWork(f)))
  }

  ghost predicate PickedCb(wk: Worker) { wk.pc == Scanned && wk.ft.Some? && wk.ft.value.CbWork? }

  ghost predicate CbsOk(s: State) {
    && (forall i :: 0 <= i < |s.queue| && s.queue[i].work.CbWork? ==> CbOk(s, s.queue[i].work.task))
    && (forall w :: 0 <= w < |s.workers| && PickedCb(s.workers[w]) ==> CbOk(s, s.workers[w].ft.value.task))
  }

  ghost predicate TasksOk(s: State) {
    && HistoryOk(s)
    && (forall f :: f in s.fibers ==> TaskOk(s, s.fibers[f]))
    && OneFiberPerTask(s.fibers)
    && AcceptedOk(s)
    && CbsOk(s)
    && (forall t {:trigger Located(s, t)} :: t in s.accepted && t !in s.finished ==> Located(s, t))
  }

  ghost predicate Inv(s: State) {
    && !s.fault
    && IdsOk(s)
    && FibersOk(s.queue, s.workers, s.fibers)
    && Distinct(s.queue)
    && Exclusive(s.queue, s.workers)
    && WorkersOk(s.fibers, s.autoStop && s.stopping, s.workers)
    && CountersOk(s)
    && TasksOk(s)
  }
}
