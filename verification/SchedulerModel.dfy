/**
 The N-M fiber scheduler as a transition system: any number of workers run
 `Scheduler::run` over one locked queue. Every label names one step of one
 worker or one act of the code around the scheduler, and `Apply` is what that
 step does. A failed `gwn_ASSERT`, a use of a destroyed fiber or a context
 saved into the wrong fiber sets `fault`, after which nothing runs.
 */
module SchedulerModel {
  import opened Common

  type FiberId = nat
  type TaskId = nat

  /** What `m_ctx` resumes into: `MainFunc` from the top, a saved yield, or the end of `MainFunc`. */
  datatype Context = Fresh | Saved | Ended

  /** `own` is the reference that `MainFunc` keeps on the fiber's own stack; `task` stands for `m_cb`. */
  datatype Fiber = Fiber(state: FState, ctx: Context, own: bool, task: Option<TaskId>)

  /** The payload of `FiberAndThread`; `thread` is -1 or the only thread that may run the entry. */
  datatype Work = FiberWork(fiber: FiberId) | CbWork(task: TaskId)
  datatype Entry = Entry(work: Work, thread: int)

  /** `t_fiber` of one thread. */
  datatype Current = Main | Idle | Of(fiber: FiberId)

  /**
   Where a worker stands in `run`, or which part of a fiber's code it has loaded:
   Entering (top of `MainFunc`), Running (task code), Leaving (yield wrote the
   state, context not saved yet), Ending (task returned or threw), Unreferenced
   (`cur.reset()` done), Back (returned from `swapIn`), Post (count decremented).
   */
  datatype Pc =
    | Head | Scanned
    | Entering | Running | Leaving | Ending | Unreferenced
    | Back | Post | DropCb
    | IdleRun | IdleBack | Exited

  /**
   `resume` is the context saved in the thread's scheduling fiber, named by the
   `swapIn` it was saved in; Main while that fiber is the one running.
   */
  datatype Worker = Worker(pc: Pc, ft: Option<Work>, cb: Option<FiberId>, idle: FState, current: Current, resume: Current)

  /**
   `ext` are the fibers some code outside the scheduler holds a `Fiber::ptr` to.
   `accepted`, `started` and `finished` record the history of tasks.
   */
  datatype State = State(
    queue: seq<Entry>,
    workers: seq<Worker>,
    fibers: map<FiberId, Fiber>,
    ext: set<FiberId>,
    active: int,
    idling: int,
    autoStop: bool,
    stopping: bool,
    nextFiber: FiberId,
    nextTask: TaskId,
    accepted: set<TaskId>,
    started: set<TaskId>,
    finished: set<TaskId>,
    fault: bool)

  datatype Label =
    // one worker's own steps
    | Scan(w: nat) | Dispatch(w: nat)
    | Enter(w: nat) | Yield(w: nat, ready: bool) | Finish(w: nat, ok: bool) | Unref(w: nat) | SwapOut(w: nat)
    | Decrement(w: nat) | PostProcess(w: nat) | ReleaseCb(w: nat)
    | IdleCheck(w: nat) | IdleLeave(w: nat)
    // scheduling, by the task worker `who` is running or (None) by outside code
    | PushCb(who: Option<nat>, thread: int)
    | PushFiber(who: Option<nat>, f: FiberId, thread: int, move: bool)
    // the rest of what outside code and tasks do with fibers
    | NewFiber | ResetFiber(f: FiberId) | Share(w: nat) | Forget(f: FiberId) | Destroy(f: FiberId)
    | SetAutoStop | SetStopping

  /** Some part of a fiber's own code is loaded on the worker. */
  predicate InFiber(pc: Pc) {
    pc == Entering || pc == Running || pc == Leaving || pc == Ending || pc == Unreferenced
  }

  /** From the pick to the end of the slice's post-processing. */
  predicate Busy(pc: Pc) { pc == Scanned || InFiber(pc) || pc == Back || pc == Post }

  /** The fiber the current slice belongs to: `ft.fiber`, or `cb_fiber` when `ft.cb` is set. */
  function Slice(wk: Worker): Option<FiberId> {
    match wk.ft
    case Some(FiberWork(f)) => Some(f)
    case Some(CbWork(_)) => wk.cb
    case None => None
  }

  function SetWorker(s: State, w: nat, wk: Worker): State
    requires w < |s.workers|
  {
    s.(workers := s.workers[w := wk])
  }

  function SetPc(s: State, w: nat, pc: Pc): State
    requires w < |s.workers|
  {
    SetWorker(s, w, s.workers[w].(pc := pc))
  }

  function SetFiber(s: State, f: FiberId, fb: Fiber): State {
    s.(fibers := s.fibers[f := fb])
  }

  function Fault(s: State): State { s.(fault := true) }

  // ----- the pick, under m_mutex (scheduler.cc:185-208) -----

  predicate Eligible(fibers: map<FiberId, Fiber>, w: nat, e: Entry) {
    && (e.thread == -1 || e.thread == w)
    && !(e.work.FiberWork? && e.work.fiber in fibers && fibers[e.work.fiber].state == EXEC)
  }

  /** The leftmost index from `i` on that worker `w` may take, or the queue's length. */
  function FirstEligible(fibers: map<FiberId, Fiber>, queue: seq<Entry>, w: nat, i: nat): (k: nat)
    requires i <= |queue|
    ensures i <= k <= |queue|
    ensures forall j :: i <= j < k ==> !Eligible(fibers, w, queue[j])
    ensures k < |queue| ==> Eligible(fibers, w, queue[k])
    ensures forall j :: i <= j < k ==>
              || (queue[j].thread != -1 && queue[j].thread != w)
              || (queue[j].work.FiberWork? && queue[j].work.fiber in fibers && fibers[queue[j].work.fiber].state == EXEC)
    ensures k < |queue| ==> queue[k].thread == -1 || queue[k].thread == w
    ensures k < |queue| && queue[k].work.FiberWork? && queue[k].work.fiber in fibers ==>
              fibers[queue[k].work.fiber].state != EXEC
    decreases |queue| - i
  {
    if i == |queue| || Eligible(fibers, w, queue[i]) then i else FirstEligible(fibers, queue, w, i + 1)
  }

  function DoScan(s: State, w: nat): State
    requires w < |s.workers|
  {
    var wk := s.workers[w];
    var k := FirstEligible(s.fibers, s.queue, w, 0);
    if k == |s.queue| then
      SetWorker(s, w, wk.(pc := Scanned, ft := None))
    else
      SetWorker(s, w, wk.(pc := Scanned, ft := Some(s.queue[k].work)))
        .(queue := s.queue[..k] + s.queue[k + 1..], active := s.active + 1)
  }

  // ----- dispatch (scheduler.cc:214-216, 227-237, 255-262) -----

  function SwapIn(s: State, w: nat, f: FiberId): State
    requires w < |s.workers|
  {
    if f !in s.fibers || s.fibers[f].state == EXEC || s.fibers[f].ctx == Ended then Fault(s)
    else
      var fb := s.fibers[f];
      var pc := if fb.ctx == Fresh then Entering else Running;
      SetFiber(SetWorker(s, w, s.workers[w].(pc := pc, current := Of(f), resume := Of(f))), f, fb.(state := EXEC))
  }

  /** `cb_fiber->reset(ft.cb)`, or a new fiber when `cb_fiber` is null. */
  function PrepareCb(s: State, w: nat, t: TaskId): State
    requires w < |s.workers|
  {
    match s.workers[w].cb
    case Some(f) =>
      if f !in s.fibers || !(s.fibers[f].state == INIT || Done(s.fibers[f].state)) then Fault(s)
      else SetFiber(s, f, Fiber(INIT, Fresh, s.fibers[f].own, Some(t)))
    case None =>
      SetFiber(SetWorker(s, w, s.workers[w].(cb := Some(s.nextFiber))),
               s.nextFiber, Fiber(INIT, Fresh, false, Some(t))).(nextFiber := s.nextFiber + 1)
  }

  function EnterIdle(s: State, w: nat): State
    requires w < |s.workers|
  {
    var wk := s.workers[w];
    if wk.idle == TERM then SetPc(s, w, Exited)
    else if wk.idle == EXEC || wk.idle == EXCEPT then Fault(s)
    else SetWorker(s, w, wk.(pc := IdleRun, idle := EXEC, current := Idle, resume := Idle)).(idling := s.idling + 1)
  }

  function DoDispatch(s: State, w: nat): State
    requires w < |s.workers|
  {
    match s.workers[w].ft
    case Some(FiberWork(f)) =>
      if f !in s.fibers then Fault(s)
      else if Done(s.fibers[f].state) then EnterIdle(s, w)
      else SwapIn(s, w, f)
    case Some(CbWork(t)) =>
      var s1 := PrepareCb(s, w, t);
      if s1.fault then s1 else SwapIn(s1, w, s1.workers[w].cb.value)
    case None => EnterIdle(s, w)
  }

  // ----- inside a fiber (fiber.cc:175-231) -----

  /** The fiber `GetThis()` returns to the code loaded on `w`, when that code is the fiber's own. */
  function Self(s: State, w: nat): Option<FiberId>
    requires w < |s.workers|
  {
    var wk := s.workers[w];
    if wk.current.Of? && wk.current.fiber in s.fibers && Slice(wk) == Some(wk.current.fiber)
    then Some(wk.current.fiber) else None
  }

  function DoEnter(s: State, w: nat): State
    requires w < |s.workers|
  {
    match Self(s, w)
    case None => Fault(s)
    case Some(f) =>
      var fb := s.fibers[f];
      if fb.task.None? then Fault(s)
      else SetFiber(SetPc(s, w, Running), f, fb.(own := true)).(started := s.started + {fb.task.value})
  }

  function DoYield(s: State, w: nat, ready: bool): State
    requires w < |s.workers|
  {
    match Self(s, w)
    case None => Fault(s)
    case Some(f) =>
      if s.fibers[f].state != EXEC then Fault(s)
      else SetFiber(SetPc(s, w, Leaving), f, s.fibers[f].(state := if ready then READY else HOLD))
  }

  function DoFinish(s: State, w: nat, ok: bool): State
    requires w < |s.workers|
  {
    match Self(s, w)
    case None => Fault(s)
    case Some(f) =>
      var fb := s.fibers[f];
      if fb.task.None? then Fault(s)
      else SetFiber(SetPc(s, w, Ending), f, if ok then fb.(state := TERM, task := None) else fb.(state := EXCEPT))
             .(finished := s.finished + {fb.task.value})
  }

  function DoUnref(s: State, w: nat): State
    requires w < |s.workers|
  {
    match Self(s, w)
    case None => Fault(s)
    case Some(f) => SetFiber(SetPc(s, w, Unreferenced), f, s.fibers[f].(own := false))
  }

  /** `swapOut` loads the scheduling fiber's saved context: the loop goes on behind the `swapIn` that saved it. */
  function Resumed(wk: Worker): Worker {
    wk.(pc := if wk.resume.Idle? then IdleBack else Back, current := Main, resume := Main)
  }

  function DoSwapOut(s: State, w: nat): State
    requires w < |s.workers|
  {
    match Self(s, w)
    case None => Fault(s)
    case Some(f) =>
      if s.workers[w].resume.Main? then Fault(s)
      else SetFiber(SetWorker(s, w, Resumed(s.workers[w])),
                    f, s.fibers[f].(ctx := if s.workers[w].pc == Leaving then Saved else Ended))
  }

  // ----- after the slice (scheduler.cc:217-226, 238-254) -----

  function DoPost(s: State, w: nat): State
    requires w < |s.workers|
  {
    var wk := s.workers[w];
    match Slice(wk)
    case None => Fault(s)
    case Some(f) =>
      if f !in s.fibers then Fault(s)
      else
        var fb := s.fibers[f];
        var next := if wk.ft.value.CbWork? then DropCb else Head;
        if fb.state == READY then
          SetPc(s, w, next).(queue := s.queue + [Entry(FiberWork(f), -1)])
        else if !Done(fb.state) then
          SetFiber(SetPc(s, w, next), f, fb.(state := HOLD))
        else if wk.ft.value.CbWork? then
          SetFiber(SetPc(s, w, Head), f, Fiber(INIT, Fresh, fb.own, None))
        else
          SetPc(s, w, Head)
  }

  // ----- the idle fiber (scheduler.cc:92-103, 255-268) -----

  predicate Stopping(s: State) {
    s.autoStop && s.stopping && s.queue == [] && s.active == 0
  }

  function DoIdleCheck(s: State, w: nat): State
    requires w < |s.workers|
  {
    if s.workers[w].resume.Main? then Fault(s)
    else SetWorker(s, w, Resumed(s.workers[w]).(idle := if Stopping(s) then TERM else HOLD))
  }

  function DoIdleLeave(s: State, w: nat): State
    requires w < |s.workers|
  {
    var wk := s.workers[w];
    SetWorker(s, w, wk.(pc := Head, idle := if Done(wk.idle) then wk.idle else HOLD)).(idling := s.idling - 1)
  }

  // ----- scheduling (scheduler.h:63-107) -----

  function DoPushFiber(s: State, f: FiberId, thread: int, move: bool): State {
    var t := if f in s.fibers && s.fibers[f].task.Some? then {s.fibers[f].task.value} else {};
    s.(queue := s.queue + [Entry(FiberWork(f), thread)],
       ext := if move then s.ext - {f} else s.ext,
       accepted := s.accepted + t)
  }

  function DoPushCb(s: State, thread: int): State {
    s.(queue := s.queue + [Entry(CbWork(s.nextTask), thread)],
       accepted := s.accepted + {s.nextTask},
       nextTask := s.nextTask + 1)
  }

  // ----- references (fiber.cc:96-114) -----

  predicate Queued(queue: seq<Entry>, work: Work) {
    exists i :: 0 <= i < |queue| && queue[i].work == work
  }

  /** Somebody holds a `Fiber::ptr` to `f`: a queue entry, a worker's `ft` or `cb_fiber`, its own stack, outside code. */
  predicate Referenced(s: State, f: FiberId) {
    || Queued(s.queue, FiberWork(f))
    || (exists w :: 0 <= w < |s.workers| && s.workers[w].ft == Some(FiberWork(f)))
    || (exists w :: 0 <= w < |s.workers| && s.workers[w].cb == Some(f))
    || (f in s.fibers && s.fibers[f].own)
    || f in s.ext
  }

  /** The destructor, run when the last reference goes; its assertion allows three states only. */
  function DoDestroy(s: State, f: FiberId): State
    requires f in s.fibers
  {
    if s.fibers[f].state == INIT || Done(s.fibers[f].state) then s.(fibers := s.fibers - {f}) else Fault(s)
  }

  function DoReset(s: State, f: FiberId): State {
    if f !in s.fibers || !(s.fibers[f].state == INIT || Done(s.fibers[f].state)) then Fault(s)
    else SetFiber(s, f, Fiber(INIT, Fresh, s.fibers[f].own, Some(s.nextTask))).(nextTask := s.nextTask + 1)
  }

  // ----- the step relation -----

  predicate At(s: State, w: nat, pc: Pc) { w < |s.workers| && s.workers[w].pc == pc }

  predicate MaySchedule(s: State, who: Option<nat>) { who.Some? ==> At(s, who.value, Running) }

  predicate Enabled(s: State, l: Label) {
    && !s.fault
    && match l
       case Scan(w) => At(s, w, Head)
       case Dispatch(w) => At(s, w, Scanned)
       case Enter(w) => At(s, w, Entering)
       case Yield(w, _) => At(s, w, Running)
       case Finish(w, _) => At(s, w, Running)
       case Unref(w) => At(s, w, Ending)
       case SwapOut(w) => At(s, w, Leaving) || At(s, w, Unreferenced)
       case Decrement(w) => At(s, w, Back)
       case PostProcess(w) => At(s, w, Post)
       case ReleaseCb(w) => At(s, w, DropCb)
       case IdleCheck(w) => At(s, w, IdleRun)
       case IdleLeave(w) => At(s, w, IdleBack)
       case PushCb(who, _) => MaySchedule(s, who)
       case PushFiber(who, f, _, _) => MaySchedule(s, who) && f in s.ext
       case NewFiber => true
       case ResetFiber(f) => f in s.ext
       case Share(w) => At(s, w, Running)
       case Forget(f) => f in s.ext
       case Destroy(f) => f in s.fibers && !Referenced(s, f)
       case SetAutoStop => true
       case SetStopping => s.autoStop
  }

  function Apply(s: State, l: Label): State
    requires Enabled(s, l)
  {
    match l
    case Scan(w) => DoScan(s, w)
    case Dispatch(w) => DoDispatch(s, w)
    case Enter(w) => DoEnter(s, w)
    case Yield(w, ready) => DoYield(s, w, ready)
    case Finish(w, ok) => DoFinish(s, w, ok)
    case Unref(w) => DoUnref(s, w)
    case SwapOut(w) => DoSwapOut(s, w)
    case Decrement(w) => SetPc(s, w, Post).(active := s.active - 1)
    case PostProcess(w) => DoPost(s, w)
    case ReleaseCb(w) => SetWorker(s, w, s.workers[w].(pc := Head, cb := None))
    case IdleCheck(w) => DoIdleCheck(s, w)
    case IdleLeave(w) => DoIdleLeave(s, w)
    case PushCb(_, thread) => DoPushCb(s, thread)
    case PushFiber(_, f, thread, move) => DoPushFiber(s, f, thread, move)
    case NewFiber =>
      SetFiber(s, s.nextFiber, Fiber(INIT, Fresh, false, Some(s.nextTask)))
        .(nextFiber := s.nextFiber + 1, nextTask := s.nextTask + 1, ext := s.ext + {s.nextFiber})
    case ResetFiber(f) => DoReset(s, f)
    case Share(w) => if Self(s, w).Some? then s.(ext := s.ext + {Self(s, w).value}) else Fault(s)
    case Forget(f) => s.(ext := s.ext - {f})
    case Destroy(f) => DoDestroy(s, f)
    case SetAutoStop => s.(autoStop := true)
    case SetStopping => s.(stopping := true)
  }

  /** What `start` leaves behind: every worker about to enter its loop, nothing queued. */
  predicate Init(s: State) {
    && |s.workers| > 0
    && (forall w :: 0 <= w < |s.workers| ==> s.workers[w] == Worker(Head, None, None, INIT, Main, Main))
    && s.queue == [] && s.fibers == map[] && s.ext == {} && s.active == 0 && s.idling == 0
    && !s.autoStop && s.nextFiber == 0 && s.nextTask == 0
    && s.accepted == {} && s.started == {} && s.finished == {} && !s.fault
  }

  // ----- runs, and what is asked of the code around the scheduler -----

  /**
   The worker is the one that may touch the work: a fiber that is its current
   slice or its spare callback fiber, or a callback it has picked and not started.
   */
  predicate Holds(wk: Worker, work: Work) {
    match work
    case FiberWork(f) =>
      || (Busy(wk.pc) && wk.ft == Some(work))
      || (wk.pc != DropCb && wk.cb == Some(f))
    case CbWork(_) => wk.pc == Scanned && wk.ft == Some(work)
  }

  predicate Held(workers: seq<Worker>, work: Work) {
    exists w :: 0 <= w < |workers| && Holds(workers[w], work)
  }

  /**
   The token discipline: a fiber is scheduled only when it is INIT or fully
   parked in HOLD, and reset only when it is INIT or finished, and in both
   cases only when it is neither queued nor in a worker's hands.
   */
  predicate Disciplined(s: State, l: Label) {
    match l
    case PushFiber(_, f, _, _) =>
      f in s.fibers && (s.fibers[f].state == INIT || s.fibers[f].state == HOLD)
      && !Queued(s.queue, FiberWork(f)) && !Held(s.workers, FiberWork(f))
    case ResetFiber(f) =>
      f in s.fibers && (s.fibers[f].state == INIT || Done(s.fibers[f].state))
      && !Queued(s.queue, FiberWork(f)) && !Held(s.workers, FiberWork(f))
    case _ => true
  }

  /** Outside code schedules nothing once `stop` has been called. */
  predicate QuietAfterStop(s: State, l: Label) {
    (l.PushCb? || l.PushFiber?) && l.who.None? ==> !s.autoStop
  }

  predicate Unpinned(l: Label) {
    l.PushCb? || l.PushFiber? ==> l.thread == -1
  }

  /** `states` are the states passed through when the steps `labels` are taken from an initial state. */
  ghost predicate IsExecution(states: seq<State>, labels: seq<Label>) {
    && |states| == |labels| + 1
    && Init(states[0])
    && forall i {:trigger labels[i]} :: 0 <= i < |labels| ==>
         Enabled(states[i], labels[i]) && states[i + 1] == Apply(states[i], labels[i])
  }

  /** An execution that is disciplined at every step. */
  ghost predicate IsRun(states: seq<State>, labels: seq<Label>) {
    && IsExecution(states, labels)
    && forall i {:trigger labels[i]} :: 0 <= i < |labels| ==> Disciplined(states[i], labels[i])
  }
}
