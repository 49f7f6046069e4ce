/** The counters, what `stopping()` means, and what is left when every worker has left `run`. */
module SchedulerShutdown {
  import opened Common
  import opened SchedulerModel
  import opened SchedulerInvariant
  import opened SchedulerFrames
  import opened SchedulerSteps
  import opened SchedulerTheorems

  // ----- the counters -----

  lemma CountersAgree(states: seq<State>, labels: seq<Label>, i: nat)
    requires IsRun(states, labels) && i < |states|
    ensures states[i].active == |Where(states[i].workers, wk => Counted(wk))|
    ensures states[i].idling == |Where(states[i].workers, wk => InIdle(wk))|
  {
    RunInv(states, labels, i);
  }

  /** With the count at zero no worker is between its pick and its decrement. */
  lemma NoneCounted(s: State, w: nat)
    requires CountersOk(s) && s.active == 0 && w < |s.workers|
    ensures !Counted(s.workers[w])
  {
    var p := wk => Counted(wk);
    assert Where(s.workers, p) == {};
    assert Counted(s.workers[w]) ==> w in Where(s.workers, p);
  }

  // ----- where a task can be -----

  /** `f` carries task `t`, started, and waits in HOLD for somebody to schedule it again. */
  ghost predicate ParkedOn(s: State, t: TaskId, f: FiberId) {
    && f in s.fibers && s.fibers[f] == Fiber(HOLD, Saved, true, Some(t)) && t in s.started
    && !Queued(s.queue, FiberWork(f)) && !Held(s.workers, FiberWork(f))
  }

  /** Worker `w` has decremented the count for the fiber of `t` and not put the fiber away yet. */
  ghost predicate InTransit(s: State, t: TaskId, w: nat) {
    && At(s, w, Post) && Slice(s.workers[w]).Some?
    && var f := Slice(s.workers[w]).value;
       f in s.fibers && s.fibers[f].task == Some(t) && !Done(s.fibers[f].state)
  }

  /** Entry `i` of the queue is the task's work. */
  ghost predicate Waiting(s: State, t: TaskId, i: nat) {
    && i < |s.queue|
    && match s.queue[i].work
       case CbWork(t') => t' == t
       case FiberWork(f) => f in s.fibers && s.fibers[f].task == Some(t)
  }

  ghost predicate Parked(s: State, t: TaskId) { exists f :: ParkedOn(s, t, f) }

  /** A worker not counted as active holds an unfinished task's fiber only while putting it away. */
  lemma HeldAtPost(s: State, w: nat, f: FiberId)
    requires w < |s.workers| && WorkerOk(s.fibers, s.autoStop && s.stopping, s.workers[w])
    requires f in s.fibers && s.fibers[f].task.Some?
    requires Holds(s.workers[w], FiberWork(f)) && !Counted(s.workers[w])
    ensures At(s, w, Post) && Slice(s.workers[w]) == Some(f)
  {
  }

  /** An unfinished task sits in the queue, in the hands of a worker, or is parked. */
  lemma WhereIsTask(s: State, t: TaskId)
    requires Inv(s) && t in s.accepted && t !in s.finished
    requires forall w :: 0 <= w < |s.workers| ==> !Counted(s.workers[w])
    ensures Parked(s, t) || (exists w: nat :: InTransit(s, t, w)) || (exists i: nat :: Waiting(s, t, i))
  {
    assert Located(s, t);
    hide Inv, WorkerOk;
    assert forall w :: 0 <= w < |s.workers| && Holds(s.workers[w], CbWork(t)) ==> Counted(s.workers[w]);
    if Queued(s.queue, CbWork(t)) {
      var i: nat :| i < |s.queue| && s.queue[i].work == CbWork(t);
      assert Waiting(s, t, i);
    } else {
      var f :| f in s.fibers && s.fibers[f].task == Some(t) && !Done(s.fibers[f].state);
      if Queued(s.queue, FiberWork(f)) {
        var i: nat :| i < |s.queue| && s.queue[i].work == FiberWork(f);
        assert Waiting(s, t, i);
      } else if Held(s.workers, FiberWork(f)) {
        var w: nat :| w < |s.workers| && Holds(s.workers[w], FiberWork(f));
        WorkerFacts(s, w);
        HeldAtPost(s, w, f);
        assert InTransit(s, t, w);
      } else {
        LooseTask(s, f);
        assert ParkedOn(s, t, f);
      }
    }
  }

  lemma LooseTask(s: State, f: FiberId)
    requires Inv(s) && f in s.fibers && !Queued(s.queue, FiberWork(f)) && !Held(s.workers, FiberWork(f))
    requires s.fibers[f].task.Some? && s.fibers[f].task.value in s.accepted && !Done(s.fibers[f].state)
    ensures s.fibers[f].state == HOLD && AtRest(s.fibers[f]) && s.fibers[f].task.value in s.started
  {
    LooseFacts(s, f);
    var held := Held(s.workers, FiberWork(f));
  }

  /**
   `stopping()` may turn false again, but while it is true every unfinished task
   is parked or in the hands of a worker between its decrement and the requeue.
   */
  lemma StoppingMeans(states: seq<State>, labels: seq<Label>, i: nat, t: TaskId)
    requires IsRun(states, labels) && i < |states| && Stopping(states[i])
    requires t in states[i].accepted && t !in states[i].finished
    ensures Parked(states[i], t) || exists w: nat :: InTransit(states[i], t, w)
  {
    RunInv(states, labels, i);
    forall w | 0 <= w < |states[i].workers| ensures !Counted(states[i].workers[w]) {
      NoneCounted(states[i], w);
    }
    WhereIsTask(states[i], t);
  }

  // ----- the last scan -----

  /** The worker has made its last scan: its idle fiber has returned and the scan found nothing. */
  ghost predicate Retired(wk: Worker) {
    wk.idle == TERM && (wk.pc == Exited || (wk.pc == Scanned && wk.ft == None))
  }

  ghost predicate AllRetired(s: State) {
    |s.workers| > 0 && forall w :: 0 <= w < |s.workers| ==> Retired(s.workers[w])
  }

  ghost predicate OnlyPinned(queue: seq<Entry>) {
    forall i :: 0 <= i < |queue| ==> queue[i].thread != -1
  }

  /** The step that makes the last worker retire is a scan, and no scan leaves an unpinned entry behind. */
  lemma LastScan(s: State, w: nat)
    requires Inv(s) && At(s, w, Head) && DoScan(s, w).workers[w].ft == None
    ensures DoScan(s, w).queue == s.queue && OnlyPinned(s.queue)
  {
    forall i | 0 <= i < |s.queue| ensures s.queue[i].thread != -1 {
      assert !Eligible(s.fibers, w, s.queue[i]);
    }
  }

  lemma RetiredStopped(s: State)
    requires Inv(s) && AllRetired(s)
    ensures s.autoStop && s.stopping
  {
    WorkerFacts(s, 0);
    assert Retired(s.workers[0]);
  }

  /** When every worker has retired, nothing touches the queue any more. */
  lemma RetiredQuiet(s: State, l: Label)
    requires AllRetired(s) && s.autoStop && Enabled(s, l) && QuietAfterStop(s, l)
    ensures Apply(s, l).queue == s.queue
  {
    assert forall w :: 0 <= w < |s.workers| ==> Retired(s.workers[w]);
  }

  /** The worker a label is a step of. */
  ghost function Driver(l: Label): Option<nat> {
    match l
    case Scan(w) => Some(w)
    case Decrement(w) => Some(w)
    case ReleaseCb(w) => Some(w)
    case IdleCheck(w) => Some(w)
    case IdleLeave(w) => Some(w)
    case _ => SliceWorker(l)
  }

  ghost predicate SameFlags(s: State, s': State) {
    s'.autoStop == s.autoStop && s'.stopping == s.stopping
  }

  /** `s'` may differ from `s` in worker `w`, in fibers and in the idle count only. */
  ghost predicate Frame(s: State, s': State, w: nat) {
    && s'.queue == s.queue && s'.started == s.started && |s'.workers| == |s.workers| && SameFlags(s, s')
    && forall v :: 0 <= v < |s.workers| && v != w ==> s'.workers[v] == s.workers[v]
  }

  lemma SwapInFrame(s: State, w: nat, f: FiberId)
    requires w < |s.workers|
    ensures Frame(s, SwapIn(s, w, f), w)
  {
  }

  lemma PrepareFrame(s: State, w: nat, t: TaskId)
    requires w < |s.workers|
    ensures Frame(s, PrepareCb(s, w, t), w)
    ensures !PrepareCb(s, w, t).fault ==> PrepareCb(s, w, t).workers[w].cb.Some?
  {
  }

  lemma IdleFrame(s: State, w: nat)
    requires w < |s.workers|
    ensures Frame(s, EnterIdle(s, w), w)
  {
  }

  /** A dispatch leaves the queue, the history and the other workers alone. */
  lemma DispatchFrame(s: State, w: nat)
    requires At(s, w, Scanned)
    ensures Frame(s, DoDispatch(s, w), w)
  {
    hide SwapIn, PrepareCb, EnterIdle;
    IdleFrame(s, w);
    match s.workers[w].ft
    case None =>
    case Some(FiberWork(g)) => SwapInFrame(s, w, g);
    case Some(CbWork(t)) =>
      PrepareFrame(s, w, t);
      var s1 := PrepareCb(s, w, t);
      if !s1.fault { SwapInFrame(s1, w, s1.workers[w].cb.value); }
  }

  ghost predicate InsideFiber(l: Label) { l.Enter? || l.Yield? || l.Finish? || l.Unref? || l.SwapOut? }

  /** A step of the fiber loaded on `w`: the worker stays with its slice, inside it or just out of it. */
  ghost predicate StaysInside(s: State, s': State, w: nat) {
    && s'.queue == s.queue && w < |s'.workers| == |s.workers|
    && (forall v :: 0 <= v < |s.workers| && v != w ==> s'.workers[v] == s.workers[v])
    && (InFiber(s'.workers[w].pc) || s'.workers[w].pc == Back || s'.workers[w].pc == IdleBack)
    && Slice(s'.workers[w]) == Slice(s.workers[w]) && s'.workers[w].idle == s.workers[w].idle && SameFlags(s, s')
  }

  lemma EnterLocal(s: State, w: nat)
    requires At(s, w, Entering)
    ensures StaysInside(s, DoEnter(s, w), w)
  {
    hide Self;
  }

  lemma YieldLocal(s: State, w: nat, ready: bool)
    requires At(s, w, Running)
    ensures StaysInside(s, DoYield(s, w, ready), w)
  {
  }

  lemma FinishLocal(s: State, w: nat, ok: bool)
    requires At(s, w, Running)
    ensures StaysInside(s, DoFinish(s, w, ok), w)
  {
  }

  lemma UnrefLocal(s: State, w: nat)
    requires At(s, w, Ending)
    ensures StaysInside(s, DoUnref(s, w), w)
  {
  }

  lemma SwapOutLocal(s: State, w: nat)
    requires At(s, w, Leaving) || At(s, w, Unreferenced)
    ensures StaysInside(s, DoSwapOut(s, w), w)
  {
  }

  lemma InsideLocal(s: State, l: Label, w: nat)
    requires Enabled(s, l) && InsideFiber(l) && Driver(l) == Some(w)
    ensures w < |s.workers| && InFiber(s.workers[w].pc) && StaysInside(s, Apply(s, l), w)
  {
    hide DoEnter, DoYield, DoFinish, DoUnref, DoSwapOut;
    match l
    case Enter(_) => EnterLocal(s, w);
    case Yield(_, ready) => YieldLocal(s, w, ready);
    case Finish(_, ok) => FinishLocal(s, w, ok);
    case Unref(_) => UnrefLocal(s, w);
    case SwapOut(_) => SwapOutLocal(s, w);
  }

  /** `s'` may have one entry more, for any thread, and differ in fibers and in worker `w`, which heads for its loop. */
  ghost predicate PutsAway(s: State, s': State, w: nat) {
    && s'.started == s.started && w < |s'.workers| == |s.workers| && SameFlags(s, s')
    && s'.workers[w].idle == s.workers[w].idle
    && (forall v :: 0 <= v < |s.workers| && v != w ==> s'.workers[v] == s.workers[v])
    && (s'.workers[w].pc == Head || s'.workers[w].pc == DropCb || s'.workers[w].pc == Post)
    && s.queue <= s'.queue && |s'.queue| <= |s.queue| + 1
    && (|s'.queue| > |s.queue| ==> s'.queue[|s.queue|].thread == -1)
  }

  lemma PcPutsAway(s: State, w: nat, pc: Pc)
    requires w < |s.workers| && (pc == Head || pc == DropCb)
    ensures PutsAway(s, SetPc(s, w, pc), w)
  {
  }

  /** Changing a fiber or adding one entry for any thread on top of that. */
  lemma MorePutsAway(s: State, w: nat, pc: Pc, f: FiberId, fb: Fiber)
    requires w < |s.workers| && PutsAway(s, SetPc(s, w, pc), w)
    ensures PutsAway(s, SetFiber(SetPc(s, w, pc), f, fb), w)
    ensures PutsAway(s, SetPc(s, w, pc).(queue := s.queue + [Entry(FiberWork(f), -1)]), w)
  {
  }

  lemma FaultPutsAway(s: State, w: nat)
    requires At(s, w, Post)
    ensures PutsAway(s, Fault(s), w)
  {
  }

  /** The outcomes of post-processing: requeue, HOLD, recycled callback fiber, finished fiber. */
  lemma PostOutcomes(s: State, w: nat, f: FiberId)
    requires At(s, w, Post) && Slice(s.workers[w]) == Some(f) && f in s.fibers
    ensures var fb, cb := s.fibers[f], s.workers[w].ft.value.CbWork?;
            var s1 := SetPc(s, w, if cb then DropCb else Head);
            DoPost(s, w) ==
            if fb.state == READY then s1.(queue := s.queue + [Entry(FiberWork(f), -1)])
            else if !Done(fb.state) then SetFiber(s1, f, fb.(state := HOLD))
            else if cb then SetFiber(SetPc(s, w, Head), f, Fiber(INIT, Fresh, fb.own, None))
            else SetPc(s, w, Head)
  {
  }

  lemma PostLocal(s: State, w: nat)
    requires At(s, w, Post)
    ensures PutsAway(s, DoPost(s, w), w)
  {
    hide DoPost, PutsAway;
    match Slice(s.workers[w])
    case Some(f) =>
      if f in s.fibers {
        PostOutcomes(s, w, f);
        PcPutsAway(s, w, Head);
        PcPutsAway(s, w, DropCb);
        var fb := s.fibers[f];
        MorePutsAway(s, w, Head, f, fb.(state := HOLD));
        MorePutsAway(s, w, DropCb, f, fb.(state := HOLD));
        MorePutsAway(s, w, Head, f, Fiber(INIT, Fresh, fb.own, None));
      } else {
        PostFaults(s, w);
      }
    case None => PostFaults(s, w);
  }

  lemma PostFaults(s: State, w: nat)
    requires At(s, w, Post) && (Slice(s.workers[w]) == None || Slice(s.workers[w]).value !in s.fibers)
    ensures DoPost(s, w) == Fault(s) && PutsAway(s, DoPost(s, w), w)
  {
    FaultPutsAway(s, w);
  }

  lemma ScanLocal(s: State, w: nat)
    requires At(s, w, Head)
    ensures var s' := DoScan(s, w);
            && s'.started == s.started && w < |s'.workers| == |s.workers| && SameFlags(s, s')
            && s'.workers[w].idle == s.workers[w].idle
            && (forall v :: 0 <= v < |s.workers| && v != w ==> s'.workers[v] == s.workers[v])
  {
    hide FirstEligible;
  }

  /** Only worker `w`'s own labels change worker `w`. */
  lemma OthersStay(s: State, l: Label, w: nat)
    requires Enabled(s, l) && w < |s.workers| && Driver(l) != Some(w)
    ensures |Apply(s, l).workers| == |s.workers| && Apply(s, l).workers[w] == s.workers[w]
  {
    hide DoDispatch, DoScan, DoPost, DoEnter, DoYield, DoFinish, DoUnref, DoSwapOut;
    if InsideFiber(l) {
      InsideLocal(s, l, Driver(l).value);
    } else {
      match l
      case Dispatch(v) => DispatchFrame(s, v);
      case Scan(v) => ScanLocal(s, v);
      case PostProcess(v) => PostLocal(s, v);
      case _ =>
    }
  }

  /** A worker retires by a scan that finds nothing. */
  lemma RetiresByScan(s: State, l: Label, w: nat)
    requires Inv(s) && Enabled(s, l) && Driver(l) == Some(w) && w < |s.workers| && w < |Apply(s, l).workers|
    requires !Retired(s.workers[w])
    ensures Retired(Apply(s, l).workers[w]) ==> l == Scan(w)
  {
    hide Inv, Apply;
    WorkerFacts(s, w);
    if l.Dispatch? {
      DispatchApplies(s, w);
      DispatchRetires(s, w);
    } else {
      OthersNeverRetire(s, l, w);
    }
  }

  lemma DispatchApplies(s: State, w: nat)
    requires Enabled(s, Dispatch(w))
    ensures Apply(s, Dispatch(w)) == DoDispatch(s, w)
  {
  }

  lemma OthersNeverRetire(s: State, l: Label, w: nat)
    requires Enabled(s, l) && Driver(l) == Some(w) && w < |s.workers| && w < |Apply(s, l).workers|
    ensures l.Dispatch? || l.Scan? || !Retired(Apply(s, l).workers[w])
  {
    hide DoDispatch, DoScan, DoPost, DoEnter, DoYield, DoFinish, DoUnref, DoSwapOut;
    if InsideFiber(l) {
      InsideLocal(s, l, w);
    } else if l.PostProcess? {
      PostLocal(s, w);
    }
  }

  lemma DispatchRetires(s: State, w: nat)
    requires At(s, w, Scanned) && WorkerOk(s.fibers, s.autoStop && s.stopping, s.workers[w]) && !Retired(s.workers[w])
    ensures w < |DoDispatch(s, w).workers| ==> !Retired(DoDispatch(s, w).workers[w])
  {
    match s.workers[w].ft
    case None => assert DoDispatch(s, w) == EnterIdle(s, w);
    case Some(FiberWork(g)) => assert DoDispatch(s, w) == SwapIn(s, w, g);
    case Some(CbWork(t)) =>
      var s1 := PrepareCb(s, w, t);
      assert s1.fault || DoDispatch(s, w) == SwapIn(s1, w, s1.workers[w].cb.value);
  }

  lemma StepKeepsWorkers(s: State, l: Label)
    requires Enabled(s, l)
    ensures |Apply(s, l).workers| == |s.workers|
  {
    hide DoDispatch, DoScan, DoPost, DoEnter, DoYield, DoFinish, DoUnref, DoSwapOut;
    if InsideFiber(l) {
      InsideLocal(s, l, Driver(l).value);
    } else {
      match l
      case Dispatch(v) => DispatchFrame(s, v);
      case Scan(v) => ScanLocal(s, v);
      case PostProcess(v) => PostLocal(s, v);
      case _ =>
    }
  }

  lemma RetiredStep(s: State, l: Label)
    requires Inv(s) && Enabled(s, l) && Disciplined(s, l) && QuietAfterStop(s, l)
    requires AllRetired(s) ==> OnlyPinned(s.queue)
    requires AllRetired(Apply(s, l))
    ensures OnlyPinned(Apply(s, l).queue)
  {
    hide Inv, Apply, Enabled, Disciplined, QuietAfterStop;
    var s' := Apply(s, l);
    if AllRetired(s) {
      RetiredStopped(s);
      RetiredQuiet(s, l);
    } else {
      StepKeepsWorkers(s, l);
      var w: nat :| w < |s.workers| && !Retired(s.workers[w]);
      assert Retired(s'.workers[w]);
      if Driver(l) != Some(w) { OthersStay(s, l, w); }
      RetiresByScan(s, l, w);
      ScanIsLast(s, w);
    }
  }

  lemma ScanIsLast(s: State, w: nat)
    requires Inv(s) && Enabled(s, Scan(w)) && w < |Apply(s, Scan(w)).workers| && Retired(Apply(s, Scan(w)).workers[w])
    ensures OnlyPinned(Apply(s, Scan(w)).queue)
  {
    LastScan(s, w);
  }

  ghost predicate Quiet(states: seq<State>, labels: seq<Label>)
    requires |states| == |labels| + 1
  {
    forall i {:trigger labels[i]} :: 0 <= i < |labels| ==> QuietAfterStop(states[i], labels[i])
  }

  lemma {:induction false} RetiredRun(states: seq<State>, labels: seq<Label>, i: nat)
    requires IsRun(states, labels) && Quiet(states, labels) && i < |states| && AllRetired(states[i])
    ensures OnlyPinned(states[i].queue)
  {
    if i > 0 {
      var s, l := states[i - 1], labels[i - 1];
      RunInv(states, labels, i - 1);
      if AllRetired(s) { RetiredRun(states, labels, i - 1); }
      hide Inv, Apply, Enabled, Disciplined, QuietAfterStop, AllRetired, OnlyPinned;
      RetiredStep(s, l);
    }
  }

  // ----- nothing is abandoned -----

  ghost predicate AllExited(s: State) {
    |s.workers| > 0 && forall w :: 0 <= w < |s.workers| ==> s.workers[w].pc == Exited
  }

  /**
   Once every worker has left `run`, no worker holds anything, the counters are
   zero, no unpinned entry is left, and every task ever accepted has finished, is
   parked, or waits in an entry pinned to one thread.
   */
  lemma NothingAbandoned(states: seq<State>, labels: seq<Label>, i: nat, t: TaskId)
    requires IsRun(states, labels) && Quiet(states, labels) && i < |states| && AllExited(states[i])
    ensures states[i].active == 0 && states[i].idling == 0 && OnlyPinned(states[i].queue)
    ensures t in states[i].accepted && t !in states[i].finished ==>
              Parked(states[i], t) || exists k: nat :: Waiting(states[i], t, k) && states[i].queue[k].thread != -1
  {
    RunInv(states, labels, i);
    var s := states[i];
    forall w | 0 <= w < |s.workers| ensures Retired(s.workers[w]) {
      assert WorkerOk(s.fibers, s.autoStop && s.stopping, s.workers[w]);
    }
    RetiredRun(states, labels, i);
    assert Where(s.workers, wk => Counted(wk)) == {} && Where(s.workers, wk => InIdle(wk)) == {};
    if t in s.accepted && t !in s.finished {
      WhereIsTask(s, t);
    }
  }

  lemma QueueGrows(s: State, l: Label)
    requires Enabled(s, l) && !l.Scan?
    ensures s.queue <= Apply(s, l).queue
  {
    hide DoDispatch, DoPost, DoEnter, DoYield, DoFinish, DoUnref, DoSwapOut;
    if InsideFiber(l) {
      InsideLocal(s, l, Driver(l).value);
    } else {
      match l
      case Dispatch(w) => DispatchFrame(s, w);
      case PostProcess(w) => PostLocal(s, w);
      case _ =>
    }
  }

  // ----- exactly when the queue ends up empty -----

  /** Thread `thread` will never scan the queue again, or is none of the workers. */
  ghost predicate Deaf(s: State, thread: int) {
    thread != -1 && (0 <= thread < |s.workers| ==> Retired(s.workers[thread]))
  }

  /** Whatever is scheduled is scheduled for any thread, or for a worker that has yet to make its last scan. */
  ghost predicate Served(s: State, l: Label) {
    l.PushCb? || l.PushFiber? ==> !Deaf(s, l.thread)
  }

  ghost predicate AllServed(s: State) {
    forall i :: 0 <= i < |s.queue| ==> !Deaf(s, s.queue[i].thread)
  }

  lemma StaysRetired(s: State, l: Label, w: nat)
    requires Enabled(s, l) && w < |s.workers| && Retired(s.workers[w])
    ensures w < |Apply(s, l).workers| && Retired(Apply(s, l).workers[w])
  {
    hide DoDispatch, Apply;
    StepKeepsWorkers(s, l);
    if Driver(l) != Some(w) {
      OthersStay(s, l, w);
    } else {
      RetiredExits(s, l, w);
    }
  }

  lemma RetiredExits(s: State, l: Label, w: nat)
    requires Enabled(s, l) && w < |s.workers| && Retired(s.workers[w]) && Driver(l) == Some(w)
    ensures Apply(s, l) == SetPc(s, w, Exited)
  {
    assert l == Dispatch(w);
  }

  /** A worker retires only by a scan that finds nothing, so never with an entry pinned to it in the queue. */
  lemma OldEntryServed(s: State, l: Label, i: nat)
    requires Inv(s) && Enabled(s, l) && AllServed(s) && i < |s.queue|
    ensures !Deaf(Apply(s, l), s.queue[i].thread)
  {
    hide Inv, Apply, Enabled;
    var th := s.queue[i].thread;
    StepKeepsWorkers(s, l);
    assert !Deaf(s, th);
    if 0 <= th < |s.workers| {
      if Driver(l) != Some(th) {
        OthersStay(s, l, th);
      } else if l == Scan(th) {
        ScanTakesOwn(s, th, i);
      } else {
        RetiresByScan(s, l, th);
      }
    }
  }

  lemma ScanTakesOwn(s: State, w: nat, i: nat)
    requires Inv(s) && Enabled(s, Scan(w)) && i < |s.queue| && s.queue[i].thread == w
    ensures w < |Apply(s, Scan(w)).workers| && !Retired(Apply(s, Scan(w)).workers[w])
  {
    assert Eligible(s.fibers, w, s.queue[i]);
  }

  /** Every entry after a step was there before, is a requeue for any thread, or is what the label schedules. */
  lemma EntriesAfter(s: State, l: Label, j: nat)
    requires Enabled(s, l) && j < |Apply(s, l).queue|
    ensures (exists i :: 0 <= i < |s.queue| && s.queue[i] == Apply(s, l).queue[j])
            || Apply(s, l).queue[j].thread == -1
            || ((l.PushCb? || l.PushFiber?) && Apply(s, l).queue[j].thread == l.thread)
  {
    hide DoDispatch, DoScan, DoPost, DoEnter, DoYield, DoFinish, DoUnref, DoSwapOut;
    if l.Scan? {
      ScanEntries(s, l.w, j);
    } else {
      QueueGrows(s, l);
      assert j < |s.queue| ==> s.queue[j] == Apply(s, l).queue[j];
      if j >= |s.queue| { NewEntry(s, l, j); }
    }
  }

  lemma NewEntry(s: State, l: Label, j: nat)
    requires Enabled(s, l) && !l.Scan? && |s.queue| <= j < |Apply(s, l).queue|
    ensures Apply(s, l).queue[j].thread == -1
            || ((l.PushCb? || l.PushFiber?) && Apply(s, l).queue[j].thread == l.thread)
  {
    hide DoDispatch, DoPost, DoEnter, DoYield, DoFinish, DoUnref, DoSwapOut;
    if InsideFiber(l) {
      InsideLocal(s, l, Driver(l).value);
    } else {
      match l
      case Dispatch(w) => DispatchFrame(s, w);
      case PostProcess(w) => PostLocal(s, w);
      case _ =>
    }
  }

  lemma ScanEntries(s: State, w: nat, j: nat)
    requires At(s, w, Head) && j < |DoScan(s, w).queue|
    ensures exists i :: 0 <= i < |s.queue| && s.queue[i] == DoScan(s, w).queue[j]
  {
    var k := FirstEligible(s.fibers, s.queue, w, 0);
    if j < k {
      assert s.queue[j] == DoScan(s, w).queue[j];
    } else {
      assert s.queue[j + 1] == DoScan(s, w).queue[j];
    }
  }

  lemma ServedStep(s: State, l: Label)
    requires Inv(s) && Enabled(s, l) && AllServed(s) && Served(s, l)
    ensures AllServed(Apply(s, l))
  {
    hide Inv, Apply, Enabled;
    var s' := Apply(s, l);
    forall j | 0 <= j < |s'.queue| ensures !Deaf(s', s'.queue[j].thread) {
      EntriesAfter(s, l, j);
      if i :| 0 <= i < |s.queue| && s.queue[i] == s'.queue[j] {
        OldEntryServed(s, l, i);
      } else if s'.queue[j].thread != -1 {
        PushKeepsWorkers(s, l);
      }
    }
  }

  lemma PushKeepsWorkers(s: State, l: Label)
    requires Enabled(s, l) && (l.PushCb? || l.PushFiber?)
    ensures Apply(s, l).workers == s.workers
  {
  }

  ghost predicate RunServed(states: seq<State>, labels: seq<Label>)
    requires |states| == |labels| + 1
  {
    forall k {:trigger labels[k]} :: 0 <= k < |labels| ==> Served(states[k], labels[k])
  }

  lemma {:induction false} ServedRun(states: seq<State>, labels: seq<Label>, i: nat)
    requires IsRun(states, labels) && RunServed(states, labels) && i < |states|
    ensures AllServed(states[i])
  {
    hide Inv, Apply, Enabled, Disciplined, Served, AllServed;
    if i > 0 {
      ServedRun(states, labels, i - 1);
      RunInv(states, labels, i - 1);
      ServedStep(states[i - 1], labels[i - 1]);
    } else {
      NothingQueued(states[0]);
    }
  }

  lemma NothingQueued(s: State)
    requires Init(s)
    ensures AllServed(s)
  {
  }

  // ----- an entry nobody serves stays for ever -----

  ghost predicate Stuck(s: State) {
    exists i :: 0 <= i < |s.queue| && Deaf(s, s.queue[i].thread)
  }

  lemma StuckStep(s: State, l: Label)
    requires Enabled(s, l) && Stuck(s)
    ensures Stuck(Apply(s, l))
  {
    hide Apply;
    var s' := Apply(s, l);
    var i :| 0 <= i < |s.queue| && Deaf(s, s.queue[i].thread);
    var th := s.queue[i].thread;
    StepKeepsWorkers(s, l);
    if 0 <= th < |s.workers| { StaysRetired(s, l, th); }
    if l.Scan? {
      ScanLeaves(s, l.w, i);
      assert Deaf(s', th);
    } else {
      QueueGrows(s, l);
      assert s'.queue[i] == s.queue[i];
    }
  }

  lemma ScanLeaves(s: State, w: nat, i: nat)
    requires Enabled(s, Scan(w)) && i < |s.queue| && Deaf(s, s.queue[i].thread)
    ensures exists j :: 0 <= j < |Apply(s, Scan(w)).queue| && Apply(s, Scan(w)).queue[j] == s.queue[i]
  {
    var k := FirstEligible(s.fibers, s.queue, w, 0);
    assert !Eligible(s.fibers, w, s.queue[i]);
    var q := Apply(s, Scan(w)).queue;
    assert if k == |s.queue| || i < k then q[i] == s.queue[i] else q[i - 1] == s.queue[i];
  }

  lemma PushSticks(s: State, l: Label)
    requires Enabled(s, l) && !Served(s, l)
    ensures Stuck(Apply(s, l))
  {
    var s' := Apply(s, l);
    assert Deaf(s', s'.queue[|s.queue|].thread);
  }

  lemma {:induction false} StuckRun(states: seq<State>, labels: seq<Label>, k: nat, i: nat)
    requires IsRun(states, labels) && k < |labels| && !Served(states[k], labels[k]) && k < i < |states|
    ensures Stuck(states[i])
    decreases i
  {
    hide Apply, Enabled, Disciplined, Served, Stuck;
    if i == k + 1 {
      PushSticks(states[k], labels[k]);
    } else {
      StuckRun(states, labels, k, i - 1);
      StuckStep(states[i - 1], labels[i - 1]);
    }
  }

  /**
   When all workers have left `run`, the queue is empty exactly when nothing was
   ever scheduled for a thread that had made its last scan (or is no worker);
   and then every task ever accepted has finished or is parked. Scheduling for any
   thread always meets that condition.
   */
  lemma ShutdownIsComplete(states: seq<State>, labels: seq<Label>, t: TaskId)
    requires IsRun(states, labels) && Quiet(states, labels) && AllExited(states[|labels|])
    ensures states[|labels|].queue == [] <==> RunServed(states, labels)
    ensures RunServed(states, labels) && t in states[|labels|].accepted ==>
              t in states[|labels|].finished || Parked(states[|labels|], t)
    ensures (forall k :: 0 <= k < |labels| ==> Unpinned(labels[k])) ==> RunServed(states, labels)
  {
    var s := states[|labels|];
    NothingAbandoned(states, labels, |labels|, t);
    if RunServed(states, labels) {
      ServedRun(states, labels, |labels|);
      ServedIsEmpty(states, labels);
    } else {
      var k :| 0 <= k < |labels| && !Served(states[k], labels[k]);
      StuckRun(states, labels, k, |labels|);
    }
  }

  lemma ServedIsEmpty(states: seq<State>, labels: seq<Label>)
    requires IsRun(states, labels) && AllExited(states[|labels|]) && AllServed(states[|labels|])
    ensures states[|labels|].queue == [] || !OnlyPinned(states[|labels|].queue)
  {
    var s := states[|labels|];
    RunInv(states, labels, |labels|);
    forall w | 0 <= w < |s.workers| ensures Retired(s.workers[w]) {
      assert WorkerOk(s.fibers, s.autoStop && s.stopping, s.workers[w]);
    }
    if s.queue != [] {
      assert !Deaf(s, s.queue[0].thread);
      assert s.queue[0].thread == -1;
    }
  }
}
