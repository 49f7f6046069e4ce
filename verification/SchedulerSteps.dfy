/** Every step of a worker, and every disciplined act around the scheduler, keeps the invariant. */
module SchedulerSteps {
  import opened Common
  import opened SchedulerModel
  import opened SchedulerInvariant
  import opened SchedulerFrames
  import opened SchedulerMoves
  import opened SchedulerOutside

  // ----- inside a slice -----

  lemma EnterInv(s: State, w: nat)
    requires Inv(s) && At(s, w, Entering)
    ensures Inv(DoEnter(s, w))
  {
    hide Inv;
    WorkerFacts(s, w);
    var f := Slice(s.workers[w]).value;
    SliceFacts(s, w, f);
    SliceInv(s, DoEnter(s, w), w, f);
  }

  lemma YieldInv(s: State, w: nat, ready: bool)
    requires Inv(s) && At(s, w, Running)
    ensures Inv(DoYield(s, w, ready))
  {
    hide Inv;
    WorkerFacts(s, w);
    var f := Slice(s.workers[w]).value;
    SliceFacts(s, w, f);
    SliceInv(s, DoYield(s, w, ready), w, f);
  }

  lemma FinishTask(s: State, w: nat, ok: bool, f: FiberId)
    requires At(s, w, Running) && Self(s, w) == Some(f) && s.fibers[f].state == EXEC
    requires HistoryOk(s) && TaskOk(s, s.fibers[f]) && s.fibers[f].own
    ensures var s' := DoFinish(s, w, ok); f in s'.fibers && TaskStep(s, s', s.fibers[f], s'.fibers[f])
  {
  }

  lemma FinishInv(s: State, w: nat, ok: bool)
    requires Inv(s) && At(s, w, Running)
    ensures Inv(DoFinish(s, w, ok))
  {
    hide Inv, TaskStep;
    WorkerFacts(s, w);
    var f := Slice(s.workers[w]).value;
    SliceFacts(s, w, f);
    FinishTask(s, w, ok, f);
    SliceInv(s, DoFinish(s, w, ok), w, f);
  }

  lemma UnrefInv(s: State, w: nat)
    requires Inv(s) && At(s, w, Ending)
    ensures Inv(DoUnref(s, w))
  {
    hide Inv;
    WorkerFacts(s, w);
    var f := Slice(s.workers[w]).value;
    SliceFacts(s, w, f);
    SliceInv(s, DoUnref(s, w), w, f);
  }

  lemma SwapOutTask(s: State, w: nat, f: FiberId)
    requires (At(s, w, Leaving) || At(s, w, Unreferenced)) && Self(s, w) == Some(f) && s.workers[w].resume == Of(f)
    requires HistoryOk(s) && TaskOk(s, s.fibers[f]) && s.fibers[f].state != INIT
    ensures var s' := DoSwapOut(s, w); f in s'.fibers && TaskStep(s, s', s.fibers[f], s'.fibers[f])
  {
  }

  lemma SwapOutInv(s: State, w: nat)
    requires Inv(s) && (At(s, w, Leaving) || At(s, w, Unreferenced))
    ensures Inv(DoSwapOut(s, w))
  {
    hide Inv, TaskStep;
    WorkerFacts(s, w);
    var f := Slice(s.workers[w]).value;
    SliceFacts(s, w, f);
    SwapOutTask(s, w, f);
    SliceInv(s, DoSwapOut(s, w), w, f);
  }

  lemma DecrementInv(s: State, w: nat)
    requires Inv(s) && At(s, w, Back)
    ensures Inv(SetPc(s, w, Post).(active := s.active - 1))
  {
    hide Inv;
    WorkerFacts(s, w);
    var f := Slice(s.workers[w]).value;
    SliceFacts(s, w, f);
    SliceInv(s, SetPc(s, w, Post).(active := s.active - 1), w, f);
  }

  lemma DispatchFiberInv(s: State, w: nat, f: FiberId)
    requires Inv(s) && At(s, w, Scanned) && s.workers[w].ft == Some(FiberWork(f))
    ensures Inv(DoDispatch(s, w))
  {
    hide Inv;
    WorkerFacts(s, w);
    SliceFacts(s, w, f);
    HeldAccepted(s, w, f);
    SliceInv(s, DoDispatch(s, w), w, f);
  }

  /** The task of a fiber in a worker's hands was accepted. */
  lemma HeldAccepted(s: State, w: nat, f: FiberId)
    requires Inv(s) && w < |s.workers| && Holds(s.workers[w], FiberWork(f)) && f in s.fibers && s.fibers[f].task.Some?
    ensures s.fibers[f].task.value in s.accepted
  {
    assert Held(s.workers, FiberWork(f));
    assert TaskOk(s, s.fibers[f]);
  }

  // ----- the idle fiber -----

  lemma DispatchIdleInv(s: State, w: nat)
    requires Inv(s) && At(s, w, Scanned) && s.workers[w].ft == None
    ensures Inv(DoDispatch(s, w))
  {
    hide Inv;
    WorkerFacts(s, w);
    SoloInv(s, DoDispatch(s, w), w);
  }

  lemma IdleCheckInv(s: State, w: nat)
    requires Inv(s) && At(s, w, IdleRun)
    ensures Inv(DoIdleCheck(s, w))
  {
    hide Inv;
    WorkerFacts(s, w);
    SoloInv(s, DoIdleCheck(s, w), w);
  }

  lemma IdleLeaveInv(s: State, w: nat)
    requires Inv(s) && At(s, w, IdleBack)
    ensures Inv(DoIdleLeave(s, w))
  {
    hide Inv;
    WorkerFacts(s, w);
    SoloInv(s, DoIdleLeave(s, w), w);
  }

  lemma ReleaseCbInv(s: State, w: nat)
    requires Inv(s) && At(s, w, DropCb)
    ensures Inv(SetWorker(s, w, s.workers[w].(pc := Head, cb := None)))
  {
    hide Inv;
    WorkerFacts(s, w);
    SoloInv(s, SetWorker(s, w, s.workers[w].(pc := Head, cb := None)), w);
  }

  // ----- work changing hands -----

  lemma ScanInv(s: State, w: nat)
    requires Inv(s) && At(s, w, Head)
    ensures Inv(DoScan(s, w))
  {
    hide Inv;
    WorkerFacts(s, w);
    var k := FirstEligible(s.fibers, s.queue, w, 0);
    if k < |s.queue| {
      PickInv(s, DoScan(s, w), w, k);
    } else {
      SoloInv(s, DoScan(s, w), w);
    }
  }

  lemma DispatchCbInv(s: State, w: nat, t: TaskId)
    requires Inv(s) && At(s, w, Scanned) && s.workers[w].ft == Some(CbWork(t))
    ensures Inv(DoDispatch(s, w))
  {
    hide Inv;
    WorkerFacts(s, w);
    var f := if s.workers[w].cb.Some? then s.workers[w].cb.value else s.nextFiber;
    SpareIsOld(s, w);
    StartInv(s, DoDispatch(s, w), w, f, t);
  }

  lemma SpareIsOld(s: State, w: nat)
    requires Inv(s) && w < |s.workers|
    ensures s.workers[w].cb.Some? ==> s.workers[w].cb.value in s.fibers && s.workers[w].cb.value < s.nextFiber
  {
  }

  lemma PostProcessInv(s: State, w: nat)
    requires Inv(s) && At(s, w, Post)
    ensures Inv(DoPost(s, w))
  {
    hide Inv;
    WorkerFacts(s, w);
    var f := Slice(s.workers[w]).value;
    SliceFacts(s, w, f);
    if s.workers[w].ft.value.CbWork? && Done(s.fibers[f].state) {
      RecycleInv(s, DoPost(s, w), w, f);
    } else {
      assert s.fibers == s.fibers[f := s.fibers[f]];
      LetGoInv(s, DoPost(s, w), w, f, s.fibers[f].state == READY);
    }
  }

  // ----- around the scheduler -----

  lemma PushCbInv(s: State, thread: int)
    requires Inv(s)
    ensures Inv(DoPushCb(s, thread))
  {
    assert !Queued(s.queue, CbWork(s.nextTask)) && !Held(s.workers, CbWork(s.nextTask));
    PushInv(s, DoPushCb(s, thread), Entry(CbWork(s.nextTask), thread));
  }

  lemma PushFiberInv(s: State, f: FiberId, thread: int, move: bool)
    requires Inv(s) && f in s.ext && f in s.fibers && (s.fibers[f].state == INIT || s.fibers[f].state == HOLD)
    requires !Queued(s.queue, FiberWork(f)) && !Held(s.workers, FiberWork(f))
    ensures Inv(DoPushFiber(s, f, thread, move))
  {
    hide Inv;
    LooseFacts(s, f);
    PushInv(s, DoPushFiber(s, f, thread, move), Entry(FiberWork(f), thread));
  }

  lemma LooseFacts(s: State, f: FiberId)
    requires Inv(s) && f in s.fibers && !Queued(s.queue, FiberWork(f)) && !Held(s.workers, FiberWork(f))
    ensures Loose(s.fibers[f]) && TaskOk(s, s.fibers[f]) && f < s.nextFiber
  {
  }

  lemma NewFiberInv(s: State)
    requires Inv(s)
    ensures Inv(Apply(s, NewFiber))
  {
    assert !Queued(s.queue, FiberWork(s.nextFiber)) && !Held(s.workers, FiberWork(s.nextFiber)) by {
      assert s.nextFiber !in s.fibers;
      assert forall w :: 0 <= w < |s.workers| ==> WorkerOk(s.fibers, s.autoStop && s.stopping, s.workers[w]);
    }
    TouchInv(s, Apply(s, NewFiber), s.nextFiber);
  }

  lemma ResetFiberInv(s: State, f: FiberId)
    requires Inv(s) && f in s.fibers && (s.fibers[f].state == INIT || Done(s.fibers[f].state))
    requires !Queued(s.queue, FiberWork(f)) && !Held(s.workers, FiberWork(f))
    ensures Inv(DoReset(s, f))
  {
    LooseFacts(s, f);
    TouchInv(s, DoReset(s, f), f);
  }

  lemma DestroyInv(s: State, f: FiberId)
    requires Inv(s) && f in s.fibers && !Referenced(s, f)
    ensures Inv(DoDestroy(s, f))
  {
    assert !Held(s.workers, FiberWork(f));
    LooseFacts(s, f);
    TouchInv(s, DoDestroy(s, f), f);
  }

  lemma FlagsInv(s: State, s': State)
    requires Inv(s) && s' == s.(ext := s'.ext, autoStop := s'.autoStop, stopping := s'.stopping)
    requires s'.ext <= s.fibers.Keys && (s.autoStop ==> s'.autoStop) && (s.stopping ==> s'.stopping)
    ensures Inv(s')
  {
    forall w | 0 <= w < |s.workers| ensures WorkerOk(s.fibers, s'.autoStop && s'.stopping, s.workers[w]) {
      assert WorkerOk(s.fibers, s.autoStop && s.stopping, s.workers[w]);
    }
    FlagsTasks(s, s');
  }

  lemma FlagsTasks(s: State, s': State)
    requires TasksOk(s) && s' == s.(ext := s'.ext, autoStop := s'.autoStop, stopping := s'.stopping)
    ensures TasksOk(s')
  {
    assert s'.fibers == s.fibers && s'.queue == s.queue && s'.workers == s.workers;
    forall t: TaskId ensures CbOk(s', t) == CbOk(s, t) && Located(s', t) == Located(s, t) {
    }
    forall f | f in s.fibers ensures TaskOk(s', s.fibers[f]) {
      assert TaskOk(s, s.fibers[f]);
    }
    hide CbOk, Located, TaskOk;
    CbsKept(s, s');
    forall f | f in s.fibers && s.fibers[f].state == INIT && s.fibers[f].task.Some?
      ensures s.fibers[f].task.value in s.accepted <==> Queued(s.queue, FiberWork(f)) || Held(s.workers, FiberWork(f))
    {
      var held := Held(s.workers, FiberWork(f));
    }
  }

  lemma ExtInv(s: State, ext: set<FiberId>)
    requires Inv(s) && ext <= s.fibers.Keys
    ensures Inv(s.(ext := ext))
  {
    FlagsInv(s, s.(ext := ext));
  }

  // ----- all of them -----

  lemma StepInv(s: State, l: Label)
    requires Inv(s) && Enabled(s, l) && Disciplined(s, l)
    ensures Inv(Apply(s, l))
  {
    hide Inv, Held, Queued, Referenced;
    hide DoScan, DoDispatch, DoEnter, DoYield, DoFinish, DoUnref, DoSwapOut, DoPost, DoIdleCheck, DoIdleLeave;
    match l
    case Scan(w) => ScanInv(s, w);
    case Dispatch(w) =>
      match s.workers[w].ft {
        case None => DispatchIdleInv(s, w);
        case Some(FiberWork(f)) => DispatchFiberInv(s, w, f);
        case Some(CbWork(t)) => DispatchCbInv(s, w, t);
      }
    case Enter(w) => EnterInv(s, w);
    case Yield(w, ready) => YieldInv(s, w, ready);
    case Finish(w, ok) => FinishInv(s, w, ok);
    case Unref(w) => UnrefInv(s, w);
    case SwapOut(w) => SwapOutInv(s, w);
    case Decrement(w) => DecrementInv(s, w);
    case PostProcess(w) => PostProcessInv(s, w);
    case ReleaseCb(w) => ReleaseCbInv(s, w);
    case IdleCheck(w) => IdleCheckInv(s, w);
    case IdleLeave(w) => IdleLeaveInv(s, w);
    case PushCb(_, thread) => PushCbInv(s, thread);
    case PushFiber(_, f, thread, move) => PushFiberInv(s, f, thread, move);
    case NewFiber => NewFiberInv(s);
    case ResetFiber(f) => ResetFiberInv(s, f);
    case Share(w) => ShareInv(s, w);
    case Forget(f) => IdsFacts(s); ExtInv(s, s.ext - {f});
    case Destroy(f) => DestroyInv(s, f);
    case SetAutoStop => IdsFacts(s); FlagsInv(s, s.(autoStop := true));
    case SetStopping => IdsFacts(s); FlagsInv(s, s.(stopping := true));
  }

  lemma IdsFacts(s: State)
    requires Inv(s)
    ensures IdsOk(s)
  {
  }

  lemma ShareInv(s: State, w: nat)
    requires Inv(s) && At(s, w, Running)
    ensures Inv(Apply(s, Share(w)))
  {
    hide Inv;
    WorkerFacts(s, w);
    IdsFacts(s);
    ExtInv(s, s.ext + {Slice(s.workers[w]).value});
  }

  lemma InitInv(s: State)
    requires Init(s)
    ensures Inv(s)
  {
  }
}
