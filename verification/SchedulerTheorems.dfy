/** What holds of every disciplined run of the scheduler, at every moment and at its end. */
module SchedulerTheorems {
  import opened Common
  import opened SchedulerModel
  import opened SchedulerInvariant
  import opened SchedulerFrames
  import opened SchedulerSteps

  lemma {:induction false} RunInv(states: seq<State>, labels: seq<Label>, i: nat)
    requires IsRun(states, labels) && i < |states|
    ensures Inv(states[i])
  {
    if i == 0 {
      InitInv(states[0]);
    } else {
      RunInv(states, labels, i - 1);
      var l := labels[i - 1];
      hide Inv, Enabled, Apply, Disciplined;
      StepInv(states[i - 1], l);
    }
  }

  // ----- no assertion fails, no fiber is shared -----

  lemma NoFault(states: seq<State>, labels: seq<Label>, i: nat)
    requires IsRun(states, labels) && i < |states|
    ensures !states[i].fault
  {
    RunInv(states, labels, i);
  }

  /** Every piece of work is in one place at most: one queue entry, or the hands of one worker. */
  lemma SingleOwner(states: seq<State>, labels: seq<Label>, i: nat, work: Work)
    requires IsRun(states, labels) && i < |states|
    ensures var s := states[i];
            && (forall a, b :: 0 <= a < b < |s.queue| ==> s.queue[a].work != work || s.queue[b].work != work)
            && (forall v, w :: 0 <= v < w < |s.workers| ==> !Holds(s.workers[v], work) || !Holds(s.workers[w], work))
            && !(Queued(s.queue, work) && Held(s.workers, work))
  {
    RunInv(states, labels, i);
  }

  /**
   The code of a fiber is loaded on one worker at most; `t_fiber` of that worker names it, and nowhere
   else does any thread believe to be in it.
   */
  lemma NoSharedExecution(states: seq<State>, labels: seq<Label>, i: nat, v: nat, w: nat)
    requires IsRun(states, labels) && i < |states| && v < |states[i].workers| && w < |states[i].workers|
    ensures var s := states[i];
            && (InFiber(s.workers[v].pc) <==> s.workers[v].current.Of?)
            && (InFiber(s.workers[v].pc) ==>
                  Slice(s.workers[v]) == Some(s.workers[v].current.fiber) && s.workers[v].current.fiber in s.fibers)
            && (s.workers[v].pc == Running ==> s.fibers[s.workers[v].current.fiber].state == EXEC)
            && (v != w && InFiber(s.workers[v].pc) && InFiber(s.workers[w].pc) ==>
                  Slice(s.workers[v]) != Slice(s.workers[w]))
  {
    RunInv(states, labels, i);
    var s := states[i];
    assert WorkerOk(s.fibers, s.autoStop && s.stopping, s.workers[v]);
    if v != w && InFiber(s.workers[v].pc) && InFiber(s.workers[w].pc) {
      assert WorkerOk(s.fibers, s.autoStop && s.stopping, s.workers[w]);
      assert Holds(s.workers[v], FiberWork(Slice(s.workers[v]).value));
      assert Holds(s.workers[w], FiberWork(Slice(s.workers[w]).value));
    }
  }

  /** A fiber that is running, parked or waiting to resume is referenced; so destruction only meets the allowed states. */
  lemma ReferencesKeepFibersAlive(states: seq<State>, labels: seq<Label>, i: nat, f: FiberId)
    requires IsRun(states, labels) && i < |states| && f in states[i].fibers
    ensures states[i].fibers[f].state in {EXEC, HOLD, READY} ==> Referenced(states[i], f)
    ensures (Queued(states[i].queue, FiberWork(f)) || Held(states[i].workers, FiberWork(f))) ==> Referenced(states[i], f)
  {
    RunInv(states, labels, i);
    var s := states[i];
    if Held(s.workers, FiberWork(f)) {
      var w :| 0 <= w < |s.workers| && Holds(s.workers[w], FiberWork(f));
      assert s.workers[w].ft == Some(FiberWork(f)) || s.workers[w].cb == Some(f);
    } else if !Queued(s.queue, FiberWork(f)) {
      LooseFacts(s, f);
    }
  }

  /** A queued fiber is never finished and never loaded, so a pick never ends in the idle branch with the count raised. */
  lemma QueuedCanRun(states: seq<State>, labels: seq<Label>, i: nat, k: nat)
    requires IsRun(states, labels) && i < |states| && k < |states[i].queue| && states[i].queue[k].work.FiberWork?
    ensures var s, f := states[i], states[i].queue[k].work.fiber;
            f in s.fibers && match s.fibers[f].state
                             case INIT => s.fibers[f].ctx == Fresh
                             case HOLD => s.fibers[f].ctx == Saved
                             case READY => s.fibers[f].ctx == Saved
                             case _ => false
  {
    RunInv(states, labels, i);
  }

  /**
   At the head of the loop `cb_fiber` is null or a new fiber with no task that is
   neither queued nor in another worker's hands, so its `reset` is always allowed.
   */
  lemma SpareAtHead(states: seq<State>, labels: seq<Label>, i: nat, w: nat)
    requires IsRun(states, labels) && i < |states| && At(states[i], w, Head) && states[i].workers[w].cb.Some?
    ensures var s, f := states[i], states[i].workers[w].cb.value;
            && f in s.fibers && s.fibers[f] == Fiber(INIT, Fresh, false, None)
            && !Queued(s.queue, FiberWork(f))
            && forall v :: 0 <= v < |s.workers| && v != w ==> !Holds(s.workers[v], FiberWork(f))
  {
    RunInv(states, labels, i);
    var s := states[i];
    assert WorkerOk(s.fibers, s.autoStop && s.stopping, s.workers[w]);
    assert Holds(s.workers[w], FiberWork(s.workers[w].cb.value));
  }

  // ----- the life cycle -----

  ghost predicate Lawful(a: FState, b: FState) {
    || a == b
    || (b == EXEC && (a == INIT || a == HOLD || a == READY))
    || (a == EXEC && b != INIT)
    || (b == INIT && Done(a))
  }

  lemma LifeCycle(states: seq<State>, labels: seq<Label>, i: nat, f: FiberId)
    requires IsRun(states, labels) && i < |labels| && f in states[i].fibers && f in states[i + 1].fibers
    ensures Lawful(states[i].fibers[f].state, states[i + 1].fibers[f].state)
  {
    RunInv(states, labels, i);
    StepLawful(states[i], labels[i], f);
  }

  lemma DispatchLawful(s: State, w: nat, f: FiberId)
    requires At(s, w, Scanned) && WorkerOk(s.fibers, s.autoStop && s.stopping, s.workers[w])
    requires f in s.fibers && f < s.nextFiber
    ensures f in DoDispatch(s, w).fibers && Lawful(s.fibers[f].state, DoDispatch(s, w).fibers[f].state)
  {
    match s.workers[w].ft
    case None => assert DoDispatch(s, w) == EnterIdle(s, w);
    case Some(FiberWork(g)) => assert DoDispatch(s, w) == SwapIn(s, w, g);
    case Some(CbWork(t)) =>
      var s1 := PrepareCb(s, w, t);
      assert s1.fault || DoDispatch(s, w) == SwapIn(s1, w, s1.workers[w].cb.value);
  }

  /** Fiber `g`, and no other, may change from `s` to `s'`, and lawfully. */
  ghost predicate LawfulAt(s: State, s': State, g: FiberId) {
    && s.fibers.Keys <= s'.fibers.Keys
    && (forall f :: f in s.fibers && f != g ==> s'.fibers[f] == s.fibers[f])
    && (g in s.fibers ==> Lawful(s.fibers[g].state, s'.fibers[g].state))
  }

  lemma PostLawfulAt(s: State, w: nat, g: FiberId)
    requires At(s, w, Post) && Slice(s.workers[w]) == Some(g) && g in s.fibers && s.fibers[g].state != EXEC
    ensures s.fibers[g].state != INIT ==> LawfulAt(s, DoPost(s, w), g)
  {
  }

  lemma PostLawful(s: State, w: nat, f: FiberId)
    requires At(s, w, Post) && WorkerOk(s.fibers, s.autoStop && s.stopping, s.workers[w]) && f in s.fibers
    ensures f in DoPost(s, w).fibers && Lawful(s.fibers[f].state, DoPost(s, w).fibers[f].state)
  {
    hide DoPost;
    PostLawfulAt(s, w, Slice(s.workers[w]).value);
  }

  lemma EnterLawful(s: State, w: nat, g: FiberId)
    requires At(s, w, Entering) && Slice(s.workers[w]) == Some(g)
    ensures LawfulAt(s, DoEnter(s, w), g)
  {
  }

  lemma YieldLawful(s: State, w: nat, ready: bool, g: FiberId)
    requires At(s, w, Running) && Slice(s.workers[w]) == Some(g)
    ensures LawfulAt(s, DoYield(s, w, ready), g)
  {
  }

  lemma FinishLawful(s: State, w: nat, ok: bool, g: FiberId)
    requires At(s, w, Running) && Slice(s.workers[w]) == Some(g) && g in s.fibers && s.fibers[g].state == EXEC
    ensures LawfulAt(s, DoFinish(s, w, ok), g)
  {
  }

  lemma UnrefLawful(s: State, w: nat, g: FiberId)
    requires At(s, w, Ending) && Slice(s.workers[w]) == Some(g)
    ensures LawfulAt(s, DoUnref(s, w), g)
  {
  }

  lemma SwapOutLawful(s: State, w: nat, g: FiberId)
    requires w < |s.workers| && Slice(s.workers[w]) == Some(g)
    ensures LawfulAt(s, DoSwapOut(s, w), g)
  {
  }

  lemma InsideLawful(s: State, w: nat, l: Label, f: FiberId)
    requires w < |s.workers| && WorkerOk(s.fibers, s.autoStop && s.stopping, s.workers[w]) && f in s.fibers
    requires !s.fault && InFiber(s.workers[w].pc) && Enabled(s, l)
    requires l.Enter? || l.Yield? || l.Finish? || l.Unref? || l.SwapOut?
    requires l.w == w
    ensures f in Apply(s, l).fibers && Lawful(s.fibers[f].state, Apply(s, l).fibers[f].state)
  {
    hide DoEnter, DoYield, DoFinish, DoUnref, DoSwapOut;
    var g := Slice(s.workers[w]).value;
    match l
    case Enter(_) => EnterLawful(s, w, g);
    case Yield(_, ready) => YieldLawful(s, w, ready, g);
    case Finish(_, ok) => FinishLawful(s, w, ok, g);
    case Unref(_) => UnrefLawful(s, w, g);
    case SwapOut(_) => SwapOutLawful(s, w, g);
  }

  /** The worker whose slice the label drives, if any. */
  ghost function SliceWorker(l: Label): Option<nat> {
    match l
    case Dispatch(w) => Some(w)
    case PostProcess(w) => Some(w)
    case Enter(w) => Some(w)
    case Yield(w, _) => Some(w)
    case Finish(w, _) => Some(w)
    case Unref(w) => Some(w)
    case SwapOut(w) => Some(w)
    case _ => None
  }

  lemma OutsideLawful(s: State, l: Label, f: FiberId)
    requires Enabled(s, l) && SliceWorker(l) == None
    requires f in s.fibers && f < s.nextFiber && f in Apply(s, l).fibers
    ensures Lawful(s.fibers[f].state, Apply(s, l).fibers[f].state)
  {
  }

  lemma SliceLawful(s: State, l: Label, w: nat, f: FiberId)
    requires Enabled(s, l) && SliceWorker(l) == Some(w) && w < |s.workers|
    requires WorkerOk(s.fibers, s.autoStop && s.stopping, s.workers[w])
    requires f in s.fibers && f < s.nextFiber && f in Apply(s, l).fibers
    ensures Lawful(s.fibers[f].state, Apply(s, l).fibers[f].state)
  {
    hide DoDispatch, DoPost, DoEnter, DoYield, DoFinish, DoUnref, DoSwapOut, Lawful;
    match l
    case Dispatch(_) => DispatchLawful(s, w, f);
    case PostProcess(_) => PostLawful(s, w, f);
    case _ => InsideLawful(s, w, l, f);
  }

  lemma StepLawful(s: State, l: Label, f: FiberId)
    requires Inv(s) && Enabled(s, l) && f in s.fibers && f in Apply(s, l).fibers
    ensures Lawful(s.fibers[f].state, Apply(s, l).fibers[f].state)
  {
    hide Inv, Apply;
    IdsFacts(s);
    match SliceWorker(l)
    case Some(w) =>
      WorkerFacts(s, w);
      SliceLawful(s, l, w, f);
    case None =>
      OutsideLawful(s, l, f);
  }
}
