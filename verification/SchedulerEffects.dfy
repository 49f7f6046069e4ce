/** What a slice comes to, told from the steps taken: over any run, whatever the other workers and outside code do meanwhile. */
module SchedulerEffects {
  import opened Common
  import opened SchedulerModel
  import opened SchedulerInvariant
  import opened SchedulerFrames
  import opened SchedulerMoves
  import opened SchedulerSteps
  import opened SchedulerTheorems
  import opened SchedulerShutdown
  import opened SchedulerStopping
  import opened SchedulerCompletion

  // ----- nobody else touches a fiber in a worker's hands -----

  /** Fibers worker `v` does not hold are as they were. */
  ghost predicate Spares(s: State, s': State, v: nat)
    requires v < |s.workers|
  {
    forall f :: f in s.fibers && !Holds(s.workers[v], FiberWork(f)) ==> f in s'.fibers && s'.fibers[f] == s.fibers[f]
  }

  lemma InsideSpares(s: State, l: Label, v: nat)
    requires Inv(s) && Enabled(s, l) && InsideFiber(l) && Driver(l) == Some(v) && v < |s.workers|
    ensures Spares(s, Apply(s, l), v)
  {
    hide Inv, DoEnter, DoYield, DoFinish, DoUnref, DoSwapOut;
    WorkerFacts(s, v);
    var g := Slice(s.workers[v]).value;
    SliceFacts(s, v, g);
    assert Holds(s.workers[v], FiberWork(g));
    match l
    case Enter(_) => EnterLawful(s, v, g);
    case Yield(_, ready) => YieldLawful(s, v, ready, g);
    case Finish(_, ok) => FinishLawful(s, v, ok, g);
    case Unref(_) => UnrefLawful(s, v, g);
    case SwapOut(_) => SwapOutLawful(s, v, g);
  }

  lemma DispatchSpares(s: State, v: nat)
    requires Inv(s) && At(s, v, Scanned)
    ensures Spares(s, DoDispatch(s, v), v)
  {
    hide Inv;
    if s.workers[v].ft.Some? {
      hide DoDispatch;
      DispatchLessens(s, v);
    }
  }

  lemma PostSpares(s: State, v: nat)
    requires Inv(s) && At(s, v, Post)
    ensures Spares(s, DoPost(s, v), v)
  {
    hide Inv, DoPost;
    WorkerFacts(s, v);
    var g := Slice(s.workers[v]).value;
    assert Holds(s.workers[v], FiberWork(g));
    PostOutcomes(s, v, g);
  }

  lemma WorkerSpares(s: State, l: Label, v: nat)
    requires Inv(s) && Enabled(s, l) && Driver(l) == Some(v) && v < |s.workers|
    ensures Spares(s, Apply(s, l), v)
  {
    hide Inv, Spares, DoDispatch, DoPost, DoEnter, DoYield, DoFinish, DoUnref, DoSwapOut;
    if InsideFiber(l) {
      InsideSpares(s, l, v);
    } else {
      match l
      case Dispatch(_) => DispatchSpares(s, v);
      case PostProcess(_) => PostSpares(s, v);
      case _ => KeepsFibers(s, l, v);
    }
  }

  lemma KeepsFibers(s: State, l: Label, v: nat)
    requires v < |s.workers| && Enabled(s, l)
    ensures l.Scan? || l.Decrement? || l.ReleaseCb? || l.IdleCheck? || l.IdleLeave? ==> Spares(s, Apply(s, l), v)
  {
    hide Spares, FirstEligible;
    if l.Scan? || l.Decrement? || l.ReleaseCb? || l.IdleCheck? || l.IdleLeave? {
      SameFibers(s, Apply(s, l), v);
    }
  }

  lemma SameFibers(s: State, s': State, v: nat)
    requires v < |s.workers| && s'.fibers == s.fibers
    ensures Spares(s, s', v)
  {
  }

  /** Acts outside the workers leave a fiber in a worker's hands alone. */
  lemma OutsideSpares(s: State, l: Label, w: nat, f: FiberId)
    requires Enabled(s, l) && Disciplined(s, l) && Driver(l) == None
    requires w < |s.workers| && Holds(s.workers[w], FiberWork(f)) && f in s.fibers && f < s.nextFiber
    ensures f in Apply(s, l).fibers && Apply(s, l).fibers[f] == s.fibers[f]
  {
    assert Held(s.workers, FiberWork(f));
    assert s.workers[w].ft == Some(FiberWork(f)) || s.workers[w].cb == Some(f);
  }

  lemma HeldStays(s: State, l: Label, w: nat, f: FiberId)
    requires Inv(s) && Enabled(s, l) && Disciplined(s, l) && Driver(l) != Some(w)
    requires w < |s.workers| && Holds(s.workers[w], FiberWork(f)) && f in s.fibers
    ensures w < |Apply(s, l).workers| && Apply(s, l).workers[w] == s.workers[w]
    ensures f in Apply(s, l).fibers && Apply(s, l).fibers[f] == s.fibers[f]
  {
    hide Inv, Apply, Enabled, Disciplined;
    OthersStay(s, l, w);
    match Driver(l)
    case Some(v) =>
      DriverExists(s, l, v);
      NotBoth(s, w, v, FiberWork(f));
      WorkerSpares(s, l, v);
    case None =>
      IdsFacts(s);
      OutsideSpares(s, l, w, f);
  }

  lemma DriverExists(s: State, l: Label, v: nat)
    requires Enabled(s, l) && Driver(l) == Some(v)
    ensures v < |s.workers|
  {
  }

  // ----- from a yield or the end of the task to its post-processing -----

  /** How a slice ended: how the fiber's state reads, and what is left in `m_cb`. */
  datatype SliceEnd = SliceEnd(state: FState, task: Option<TaskId>)

  /** Worker `w` is on its way from the end of its slice to the post-processing, with fiber `f` so left. */
  ghost predicate OnItsWay(s: State, w: nat, f: FiberId, ft: Option<Work>, end: SliceEnd) {
    && w < |s.workers| && Slice(s.workers[w]) == Some(f) && s.workers[w].ft == ft
    && (s.workers[w].pc in {Leaving, Ending, Unreferenced, Back, Post})
    && f in s.fibers && s.fibers[f].state == end.state && s.fibers[f].task == end.task
  }

  lemma OwnWay(s: State, l: Label, w: nat, f: FiberId, ft: Option<Work>, end: SliceEnd)
    requires Inv(s) && Enabled(s, l) && Driver(l) == Some(w) && OnItsWay(s, w, f, ft, end) && l != PostProcess(w)
    ensures OnItsWay(Apply(s, l), w, f, ft, end)
  {
    hide Inv;
    WorkerFacts(s, w);
  }

  lemma OthersWay(s: State, l: Label, w: nat, f: FiberId, ft: Option<Work>, end: SliceEnd)
    requires Inv(s) && Enabled(s, l) && Disciplined(s, l) && Driver(l) != Some(w) && OnItsWay(s, w, f, ft, end)
    ensures OnItsWay(Apply(s, l), w, f, ft, end)
  {
    hide Inv, Apply, Enabled, Disciplined;
    WorkerFacts(s, w);
    assert Holds(s.workers[w], FiberWork(f));
    HeldStays(s, l, w, f);
  }

  lemma {:induction false} WayGoesOn(states: seq<State>, labels: seq<Label>, i: nat, j: nat, w: nat, f: FiberId,
                                     ft: Option<Work>, end: SliceEnd)
    requires IsRun(states, labels) && i <= j < |states| && OnItsWay(states[i], w, f, ft, end)
    requires forall m {:trigger labels[m]} :: i <= m < j ==> labels[m] != PostProcess(w)
    ensures OnItsWay(states[j], w, f, ft, end)
    decreases j
  {
    hide Inv, Apply, Enabled, Disciplined, OnItsWay;
    if i < j {
      WayGoesOn(states, labels, i, j - 1, w, f, ft, end);
      RunInv(states, labels, j - 1);
      var s, l := states[j - 1], labels[j - 1];
      if Driver(l) == Some(w) { OwnWay(s, l, w, f, ft, end); } else { OthersWay(s, l, w, f, ft, end); }
    }
  }

  /** The fiber whose code worker `w` has loaded at step `i`, and the entry it came from. */
  lemma Loaded(states: seq<State>, labels: seq<Label>, i: nat, w: nat) returns (f: FiberId)
    requires IsRun(states, labels) && i < |labels| && At(states[i], w, Running)
    ensures Slice(states[i].workers[w]) == Some(f) && f in states[i].fibers && states[i].fibers[f].task.Some?
  {
    hide Inv, Apply, Enabled, Disciplined;
    RunInv(states, labels, i);
    WorkerFacts(states[i], w);
    f := Slice(states[i].workers[w]).value;
    SliceFacts(states[i], w, f);
  }

  lemma FinishLeaves(s: State, w: nat, ok: bool, f: FiberId)
    requires Inv(s) && Enabled(s, Finish(w, ok)) && Slice(s.workers[w]) == Some(f)
    ensures f in s.fibers
    ensures OnItsWay(Apply(s, Finish(w, ok)), w, f, s.workers[w].ft,
                     if ok then SliceEnd(TERM, None) else SliceEnd(EXCEPT, s.fibers[f].task))
    ensures s.fibers[f].task.Some? && Apply(s, Finish(w, ok)).finished == s.finished + {s.fibers[f].task.value}
  {
    hide Inv;
    WorkerFacts(s, w);
    SliceFacts(s, w, f);
  }

  lemma YieldLeaves(s: State, w: nat, ready: bool, f: FiberId)
    requires Inv(s) && Enabled(s, Yield(w, ready)) && Slice(s.workers[w]) == Some(f)
    ensures f in s.fibers
    ensures OnItsWay(Apply(s, Yield(w, ready)), w, f, s.workers[w].ft,
                     SliceEnd(if ready then READY else HOLD, s.fibers[f].task))
    ensures Apply(s, Yield(w, ready)).finished == s.finished
  {
    hide Inv;
    WorkerFacts(s, w);
    SliceFacts(s, w, f);
  }

  ghost predicate EndsSlice(l: Label, w: nat) {
    (l.Finish? || l.Yield?) && l.w == w
  }

  /** How the label ends the slice of a fiber with this task. */
  ghost function EndOf(l: Label, task: Option<TaskId>): SliceEnd
    requires l.Finish? || l.Yield?
  {
    match l
    case Finish(_, ok) => if ok then SliceEnd(TERM, None) else SliceEnd(EXCEPT, task)
    case Yield(_, ready) => SliceEnd(if ready then READY else HOLD, task)
  }

  lemma SliceEnds(states: seq<State>, labels: seq<Label>, i: nat, j: nat, w: nat, f: FiberId)
    requires IsRun(states, labels) && i < j < |states| && i < |labels| && EndsSlice(labels[i], w)
    requires w < |states[i].workers| && Slice(states[i].workers[w]) == Some(f)
    requires forall m {:trigger labels[m]} :: i < m < j ==> labels[m] != PostProcess(w)
    ensures f in states[i].fibers
    ensures OnItsWay(states[j], w, f, states[i].workers[w].ft, EndOf(labels[i], states[i].fibers[f].task))
  {
    hide Inv, Apply, Enabled, Disciplined, OnItsWay;
    RunInv(states, labels, i);
    var s, l := states[i], labels[i];
    if l.Finish? { FinishLeaves(s, w, l.ok, f); } else { YieldLeaves(s, w, l.ready, f); }
    WayGoesOn(states, labels, i + 1, j, w, f, s.workers[w].ft, EndOf(l, s.fibers[f].task));
  }

  /**
   A task that returned leaves its fiber in TERM with nothing in `m_cb`, one that
   threw in EXCEPT with its function still there, at every moment up to the
   worker's post-processing; and the task counts as finished from then on.
   */
  lemma EndOfTask(states: seq<State>, labels: seq<Label>, i: nat, j: nat, w: nat, ok: bool)
    requires IsRun(states, labels) && i < j < |states| && i < |labels| && labels[i] == Finish(w, ok)
    requires forall m {:trigger labels[m]} :: i < m < j ==> labels[m] != PostProcess(w) && labels[m] != Dispatch(w)
    ensures w < |states[i].workers| && w < |states[j].workers| && Slice(states[i].workers[w]).Some?
    ensures var f := Slice(states[i].workers[w]).value;
            && Slice(states[j].workers[w]) == Some(f) && f in states[i].fibers && f in states[j].fibers
            && states[i].fibers[f].task.Some?
            && (ok ==> states[j].fibers[f].state == TERM && states[j].fibers[f].task == None)
            && (!ok ==> states[j].fibers[f].state == EXCEPT && states[j].fibers[f].task == states[i].fibers[f].task)
            && states[i + 1].finished == states[i].finished + {states[i].fibers[f].task.value}
  {
    hide Inv, Apply, Disciplined;
    var f := Loaded(states, labels, i, w);
    SliceEnds(states, labels, i, j, w, f);
    RunInv(states, labels, i);
    FinishLeaves(states[i], w, ok, f);
  }

  /** A task that yielded leaves its fiber in READY or HOLD, with its function, up to the worker's post-processing. */
  lemma AfterYield(states: seq<State>, labels: seq<Label>, i: nat, j: nat, w: nat, ready: bool)
    requires IsRun(states, labels) && i < j < |states| && i < |labels| && labels[i] == Yield(w, ready)
    requires forall m {:trigger labels[m]} :: i < m < j ==> labels[m] != PostProcess(w) && labels[m] != Dispatch(w)
    ensures w < |states[i].workers| && w < |states[j].workers| && Slice(states[i].workers[w]).Some?
    ensures var f := Slice(states[i].workers[w]).value;
            && Slice(states[j].workers[w]) == Some(f) && f in states[i].fibers && f in states[j].fibers
            && states[j].fibers[f].state == (if ready then READY else HOLD)
            && states[j].fibers[f].task == states[i].fibers[f].task && states[j].fibers[f].task.Some?
            && states[i + 1].finished == states[i].finished
  {
    hide Inv, Apply, Disciplined;
    var f := Loaded(states, labels, i, w);
    SliceEnds(states, labels, i, j, w, f);
    RunInv(states, labels, i);
    YieldLeaves(states[i], w, ready, f);
  }

  // ----- what the loop makes of it -----

  lemma PutAway(s: State, w: nat, f: FiberId, ft: Option<Work>, end: SliceEnd)
    requires Inv(s) && At(s, w, Post) && OnItsWay(s, w, f, ft, end)
    ensures var s' := Apply(s, PostProcess(w));
            && w < |s'.workers| && f in s'.fibers
            && (end.state == READY ==> s'.queue == s.queue + [Entry(FiberWork(f), -1)] && s'.fibers == s.fibers)
            && (end.state != READY ==> s'.queue == s.queue)
            && (end.state == HOLD ==> s'.fibers[f].state == HOLD && s'.fibers[f].task == end.task)
            && (Done(end.state) && ft.Some? && ft.value.FiberWork? ==> s'.fibers == s.fibers)
            && (Done(end.state) && ft.Some? && ft.value.CbWork? ==>
                  s'.fibers[f] == Fiber(INIT, Fresh, false, None) && s'.workers[w].cb == Some(f))
            && (ft.Some? && ft.value.CbWork? && !Done(end.state) ==> s'.workers[w].pc == DropCb)
            && (ft.Some? && (ft.value.FiberWork? || Done(end.state)) ==> s'.workers[w].pc == Head)
  {
    hide Inv;
    WorkerFacts(s, w);
  }

  /**
   The slice as a whole: after `YieldToReady` the fiber is queued last and for any
   thread; after `YieldToHold` it is parked in HOLD with its function; a finished
   fiber stays as it ended, and a finished callback's fiber is kept as a new one.
   */
  lemma AfterSlice(states: seq<State>, labels: seq<Label>, i: nat, j: nat, w: nat)
    requires IsRun(states, labels) && i < j < |labels| && EndsSlice(labels[i], w) && labels[j] == PostProcess(w)
    requires forall m {:trigger labels[m]} :: i < m < j ==> labels[m] != PostProcess(w)
    ensures w < |states[i].workers| && Slice(states[i].workers[w]).Some? && states[i].workers[w].ft.Some?
    ensures var s, s', l, f := states[j], states[j + 1], labels[i], Slice(states[i].workers[w]).value;
            && f in states[i].fibers && f in s'.fibers && w < |s'.workers|
            && (l == Yield(w, true) ==> s'.queue == s.queue + [Entry(FiberWork(f), -1)])
            && (l != Yield(w, true) ==> s'.queue == s.queue)
            && (l == Yield(w, false) ==>
                  s'.fibers[f].state == HOLD && s'.fibers[f].task == states[i].fibers[f].task)
            && (l.Finish? && states[i].workers[w].ft.value.FiberWork? ==>
                  s'.fibers[f].state == (if l.ok then TERM else EXCEPT))
            && (l.Finish? && states[i].workers[w].ft.value.CbWork? ==>
                  s'.fibers[f] == Fiber(INIT, Fresh, false, None) && s'.workers[w].cb == Some(f))
  {
    hide Inv, Apply, Disciplined;
    var f := Loaded(states, labels, i, w);
    var ft, end := states[i].workers[w].ft, EndOf(labels[i], states[i].fibers[f].task);
    SliceEnds(states, labels, i, j, w, f);
    RunInv(states, labels, j);
    PutAway(states[j], w, f, ft, end);
  }

  // ----- a callback runs its own function -----

  /** A callback's fiber carries that callback's task until it ends. */
  ghost predicate RunsPicked(s: State, w: nat) {
    w < |s.workers| && s.workers[w].ft.Some? && s.workers[w].ft.value.CbWork? &&
    s.workers[w].pc in {Entering, Running, Leaving} ==>
      && s.workers[w].cb.Some? && s.workers[w].cb.value in s.fibers
      && s.fibers[s.workers[w].cb.value].task == Some(s.workers[w].ft.value.task)
  }

  lemma EnterRuns(s: State, w: nat)
    requires Inv(s) && Enabled(s, Enter(w)) && RunsPicked(s, w)
    ensures RunsPicked(Apply(s, Enter(w)), w)
  {
    hide Inv;
    WorkerFacts(s, w);
  }

  lemma YieldRuns(s: State, w: nat, ready: bool)
    requires Inv(s) && Enabled(s, Yield(w, ready)) && RunsPicked(s, w)
    ensures RunsPicked(Apply(s, Yield(w, ready)), w)
  {
    hide Inv;
    WorkerFacts(s, w);
  }

  /** The other steps take the worker out of the code that runs for the task. */
  lemma LeavesTask(s: State, l: Label, w: nat)
    requires Inv(s) && Enabled(s, l) && Driver(l) == Some(w) && w < |s.workers|
    requires !l.Dispatch? && !l.PostProcess? && !l.Enter? && !l.Yield?
    ensures w < |Apply(s, l).workers| && Apply(s, l).workers[w].pc !in {Entering, Running, Leaving}
  {
    hide Inv, FirstEligible;
    WorkerFacts(s, w);
    if InFiber(s.workers[w].pc) { SliceFacts(s, w, Slice(s.workers[w]).value); }
  }

  lemma OwnRuns(s: State, l: Label, w: nat)
    requires Inv(s) && Enabled(s, l) && Driver(l) == Some(w) && RunsPicked(s, w) && !l.Dispatch? && !l.PostProcess?
    ensures RunsPicked(Apply(s, l), w)
  {
    hide Inv, Apply, Enabled;
    DriverExists(s, l, w);
    match l
    case Enter(_) => EnterRuns(s, w);
    case Yield(_, ready) => YieldRuns(s, w, ready);
    case _ => LeavesTaskUnless(s, l, w);
  }

  lemma LeavesTaskUnless(s: State, l: Label, w: nat)
    requires Inv(s) && Enabled(s, l) && Driver(l) == Some(w) && w < |s.workers|
    ensures !l.Dispatch? && !l.PostProcess? && !l.Enter? && !l.Yield? ==> RunsPicked(Apply(s, l), w)
  {
    hide Inv, Apply, Enabled;
    if !l.Dispatch? && !l.PostProcess? && !l.Enter? && !l.Yield? { LeavesTask(s, l, w); }
  }

  lemma DispatchRuns(s: State, w: nat)
    requires Inv(s) && Enabled(s, Dispatch(w))
    ensures RunsPicked(DoDispatch(s, w), w)
  {
    hide Inv;
    match s.workers[w].ft
    case None =>
    case Some(FiberWork(f)) => assert DoDispatch(s, w).fault || DoDispatch(s, w).workers[w].ft == Some(FiberWork(f));
    case Some(CbWork(t)) =>
      hide DoDispatch;
      WorkerFacts(s, w);
      NewIdFree(s);
      SpareIsOld(s, w);
      DispatchStarts(s, w, t);
  }

  lemma PostRuns(s: State, w: nat)
    requires At(s, w, Post)
    ensures RunsPicked(DoPost(s, w), w)
  {
    hide DoPost;
    PostLocal(s, w);
  }

  lemma OthersRun(s: State, l: Label, w: nat)
    requires Inv(s) && Enabled(s, l) && Disciplined(s, l) && Driver(l) != Some(w) && RunsPicked(s, w)
    ensures RunsPicked(Apply(s, l), w)
  {
    hide Inv, Apply, Enabled, Disciplined;
    StepKeepsWorkers(s, l);
    if w < |s.workers| {
      OthersStay(s, l, w);
      if s.workers[w].cb.Some? && s.workers[w].cb.value in s.fibers && s.workers[w].pc != DropCb {
        assert Holds(s.workers[w], FiberWork(s.workers[w].cb.value));
        HeldStays(s, l, w, s.workers[w].cb.value);
      }
    }
  }

  /** The code loaded for a picked callback is that callback's, in every state of every run. */
  lemma {:induction false} CallbackRuns(states: seq<State>, labels: seq<Label>, i: nat, w: nat)
    requires IsRun(states, labels) && i < |states|
    ensures RunsPicked(states[i], w)
  {
    hide Inv, Apply, Enabled, Disciplined, RunsPicked;
    if i == 0 {
      NothingRuns(states[0], w);
    } else {
      CallbackRuns(states, labels, i - 1, w);
      RunInv(states, labels, i - 1);
      var s, l := states[i - 1], labels[i - 1];
      if Driver(l) != Some(w) {
        OthersRun(s, l, w);
      } else if l.Dispatch? {
        DispatchApplies(s, w);
        DispatchRuns(s, w);
      } else if l.PostProcess? {
        PostApplies(s, w);
        PostRuns(s, w);
      } else {
        OwnRuns(s, l, w);
      }
    }
  }

  lemma NothingRuns(s: State, w: nat)
    requires Init(s)
    ensures RunsPicked(s, w)
  {
  }

  lemma PostApplies(s: State, w: nat)
    requires Enabled(s, PostProcess(w))
    ensures At(s, w, Post) && Apply(s, PostProcess(w)) == DoPost(s, w)
  {
  }
}
