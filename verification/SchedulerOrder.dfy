/** Properties that relate different moments of a run: bounded waiting, one start per task, and switch bracketing. */
module SchedulerOrder {
  import opened Common
  import opened SchedulerModel
  import opened SchedulerInvariant
  import opened SchedulerFrames
  import opened SchedulerSteps
  import opened SchedulerTheorems
  import opened SchedulerShutdown

  // ----- bounded waiting -----

  /** Step `i` is a scan by some worker that takes an entry. */
  ghost predicate PickAt(states: seq<State>, labels: seq<Label>, i: nat)
    requires |states| == |labels| + 1 && i < |labels|
  {
    match labels[i]
    case Scan(w) => w < |states[i + 1].workers| && states[i + 1].workers[w].ft.Some?
    case _ => false
  }

  ghost function Picks(states: seq<State>, labels: seq<Label>, i: nat, j: nat): nat
    requires |states| == |labels| + 1 && i <= j <= |labels|
    decreases j - i
  {
    if i == j then 0 else (if PickAt(states, labels, i) then 1 else 0) + Picks(states, labels, i + 1, j)
  }

  /** Step `m` hands `work` to a worker. */
  ghost predicate TakesAt(states: seq<State>, labels: seq<Label>, m: nat, work: Work)
    requires |states| == |labels| + 1 && m < |labels|
  {
    match labels[m]
    case Scan(w) => w < |states[m + 1].workers| && states[m + 1].workers[w].ft == Some(work)
    case _ => false
  }

  /** A scan takes an entry no later in the queue than any unpinned one, and keeps the order of the rest. */
  lemma ScanOvertakesNobody(s: State, w: nat, k: nat)
    requires Inv(s) && At(s, w, Head) && k < |s.queue| && s.queue[k].thread == -1
    ensures w < |DoScan(s, w).workers| && DoScan(s, w).workers[w].ft.Some?
    ensures DoScan(s, w).workers[w].ft == Some(s.queue[k].work)
            || (0 < k <= |DoScan(s, w).queue| && DoScan(s, w).queue[k - 1] == s.queue[k])
  {
    assert Eligible(s.fibers, w, s.queue[k]);
  }

  lemma {:induction false} BoundedWaiting(states: seq<State>, labels: seq<Label>, i: nat, j: nat, k: nat)
      returns (m: nat)
    requires IsRun(states, labels) && i <= j <= |labels| && k < |states[i].queue| && states[i].queue[k].thread == -1
    requires Picks(states, labels, i, j) > k
    ensures i <= m < j && TakesAt(states, labels, m, states[i].queue[k].work)
    ensures Picks(states, labels, i, m + 1) <= k + 1
    decreases j - i
  {
    hide Inv, Apply, Enabled, Disciplined, IsRun, Picks, DoScan;
    RunShape(states, labels);
    PicksStep(states, labels, i, j);
    RunStep(states, labels, i);
    RunInv(states, labels, i);
    var s, l, s' := states[i], labels[i], states[i + 1];
    if l.Scan? {
      ScanApplies(s, l.w);
      ScanOvertakesNobody(s, l.w, k);
      if s'.workers[l.w].ft == Some(s.queue[k].work) {
        m := i;
      } else {
        m := BoundedWaiting(states, labels, i + 1, j, k - 1);
      }
    } else {
      QueueGrows(s, l);
      m := BoundedWaiting(states, labels, i + 1, j, k);
    }
    PicksStep(states, labels, i, m + 1);
  }

  lemma PicksStep(states: seq<State>, labels: seq<Label>, i: nat, j: nat)
    requires |states| == |labels| + 1 && i <= j <= |labels|
    ensures i == j ==> Picks(states, labels, i, j) == 0
    ensures i < j ==>
              Picks(states, labels, i, j) == (if PickAt(states, labels, i) then 1 else 0) + Picks(states, labels, i + 1, j)
    ensures i + 1 == j ==> Picks(states, labels, i + 1, j) == 0
  {
  }

  lemma RunStep(states: seq<State>, labels: seq<Label>, i: nat)
    requires IsRun(states, labels) && i < |labels|
    ensures |states| == |labels| + 1
    ensures Enabled(states[i], labels[i]) && states[i + 1] == Apply(states[i], labels[i])
  {
  }

  lemma RunShape(states: seq<State>, labels: seq<Label>)
    requires IsRun(states, labels)
    ensures |states| == |labels| + 1
  {
  }

  lemma ScanApplies(s: State, w: nat)
    requires Enabled(s, Scan(w))
    ensures At(s, w, Head) && Apply(s, Scan(w)) == DoScan(s, w)
  {
  }

  // ----- every task is started once -----

  lemma HistoryGrows(s: State, l: Label)
    requires Enabled(s, l)
    ensures s.started <= Apply(s, l).started
  {
    hide DoDispatch, DoPost, DoScan;
    match l
    case Dispatch(w) => DispatchFrame(s, w);
    case Scan(w) => ScanLocal(s, w);
    case PostProcess(w) => PostLocal(s, w);
    case _ =>
  }

  lemma {:induction false} StartedStays(states: seq<State>, labels: seq<Label>, i: nat, j: nat)
    requires IsRun(states, labels) && i <= j < |states|
    ensures states[i].started <= states[j].started
    decreases j - i
  {
    if i < j {
      hide Apply, Enabled, Disciplined;
      HistoryGrows(states[j - 1], labels[j - 1]);
      StartedStays(states, labels, i, j - 1);
    }
  }

  /** The task whose function `MainFunc` is about to call on worker `w`. */
  ghost function Starting(s: State, w: nat): Option<TaskId>
    requires w < |s.workers|
  {
    match Self(s, w)
    case Some(f) => s.fibers[f].task
    case None => None
  }

  lemma EnterStarts(s: State, w: nat)
    requires Inv(s) && Enabled(s, Enter(w))
    ensures Starting(s, w).Some? && Starting(s, w).value in s.accepted - s.started
    ensures Apply(s, Enter(w)).started == s.started + {Starting(s, w).value}
  {
    WorkerFacts(s, w);
    SliceFacts(s, w, Slice(s.workers[w]).value);
  }

  lemma StartedOnce(states: seq<State>, labels: seq<Label>, i: nat, j: nat, v: nat, w: nat)
    requires IsRun(states, labels) && i < j < |labels|
    requires labels[i] == Enter(v) && v < |states[i].workers| && labels[j] == Enter(w) && w < |states[j].workers|
    ensures Starting(states[i], v).Some? && Starting(states[j], w).Some?
    ensures Starting(states[i], v) != Starting(states[j], w)
  {
    hide Inv, Apply, Enabled, Disciplined, IsRun, Starting;
    RunShape(states, labels);
    RunStep(states, labels, i);
    RunStep(states, labels, j);
    RunInv(states, labels, i);
    RunInv(states, labels, j);
    EnterStarts(states[i], v);
    EnterStarts(states[j], w);
    StartedStays(states, labels, i + 1, j);
  }

  // ----- switch bracketing -----

  /** Within a slice a worker keeps its entry and its callback fiber, so it stays on the fiber it loaded. */
  lemma SliceStays(s: State, l: Label, w: nat)
    requires Enabled(s, l) && w < |s.workers| && w < |Apply(s, l).workers|
    requires InFiber(Apply(s, l).workers[w].pc) && l != Dispatch(w)
    ensures InFiber(s.workers[w].pc)
    ensures Slice(Apply(s, l).workers[w]) == Slice(s.workers[w])
  {
    if Driver(l) != Some(w) {
      hide Apply, Enabled;
      OthersStay(s, l, w);
    } else {
      OwnSliceStays(s, l, w);
    }
  }

  lemma OwnSliceStays(s: State, l: Label, w: nat)
    requires Enabled(s, l) && Driver(l) == Some(w) && w < |s.workers| && w < |Apply(s, l).workers|
    ensures InFiber(Apply(s, l).workers[w].pc) && l != Dispatch(w) ==>
              InsideFiber(l) && InFiber(s.workers[w].pc) && Slice(Apply(s, l).workers[w]) == Slice(s.workers[w])
  {
    hide DoDispatch, DoPost, DoEnter, DoYield, DoFinish, DoUnref, DoSwapOut, StaysInside, PutsAway, FirstEligible;
    if InsideFiber(l) {
      StaysInSlice(s, l, w);
    } else if l.PostProcess? {
      PostLeaves(s, w);
    }
  }

  lemma StaysInSlice(s: State, l: Label, w: nat)
    requires Enabled(s, l) && InsideFiber(l) && Driver(l) == Some(w)
    ensures w < |s.workers| && InFiber(s.workers[w].pc)
    ensures w < |Apply(s, l).workers| && Slice(Apply(s, l).workers[w]) == Slice(s.workers[w])
  {
    hide Apply, Enabled;
    InsideLocal(s, l, w);
  }

  lemma PostLeaves(s: State, w: nat)
    requires At(s, w, Post)
    ensures w < |DoPost(s, w).workers| && !InFiber(DoPost(s, w).workers[w].pc)
  {
    hide DoPost;
    PostLocal(s, w);
  }

  /**
   Whenever a worker is inside a fiber, it got there by its own `swapIn` of that
   very fiber and has not left it since. That call found no saved context in the
   thread's scheduling fiber and saved the one that is there still, whatever
   worker the fiber was suspended on before.
   */
  lemma {:induction false} LoadedBySwapIn(states: seq<State>, labels: seq<Label>, j: nat, w: nat) returns (i: nat)
    requires IsRun(states, labels) && j < |states| && w < |states[j].workers| && InFiber(states[j].workers[w].pc)
    ensures i < j && labels[i] == Dispatch(w)
    ensures forall m :: i < m <= j ==>
              w < |states[m].workers| && InFiber(states[m].workers[w].pc)
              && Slice(states[m].workers[w]) == Slice(states[j].workers[w])
              && Slice(states[m].workers[w]).Some?
              && states[m].workers[w].resume == Of(Slice(states[m].workers[w]).value)
    ensures w < |states[i].workers| && states[i].workers[w].pc == Scanned && states[i].workers[w].resume == Main
    ensures j < |labels| && labels[j] == SwapOut(w) ==>
              w < |states[j + 1].workers| && states[j + 1].workers[w].pc == Back && states[j + 1].workers[w].resume == Main
              && Slice(states[j + 1].workers[w]) == Slice(states[j].workers[w])
  {
    hide Apply, Enabled, Disciplined, Inv;
    RunInv(states, labels, j);
    SavedHere(states[j], w);
    if j < |labels| && labels[j] == SwapOut(w) { SwapOutReturns(states[j], w); }
    if labels[j - 1] == Dispatch(w) {
      i := j - 1;
      DispatchIsScanned(states[i], w);
      RunInv(states, labels, i);
      NothingSaved(states[i], w);
    } else {
      StepKeepsWorkers(states[j - 1], labels[j - 1]);
      SliceStays(states[j - 1], labels[j - 1], w);
      i := LoadedBySwapIn(states, labels, j - 1, w);
    }
  }

  lemma SavedHere(s: State, w: nat)
    requires Inv(s) && w < |s.workers| && InFiber(s.workers[w].pc)
    ensures Slice(s.workers[w]).Some? && s.workers[w].resume == Of(Slice(s.workers[w]).value)
  {
    hide Inv;
    WorkerFacts(s, w);
  }

  lemma NothingSaved(s: State, w: nat)
    requires Inv(s) && At(s, w, Scanned)
    ensures s.workers[w].resume == Main
  {
    hide Inv;
    WorkerFacts(s, w);
  }

  lemma SwapOutReturns(s: State, w: nat)
    requires Inv(s) && Enabled(s, SwapOut(w)) && w < |s.workers|
    ensures var s' := Apply(s, SwapOut(w));
            w < |s'.workers| && s'.workers[w].pc == Back && s'.workers[w].resume == Main
            && Slice(s'.workers[w]) == Slice(s.workers[w])
  {
    hide Inv;
    WorkerFacts(s, w);
    SliceFacts(s, w, Slice(s.workers[w]).value);
  }

  lemma DispatchIsScanned(s: State, w: nat)
    requires Enabled(s, Dispatch(w))
    ensures At(s, w, Scanned)
  {
  }
}
