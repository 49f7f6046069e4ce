/** Which worker a fiber runs on: what a pin promises, and what it does not. */
module SchedulerPlacement {
  import opened Common
  import opened SchedulerModel
  import opened SchedulerInvariant
  import opened SchedulerFrames
  import opened SchedulerSteps
  import opened SchedulerTheorems
  import opened SchedulerShutdown
  import opened SchedulerStopping

  // ----- the first slice -----

  /** The step loads `work` on a worker. */
  ghost predicate Loads(s: State, l: Label, work: Work) {
    l.Dispatch? && l.w < |s.workers| && s.workers[l.w].ft == Some(work)
  }

  /** The entry is still queued, or its own thread has taken it and not loaded it yet. */
  ghost predicate Waits(s: State, e: Entry) {
    || (exists i :: 0 <= i < |s.queue| && s.queue[i] == e)
    || (0 <= e.thread < |s.workers| && s.workers[e.thread].pc == Scanned && s.workers[e.thread].ft == Some(e.work))
  }

  lemma ScanTakesOrKeeps(s: State, w: nat, e: Entry, i: nat)
    requires At(s, w, Head) && i < |s.queue| && s.queue[i] == e && e.thread != -1
    ensures Waits(DoScan(s, w), e)
  {
    var k := FirstEligible(s.fibers, s.queue, w, 0);
    var q := DoScan(s, w).queue;
    if k == |s.queue| || i < k {
      assert q[i] == e;
    } else if k < i {
      assert q[i - 1] == e;
    }
  }

  lemma WaitsStep(s: State, l: Label, e: Entry)
    requires Enabled(s, l) && e.thread != -1 && Waits(s, e) && !Loads(s, l, e.work)
    ensures Waits(Apply(s, l), e)
  {
    hide Apply, Enabled, DoScan;
    if i: nat :| i < |s.queue| && s.queue[i] == e {
      if l.Scan? {
        ScanIs(s, l.w);
        ScanTakesOrKeeps(s, l.w, e, i);
      } else {
        QueueGrows(s, l);
        assert Apply(s, l).queue[i] == e;
      }
    } else {
      ScannedOnlyLoads(s, l, e.thread);
      OthersStay(s, l, e.thread);
    }
  }

  lemma ScanIs(s: State, w: nat)
    requires Enabled(s, Scan(w))
    ensures At(s, w, Head) && Apply(s, Scan(w)) == DoScan(s, w)
  {
  }

  lemma ScannedOnlyLoads(s: State, l: Label, w: nat)
    requires Enabled(s, l) && At(s, w, Scanned)
    ensures Driver(l) == Some(w) ==> l == Dispatch(w)
  {
  }

  lemma {:induction false} WaitsUntilLoaded(states: seq<State>, labels: seq<Label>, k: nat, j: nat, e: Entry)
    requires IsRun(states, labels) && k < j < |states| && e.thread != -1
    requires states[k + 1].queue == states[k].queue + [e]
    requires forall m {:trigger labels[m]} :: k < m < j ==> !Loads(states[m], labels[m], e.work)
    ensures Waits(states[j], e)
    decreases j
  {
    hide Apply, Enabled, Disciplined, Loads, Waits;
    if j == k + 1 {
      WaitsInQueue(states[j], e);
    } else {
      WaitsUntilLoaded(states, labels, k, j - 1, e);
      var l := labels[j - 1];
      WaitsStep(states[j - 1], l, e);
    }
  }

  lemma WaitsInQueue(s: State, e: Entry)
    requires s.queue != [] && s.queue[|s.queue| - 1] == e
    ensures Waits(s, e)
  {
  }

  /**
   Work put into the queue for thread `t`, however it came there: the first
   worker to load it after that is `t`.
   */
  lemma FirstSliceWhereScheduled(states: seq<State>, labels: seq<Label>, k: nat, j: nat, e: Entry)
    requires IsRun(states, labels) && k < j < |labels|
    requires states[k + 1].queue == states[k].queue + [e]
    requires Loads(states[j], labels[j], e.work)
    requires forall m {:trigger labels[m]} :: k < m < j ==> !Loads(states[m], labels[m], e.work)
    ensures e.thread == -1 || e.thread == labels[j].w
  {
    if e.thread != -1 {
      WaitsUntilLoaded(states, labels, k, j, e);
      SingleOwner(states, labels, j, e.work);
      hide IsRun, Apply, Disciplined;
      var s, l := states[j], labels[j];
      assert Enabled(s, l) by { IsRunEnabled(states, labels, j); }
      assert Holds(s.workers[l.w], e.work);
      assert Held(s.workers, e.work);
      OnlyTheOwner(s, l.w, e);
    }
  }

  /** In particular: a fiber or function scheduled for thread `t` is queued last and first loaded by `t`. */
  lemma FirstSliceOfPush(states: seq<State>, labels: seq<Label>, k: nat, j: nat, work: Work, t: int)
    requires IsRun(states, labels) && k < j < |labels|
    requires || (labels[k].PushCb? && work == CbWork(states[k].nextTask) && t == labels[k].thread)
             || (labels[k].PushFiber? && work == FiberWork(labels[k].f) && t == labels[k].thread)
    requires Loads(states[j], labels[j], work)
    requires forall m {:trigger labels[m]} :: k < m < j ==> !Loads(states[m], labels[m], work)
    ensures states[k + 1].queue == states[k].queue + [Entry(work, t)]
    ensures t == -1 || labels[j].w == t
  {
    hide Enabled, Disciplined, Loads;
    PushAppends(states[k], labels[k], work, t);
    FirstSliceWhereScheduled(states, labels, k, j, Entry(work, t));
  }

  lemma PushAppends(s: State, l: Label, work: Work, t: int)
    requires Enabled(s, l)
    requires || (l.PushCb? && work == CbWork(s.nextTask) && t == l.thread)
             || (l.PushFiber? && work == FiberWork(l.f) && t == l.thread)
    ensures Apply(s, l).queue == s.queue + [Entry(work, t)]
  {
  }

  lemma IsRunEnabled(states: seq<State>, labels: seq<Label>, j: nat)
    requires IsRun(states, labels) && j < |labels|
    ensures |states| == |labels| + 1 && Enabled(states[j], labels[j])
  {
  }

  lemma OnlyTheOwner(s: State, w: nat, e: Entry)
    requires Waits(s, e) && w < |s.workers| && Holds(s.workers[w], e.work) && !Queued(s.queue, e.work)
    requires forall v, u :: 0 <= v < u < |s.workers| ==> !Holds(s.workers[v], e.work) || !Holds(s.workers[u], e.work)
    ensures e.thread == w
  {
    forall i | 0 <= i < |s.queue| ensures s.queue[i] != e {
      assert s.queue[i].work != e.work;
    }
    assert Holds(s.workers[e.thread], e.work);
  }

  // ----- moving on -----

  /** Nothing in the queue is for worker `v` to take. */
  ghost predicate NothingFor(s: State, v: nat) {
    forall i :: 0 <= i < |s.queue| ==> !Eligible(s.fibers, v, s.queue[i])
  }

  /** `f` has just been queued for any thread, and nothing before it is for `v`, which is at its loop head. */
  ghost predicate UpNext(s: State, v: nat, f: FiberId) {
    && !s.fault && At(s, v, Head) && s.queue != [] && s.queue[|s.queue| - 1] == Entry(FiberWork(f), -1)
    && (forall i :: 0 <= i < |s.queue| - 1 ==> !Eligible(s.fibers, v, s.queue[i]))
    && f in s.fibers && s.fibers[f].state != EXEC && !Done(s.fibers[f].state) && s.fibers[f].ctx != Ended
  }

  ghost predicate LoadedOn(s: State, v: nat, f: FiberId) {
    v < |s.workers| && InFiber(s.workers[v].pc) && Slice(s.workers[v]) == Some(f)
  }

  lemma ScanTakesLast(s: State, v: nat, f: FiberId)
    requires UpNext(s, v, f)
    ensures var s1 := DoScan(s, v);
            && !s1.fault && s1.fibers == s.fibers && |s1.workers| == |s.workers|
            && At(s1, v, Scanned) && s1.workers[v].ft == Some(FiberWork(f))
            && forall u :: 0 <= u < |s.workers| && u != v ==> s1.workers[u] == s.workers[u]
  {
    assert Eligible(s.fibers, v, s.queue[|s.queue| - 1]);
    assert FirstEligible(s.fibers, s.queue, v, 0) == |s.queue| - 1;
  }

  /** Then `v` takes it and loads it, and nobody else moves. */
  lemma TakesAndLoads(s: State, v: nat, f: FiberId)
    requires UpNext(s, v, f)
    ensures Enabled(s, Scan(v)) && Enabled(DoScan(s, v), Dispatch(v))
    ensures var s2 := DoDispatch(DoScan(s, v), v);
            && LoadedOn(s2, v, f) && |s2.workers| == |s.workers|
            && forall u :: 0 <= u < |s.workers| && u != v ==> s2.workers[u] == s.workers[u]
  {
    hide DoScan;
    ScanTakesLast(s, v, f);
  }

  /**
   A pin ends at a READY yield: whenever another worker is at its loop head with
   nothing to take, the fiber can go on there, whatever thread it was scheduled for.
   */
  lemma ReadyYieldMoves(s: State, w: nat, v: nat)
    requires Inv(s) && RequeuePending(s, w) && At(s, v, Head) && NothingFor(s, v)
    ensures var f, s1 := Slice(s.workers[w]).value, DoPost(s, w);
            var s2 := DoScan(s1, v);
            && Continues([s, s1, s2, DoDispatch(s2, v)], [PostProcess(w), Scan(v), Dispatch(v)])
            && v != w && LoadedOn(DoDispatch(s2, v), v, f)
  {
    hide DoScan, DoDispatch, DoPost, PutsAway, UpNext, LoadedOn, Inv, WorkerOk, Continues, NothingFor;
    var f, s1 := Slice(s.workers[w]).value, DoPost(s, w);
    WorkerFacts(s, w);
    PostOutcomes(s, w, f);
    PostUpNext(s, s1, w, v, f);
    TakesAndLoads(s1, v, f);
    WorkerSteps(s, s1, DoScan(s1, v), DoDispatch(DoScan(s1, v), v), w, v);
  }

  lemma WorkerSteps(s: State, s1: State, s2: State, s3: State, w: nat, v: nat)
    requires Enabled(s, PostProcess(w)) && s1 == DoPost(s, w)
    requires Enabled(s1, Scan(v)) && s2 == DoScan(s1, v)
    requires Enabled(s2, Dispatch(v)) && s3 == DoDispatch(s2, v)
    ensures Continues([s, s1, s2, s3], [PostProcess(w), Scan(v), Dispatch(v)])
  {
    hide DoScan, DoDispatch, DoPost, Enabled;
  }

  lemma PostUpNext(s: State, s1: State, w: nat, v: nat, f: FiberId)
    requires !s.fault && w < |s.workers| && WorkerOk(s.fibers, s.autoStop && s.stopping, s.workers[w])
    requires RequeuePending(s, w) && Slice(s.workers[w]) == Some(f) && At(s, v, Head) && NothingFor(s, v)
    requires s1 == SetPc(s, w, if s.workers[w].ft.value.CbWork? then DropCb else Head)
                     .(queue := s.queue + [Entry(FiberWork(f), -1)])
    ensures UpNext(s1, v, f)
  {
  }

  /**
   Without the token discipline sharing is there for the asking: a fiber on its way
   out of worker `w` in HOLD, to which outside code has a pointer, and another
   worker with nothing to take; scheduling the fiber at once loads it on both.
   */
  lemma EarlyWakeShares(s: State, w: nat, v: nat, f: FiberId)
    requires Inv(s) && At(s, w, Leaving) && Slice(s.workers[w]) == Some(f) && s.fibers[f].state == HOLD
    requires f in s.ext && At(s, v, Head) && NothingFor(s, v)
    ensures Enabled(s, PushFiber(None, f, -1, false)) && !Disciplined(s, PushFiber(None, f, -1, false))
    ensures var s1 := DoPushFiber(s, f, -1, false);
            && Enabled(s1, Scan(v)) && Enabled(DoScan(s1, v), Dispatch(v))
            && LoadedOn(DoDispatch(DoScan(s1, v), v), v, f) && LoadedOn(DoDispatch(DoScan(s1, v), v), w, f) && v != w
  {
    hide DoScan, DoDispatch, Inv;
    WorkerFacts(s, w);
    assert Holds(s.workers[w], FiberWork(f));
    assert Held(s.workers, FiberWork(f));
    hide WorkerOk, Held;
    var s1 := DoPushFiber(s, f, -1, false);
    assert UpNext(s1, v, f);
    TakesAndLoads(s1, v, f);
  }
}
