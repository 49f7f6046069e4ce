/** When `stopping()`, once true, stays true. */
module SchedulerStopping {
  import opened Common
  import opened SchedulerModel
  import opened SchedulerInvariant
  import opened SchedulerFrames
  import opened SchedulerSteps
  import opened SchedulerTheorems
  import opened SchedulerShutdown

  /** Worker `w` has decremented the count for a fiber that is READY and about to be queued again. */
  ghost predicate RequeuePending(s: State, w: nat) {
    && At(s, w, Post) && Slice(s.workers[w]).Some?
    && Slice(s.workers[w]).value in s.fibers && s.fibers[Slice(s.workers[w]).value].state == READY
  }

  /** What may come after `states[0]`: disciplined steps, and nothing scheduled by outside code once `stop` was called. */
  ghost predicate Continues(states: seq<State>, labels: seq<Label>) {
    && |states| == |labels| + 1
    && forall i {:trigger labels[i]} :: 0 <= i < |labels| ==>
         && Enabled(states[i], labels[i]) && states[i + 1] == Apply(states[i], labels[i])
         && Disciplined(states[i], labels[i]) && QuietAfterStop(states[i], labels[i])
  }

  // ----- one step -----

  /** The step leaves queue and count alone, brings no worker to its post-processing and makes no fiber READY. */
  ghost predicate Calm(s: State, s': State) {
    && s'.queue == s.queue && s'.active == s.active
    && (s.autoStop ==> s'.autoStop) && (s.stopping ==> s'.stopping)
    && (forall w :: 0 <= w < |s'.workers| && s'.workers[w].pc == Post ==> w < |s.workers| && s'.workers[w] == s.workers[w])
    && (forall f :: f in s'.fibers && s'.fibers[f].state == READY ==> f in s.fibers && s.fibers[f].state == READY)
  }

  /** With nobody counted no task code runs, so tasks neither progress nor schedule anything. */
  lemma NoTaskRuns(s: State, l: Label)
    requires CountersOk(s) && Stopping(s) && Enabled(s, l) && QuietAfterStop(s, l)
    ensures !InsideFiber(l) && !l.Decrement? && !l.PushCb? && !l.PushFiber? && !l.Share?
    ensures l.Dispatch? ==> s.workers[l.w].ft == None
  {
    forall w | 0 <= w < |s.workers| ensures !Counted(s.workers[w]) {
      NoneCounted(s, w);
    }
  }

  lemma CalmDispatch(s: State, w: nat)
    requires At(s, w, Scanned) && s.workers[w].ft == None
    ensures Calm(s, DoDispatch(s, w))
  {
  }

  lemma CalmScan(s: State, w: nat)
    requires At(s, w, Head) && s.queue == []
    ensures Calm(s, DoScan(s, w))
  {
  }

  lemma CalmPost(s: State, w: nat)
    requires At(s, w, Post) && Slice(s.workers[w]).Some? && !RequeuePending(s, w)
    ensures Calm(s, DoPost(s, w))
  {
    hide PutsAway, DoPost;
    var f := Slice(s.workers[w]).value;
    if f in s.fibers { PostOutcomes(s, w, f); } else { PostFaults(s, w); }
  }

  lemma CalmReset(s: State, f: FiberId)
    ensures Calm(s, DoReset(s, f))
  {
  }

  lemma CalmStep(s: State, l: Label)
    requires Inv(s) && Stopping(s) && (forall w :: !RequeuePending(s, w))
    requires Enabled(s, l) && QuietAfterStop(s, l)
    ensures Calm(s, Apply(s, l))
  {
    hide DoScan, DoDispatch, DoPost, DoReset, Inv, RequeuePending;
    CountersFact(s);
    NoTaskRuns(s, l);
    match l
    case Scan(w) => CalmScan(s, w);
    case Dispatch(w) => CalmDispatch(s, w);
    case PostProcess(w) =>
      WorkerFacts(s, w);
      CalmPost(s, w);
    case ResetFiber(f) => CalmReset(s, f);
    case _ =>
  }

  lemma CountersFact(s: State)
    requires Inv(s)
    ensures CountersOk(s)
  {
  }

  lemma CalmKeeps(s: State, s': State)
    requires Calm(s, s') && Stopping(s) && forall w :: !RequeuePending(s, w)
    ensures Stopping(s') && forall w :: !RequeuePending(s', w)
  {
    forall w ensures !RequeuePending(s', w) {
      assert !RequeuePending(s, w);
    }
  }

  // ----- every continuation -----

  lemma {:induction false} StaysStopping(states: seq<State>, labels: seq<Label>, i: nat)
    requires Continues(states, labels) && i <= |labels|
    requires Inv(states[0]) && Stopping(states[0]) && forall w :: !RequeuePending(states[0], w)
    ensures Inv(states[i]) && Stopping(states[i]) && forall w :: !RequeuePending(states[i], w)
  {
    hide Inv, Stopping, RequeuePending, Apply, Enabled, Disciplined, QuietAfterStop, Calm;
    if i > 0 {
      StaysStopping(states, labels, i - 1);
      var s, l := states[i - 1], labels[i - 1];
      StepInv(s, l);
      CalmStep(s, l);
      CalmKeeps(s, Apply(s, l));
    }
  }

  /** The requeue itself makes `stopping()` false. */
  lemma RequeueEndsStopping(s: State, w: nat)
    requires Inv(s) && RequeuePending(s, w)
    ensures Enabled(s, PostProcess(w)) && !Stopping(Apply(s, PostProcess(w)))
    ensures Continues([s, Apply(s, PostProcess(w))], [PostProcess(w)])
  {
    WorkerFacts(s, w);
    assert Apply(s, PostProcess(w)).queue != [];
  }

  /**
   In a reachable state in which `stopping()` is true, it stays true whatever
   happens next exactly when no worker is about to queue a READY fiber again.
   */
  lemma StoppingForGood(states: seq<State>, labels: seq<Label>, i: nat)
    requires IsRun(states, labels) && i < |states| && Stopping(states[i])
    ensures (forall w :: !RequeuePending(states[i], w)) <==>
            (forall next, steps :: Continues(next, steps) && next[0] == states[i] ==> Stopping(next[|steps|]))
  {
    hide Inv, Stopping, RequeuePending, Apply, Enabled, Disciplined, QuietAfterStop;
    var s := states[i];
    RunInv(states, labels, i);
    if w: nat :| RequeuePending(s, w) {
      RequeueEndsStopping(s, w);
      assert [s, Apply(s, PostProcess(w))][0] == s;
    } else {
      forall next, steps | Continues(next, steps) && next[0] == s ensures Stopping(next[|steps|]) {
        StaysStopping(next, steps, |steps|);
      }
    }
  }
}
