/** After `stop`: exactly when the workers, left to themselves, can all leave `run`. */
module SchedulerCompletion {
  import opened Common
  import opened SchedulerModel
  import opened SchedulerInvariant
  import opened SchedulerFrames
  import opened SchedulerMoves
  import opened SchedulerSteps
  import opened SchedulerTheorems
  import opened SchedulerShutdown
  import opened SchedulerStopping

  /** A step of a worker, none of outside code, and no scheduling by tasks. */
  ghost predicate WorkerStep(l: Label) { Driver(l).Some? }

  /** The workers' steps `labels` lead from `s` to a state in which every worker has left `run`. */
  ghost predicate Finishes(s: State, states: seq<State>, labels: seq<Label>) {
    && Continues(states, labels) && states[0] == s
    && (forall i :: 0 <= i < |labels| ==> WorkerStep(labels[i]))
    && AllExited(states[|labels|])
  }

  ghost predicate CanFinish(s: State) { exists states, labels :: Finishes(s, states, labels) }

  /** Every worker's idle fiber has returned. */
  ghost predicate IdleEnded(s: State) {
    forall w :: 0 <= w < |s.workers| ==> s.workers[w].idle == TERM
  }

  // ----- what a worker does next; a running task simply returns -----

  ghost function Next(s: State, w: nat): Label
    requires w < |s.workers|
  {
    match s.workers[w].pc
    case Head => Scan(w)
    case Scanned => Dispatch(w)
    case Entering => Enter(w)
    case Running => Finish(w, true)
    case Leaving => SwapOut(w)
    case Ending => Unref(w)
    case Unreferenced => SwapOut(w)
    case Back => Decrement(w)
    case Post => PostProcess(w)
    case DropCb => ReleaseCb(w)
    case IdleRun => IdleCheck(w)
    case IdleBack => IdleLeave(w)
    case Exited => Scan(w)
  }

  ghost predicate Live(s: State, w: nat) { w < |s.workers| && s.workers[w].pc != Exited }

  lemma NextEnabled(s: State, w: nat)
    requires !s.fault && Live(s, w)
    ensures Enabled(s, Next(s, w)) && Driver(Next(s, w)) == Some(w)
    ensures Disciplined(s, Next(s, w)) && QuietAfterStop(s, Next(s, w)) && Served(s, Next(s, w))
  {
  }

  // ----- how much work is left -----

  /** The fiber the worker is putting away will be queued again. */
  ghost predicate Owes(s: State, w: nat)
    requires w < |s.workers|
  {
    var wk := s.workers[w];
    && (wk.pc == Leaving || wk.pc == Back || wk.pc == Post)
    && Slice(wk).Some? && Slice(wk).value in s.fibers && s.fibers[Slice(wk).value].state == READY
  }

  ghost function Base(wk: Worker): nat {
    match wk.pc
    case Scanned => if wk.ft.Some? then 8 else 0
    case Entering => 7
    case Running => 6
    case Leaving => 5
    case Ending => 5
    case Unreferenced => 4
    case Back => 3
    case Post => 2
    case DropCb => 1
    case _ => 0
  }

  ghost function Rank(s: State, w: nat): nat
    requires w < |s.workers|
  {
    Base(s.workers[w]) + if Owes(s, w) then 10 else 0
  }

  ghost function Ranks(s: State): (r: seq<nat>)
    ensures |r| == |s.workers|
  {
    seq(|s.workers|, w requires 0 <= w < |s.workers| => Rank(s, w))
  }

  ghost function Sum(r: seq<nat>): nat {
    if r == [] then 0 else r[0] + Sum(r[1..])
  }

  lemma {:induction false} SumUpdate(r: seq<nat>, w: nat, n: nat)
    requires w < |r|
    ensures Sum(r[w := n]) == Sum(r) - r[w] + n
    decreases |r|
  {
    if w == 0 {
      assert r[w := n][1..] == r[1..];
    } else {
      assert r[w := n][1..] == r[1..][w - 1 := n];
      SumUpdate(r[1..], w - 1, n);
    }
  }

  lemma {:induction false} SumZero(r: seq<nat>)
    ensures Sum(r) == 0 <==> forall w :: 0 <= w < |r| ==> r[w] == 0
  {
    if r != [] {
      SumZero(r[1..]);
      assert forall w :: 0 < w < |r| ==> r[w] == r[1..][w - 1];
      assert forall w :: 0 <= w < |r| - 1 ==> r[1..][w] == r[w + 1];
    }
  }

  /** Queued entries and what the workers have in hand. */
  ghost function Work(s: State): nat { 9 * |s.queue| + Sum(Ranks(s)) }

  // ----- a worker's step leaves the others alone -----

  ghost predicate Local(s: State, s': State, w: nat) {
    && w < |s.workers| == |s'.workers|
    && (forall v :: 0 <= v < |s.workers| && v != w ==> s'.workers[v] == s.workers[v])
    && (forall f :: f in s.fibers && !Holds(s.workers[w], FiberWork(f)) ==> f in s'.fibers && s'.fibers[f] == s.fibers[f])
  }

  lemma OtherRanks(s: State, s': State, w: nat)
    requires Inv(s) && Local(s, s', w)
    ensures Ranks(s') == Ranks(s)[w := Rank(s', w)]
    ensures Sum(Ranks(s')) == Sum(Ranks(s)) - Rank(s, w) + Rank(s', w)
  {
    forall v | 0 <= v < |s.workers| && v != w ensures Rank(s', v) == Rank(s, v) {
      RankApart(s, s', w, v);
    }
    SumUpdate(Ranks(s), w, Rank(s', w));
  }

  lemma RankApart(s: State, s': State, w: nat, v: nat)
    requires Inv(s) && Local(s, s', w) && v < |s.workers| && v != w
    ensures Rank(s', v) == Rank(s, v)
  {
    var wk := s.workers[v];
    if wk.pc == Leaving || wk.pc == Back || wk.pc == Post {
      WorkerFacts(s, v);
      var f := Slice(wk).value;
      assert Holds(wk, FiberWork(f));
      NotBoth(s, v, w, FiberWork(f));
    }
  }

  lemma NotBoth(s: State, v: nat, w: nat, work: Work)
    requires Inv(s) && v < |s.workers| && w < |s.workers| && v != w && Holds(s.workers[v], work)
    ensures !Holds(s.workers[w], work)
  {
  }

  // ----- every step on work in hand leaves less of it -----

  /** The step of worker `w` to `s'` is local and leaves it less to do, counting what it queues. */
  ghost predicate Lessens(s: State, s': State, w: nat) {
    && Local(s, s', w) && 9 * |s'.queue| + Rank(s', w) < 9 * |s.queue| + Rank(s, w)
  }

  lemma DispatchFiberLessens(s: State, w: nat, f: FiberId)
    requires At(s, w, Scanned) && s.workers[w].ft == Some(FiberWork(f)) && f in s.fibers && Runnable(s.fibers[f])
    ensures Lessens(s, DoDispatch(s, w), w)
  {
    assert DoDispatch(s, w) == SwapIn(s, w, f);
  }

  lemma DispatchCbLessens(s: State, s': State, w: nat, f: FiberId, t: TaskId)
    requires Starts(s, s', w, f, t) && (f in s.fibers ==> s.workers[w].cb == Some(f))
    ensures Lessens(s, s', w)
  {
  }

  lemma DispatchStarts(s: State, w: nat, t: TaskId)
    requires !s.fault && At(s, w, Scanned) && s.workers[w].ft == Some(CbWork(t))
    requires SpareOk(s.fibers, s.workers[w])
    requires s.workers[w].cb.Some? ==> s.workers[w].cb.value != s.nextFiber
    ensures Starts(s, DoDispatch(s, w), w, if s.workers[w].cb.Some? then s.workers[w].cb.value else s.nextFiber, t)
  {
  }

  lemma DispatchLessens(s: State, w: nat)
    requires Inv(s) && At(s, w, Scanned) && s.workers[w].ft.Some?
    ensures Lessens(s, DoDispatch(s, w), w)
  {
    hide Inv, DoDispatch, Lessens, Starts;
    WorkerFacts(s, w);
    NewIdFree(s);
    SpareIsOld(s, w);
    match s.workers[w].ft.value
    case FiberWork(f) => DispatchFiberLessens(s, w, f);
    case CbWork(t) =>
      var f := if s.workers[w].cb.Some? then s.workers[w].cb.value else s.nextFiber;
      DispatchStarts(s, w, t);
      DispatchCbLessens(s, DoDispatch(s, w), w, f, t);
  }

  lemma EnterLessens(s: State, w: nat)
    requires At(s, w, Entering) && Self(s, w).Some? && s.fibers[Self(s, w).value].task.Some?
    ensures Lessens(s, DoEnter(s, w), w)
  {
  }

  lemma FinishLessens(s: State, w: nat)
    requires At(s, w, Running) && Self(s, w).Some? && s.fibers[Self(s, w).value].task.Some?
    ensures Lessens(s, DoFinish(s, w, true), w)
  {
  }

  lemma UnrefLessens(s: State, w: nat)
    requires At(s, w, Ending) && Self(s, w).Some?
    ensures Lessens(s, DoUnref(s, w), w)
  {
  }

  lemma SwapOutLessens(s: State, w: nat)
    requires (At(s, w, Leaving) || At(s, w, Unreferenced)) && Self(s, w).Some?
    requires s.workers[w].resume == Of(Self(s, w).value)
    requires At(s, w, Unreferenced) ==> Done(s.fibers[Self(s, w).value].state)
    ensures Lessens(s, DoSwapOut(s, w), w)
  {
  }

  lemma DecrementLessens(s: State, w: nat)
    requires At(s, w, Back)
    ensures Lessens(s, SetPc(s, w, Post).(active := s.active - 1), w)
  {
  }

  lemma PostLessens(s: State, w: nat)
    requires At(s, w, Post) && Slice(s.workers[w]).Some? && Slice(s.workers[w]).value in s.fibers
    ensures Lessens(s, DoPost(s, w), w)
  {
    hide DoPost, Rank, PutsAway;
    var f, s' := Slice(s.workers[w]).value, DoPost(s, w);
    PostOutcomes(s, w, f);
    assert Holds(s.workers[w], FiberWork(f));
    assert s'.workers[w].pc == Head || s'.workers[w].pc == DropCb;
    PostRanks(s, s', w);
  }

  lemma PostRanks(s: State, s': State, w: nat)
    requires At(s, w, Post) && w < |s'.workers| && (s'.workers[w].pc == Head || s'.workers[w].pc == DropCb)
    ensures Rank(s', w) <= 1 && Rank(s, w) >= 2
    ensures RequeuePending(s, w) ==> Rank(s, w) == 12
  {
  }

  lemma ReleaseLessens(s: State, w: nat)
    requires At(s, w, DropCb)
    ensures Lessens(s, SetWorker(s, w, s.workers[w].(pc := Head, cb := None)), w)
  {
  }

  lemma BusyLessens(s: State, w: nat)
    requires Inv(s) && w < |s.workers| && Rank(s, w) > 0
    ensures Live(s, w) && Enabled(s, Next(s, w)) && Lessens(s, Apply(s, Next(s, w)), w)
  {
    hide Inv, Lessens, DoDispatch, DoEnter, DoFinish, DoUnref, DoSwapOut, DoPost;
    WorkerFacts(s, w);
    NextEnabled(s, w);
    NewIdFree(s);
    if InFiber(s.workers[w].pc) || s.workers[w].pc == Post { SliceFacts(s, w, Slice(s.workers[w]).value); }
    match s.workers[w].pc
    case Scanned => DispatchLessens(s, w);
    case Entering => EnterLessens(s, w);
    case Running => FinishLessens(s, w);
    case Leaving => SwapOutLessens(s, w);
    case Ending => UnrefLessens(s, w);
    case Unreferenced => SwapOutLessens(s, w);
    case Back => DecrementLessens(s, w);
    case Post => PostLessens(s, w);
    case DropCb => ReleaseLessens(s, w);
    case _ =>
  }

  lemma NewIdFree(s: State)
    requires Inv(s)
    ensures s.nextFiber !in s.fibers
  {
  }

  lemma LessWork(s: State, s': State, w: nat)
    requires Inv(s) && Lessens(s, s', w)
    ensures Work(s') < Work(s)
  {
    hide Inv, Rank, Ranks;
    OtherRanks(s, s', w);
  }

  // ----- the idle fiber: steps of a worker with nothing in hand -----

  /** Worker `w` becomes `wk`; of the rest at most counters change. */
  ghost predicate Idles(s: State, s': State, w: nat, wk: Worker) {
    && w < |s.workers| && s'.workers == s.workers[w := wk] && s'.queue == s.queue && s'.fibers == s.fibers
    && Base(wk) == 0
  }

  /** The worker after a step of its own with nothing in hand, when its scan finds nothing either. */
  ghost function Idled(s: State, w: nat): Worker
    requires w < |s.workers|
  {
    var wk := s.workers[w];
    match wk.pc
    case Head => wk.(pc := Scanned, ft := None)
    case Scanned => if wk.idle == TERM then wk.(pc := Exited)
                    else wk.(pc := IdleRun, idle := EXEC, current := Idle, resume := Idle)
    case IdleRun => Resumed(wk).(idle := if Stopping(s) then TERM else HOLD)
    case IdleBack => wk.(pc := Head, idle := if Done(wk.idle) then wk.idle else HOLD)
    case _ => wk
  }

  lemma IdleIdles(s: State, w: nat)
    requires Inv(s) && Live(s, w) && Rank(s, w) == 0 && s.workers[w].pc != Head
    ensures Enabled(s, Next(s, w)) && Idles(s, Apply(s, Next(s, w)), w, Idled(s, w))
  {
    hide Inv;
    WorkerFacts(s, w);
    NextEnabled(s, w);
  }

  lemma ScanIdles(s: State, w: nat)
    requires !s.fault && At(s, w, Head)
    ensures Enabled(s, Next(s, w))
    ensures var s' := Apply(s, Next(s, w));
            if exists i :: 0 <= i < |s.queue| && Eligible(s.fibers, w, s.queue[i]) then Lessens(s, s', w)
            else Idles(s, s', w, Idled(s, w))
  {
    var k := FirstEligible(s.fibers, s.queue, w, 0);
    assert Apply(s, Next(s, w)) == DoScan(s, w);
  }

  lemma SameWork(s: State, s': State, w: nat, wk: Worker)
    requires Inv(s) && Idles(s, s', w, wk) && Rank(s, w) == 0
    ensures Work(s') == Work(s)
  {
    hide Inv;
    OtherRanks(s, s', w);
  }

  // ----- how far workers with nothing in hand are from where they should be -----

  ghost function ToHead(wk: Worker): nat {
    match wk.pc
    case Scanned => 3
    case IdleRun => 2
    case IdleBack => 1
    case _ => 0
  }

  ghost function ToExit(wk: Worker): nat {
    match wk.pc
    case Exited => 0
    case Scanned => if wk.idle == TERM then 1 else 5
    case Head => if wk.idle == TERM then 2 else 6
    case IdleBack => if wk.idle == TERM then 3 else 7
    case IdleRun => 4
    case _ => 0
  }

  ghost function Distances(ws: seq<Worker>, d: Worker -> nat): (r: seq<nat>)
    ensures |r| == |ws|
  {
    seq(|ws|, w requires 0 <= w < |ws| => d(ws[w]))
  }

  lemma DistanceUpdate(ws: seq<Worker>, d: Worker -> nat, w: nat, wk: Worker)
    requires w < |ws|
    ensures Sum(Distances(ws[w := wk], d)) == Sum(Distances(ws, d)) - d(ws[w]) + d(wk)
  {
    assert Distances(ws[w := wk], d) == Distances(ws, d)[w := d(wk)];
    SumUpdate(Distances(ws, d), w, d(wk));
  }

  /** There is an entry, and each has a worker to take it. */
  ghost predicate Draining(s: State) { s.queue != [] && AllServed(s) }

  ghost function Distance(s: State): nat {
    if Draining(s) then Sum(Distances(s.workers, wk => ToHead(wk))) else Sum(Distances(s.workers, wk => ToExit(wk)))
  }

  // ----- from here the workers can finish -----

  ghost predicate Good(s: State) {
    && Inv(s) && s.autoStop && s.stopping && |s.workers| > 0
    && (AllRetired(s) ==> OnlyPinned(s.queue))
    && (AllServed(s) || IdleEnded(s))
  }

  lemma OwnTermStays(s: State, w: nat)
    requires Inv(s) && Live(s, w) && s.workers[w].idle == TERM
    ensures Enabled(s, Next(s, w)) && w < |Apply(s, Next(s, w)).workers| && Apply(s, Next(s, w)).workers[w].idle == TERM
  {
    hide Inv, DoDispatch, DoPost, DoScan, DoEnter, DoYield, DoFinish, DoUnref, DoSwapOut;
    WorkerFacts(s, w);
    NextEnabled(s, w);
    var l := Next(s, w);
    if InsideFiber(l) {
      InsideLocal(s, l, w);
    } else {
      match l
      case Dispatch(_) => DispatchIdle(s, w);
      case Scan(_) => ScanLocal(s, w);
      case PostProcess(_) => PostLocal(s, w);
      case _ =>
    }
  }

  lemma SwapInIdle(s: State, w: nat, f: FiberId)
    requires w < |s.workers|
    ensures w < |SwapIn(s, w, f).workers| && SwapIn(s, w, f).workers[w].idle == s.workers[w].idle
  {
  }

  lemma PrepareIdle(s: State, w: nat, t: TaskId)
    requires w < |s.workers|
    ensures w < |PrepareCb(s, w, t).workers| && PrepareCb(s, w, t).workers[w].idle == s.workers[w].idle
    ensures !PrepareCb(s, w, t).fault ==> PrepareCb(s, w, t).workers[w].cb.Some?
  {
  }

  lemma EnterIdleIdle(s: State, w: nat)
    requires w < |s.workers|
    ensures w < |EnterIdle(s, w).workers|
    ensures EnterIdle(s, w).workers[w].idle == TERM <==> s.workers[w].idle == TERM
  {
  }

  /** A dispatch does not end the idle fiber, and does not revive it. */
  lemma DispatchIdle(s: State, w: nat)
    requires At(s, w, Scanned)
    ensures w < |DoDispatch(s, w).workers|
    ensures DoDispatch(s, w).workers[w].idle == TERM <==> s.workers[w].idle == TERM
  {
    hide SwapIn, PrepareCb, EnterIdle;
    EnterIdleIdle(s, w);
    match s.workers[w].ft
    case None =>
    case Some(FiberWork(f)) => SwapInIdle(s, w, f);
    case Some(CbWork(t)) =>
      PrepareIdle(s, w, t);
      var s1 := PrepareCb(s, w, t);
      if !s1.fault { SwapInIdle(s1, w, s1.workers[w].cb.value); }
  }

  lemma FlagsStay(s: State, w: nat)
    requires !s.fault && Live(s, w)
    ensures Enabled(s, Next(s, w)) && SameFlags(s, Apply(s, Next(s, w)))
  {
    hide DoDispatch, DoPost, DoScan, DoEnter, DoYield, DoFinish, DoUnref, DoSwapOut;
    NextEnabled(s, w);
    var l := Next(s, w);
    if InsideFiber(l) {
      InsideLocal(s, l, w);
    } else {
      match l
      case Dispatch(_) => DispatchFrame(s, w);
      case Scan(_) => ScanLocal(s, w);
      case PostProcess(_) => PostLocal(s, w);
      case _ =>
    }
  }

  lemma GoodStep(s: State, w: nat)
    requires Good(s) && Live(s, w)
    ensures Enabled(s, Next(s, w)) && Good(Apply(s, Next(s, w)))
  {
    hide Inv, Next, Apply, Enabled, Disciplined, QuietAfterStop, Served, AllServed, AllRetired, OnlyPinned;
    NotFaulty(s);
    NextEnabled(s, w);
    FlagsStay(s, w);
    var l := Next(s, w);
    var s' := Apply(s, l);
    StepInv(s, l);
    StepKeepsWorkers(s, l);
    if AllRetired(s') { RetiredStep(s, l); }
    if AllServed(s) {
      ServedStep(s, l);
    } else {
      forall v | 0 <= v < |s.workers| ensures s'.workers[v].idle == TERM {
        if v == w { OwnTermStays(s, w); } else { OthersStay(s, l, v); }
      }
    }
  }

  lemma NotFaulty(s: State)
    requires Inv(s)
    ensures !s.fault
  {
  }

  /** If nobody has anything in hand nobody is counted. */
  lemma NobodyCounted(s: State)
    requires Inv(s) && forall w :: 0 <= w < |s.workers| ==> Rank(s, w) == 0
    ensures s.active == 0
  {
    CountersFact(s);
    hide Inv;
    assert Where(s.workers, wk => Counted(wk)) == {} by {
      forall w | 0 <= w < |s.workers| ensures !Counted(s.workers[w]) { assert Rank(s, w) == 0; }
    }
  }

  /** Some worker that has yet to make its last scan may take the first entry. */
  lemma ServingWorker(s: State) returns (w: nat)
    requires Good(s) && Draining(s) && forall v :: 0 <= v < |s.workers| ==> Rank(s, v) == 0
    ensures Live(s, w) && !Retired(s.workers[w]) && Eligible(s.fibers, w, s.queue[0])
  {
    var e := s.queue[0];
    assert !Deaf(s, e.thread);
    if e.thread == -1 {
      assert !OnlyPinned(s.queue);
      w :| w < |s.workers| && !Retired(s.workers[w]);
    } else {
      w := e.thread;
    }
    assert WorkerOk(s.fibers, s.autoStop && s.stopping, s.workers[w]);
  }

  ghost predicate Progress(s: State, s': State) {
    Work(s') < Work(s) || (Work(s') == Work(s) && Distance(s') < Distance(s))
  }

  /** An idle step towards the loop head while entries are waiting. */
  lemma HeadProgress(s: State, w: nat)
    requires Good(s) && Draining(s) && Live(s, w) && Rank(s, w) == 0 && s.workers[w].pc != Head && !Retired(s.workers[w])
    ensures Enabled(s, Next(s, w)) && Progress(s, Apply(s, Next(s, w)))
  {
    hide Inv, AllServed, Next, Apply, Enabled;
    IdleIdles(s, w);
    var s' := Apply(s, Next(s, w));
    SameWork(s, s', w, Idled(s, w));
    DistanceUpdate(s.workers, wk => ToHead(wk), w, Idled(s, w));
    NotFaulty(s);
    NextEnabled(s, w);
    ServedStep(s, Next(s, w));
    RestingPc(s, w);
  }

  lemma RestingPc(s: State, w: nat)
    requires Inv(s) && Live(s, w) && Rank(s, w) == 0
    ensures var wk := s.workers[w];
            || (wk.pc == Head && wk.idle != EXEC) || (wk.pc == Scanned && wk.ft == None && wk.idle != EXEC)
            || (wk.pc == IdleRun && wk.idle == EXEC) || (wk.pc == IdleBack && (wk.idle == HOLD || wk.idle == TERM))
  {
    hide Inv;
    WorkerFacts(s, w);
  }

  /** A step towards the end of `run` when no entry waits for a worker. */
  lemma ExitProgress(s: State, w: nat)
    requires Good(s) && !Draining(s) && Live(s, w) && forall v :: 0 <= v < |s.workers| ==> Rank(s, v) == 0
    requires Enabled(s, Next(s, w)) && Idles(s, Apply(s, Next(s, w)), w, Idled(s, w))
    ensures Progress(s, Apply(s, Next(s, w)))
  {
    hide Inv, AllServed, Next, Apply, Enabled, Rank, Base, Work, AllRetired, OnlyPinned;
    var s' := Apply(s, Next(s, w));
    SameWork(s, s', w, Idled(s, w));
    DistanceUpdate(s.workers, wk => ToExit(wk), w, Idled(s, w));
    NobodyCounted(s);
    StillNotDraining(s, Next(s, w));
    assert s.workers[w].pc == IdleRun ==> Stopping(s) by {
      RestingPc(s, w);
      assert s.workers[w].pc == IdleRun ==> !IdleEnded(s);
    }
    IdledNearer(s, w);
  }

  lemma IdledNearer(s: State, w: nat)
    requires Inv(s) && Live(s, w) && Rank(s, w) == 0
    requires s.workers[w].pc == IdleRun ==> Stopping(s)
    ensures ToExit(Idled(s, w)) < ToExit(s.workers[w])
  {
    hide Inv, Stopping;
    RestingPc(s, w);
  }

  lemma StillNotDraining(s: State, l: Label)
    requires Enabled(s, l) && !Draining(s) && Apply(s, l).queue == s.queue
    ensures !Draining(Apply(s, l))
  {
    hide Apply, Enabled, Deaf;
    if s.queue != [] {
      assert Stuck(s);
      StuckStep(s, l);
    }
  }

  /** Some worker can take a step that brings the end nearer. */
  lemma NearerStep(s: State) returns (w: nat)
    requires Good(s) && !AllExited(s)
    ensures Live(s, w) && Enabled(s, Next(s, w)) && Progress(s, Apply(s, Next(s, w)))
  {
    hide Inv, Rank, Next, Apply, Enabled, Work, Distance, Draining, AllServed, Lessens, Idles;
    hide Eligible, OnlyPinned, AllRetired;
    if busy: nat :| busy < |s.workers| && Rank(s, busy) > 0 {
      w := busy;
      BusyLessens(s, w);
      LessWork(s, Apply(s, Next(s, w)), w);
    } else if Draining(s) {
      w := ServingWorker(s);
      if s.workers[w].pc == Head {
        NotFaulty(s);
        ScanIdles(s, w);
        assert s.queue != [] by { QueueWaits(s); }
        LessWork(s, Apply(s, Next(s, w)), w);
      } else {
        HeadProgress(s, w);
      }
    } else {
      w :| w < |s.workers| && s.workers[w].pc != Exited;
      if s.workers[w].pc == Head {
        NotFaulty(s);
        ScanIdles(s, w);
        if Lessens(s, Apply(s, Next(s, w)), w) {
          LessWork(s, Apply(s, Next(s, w)), w);
        } else {
          ExitProgress(s, w);
        }
      } else {
        IdleIdles(s, w);
        ExitProgress(s, w);
      }
    }
  }

  lemma QueueWaits(s: State)
    requires Draining(s)
    ensures s.queue != []
  {
  }

  lemma {:induction false} FinishFrom(s: State) returns (states: seq<State>, labels: seq<Label>)
    requires Good(s)
    ensures Finishes(s, states, labels)
    decreases Work(s), Distance(s)
  {
    hide Inv, Good, Next, Apply, Enabled, Disciplined, QuietAfterStop, Work, Distance;
    if AllExited(s) {
      states, labels := [s], [];
    } else {
      var w := NearerStep(s);
      var l := Next(s, w);
      GoodStep(s, w);
      GoodFacts(s);
      NextEnabled(s, w);
      var later, steps := FinishFrom(Apply(s, l));
      states, labels := [s] + later, [l] + steps;
      Prepend(s, l, later, steps);
    }
  }

  lemma GoodFacts(s: State)
    requires Good(s)
    ensures !s.fault
  {
  }

  lemma Prepend(s: State, l: Label, states: seq<State>, labels: seq<Label>)
    requires Enabled(s, l) && Disciplined(s, l) && QuietAfterStop(s, l) && WorkerStep(l)
    requires Finishes(Apply(s, l), states, labels)
    ensures Finishes(s, [s] + states, [l] + labels)
  {
    hide Apply, Enabled, Disciplined, QuietAfterStop, AllExited;
    var all, ls := [s] + states, [l] + labels;
    forall i {:trigger ls[i]} | 0 <= i < |ls|
      ensures Enabled(all[i], ls[i]) && all[i + 1] == Apply(all[i], ls[i])
              && Disciplined(all[i], ls[i]) && QuietAfterStop(all[i], ls[i]) && WorkerStep(ls[i])
    {
      if i > 0 { assert ls[i] == labels[i - 1] && all[i] == states[i - 1] && all[i + 1] == states[i]; }
    }
  }

  // ----- from elsewhere nobody can help them -----

  /** While the queue is not empty an idle fiber that has not returned does not return. */
  lemma IdleGoesOn(s: State, l: Label, w: nat)
    requires Enabled(s, l) && s.queue != [] && w < |s.workers| && s.workers[w].idle != TERM
    ensures w < |Apply(s, l).workers| && Apply(s, l).workers[w].idle != TERM
  {
    hide DoDispatch, DoPost, DoScan, DoEnter, DoYield, DoFinish, DoUnref, DoSwapOut;
    if Driver(l) != Some(w) {
      hide Apply;
      OthersStay(s, l, w);
    } else if InsideFiber(l) {
      InsideLocal(s, l, w);
    } else {
      match l
      case Dispatch(_) => DispatchIdle(s, w);
      case Scan(_) => ScanLocal(s, w);
      case PostProcess(_) => PostLocal(s, w);
      case _ =>
    }
  }

  lemma {:induction false} NeverFinishes(states: seq<State>, labels: seq<Label>, i: nat, w: nat)
    requires Continues(states, labels) && i <= |labels|
    requires Stuck(states[0]) && w < |states[0].workers| && states[0].workers[w].idle != TERM
    ensures Stuck(states[i]) && w < |states[i].workers| && states[i].workers[w].idle != TERM
  {
    hide Apply, Enabled, Disciplined, QuietAfterStop, Deaf;
    if i > 0 {
      NeverFinishes(states, labels, i - 1, w);
      var s, l := states[i - 1], labels[i - 1];
      StuckStep(s, l);
      IdleGoesOn(s, l, w);
    }
  }

  lemma {:induction false} ContinuesInv(states: seq<State>, labels: seq<Label>, i: nat)
    requires Continues(states, labels) && Inv(states[0]) && i <= |labels|
    ensures Inv(states[i])
  {
    hide Inv, Apply, Enabled, Disciplined, QuietAfterStop;
    if i > 0 {
      ContinuesInv(states, labels, i - 1);
      StepInv(states[i - 1], labels[i - 1]);
    }
  }

  lemma ExitedEnded(s: State, w: nat)
    requires Inv(s) && w < |s.workers| && s.workers[w].pc == Exited
    ensures s.workers[w].idle == TERM
  {
    hide Inv;
    WorkerFacts(s, w);
  }

  // ----- exactly when -----

  /**
   After `stop`, in any reachable state of a run in which outside code is quiet:
   the workers alone, if running tasks simply return, can all leave `run` exactly
   when every queued entry has a worker that will still scan for it, or every
   idle fiber has returned already. Otherwise some worker never leaves, whatever
   happens.
   */
  lemma ShutdownCanComplete(states: seq<State>, labels: seq<Label>, i: nat)
    requires IsRun(states, labels) && Quiet(states, labels) && i < |states|
    requires states[i].autoStop && states[i].stopping
    ensures CanFinish(states[i]) <==> AllServed(states[i]) || IdleEnded(states[i])
    ensures CanFinish(states[i]) <==>
            exists next, steps :: Continues(next, steps) && next[0] == states[i] && AllExited(next[|steps|])
    ensures RunServed(states, labels) ==> CanFinish(states[i])
  {
    hide Inv, Apply, Enabled, Disciplined, QuietAfterStop, Deaf, Served;
    var s := states[i];
    RunInv(states, labels, i);
    WorkersStay(states, labels, i);
    if AllRetired(s) { RetiredRun(states, labels, i); }
    if RunServed(states, labels) { ServedRun(states, labels, i); }
    if AllServed(s) || IdleEnded(s) {
      var next, steps := FinishFrom(s);
      assert Finishes(s, next, steps);
    } else {
      var w: nat :| w < |s.workers| && s.workers[w].idle != TERM;
      assert Stuck(s);
      forall next: seq<State>, steps: seq<Label> | Continues(next, steps) && next[0] == s
        ensures !AllExited(next[|steps|]) {
        NeverFinishes(next, steps, |steps|, w);
        ContinuesInv(next, steps, |steps|);
        if next[|steps|].workers[w].pc == Exited { ExitedEnded(next[|steps|], w); }
      }
    }
  }

  lemma {:induction false} WorkersStay(states: seq<State>, labels: seq<Label>, i: nat)
    requires IsRun(states, labels) && i < |states|
    ensures |states[i].workers| == |states[0].workers| > 0
  {
    hide Apply, Enabled, Disciplined;
    if i > 0 {
      WorkersStay(states, labels, i - 1);
      StepKeepsWorkers(states[i - 1], labels[i - 1]);
    }
  }
}
