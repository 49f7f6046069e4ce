/** Frame lemmas: what one worker's step, or one change to the queue, leaves true of everything else. */
module SchedulerFrames {
  import opened Common
  import opened SchedulerModel
  import opened SchedulerInvariant

  ghost predicate SameHands(wk: Worker, wk': Worker) {
    forall work :: Holds(wk, work) <==> Holds(wk', work)
  }

  lemma WhereUpdate(ws: seq<Worker>, w: nat, wk: Worker, p: Worker -> bool)
    requires w < |ws|
    ensures |Where(ws[w := wk], p)| == |Where(ws, p)| - (if p(ws[w]) then 1 else 0) + (if p(wk) then 1 else 0)
  {
    var a, a' := Where(ws, p), Where(ws[w := wk], p);
    var base := a - {w};
    assert a == if p(ws[w]) then base + {w} else base;
    assert a' == if p(wk) then base + {w} else base;
  }

  /** The counters after worker `w` becomes `wk`. */
  lemma CountersUpdate(s: State, s': State, w: nat, wk: Worker)
    requires CountersOk(s) && w < |s.workers| && s'.workers == s.workers[w := wk]
    requires s'.active == s.active - (if Counted(s.workers[w]) then 1 else 0) + (if Counted(wk) then 1 else 0)
    requires s'.idling == s.idling - (if InIdle(s.workers[w]) then 1 else 0) + (if InIdle(wk) then 1 else 0)
    ensures CountersOk(s')
  {
    WhereUpdate(s.workers, w, wk, x => Counted(x));
    WhereUpdate(s.workers, w, wk, x => InIdle(x));
  }

  lemma HeldUpdate(ws: seq<Worker>, w: nat, wk: Worker, work: Work)
    requires w < |ws| && (Holds(wk, work) <==> Holds(ws[w], work))
    ensures Held(ws[w := wk], work) <==> Held(ws, work)
  {
    if Held(ws, work) {
      var v :| 0 <= v < |ws| && Holds(ws[v], work);
      assert Holds(ws[w := wk][v], work);
    }
    if Held(ws[w := wk], work) {
      var v :| 0 <= v < |ws| && Holds(ws[w := wk][v], work);
      assert Holds(ws[v], work);
    }
  }

  /** A worker only looks at the fibers it holds, besides keeping its references alive. */
  lemma WorkerFrame(fibers: Fibers, fibers': Fibers, stopped: bool, wk: Worker)
    requires WorkerOk(fibers, stopped, wk)
    requires forall f :: f in fibers && Holds(wk, FiberWork(f)) ==> f in fibers' && fibers'[f] == fibers[f]
    requires forall f :: f in fibers && (wk.cb == Some(f) || wk.ft == Some(FiberWork(f))) ==> f in fibers'
    ensures WorkerOk(fibers', stopped, wk)
  {
    if wk.cb.Some? && wk.pc != DropCb {
      assert Holds(wk, FiberWork(wk.cb.value));
    }
    if wk.ft.Some? && wk.ft.value.FiberWork? && Busy(wk.pc) {
      assert Holds(wk, FiberWork(wk.ft.value.fiber));
    }
  }

  /** Ownership after a step in which worker `w` changes itself and only fibers it holds. */
  lemma OwnStep(s: State, s': State, w: nat)
    requires Inv(s) && w < |s.workers| == |s'.workers|
    requires s'.queue == s.queue && s'.ext == s.ext && s'.nextFiber == s.nextFiber
    requires s'.autoStop == s.autoStop && s'.stopping == s.stopping
    requires s'.workers == s.workers[w := s'.workers[w]] && SameHands(s.workers[w], s'.workers[w])
    requires s'.fibers.Keys == s.fibers.Keys
    requires forall g :: g in s.fibers && !Holds(s.workers[w], FiberWork(g)) ==> s'.fibers[g] == s.fibers[g]
    requires WorkerOk(s'.fibers, s.autoStop && s.stopping, s'.workers[w])
    ensures IdsOk(s') && Distinct(s'.queue)
    ensures FibersOk(s'.queue, s'.workers, s'.fibers)
    ensures Exclusive(s'.queue, s'.workers)
    ensures WorkersOk(s'.fibers, s'.autoStop && s'.stopping, s'.workers)
  {
    var ws, ws' := s.workers, s'.workers;
    forall v | 0 <= v < |ws| && v != w
      ensures WorkerOk(s'.fibers, s.autoStop && s.stopping, ws'[v])
    {
      forall f | Holds(ws[v], FiberWork(f)) ensures !Holds(ws[w], FiberWork(f)) {
      }
      WorkerFrame(s.fibers, s'.fibers, s.autoStop && s.stopping, ws[v]);
    }
    forall f | f in s.fibers && !Queued(s.queue, FiberWork(f)) && !Held(ws', FiberWork(f))
      ensures Loose(s'.fibers[f])
    {
      HeldUpdate(ws, w, ws'[w], FiberWork(f));
      assert Holds(ws[w], FiberWork(f)) ==> Held(ws, FiberWork(f));
    }
    forall i | 0 <= i < |s.queue| && s.queue[i].work.FiberWork?
      ensures s.queue[i].work.fiber in s'.fibers && Runnable(s'.fibers[s.queue[i].work.fiber])
    {
      assert !Holds(ws[w], s.queue[i].work);
    }
  }

  /** Tasks after a step in which only fiber `f`, in the hands of worker `w`, and its own task change. */
  lemma OwnTasks(s: State, s': State, w: nat, f: FiberId)
    requires Inv(s) && w < |s.workers| == |s'.workers| && f in s.fibers && f in s'.fibers
    requires Holds(s.workers[w], FiberWork(f))
    requires s'.queue == s.queue && s'.accepted == s.accepted && s'.nextTask == s.nextTask
    requires s'.workers == s.workers[w := s'.workers[w]] && SameHands(s.workers[w], s'.workers[w])
    requires s'.fibers == s.fibers[f := s'.fibers[f]]
    requires TaskStep(s, s', s.fibers[f], s'.fibers[f])
    ensures TasksOk(s')
  {
    forall g | g in s'.fibers ensures TaskOk(s', s'.fibers[g]) {
    }
    forall g | g in s'.fibers && s'.fibers[g].state == INIT && s'.fibers[g].task.Some?
      ensures s'.fibers[g].task.value in s'.accepted <==>
                Queued(s'.queue, FiberWork(g)) || Held(s'.workers, FiberWork(g))
    {
      HeldUpdate(s.workers, w, s'.workers[w], FiberWork(g));
    }
    forall v | 0 <= v < |s'.workers| && PickedCb(s'.workers[v])
      ensures CbOk(s', s'.workers[v].ft.value.task)
    {
      assert Holds(s'.workers[v], s'.workers[v].ft.value);
      assert Holds(s.workers[v], s'.workers[v].ft.value);
      assert CbOk(s, s'.workers[v].ft.value.task);
    }
    forall t | t in s'.accepted && t !in s'.finished ensures Located(s', t) {
      assert Located(s, t);
      HeldUpdate(s.workers, w, s'.workers[w], CbWork(t));
      if Carried(s.fibers, t) {
        var g :| g in s.fibers && s.fibers[g].task == Some(t) && !Done(s.fibers[g].state);
        assert g in s'.fibers && s'.fibers[g].task == Some(t) && !Done(s'.fibers[g].state);
      }
    }
  }

  /** `s'` differs from `s` by worker `w` changing itself, fiber `f`, which it holds, and the history of `f`'s own task. */
  ghost predicate SliceStep(s: State, s': State, w: nat, f: FiberId) {
    && w < |s.workers| == |s'.workers| && f in s.fibers && f in s'.fibers
    && s' == s.(workers := s.workers[w := s'.workers[w]], fibers := s.fibers[f := s'.fibers[f]],
                active := s'.active, idling := s'.idling, started := s'.started, finished := s'.finished)
    && s'.active == s.active - (if Counted(s.workers[w]) then 1 else 0) + (if Counted(s'.workers[w]) then 1 else 0)
    && s'.idling == s.idling - (if InIdle(s.workers[w]) then 1 else 0) + (if InIdle(s'.workers[w]) then 1 else 0)
    && Holds(s.workers[w], FiberWork(f)) && SameHands(s.workers[w], s'.workers[w])
    && WorkerOk(s'.fibers, s.autoStop && s.stopping, s'.workers[w])
    && TaskStep(s, s', s.fibers[f], s'.fibers[f])
  }

  ghost predicate TaskStep(s: State, s': State, fb: Fiber, fb': Fiber) {
    && HistoryOk(s') && s.started <= s'.started && s.finished <= s'.finished
    && (forall t :: (t in s'.started && t !in s.started) || (t in s'.finished && t !in s.finished) ==> fb.task == Some(t))
    && (fb'.task == fb.task || fb'.task == None)
    && fb'.state != INIT && TaskOk(s', fb')
    && (fb.task.Some? && !Done(fb.state) ==>
          fb.task.value in s'.finished || (fb'.task == fb.task && !Done(fb'.state)))
  }

  lemma SliceInv(s: State, s': State, w: nat, f: FiberId)
    requires Inv(s) && SliceStep(s, s', w, f)
    ensures Inv(s')
  {
    CountersUpdate(s, s', w, s'.workers[w]);
    OwnStep(s, s', w);
    OwnTasks(s, s', w, f);
  }

  /** What the invariant says of the fiber in worker `w`'s hands. */
  lemma SliceFacts(s: State, w: nat, f: FiberId)
    requires Inv(s) && w < |s.workers| && Slice(s.workers[w]) == Some(f) && Holds(s.workers[w], FiberWork(f))
    ensures f in s.fibers && TaskOk(s, s.fibers[f]) && HistoryOk(s)
    ensures WorkerOk(s.fibers, s.autoStop && s.stopping, s.workers[w])
  {
  }

  lemma WorkerFacts(s: State, w: nat)
    requires Inv(s) && w < |s.workers|
    ensures !s.fault && WorkerOk(s.fibers, s.autoStop && s.stopping, s.workers[w])
  {
  }

  /** `s'` differs from `s` by worker `w` changing itself only, keeping its hands. */
  ghost predicate SoloStep(s: State, s': State, w: nat) {
    && w < |s.workers| == |s'.workers|
    && s' == s.(workers := s.workers[w := s'.workers[w]], idling := s'.idling)
    && (Counted(s.workers[w]) <==> Counted(s'.workers[w]))
    && s'.idling == s.idling - (if InIdle(s.workers[w]) then 1 else 0) + (if InIdle(s'.workers[w]) then 1 else 0)
    && SameHands(s.workers[w], s'.workers[w])
    && WorkerOk(s.fibers, s.autoStop && s.stopping, s'.workers[w])
  }

  lemma SoloInv(s: State, s': State, w: nat)
    requires Inv(s) && SoloStep(s, s', w)
    ensures Inv(s')
  {
    CountersUpdate(s, s', w, s'.workers[w]);
    OwnStep(s, s', w);
    SoloTasks(s, s', w);
  }

  lemma SoloTasks(s: State, s': State, w: nat)
    requires Inv(s) && SoloStep(s, s', w)
    ensures TasksOk(s')
  {
    forall g | g in s'.fibers && s'.fibers[g].state == INIT && s'.fibers[g].task.Some?
      ensures s'.fibers[g].task.value in s'.accepted <==>
                Queued(s'.queue, FiberWork(g)) || Held(s'.workers, FiberWork(g))
    {
      HeldUpdate(s.workers, w, s'.workers[w], FiberWork(g));
    }
    forall v | 0 <= v < |s'.workers| && PickedCb(s'.workers[v])
      ensures CbOk(s', s'.workers[v].ft.value.task)
    {
      assert Holds(s'.workers[v], s'.workers[v].ft.value);
      assert Holds(s.workers[v], s'.workers[v].ft.value);
      assert CbOk(s, s'.workers[v].ft.value.task);
    }
    forall t | t in s'.accepted && t !in s'.finished ensures Located(s', t) {
      assert Located(s, t);
      HeldUpdate(s.workers, w, s'.workers[w], CbWork(t));
    }
  }

  /** Callbacks still waiting after a step that keeps the queue and starts none. */
  lemma CbsKept(s: State, s': State)
    requires CbsOk(s) && s'.queue == s.queue && |s'.workers| == |s.workers|
    requires forall v {:trigger s'.workers[v]} :: 0 <= v < |s.workers| && PickedCb(s'.workers[v]) ==>
               PickedCb(s.workers[v]) && s'.workers[v].ft == s.workers[v].ft
    requires forall t :: CbOk(s, t) ==> CbOk(s', t)
    ensures CbsOk(s')
  {
    hide CbOk;
  }

  // ----- work changing hands -----

  lemma QueuedAppend(queue: seq<Entry>, e: Entry, work: Work)
    ensures Queued(queue + [e], work) <==> Queued(queue, work) || e.work == work
  {
    if Queued(queue, work) {
      var i :| 0 <= i < |queue| && queue[i].work == work;
      assert (queue + [e])[i].work == work;
    }
    if e.work == work {
      assert (queue + [e])[|queue|].work == work;
    }
  }

  lemma QueuedRemove(queue: seq<Entry>, k: nat, work: Work)
    requires k < |queue| && Distinct(queue)
    ensures Queued(queue[..k] + queue[k + 1..], work) <==> Queued(queue, work) && queue[k].work != work
  {
    var q' := queue[..k] + queue[k + 1..];
    if Queued(queue, work) && queue[k].work != work {
      var i :| 0 <= i < |queue| && queue[i].work == work;
      assert q'[if i < k then i else i - 1].work == work;
    }
    if Queued(q', work) {
      var i :| 0 <= i < |q'| && q'[i].work == work;
      assert queue[if i < k then i else i + 1].work == work;
    }
  }

  /** Who holds `work` after worker `w` becomes `wk`. */
  lemma HeldChange(queue: seq<Entry>, ws: seq<Worker>, w: nat, wk: Worker, work: Work)
    requires w < |ws| && Exclusive(queue, ws)
    ensures Held(ws[w := wk], work) <==> (Held(ws, work) && !Holds(ws[w], work)) || Holds(wk, work)
  {
    if Held(ws, work) && !Holds(ws[w], work) {
      var v :| 0 <= v < |ws| && Holds(ws[v], work);
      assert Holds(ws[w := wk][v], work);
    }
    if Holds(wk, work) {
      assert Holds(ws[w := wk][w], work);
    }
    if Held(ws[w := wk], work) && !Holds(wk, work) {
      var v :| 0 <= v < |ws| && Holds(ws[w := wk][v], work);
      assert Holds(ws[v], work);
    }
  }
}
