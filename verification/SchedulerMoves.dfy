/** The steps in which work changes hands: the pick, the start of a callback, and the end of a slice. */
module SchedulerMoves {
  import opened Common
  import opened SchedulerModel
  import opened SchedulerInvariant
  import opened SchedulerFrames

  // ----- the pick: queue to worker -----

  ghost predicate Picks(s: State, s': State, w: nat, k: nat) {
    && At(s, w, Head) && k < |s.queue|
    && s' == s.(workers := s.workers[w := s.workers[w].(pc := Scanned, ft := Some(s.queue[k].work))],
                queue := s.queue[..k] + s.queue[k + 1..], active := s.active + 1)
  }

  /** After the pick the worker's hands hold what they held before and the picked work. */
  lemma PickedHands(s: State, s': State, w: nat, k: nat, work: Work)
    requires Inv(s) && Picks(s, s', w, k)
    ensures Holds(s'.workers[w], work) <==> Holds(s.workers[w], work) || work == s.queue[k].work
    ensures !Holds(s.workers[w], s.queue[k].work)
  {
    hide TasksOk, CountersOk, FibersOk;
  }

  lemma PickMoves(s: State, s': State, w: nat, k: nat, work: Work)
    requires Inv(s) && Picks(s, s', w, k)
    ensures Queued(s'.queue, work) <==> Queued(s.queue, work) && s.queue[k].work != work
    ensures Held(s'.workers, work) <==> Held(s.workers, work) || s.queue[k].work == work
  {
    hide TasksOk, CountersOk, FibersOk;
    PickedHands(s, s', w, k, work);
    QueuedRemove(s.queue, k, work);
    HeldChange(s.queue, s.workers, w, s'.workers[w], work);
    if Holds(s.workers[w], work) { assert Held(s.workers, work); }
  }

  lemma PickExclusive(s: State, s': State, w: nat, k: nat)
    requires Inv(s) && Picks(s, s', w, k)
    ensures Distinct(s'.queue) && Exclusive(s'.queue, s'.workers)
  {
    hide TasksOk, CountersOk, FibersOk;
    var q, q', ws, ws' := s.queue, s'.queue, s.workers, s'.workers;
    forall i | 0 <= i < |q'| ensures q'[i] == q[if i < k then i else i + 1] {
    }
    forall v, work | 0 <= v < |ws| && v != w && Holds(ws'[v], work) ensures !Holds(ws'[w], work) {
      PickedHands(s, s', w, k, work);
    }
    forall v, i | 0 <= v < |ws| && 0 <= i < |q'| ensures !Holds(ws'[v], q'[i].work) {
      PickedHands(s, s', w, k, q'[i].work);
    }
  }

  lemma PickOwn(s: State, s': State, w: nat, k: nat)
    requires Inv(s) && Picks(s, s', w, k)
    ensures FibersOk(s'.queue, s'.workers, s'.fibers)
    ensures WorkersOk(s'.fibers, s'.autoStop && s'.stopping, s'.workers)
  {
    hide TasksOk, CountersOk;
    var q, q' := s.queue, s'.queue;
    forall i | 0 <= i < |q'| ensures q'[i] == q[if i < k then i else i + 1] {
    }
    forall f | f in s.fibers && !Queued(q', FiberWork(f)) && !Held(s'.workers, FiberWork(f))
      ensures Loose(s.fibers[f])
    {
      PickMoves(s, s', w, k, FiberWork(f));
    }
    assert s.workers[w].cb.Some? ==> Holds(s.workers[w], FiberWork(s.workers[w].cb.value));
    assert !Holds(s.workers[w], q[k].work);
    assert WorkerOk(s.fibers, s.autoStop && s.stopping, s'.workers[w]);
  }

  lemma PickTasks(s: State, s': State, w: nat, k: nat)
    requires Inv(s) && Picks(s, s', w, k)
    ensures TasksOk(s')
  {
    hide FibersOk, CountersOk, WorkersOk, Exclusive;
    var q, q' := s.queue, s'.queue;
    forall i | 0 <= i < |q'| ensures q'[i] == q[if i < k then i else i + 1] {
    }
    forall f | f in s.fibers && s.fibers[f].state == INIT && s.fibers[f].task.Some?
      ensures s.fibers[f].task.value in s.accepted <==> Queued(q', FiberWork(f)) || Held(s'.workers, FiberWork(f))
    {
      PickMoves(s, s', w, k, FiberWork(f));
    }
    assert CbsOk(s') by {
      forall i | 0 <= i < |q| && q[i].work.CbWork? ensures CbOk(s', q[i].work.task) {
        assert CbOk(s, q[i].work.task);
      }
      forall v | 0 <= v < |s.workers| && PickedCb(s.workers[v]) ensures CbOk(s', s.workers[v].ft.value.task) {
        assert CbOk(s, s.workers[v].ft.value.task);
      }
    }
    forall t | t in s.accepted && t !in s.finished ensures Located(s', t) {
      assert Located(s, t);
      PickMoves(s, s', w, k, CbWork(t));
    }
  }

  lemma PickInv(s: State, s': State, w: nat, k: nat)
    requires Inv(s) && Picks(s, s', w, k)
    ensures Inv(s')
  {
    CountersUpdate(s, s', w, s'.workers[w]);
    PickExclusive(s, s', w, k);
    PickOwn(s, s', w, k);
    PickTasks(s, s', w, k);
  }

  // ----- the start of a callback: from `ft.cb` to a fiber -----

  ghost predicate Starts(s: State, s': State, w: nat, f: FiberId, t: TaskId) {
    && At(s, w, Scanned) && s.workers[w].ft == Some(CbWork(t))
    && (s.workers[w].cb == Some(f) || (s.workers[w].cb == None && f == s.nextFiber))
    && s' == s.(workers := s.workers[w := s.workers[w].(pc := Entering, cb := Some(f), current := Of(f), resume := Of(f))],
                fibers := s.fibers[f := Fiber(EXEC, Fresh, false, Some(t))],
                nextFiber := if f == s.nextFiber then f + 1 else s.nextFiber)
  }

  lemma StartHands(s: State, s': State, w: nat, f: FiberId, t: TaskId, work: Work)
    requires Inv(s) && Starts(s, s', w, f, t)
    ensures !Queued(s.queue, FiberWork(f)) && !Queued(s.queue, CbWork(t))
    ensures Holds(s'.workers[w], work) <==> work == FiberWork(f)
    ensures Holds(s.workers[w], work) <==> work == CbWork(t) || (work == FiberWork(f) && f in s.fibers)
    ensures Held(s'.workers, work) <==> (Held(s.workers, work) && work != CbWork(t)) || work == FiberWork(f)
  {
    hide TasksOk, CountersOk;
    HeldChange(s.queue, s.workers, w, s'.workers[w], work);
    assert Holds(s.workers[w], CbWork(t));
  }

  lemma StartExclusive(s: State, s': State, w: nat, f: FiberId, t: TaskId)
    requires Inv(s) && Starts(s, s', w, f, t)
    ensures IdsOk(s') && Exclusive(s'.queue, s'.workers)
    ensures forall v :: 0 <= v < |s.workers| && v != w ==> !Holds(s.workers[v], FiberWork(f))
  {
    hide TasksOk, CountersOk;
    StartHands(s, s', w, f, t, FiberWork(f));
    forall v | 0 <= v < |s.workers| && v != w ensures !Holds(s.workers[v], FiberWork(f)) {
      assert WorkerOk(s.fibers, s.autoStop && s.stopping, s.workers[v]);
    }
    forall work | Holds(s'.workers[w], work) ensures work == FiberWork(f) {
      StartHands(s, s', w, f, t, work);
    }
  }

  lemma StartFibers(s: State, s': State, w: nat, f: FiberId, t: TaskId)
    requires Inv(s) && Starts(s, s', w, f, t)
    ensures FibersOk(s'.queue, s'.workers, s'.fibers)
  {
    hide TasksOk, CountersOk, WorkersOk, Exclusive;
    StartHands(s, s', w, f, t, FiberWork(f));
    forall g | g in s'.fibers && !Queued(s'.queue, FiberWork(g)) && !Held(s'.workers, FiberWork(g))
      ensures Loose(s'.fibers[g])
    {
      StartHands(s, s', w, f, t, FiberWork(g));
    }
  }

  lemma StartOwn(s: State, s': State, w: nat, f: FiberId, t: TaskId)
    requires Inv(s) && Starts(s, s', w, f, t)
    ensures IdsOk(s') && Exclusive(s'.queue, s'.workers)
    ensures FibersOk(s'.queue, s'.workers, s'.fibers)
    ensures WorkersOk(s'.fibers, s'.autoStop && s'.stopping, s'.workers)
  {
    hide TasksOk, CountersOk, FibersOk, Exclusive;
    StartExclusive(s, s', w, f, t);
    StartFibers(s, s', w, f, t);
    forall v | 0 <= v < |s.workers| && v != w
      ensures WorkerOk(s'.fibers, s.autoStop && s.stopping, s.workers[v])
    {
      assert WorkerOk(s.fibers, s.autoStop && s.stopping, s.workers[v]);
      WorkerFrame(s.fibers, s'.fibers, s.autoStop && s.stopping, s.workers[v]);
    }
  }

  lemma StartCbs(s: State, s': State, w: nat, f: FiberId, t: TaskId)
    requires Inv(s) && Starts(s, s', w, f, t)
    ensures CbsOk(s')
  {
    hide FibersOk, CountersOk, WorkersOk;
    StartHands(s, s', w, f, t, CbWork(t));
    forall i | 0 <= i < |s.queue| && s.queue[i].work.CbWork? ensures CbOk(s', s.queue[i].work.task) {
      assert CbOk(s, s.queue[i].work.task);
    }
    forall v | 0 <= v < |s.workers| && PickedCb(s'.workers[v]) ensures CbOk(s', s'.workers[v].ft.value.task) {
      assert v != w;
      assert Holds(s.workers[v], s.workers[v].ft.value);
      assert CbOk(s, s.workers[v].ft.value.task);
    }
  }

  lemma StartLocated(s: State, s': State, w: nat, f: FiberId, t: TaskId, u: TaskId)
    requires Inv(s) && Starts(s, s', w, f, t) && Located(s, u)
    requires f in s.fibers ==> s.fibers[f].task == None
    ensures Located(s', u)
  {
    hide Inv;
    StartHands(s, s', w, f, t, CbWork(u));
    if u == t {
      assert s'.fibers[f].task == Some(u);
    } else if Carried(s.fibers, u) {
      var g :| g in s.fibers && s.fibers[g].task == Some(u) && !Done(s.fibers[g].state);
      assert s.fibers[g] == s'.fibers[g];
    }
  }

  lemma StartTasks(s: State, s': State, w: nat, f: FiberId, t: TaskId)
    requires Inv(s) && Starts(s, s', w, f, t)
    ensures TasksOk(s')
  {
    hide FibersOk, CountersOk, Exclusive, Located, CbsOk;
    StartCbs(s, s', w, f, t);
    StartPicked(s, w, t);
    assert f in s.fibers ==> s.fibers[f].task == None;
    forall g | g in s'.fibers && s'.fibers[g].state == INIT && s'.fibers[g].task.Some?
      ensures s'.fibers[g].task.value in s'.accepted <==>
                Queued(s'.queue, FiberWork(g)) || Held(s'.workers, FiberWork(g))
    {
      StartHands(s, s', w, f, t, FiberWork(g));
    }
    forall u | u in s'.accepted && u !in s'.finished ensures Located(s', u) {
      assert Located(s, u);
      StartLocated(s, s', w, f, t, u);
    }
  }

  lemma StartPicked(s: State, w: nat, t: TaskId)
    requires Inv(s) && At(s, w, Scanned) && s.workers[w].ft == Some(CbWork(t))
    ensures CbOk(s, t) && t < s.nextTask && t !in s.finished
  {
    hide FibersOk, CountersOk, Exclusive, WorkersOk;
    assert PickedCb(s.workers[w]);
  }

  lemma StartInv(s: State, s': State, w: nat, f: FiberId, t: TaskId)
    requires Inv(s) && Starts(s, s', w, f, t)
    ensures Inv(s')
  {
    CountersUpdate(s, s', w, s'.workers[w]);
    StartOwn(s, s', w, f, t);
    StartTasks(s, s', w, f, t);
  }

  // ----- the end of a slice: the worker lets go of its fiber -----

  ghost predicate LetsGo(s: State, s': State, w: nat, f: FiberId, requeue: bool) {
    && At(s, w, Post) && Slice(s.workers[w]) == Some(f) && f in s.fibers && (requeue <==> s.fibers[f].state == READY)
    && (s.workers[w].ft.value.CbWork? ==> !Done(s.fibers[f].state))
    && s' == s.(workers := s.workers[w := s.workers[w].(pc := if s.workers[w].ft.value.CbWork? then DropCb else Head)],
                queue := if requeue then s.queue + [Entry(FiberWork(f), -1)] else s.queue)
  }

  lemma LetGoMoves(s: State, s': State, w: nat, f: FiberId, requeue: bool, work: Work)
    requires Inv(s) && LetsGo(s, s', w, f, requeue)
    ensures Holds(s.workers[w], FiberWork(f)) && !Queued(s.queue, FiberWork(f))
    ensures Holds(s'.workers[w], work) <==> Holds(s.workers[w], work) && work != FiberWork(f)
    ensures Queued(s'.queue, work) <==> Queued(s.queue, work) || (requeue && work == FiberWork(f))
    ensures Held(s'.workers, work) <==> Held(s.workers, work) && work != FiberWork(f)
  {
    hide TasksOk, CountersOk;
    assert Holds(s.workers[w], FiberWork(f));
    QueuedAppend(s.queue, Entry(FiberWork(f), -1), work);
    HeldChange(s.queue, s.workers, w, s'.workers[w], work);
    if Holds(s.workers[w], work) { assert Held(s.workers, work); }
  }

  lemma LetGoExclusive(s: State, s': State, w: nat, f: FiberId, requeue: bool)
    requires Inv(s) && LetsGo(s, s', w, f, requeue)
    ensures Distinct(s'.queue) && Exclusive(s'.queue, s'.workers)
  {
    hide TasksOk, CountersOk, FibersOk;
    LetGoMoves(s, s', w, f, requeue, FiberWork(f));
    forall v, work | 0 <= v < |s.workers| && v != w && Holds(s.workers[v], work)
      ensures work != FiberWork(f) && !Holds(s'.workers[w], work)
    {
      LetGoMoves(s, s', w, f, requeue, work);
    }
    forall i | 0 <= i < |s.queue| ensures s.queue[i].work != FiberWork(f) && !Holds(s'.workers[w], s.queue[i].work) {
      LetGoMoves(s, s', w, f, requeue, s.queue[i].work);
    }
  }

  /** A fiber a worker is done with has a task unless it is finished. */
  lemma LetGoFacts(s: State, w: nat, f: FiberId)
    requires Inv(s) && f in s.fibers
    ensures !Done(s.fibers[f].state) && s.fibers[f].state != INIT ==> s.fibers[f].task.Some?
  {
    assert TaskOk(s, s.fibers[f]);
  }

  lemma LetGoWorkers(s: State, s': State, w: nat, f: FiberId, requeue: bool)
    requires WorkersOk(s.fibers, s.autoStop && s.stopping, s.workers) && LetsGo(s, s', w, f, requeue)
    ensures WorkersOk(s'.fibers, s'.autoStop && s'.stopping, s'.workers)
  {
    assert WorkerOk(s.fibers, s.autoStop && s.stopping, s.workers[w]);
    assert WorkerOk(s.fibers, s.autoStop && s.stopping, s'.workers[w]);
  }

  lemma LetGoFibers(s: State, s': State, w: nat, f: FiberId, requeue: bool)
    requires Inv(s) && LetsGo(s, s', w, f, requeue)
    requires AtRest(s.fibers[f]) && s.fibers[f].state != INIT && (!Done(s.fibers[f].state) ==> s.fibers[f].task.Some?)
    ensures FibersOk(s'.queue, s'.workers, s'.fibers)
  {
    assert FibersOk(s.queue, s.workers, s.fibers);
    hide Inv, Queued, Held;
    forall g | g in s.fibers && !Queued(s'.queue, FiberWork(g)) && !Held(s'.workers, FiberWork(g))
      ensures Loose(s.fibers[g])
    {
      LetGoMoves(s, s', w, f, requeue, FiberWork(g));
      var held := Held(s.workers, FiberWork(g));
    }
  }

  lemma LetGoOwn(s: State, s': State, w: nat, f: FiberId, requeue: bool)
    requires Inv(s) && LetsGo(s, s', w, f, requeue)
    ensures FibersOk(s'.queue, s'.workers, s'.fibers)
    ensures WorkersOk(s'.fibers, s'.autoStop && s'.stopping, s'.workers)
  {
    LetGoFacts(s, w, f);
    hide TasksOk, CountersOk, Exclusive, FibersOk, WorkerOk, Distinct, IdsOk;
    AtPost(s.fibers, s.autoStop && s.stopping, s.workers[w], f);
    LetGoWorkers(s, s', w, f, requeue);
    LetGoFibers(s, s', w, f, requeue);
  }

  lemma AtPost(fibers: Fibers, stopped: bool, wk: Worker, f: FiberId)
    requires WorkerOk(fibers, stopped, wk) && wk.pc == Post && Slice(wk) == Some(f)
    ensures f in fibers && AtRest(fibers[f]) && fibers[f].state != INIT
  {
  }

  lemma LetGoAccepted(s: State, s': State, w: nat, f: FiberId, requeue: bool)
    requires Inv(s) && LetsGo(s, s', w, f, requeue)
    ensures AcceptedOk(s')
  {
    assert AcceptedOk(s) && s'.fibers == s.fibers && s'.accepted == s.accepted;
    assert s.fibers[f].state == INIT ==> false by {
      assert WorkerOk(s.fibers, s.autoStop && s.stopping, s.workers[w]);
    }
    hide Inv, LetsGo;
    forall g | g in s.fibers && s.fibers[g].state == INIT && s.fibers[g].task.Some?
      ensures s.fibers[g].task.value in s.accepted <==>
                Queued(s'.queue, FiberWork(g)) || Held(s'.workers, FiberWork(g))
    {
      var held := Held(s.workers, FiberWork(g));
      LetGoMoves(s, s', w, f, requeue, FiberWork(g));
    }
  }

  lemma LetGoCbs(s: State, s': State, w: nat, f: FiberId, requeue: bool)
    requires Inv(s) && LetsGo(s, s', w, f, requeue)
    ensures CbsOk(s')
  {
    assert CbsOk(s) && s'.fibers == s.fibers;
    hide Inv;
    forall i | 0 <= i < |s.queue| && s.queue[i].work.CbWork? ensures CbOk(s', s.queue[i].work.task) {
      assert CbOk(s, s.queue[i].work.task);
    }
    forall v | 0 <= v < |s.workers| && PickedCb(s'.workers[v]) ensures CbOk(s', s'.workers[v].ft.value.task) {
      assert CbOk(s, s.workers[v].ft.value.task);
    }
  }

  lemma LetGoTasks(s: State, s': State, w: nat, f: FiberId, requeue: bool)
    requires Inv(s) && LetsGo(s, s', w, f, requeue)
    ensures TasksOk(s')
  {
    LetGoAccepted(s, s', w, f, requeue);
    LetGoCbs(s, s', w, f, requeue);
    hide AcceptedOk, CbsOk, FibersOk, CountersOk, WorkersOk, Exclusive, Queued, Held;
    forall g | g in s.fibers ensures TaskOk(s', s.fibers[g]) {
      assert TaskOk(s, s.fibers[g]);
    }
    forall t | t in s'.accepted && t !in s'.finished ensures Located(s', t) {
      assert Located(s, t);
      LetGoMoves(s, s', w, f, requeue, CbWork(t));
    }
  }

  lemma LetGoInv(s: State, s': State, w: nat, f: FiberId, requeue: bool)
    requires Inv(s) && LetsGo(s, s', w, f, requeue)
    ensures Inv(s')
  {
    CountersUpdate(s, s', w, s'.workers[w]);
    LetGoExclusive(s, s', w, f, requeue);
    LetGoOwn(s, s', w, f, requeue);
    LetGoTasks(s, s', w, f, requeue);
  }

  // ----- the end of a callback: the worker keeps its fiber for the next one -----

  ghost predicate Recycles(s: State, s': State, w: nat, f: FiberId) {
    && At(s, w, Post) && Slice(s.workers[w]) == Some(f) && s.workers[w].ft.value.CbWork?
    && f in s.fibers && Done(s.fibers[f].state)
    && s' == s.(workers := s.workers[w := s.workers[w].(pc := Head)],
                fibers := s.fibers[f := Fiber(INIT, Fresh, false, None)])
  }

  lemma RecycleCbs(s: State, s': State, w: nat, f: FiberId)
    requires CbsOk(s) && Recycles(s, s', w, f)
    ensures CbsOk(s')
  {
    forall t: TaskId | CbOk(s, t) ensures CbOk(s', t) {
      forall g | g in s'.fibers ensures s'.fibers[g].task != Some(t) {
      }
    }
    hide CbsOk, CbOk;
    CbsKept(s, s');
  }

  lemma RecycleLocated(s: State, s': State, w: nat, f: FiberId, t: TaskId)
    requires Recycles(s, s', w, f) && SameHands(s.workers[w], s'.workers[w]) && Located(s, t)
    ensures Located(s', t)
  {
    HeldUpdate(s.workers, w, s'.workers[w], CbWork(t));
    if Carried(s.fibers, t) {
      var g :| g in s.fibers && s.fibers[g].task == Some(t) && !Done(s.fibers[g].state);
      assert s'.fibers[g] == s.fibers[g];
    }
  }

  lemma RecycleAccepted(s: State, s': State, w: nat, f: FiberId)
    requires AcceptedOk(s) && Recycles(s, s', w, f) && SameHands(s.workers[w], s'.workers[w])
    ensures AcceptedOk(s')
  {
    forall g | g in s'.fibers && s'.fibers[g].state == INIT && s'.fibers[g].task.Some?
      ensures s'.fibers[g].task.value in s'.accepted <==>
                Queued(s'.queue, FiberWork(g)) || Held(s'.workers, FiberWork(g))
    {
      HeldUpdate(s.workers, w, s'.workers[w], FiberWork(g));
    }
  }

  lemma RecycleTasks(s: State, s': State, w: nat, f: FiberId)
    requires TasksOk(s) && Recycles(s, s', w, f) && SameHands(s.workers[w], s'.workers[w])
    ensures TasksOk(s')
  {
    RecycleAccepted(s, s', w, f);
    RecycleCbs(s, s', w, f);
    hide AcceptedOk, CbsOk, Located, SameHands;
    forall t | t in s'.accepted && t !in s'.finished ensures Located(s', t) {
      RecycleLocated(s, s', w, f, t);
    }
    forall g | g in s'.fibers && g != f ensures TaskOk(s', s'.fibers[g]) {
      assert TaskOk(s, s.fibers[g]);
    }
  }

  lemma RecycleInv(s: State, s': State, w: nat, f: FiberId)
    requires Inv(s) && Recycles(s, s', w, f)
    ensures Inv(s')
  {
    assert Holds(s.workers[w], FiberWork(f));
    assert WorkerOk(s'.fibers, s.autoStop && s.stopping, s'.workers[w]);
    assert SameHands(s.workers[w], s'.workers[w]);
    CountersUpdate(s, s', w, s'.workers[w]);
    OwnStep(s, s', w);
    RecycleTasks(s, s', w, f);
  }
}
