/** What tasks and outside code do to the queue and to fibers nobody holds. */
module SchedulerOutside {
  import opened Common
  import opened SchedulerModel
  import opened SchedulerInvariant
  import opened SchedulerFrames

  // ----- a push of work nobody holds -----

  ghost predicate Pushes(s: State, s': State, e: Entry) {
    && !Queued(s.queue, e.work) && !Held(s.workers, e.work)
    && s' == s.(queue := s.queue + [e], ext := s'.ext, accepted := s'.accepted, nextTask := s'.nextTask)
    && s'.ext <= s.ext && s.nextTask <= s'.nextTask
    && match e.work
       case FiberWork(f) =>
         f in s.fibers && Runnable(s.fibers[f]) && s'.accepted == s.accepted + {s.fibers[f].task.value}
       case CbWork(t) =>
         t == s.nextTask && t < s'.nextTask && s'.accepted == s.accepted + {t}
  }

  lemma PushOwn(s: State, s': State, e: Entry)
    requires Inv(s) && Pushes(s, s', e)
    ensures Distinct(s'.queue) && Exclusive(s'.queue, s'.workers)
    ensures FibersOk(s'.queue, s'.workers, s'.fibers)
  {
    forall i | 0 <= i < |s.queue| ensures s.queue[i].work != e.work {
    }
    forall w | 0 <= w < |s.workers| ensures !Holds(s.workers[w], e.work) {
    }
    forall f | f in s.fibers && !Queued(s'.queue, FiberWork(f)) && !Held(s'.workers, FiberWork(f))
      ensures Loose(s.fibers[f])
    {
      QueuedAppend(s.queue, e, FiberWork(f));
    }
  }

  lemma PushHistory(s: State, s': State, e: Entry)
    requires Inv(s) && Pushes(s, s', e)
    ensures HistoryOk(s')
  {
    if e.work.FiberWork? {
      assert TaskOk(s, s.fibers[e.work.fiber]);
    }
  }

  lemma PushAccepts(s: State, s': State, e: Entry, f: FiberId)
    requires AcceptedOk(s) && OneFiberPerTask(s.fibers) && Pushes(s, s', e)
    requires f in s.fibers && s.fibers[f].state == INIT && s.fibers[f].task.Some? && TaskOk(s, s.fibers[f])
    ensures s.fibers[f].task.value in s'.accepted <==> Queued(s'.queue, FiberWork(f)) || Held(s.workers, FiberWork(f))
  {
    QueuedAppend(s.queue, e, FiberWork(f));
    var held := Held(s.workers, FiberWork(f));
    assert s.fibers[f].task.value in s.accepted <==> Queued(s.queue, FiberWork(f)) || held;
  }

  lemma PushCbs(s: State, s': State, e: Entry)
    requires Inv(s) && Pushes(s, s', e)
    ensures CbsOk(s')
  {
    forall i | 0 <= i < |s'.queue| && s'.queue[i].work.CbWork? ensures CbOk(s', s'.queue[i].work.task) {
      if i < |s.queue| {
        assert CbOk(s, s.queue[i].work.task);
      } else {
        forall f | f in s.fibers ensures s.fibers[f].task != Some(s.nextTask) { assert TaskOk(s, s.fibers[f]); }
      }
    }
    forall v | 0 <= v < |s.workers| && PickedCb(s.workers[v]) ensures CbOk(s', s.workers[v].ft.value.task) {
      assert CbOk(s, s.workers[v].ft.value.task);
    }
  }

  lemma PushLocated(s: State, s': State, e: Entry, t: TaskId)
    requires Inv(s) && Pushes(s, s', e) && t in s'.accepted && t !in s'.finished
    ensures Located(s', t)
  {
    QueuedAppend(s.queue, e, CbWork(t));
    if t in s.accepted {
      assert Located(s, t);
    } else if e.work.FiberWork? {
      assert s.fibers[e.work.fiber].task == Some(t);
    }
  }

  lemma PushInv(s: State, s': State, e: Entry)
    requires Inv(s) && Pushes(s, s', e)
    ensures Inv(s')
  {
    PushOwn(s, s', e);
    PushHistory(s, s', e);
    forall f | f in s.fibers && s.fibers[f].state == INIT && s.fibers[f].task.Some?
      ensures s.fibers[f].task.value in s'.accepted <==>
                Queued(s'.queue, FiberWork(f)) || Held(s'.workers, FiberWork(f))
    {
      PushAccepts(s, s', e, f);
    }
    PushCbs(s, s', e);
    forall t | t in s'.accepted && t !in s'.finished ensures Located(s', t) {
      PushLocated(s, s', e, t);
    }
    forall f | f in s.fibers ensures TaskOk(s', s.fibers[f]) {
      assert TaskOk(s, s.fibers[f]);
    }
  }

  // ----- fibers nobody holds come, go and are reset -----

  /** Only fiber `f` differs, and nobody holds it; when it goes away, nobody even refers to it. */
  ghost predicate Touches(s: State, s': State, f: FiberId) {
    && s' == s.(fibers := s'.fibers, ext := s'.ext, nextFiber := s'.nextFiber, nextTask := s'.nextTask)
    && !Queued(s.queue, FiberWork(f)) && !Held(s.workers, FiberWork(f))
    && (forall g :: g in s.fibers && g != f ==> g in s'.fibers && s'.fibers[g] == s.fibers[g])
    && (forall g :: g in s'.fibers ==> g in s.fibers || g == f)
    && s'.ext <= s'.fibers.Keys && (f in s'.fibers ==> f < s'.nextFiber)
    && s.nextFiber <= s'.nextFiber && s.nextTask <= s'.nextTask
    && (f in s.fibers ==> s.fibers[f].state == INIT || Done(s.fibers[f].state))
    && if f in s'.fibers then s'.fibers[f] == Fiber(INIT, Fresh, false, Some(s.nextTask)) && s.nextTask < s'.nextTask
       else !Referenced(s, f)
  }

  lemma TouchOwn(s: State, s': State, f: FiberId)
    requires Inv(s) && Touches(s, s', f)
    ensures FibersOk(s'.queue, s'.workers, s'.fibers)
    ensures WorkersOk(s'.fibers, s'.autoStop && s'.stopping, s'.workers)
  {
    forall i | 0 <= i < |s.queue| && s.queue[i].work.FiberWork? ensures s.queue[i].work.fiber != f {
    }
    forall v | 0 <= v < |s.workers| ensures WorkerOk(s'.fibers, s.autoStop && s.stopping, s.workers[v]) {
      assert !Holds(s.workers[v], FiberWork(f));
      WorkerFrame(s.fibers, s'.fibers, s.autoStop && s.stopping, s.workers[v]);
    }
  }

  lemma TouchCbs(s: State, s': State, f: FiberId)
    requires CbsOk(s) && HistoryOk(s) && Touches(s, s', f)
    ensures CbsOk(s')
  {
    forall t: TaskId | CbOk(s, t) ensures CbOk(s', t) {
      forall g | g in s'.fibers ensures s'.fibers[g].task != Some(t) {
      }
    }
    hide CbsOk, CbOk, HistoryOk;
    CbsKept(s, s');
  }

  lemma TouchAccepted(s: State, s': State, f: FiberId)
    requires AcceptedOk(s) && HistoryOk(s) && Touches(s, s', f)
    ensures AcceptedOk(s')
  {
    forall g | g in s'.fibers && s'.fibers[g].state == INIT && s'.fibers[g].task.Some?
      ensures s'.fibers[g].task.value in s'.accepted <==>
                Queued(s'.queue, FiberWork(g)) || Held(s'.workers, FiberWork(g))
    {
      if g == f {
        assert s.nextTask !in s.accepted;
      } else {
        var held := Held(s.workers, FiberWork(g));
        assert s'.fibers[g] == s.fibers[g];
      }
    }
  }

  lemma TouchTaskOk(s: State, s': State, f: FiberId)
    requires (forall g :: g in s.fibers ==> TaskOk(s, s.fibers[g])) && HistoryOk(s) && OneFiberPerTask(s.fibers) && Touches(s, s', f)
    ensures (forall g :: g in s'.fibers ==> TaskOk(s', s'.fibers[g])) && HistoryOk(s') && OneFiberPerTask(s'.fibers)
  {
    forall g | g in s.fibers ensures s.fibers[g].task.Some? ==> s.fibers[g].task.value < s.nextTask {
      assert TaskOk(s, s.fibers[g]);
    }
    forall g | g in s'.fibers ensures TaskOk(s', s'.fibers[g]) {
      if g != f { assert TaskOk(s, s.fibers[g]); }
    }
  }

  /** A task an unfinished fiber carries is carried still, unless the fiber never ran. */
  lemma TouchLocated(s: State, s': State, f: FiberId, t: TaskId)
    requires AcceptedOk(s) && Touches(s, s', f) && t in s.accepted && Located(s, t)
    ensures Located(s', t)
  {
    if Carried(s.fibers, t) {
      var g :| g in s.fibers && s.fibers[g].task == Some(t) && !Done(s.fibers[g].state);
      assert g != f;
      assert s'.fibers[g].task == Some(t);
    }
  }

  lemma TouchTasks(s: State, s': State, f: FiberId)
    requires TasksOk(s) && Touches(s, s', f)
    ensures TasksOk(s')
  {
    hide HistoryOk, TaskOk, OneFiberPerTask, AcceptedOk, CbsOk, Located;
    TouchTaskOk(s, s', f);
    TouchAccepted(s, s', f);
    TouchCbs(s, s', f);
    forall t | t in s'.accepted && t !in s'.finished ensures Located(s', t) {
      TouchLocated(s, s', f, t);
    }
  }

  lemma TouchInv(s: State, s': State, f: FiberId)
    requires Inv(s) && Touches(s, s', f)
    ensures Inv(s')
  {
    TouchOwn(s, s', f);
    TouchTasks(s, s', f);
  }
}
