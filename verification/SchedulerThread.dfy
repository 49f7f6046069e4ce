/**
 The scheduler's own thread: `Scheduler` and `Fiber` as mutable objects, with
 the real loops of `run` and `schedule`, for a scheduler with a single worker.
 A suspended context is the part of the script that is still to be done.
 */
module SchedulerThread {
  import opened Common
  import opened RoundRobin
  import opened RoundRobinFamily

  class Fiber {
    var state: FState
    /** `m_cb`, and with it what the saved context has left to do. */
    var cb: Option<Task>

    constructor (cb: Option<Task>)
      ensures state == INIT && this.cb == cb
    {
      state := INIT;
      this.cb := cb;
    }

    method Reset(cb: Option<Task>)
      requires state == INIT || Done(state)
      modifies this
      ensures state == INIT && this.cb == cb
    {
      this.cb := cb;
      state := INIT;
    }
  }

  datatype FiberAndThread = FiberAndThread(fiber: Fiber?, cb: Option<Task>, thread: int)

  const NOTHING := FiberAndThread(null, None, -1)

  predicate IsWork(ft: FiberAndThread) { ft.fiber != null || ft.cb.Some? }

  /** The entries that carry work, in order. */
  function WorkOnly(fts: seq<FiberAndThread>): seq<FiberAndThread> {
    if fts == [] then []
    else
      var front, last := fts[..|fts| - 1], fts[|fts| - 1];
      if IsWork(last) then WorkOnly(front) + [last] else WorkOnly(front)
  }

  /** An element of a caller's range: a fiber pointer or a function, possibly empty. */
  datatype Pointer = ToFiber(fiber: Fiber?) | ToCb(cb: Option<Task>)

  /** `FiberAndThread(&*begin, -1)`. */
  function AnyThreadOf(p: Pointer): FiberAndThread {
    match p
    case ToFiber(f) => FiberAndThread(f, None, -1)
    case ToCb(cb) => FiberAndThread(null, cb, -1)
  }

  /** The element after the constructor swapped its value out. */
  function SwappedOut(p: Pointer): Pointer {
    if p.ToFiber? then ToFiber(null) else ToCb(None)
  }

  function AnyThread(ps: seq<Pointer>): (fts: seq<FiberAndThread>)
    ensures |fts| == |ps|
  {
    seq(|ps|, i requires 0 <= i < |ps| => AnyThreadOf(ps[i]))
  }

  lemma WorkOnlyAppend(fts: seq<FiberAndThread>, ft: FiberAndThread)
    ensures WorkOnly(fts + [ft]) == if IsWork(ft) then WorkOnly(fts) + [ft] else WorkOnly(fts)
  {
    assert (fts + [ft])[..|fts|] == fts;
  }

  lemma RangeStart(all: seq<Pointer>)
    ensures WorkOnly(AnyThread(all[..0])) == []
  {
  }

  lemma RangeStep(all: seq<Pointer>, i: nat)
    requires i < |all|
    ensures var ft := AnyThreadOf(all[i]);
            WorkOnly(AnyThread(all[..i + 1])) ==
            if IsWork(ft) then WorkOnly(AnyThread(all[..i])) + [ft] else WorkOnly(AnyThread(all[..i]))
  {
    hide WorkOnly;
    assert AnyThread(all[..i + 1]) == AnyThread(all[..i]) + [AnyThreadOf(all[i])];
    WorkOnlyAppend(AnyThread(all[..i]), AnyThreadOf(all[i]));
  }

  /** A range without empty elements is queued whole, element by element. */
  lemma FullRange(all: seq<Pointer>)
    ensures (forall i :: 0 <= i < |all| ==> all[i] != ToFiber(null) && all[i] != ToCb(None)) ==>
              && |WorkOnly(AnyThread(all))| == |all|
              && forall i :: 0 <= i < |all| ==>
                   var e := WorkOnly(AnyThread(all))[i];
                   && e.thread == -1
                   && (all[i].ToFiber? ==> e.fiber == all[i].fiber && e.cb == None)
                   && (all[i].ToCb? ==> e.fiber == null && e.cb == all[i].cb)
  {
    var fts := AnyThread(all);
    if forall i :: 0 <= i < |all| ==> all[i] != ToFiber(null) && all[i] != ToCb(None) {
      forall i | 0 <= i < |fts| ensures IsWork(fts[i]) { assert fts[i] == AnyThreadOf(all[i]); }
      AllWork(fts);
    }
  }

  lemma {:induction false} AllWork(fts: seq<FiberAndThread>)
    requires forall i :: 0 <= i < |fts| ==> IsWork(fts[i])
    ensures WorkOnly(fts) == fts
  {
    if fts != [] {
      AllWork(fts[..|fts| - 1]);
      assert fts == fts[..|fts| - 1] + [fts[|fts| - 1]];
    }
  }

  ghost function FibersOf(fts: seq<FiberAndThread>): set<Fiber> {
    set i | 0 <= i < |fts| && fts[i].fiber != null :: fts[i].fiber
  }

  /** An entry is one fiber, ready to run, or one callback. */
  ghost predicate EntryOk(ft: FiberAndThread)
    reads ft.fiber
  {
    if ft.fiber == null then ft.cb.Some?
    else ft.cb.None? && ft.fiber.cb.Some? && (ft.fiber.state == INIT || ft.fiber.state == HOLD || ft.fiber.state == READY)
  }

  ghost function TaskOf(ft: FiberAndThread): Task
    requires EntryOk(ft)
    reads ft.fiber
  {
    if ft.fiber == null then ft.cb.value else ft.fiber.cb.value
  }

  ghost predicate AllOk(fts: seq<FiberAndThread>)
    reads FibersOf(fts)
  {
    forall i :: 0 <= i < |fts| ==> EntryOk(fts[i])
  }

  ghost function Tasks(fts: seq<FiberAndThread>): (tasks: seq<Task>)
    requires AllOk(fts)
    reads FibersOf(fts)
    ensures |tasks| == |fts| && forall i :: 0 <= i < |fts| ==> tasks[i] == TaskOf(fts[i])
  {
    if fts == [] then []
    else
      var front, last := fts[..|fts| - 1], fts[|fts| - 1];
      assert forall i :: 0 <= i < |front| ==> front[i] == fts[i];
      assert FibersOf(front) <= FibersOf(fts) && (last.fiber != null ==> last.fiber in FibersOf(fts));
      Tasks(front) + [TaskOf(last)]
  }

  lemma TasksAppend(fts: seq<FiberAndThread>, ft: FiberAndThread)
    requires AllOk(fts) && EntryOk(ft)
    ensures AllOk(fts + [ft])
    ensures Tasks(fts + [ft]) == Tasks(fts) + [TaskOf(ft)]
  {
    assert (fts + [ft])[..|fts|] == fts;
  }

  lemma FibersAppend(fts: seq<FiberAndThread>, ft: FiberAndThread)
    ensures FibersOf(fts + [ft]) == FibersOf(fts) + if ft.fiber == null then {} else {ft.fiber}
  {
    var all := fts + [ft];
    assert forall i :: 0 <= i < |fts| ==> all[i] == fts[i];
    assert all[|fts|] == ft;
  }

  ghost predicate NoRepeat(fts: seq<FiberAndThread>) {
    forall i, j :: 0 <= i < j < |fts| && fts[i].fiber != null ==> fts[i].fiber != fts[j].fiber
  }

  /** An entry at the back of the queue. */
  lemma Push(fts: seq<FiberAndThread>, ft: FiberAndThread)
    requires AllOk(fts) && NoRepeat(fts) && EntryOk(ft) && (ft.fiber != null ==> ft.fiber !in FibersOf(fts))
    ensures AllOk(fts + [ft]) && NoRepeat(fts + [ft])
    ensures FibersOf(fts + [ft]) == FibersOf(fts) + if ft.fiber == null then {} else {ft.fiber}
    ensures Tasks(fts + [ft]) == Tasks(fts) + [TaskOf(ft)]
  {
    TasksAppend(fts, ft);
    FibersAppend(fts, ft);
    forall i | 0 <= i < |fts| && fts[i].fiber != null ensures fts[i].fiber != ft.fiber {
      assert fts[i].fiber in FibersOf(fts);
    }
  }

  /** Taking the head off the queue. */
  lemma Tail(fts: seq<FiberAndThread>)
    requires AllOk(fts) && NoRepeat(fts) && fts != []
    ensures EntryOk(fts[0]) && AllOk(fts[1..]) && NoRepeat(fts[1..]) && FibersOf(fts[1..]) <= FibersOf(fts)
    ensures fts[0].fiber != null ==> fts[0].fiber in FibersOf(fts) && fts[0].fiber !in FibersOf(fts[1..])
    ensures Tasks(fts)[0] == TaskOf(fts[0]) && Tasks(fts[1..]) == Tasks(fts)[1..]
  {
    var rest := fts[1..];
    assert forall i :: 0 <= i < |rest| ==> rest[i] == fts[i + 1];
  }

  predicate OnlyFor(fts: seq<FiberAndThread>, me: int) {
    forall i :: 0 <= i < |fts| ==> fts[i].thread == -1 || fts[i].thread == me
  }

  lemma DrainDone(w: World)
    requires w.queue == []
    ensures Drain(w) == w
  {
  }

  /** A turn on the entry at the head of the queue. */
  lemma Unfold(ft: FiberAndThread, w: World)
    requires w.queue != [] && EntryOk(ft) && TaskOf(ft) == w.queue[0]
    ensures ft.fiber == null ==> ft.cb == Some(w.queue[0])
    ensures ft.fiber != null ==> ft.fiber.cb == Some(w.queue[0]) && !Done(ft.fiber.state) && ft.fiber.state != EXEC
    ensures var t := w.queue[0];
            var (w1, o) := Slice(t.id, t.script, w.(queue := w.queue[1..]));
            Turn(w) == Settle(t.id, w1, o)
    ensures Drain(w) == Drain(Turn(w)) && QueueWeight(Turn(w).queue) < QueueWeight(w.queue)
  {
    TurnWeight(w);
  }

  /** What a slice with outcome `o` leaves in the fiber that ran task `t`. */
  ghost predicate LeftBy(f: Fiber, t: Task, o: Outcome)
    reads f
  {
    match o
    case Again(rest) => f.state == READY && f.cb == Some(Task(t.id, rest))
    case Hold(rest) => f.state == HOLD && f.cb == Some(Task(t.id, rest))
    case Over(ok) => if ok then f.state == TERM && f.cb == None else f.state == EXCEPT && f.cb == Some(t)
  }

  class Scheduler {
    var fibers: seq<FiberAndThread>
    var active: int
    var idling: int
    var stopping: bool
    var autoStop: bool
    /** `m_rootFiber->getState()`. */
    var root: FState
    var trace: seq<Event>
    var nextTask: nat
    /** Tasks in HOLD; the scheduler itself keeps no reference to them. */
    ghost var parked: seq<Task>

    constructor ()
      ensures fibers == [] && active == 0 && idling == 0 && stopping && !autoStop && root == INIT
      ensures trace == [] && nextTask == 0 && parked == [] && Valid()
    {
      fibers, active, idling, stopping, autoStop, root := [], 0, 0, true, false, INIT;
      trace, nextTask, parked := [], 0, [];
    }

    ghost predicate Valid()
      reads this`fibers, FibersOf(fibers)
    {
      && AllOk(fibers)
      && NoRepeat(fibers)
    }

    /** The scheduler as the round-robin world it stands for. */
    ghost function Abs(): World
      requires Valid()
      reads this`fibers, this`parked, this`trace, this`nextTask, FibersOf(fibers)
    {
      World(Tasks(fibers), parked, trace, nextTask)
    }

    // ----- scheduling (scheduler.h:63-107) -----

    method ScheduleNoLock(ft: FiberAndThread) returns (needTickle: bool)
      modifies this`fibers
      ensures needTickle == (old(fibers) == [])
      ensures fibers == if IsWork(ft) then old(fibers) + [ft] else old(fibers)
    {
      needTickle := fibers == [];
      if IsWork(ft) {
        fibers := fibers + [ft];
      }
    }

    method Schedule(ft: FiberAndThread)
      modifies this`fibers
      ensures fibers == if IsWork(ft) then old(fibers) + [ft] else old(fibers)
    {
      var needTickle := ScheduleNoLock(ft);
    }

    /** The range form moves every fiber pointer or function of the caller's range into the queue. */
    method ScheduleRange(range: array<Pointer>) returns (needTickle: bool)
      modifies this`fibers, range
      ensures fibers == old(fibers) + WorkOnly(AnyThread(old(range[..])))
      ensures forall i :: 0 <= i < range.Length ==> range[i] == SwappedOut(old(range[i]))
      ensures needTickle == (old(fibers) == [] && range.Length > 0)
      ensures (forall i :: 0 <= i < range.Length ==> old(range[i]) != ToFiber(null) && old(range[i]) != ToCb(None)) ==>
                && |fibers| == |old(fibers)| + range.Length
                && forall i :: 0 <= i < range.Length ==>
                     var e := fibers[|old(fibers)| + i];
                     && e.thread == -1
                     && (old(range[i]).ToFiber? ==> e.fiber == old(range[i]).fiber && e.cb == None)
                     && (old(range[i]).ToCb? ==> e.fiber == null && e.cb == old(range[i]).cb)
    {
      hide WorkOnly, AnyThread, AnyThreadOf;
      needTickle := false;
      var i := 0;
      ghost var all := range[..];
      RangeStart(all);
      while i < range.Length
        invariant 0 <= i <= range.Length
        invariant fibers == old(fibers) + WorkOnly(AnyThread(all[..i]))
        invariant forall k :: 0 <= k < i ==> range[k] == SwappedOut(all[k])
        invariant forall k :: i <= k < range.Length ==> range[k] == all[k]
        invariant needTickle == (old(fibers) == [] && i > 0)
      {
        var ft := AnyThreadOf(range[i]);
        range[i] := SwappedOut(range[i]);
        RangeStep(all, i);
        var tickle := ScheduleNoLock(ft);
        needTickle := tickle || needTickle;
        i := i + 1;
      }
      assert all[..range.Length] == all;
      FullRange(all);
    }

    // ----- one slice (fiber.cc:136-152, 175-231) -----

    /** What a running task does: it speaks, or schedules a callback for any thread. */
    method Speak(e: Event)
      requires Valid()
      modifies this`trace
      ensures Valid() && Abs() == Say(old(Abs()), e)
    {
      trace := trace + [e];
    }

    method SpawnTask(child: Script)
      requires Valid()
      modifies this`fibers, this`nextTask
      ensures Valid() && FibersOf(fibers) == old(FibersOf(fibers))
      ensures old(fibers) <= fibers && forall i :: |old(fibers)| <= i < |fibers| ==> fibers[i].thread == -1
      ensures Abs() == Add(old(Abs()), child)
    {
      hide AllOk, NoRepeat, Tasks;
      var ft := FiberAndThread(null, Some(Task(nextTask, child)), -1);
      Push(fibers, ft);
      Schedule(ft);
      nextTask := nextTask + 1;
    }

    /**
     `f->swapIn()`: the fiber runs its script up to its next yield or its end,
     scheduling what it spawns, and leaves its state for the loop to read.
     */
    method SwapIn(f: Fiber)
      requires Valid() && f !in FibersOf(fibers) && f.cb.Some? && f.state != EXEC
      modifies this`fibers, this`trace, this`nextTask, f
      ensures Valid() && FibersOf(fibers) == old(FibersOf(fibers))
      ensures old(fibers) <= fibers && forall i :: |old(fibers)| <= i < |fibers| ==> fibers[i].thread == -1
      ensures Abs() == Slice(old(f.cb.value.id), old(f.cb.value.script), old(Abs())).0
      ensures LeftBy(f, old(f.cb.value), Slice(old(f.cb.value.id), old(f.cb.value.script), old(Abs())).1)
      ensures match Stops(old(f.cb.value.script))
              case YieldReady => f.state == READY && f.cb == Some(Task(old(f.cb.value.id), Behind(old(f.cb.value.script))))
              case YieldHold => f.state == HOLD && f.cb == Some(Task(old(f.cb.value.id), Behind(old(f.cb.value.script))))
              case Throw => f.state == EXCEPT && f.cb == old(f.cb)
              case _ => f.state == TERM && f.cb == None
    {
      hide Valid, Abs, AllOk, EntryOk, Tasks, FibersOf;
      f.state := EXEC;
      var id, rest, running := f.cb.value.id, f.cb.value.script, true;
      ghost var t, w0 := f.cb.value, Abs();
      while running
        invariant Valid() && FibersOf(fibers) == old(FibersOf(fibers))
        invariant old(fibers) <= fibers && forall i :: |old(fibers)| <= i < |fibers| ==> fibers[i].thread == -1
        invariant running ==> f.state == EXEC && f.cb == Some(t) && Slice(id, rest, Abs()) == Slice(id, t.script, w0)
        invariant !running ==> Abs() == Slice(id, t.script, w0).0 && LeftBy(f, t, Slice(id, t.script, w0).1)
        decreases running, |rest|
      {
        if rest == [] || rest[0] == Return {
          Speak(Finished(id));
          f.cb, f.state := None, TERM;
          running := false;
        } else {
          match rest[0]
          case Emit(x) =>
            Speak(Emitted(id, x));
            rest := rest[1..];
          case Spawn(child) =>
            SpawnTask(child);
            rest := rest[1..];
          case YieldReady =>
            Speak(Yielded(id));
            f.state, f.cb := READY, Some(Task(id, rest[1..]));
            running := false;
          case YieldHold =>
            Speak(Parked(id));
            f.state, f.cb := HOLD, Some(Task(id, rest[1..]));
            running := false;
          case Throw =>
            Speak(Failed(id));
            f.state := EXCEPT;
            running := false;
        }
      }
      SliceTells(id, t.script, w0);
    }

    // ----- run (scheduler.cc:164-270) -----

    /** The scan under the lock: the leftmost entry this thread may take, out of the queue. */
    method Pick(me: int) returns (ft: FiberAndThread, ghost k: nat)
      modifies this`fibers, this`active
      ensures k <= |old(fibers)|
      ensures forall j :: 0 <= j < k ==>
                var e := old(fibers)[j];
                (e.thread != -1 && e.thread != me) || (e.fiber != null && e.fiber.state == EXEC)
      ensures k < |old(fibers)| ==>
                && (ft.thread == -1 || ft.thread == me) && !(ft.fiber != null && ft.fiber.state == EXEC)
                && ft == old(fibers)[k] && active == old(active) + 1
                && fibers == old(fibers)[..k] + old(fibers)[k + 1..]
      ensures k == |old(fibers)| ==> ft == NOTHING && active == old(active) && fibers == old(fibers)
    {
      ft := NOTHING;
      var it := 0;
      k := |fibers|;
      while it < |fibers|
        invariant 0 <= it <= |fibers| && k == |fibers| && ft == NOTHING
        invariant fibers == old(fibers) && active == old(active)
        invariant forall j :: 0 <= j < it ==>
                    var e := fibers[j];
                    (e.thread != -1 && e.thread != me) || (e.fiber != null && e.fiber.state == EXEC)
      {
        if fibers[it].thread != -1 && fibers[it].thread != me {
          it := it + 1;
          continue;
        }
        if fibers[it].fiber != null && fibers[it].fiber.state == EXEC {
          it := it + 1;
          continue;
        }
        k := it;
        ft := fibers[it];
        fibers := fibers[..it] + fibers[it + 1..];
        active := active + 1;
        break;
      }
    }

    /** Puts a fiber back into the queue, for any thread. */
    method Requeue(f: Fiber)
      requires Valid() && f !in FibersOf(fibers) && f.cb.Some? && f.state == READY
      modifies this`fibers
      ensures Valid() && FibersOf(fibers) == old(FibersOf(fibers)) + {f}
      ensures fibers == old(fibers) + [FiberAndThread(f, None, -1)]
      ensures Abs() == old(Abs()).(queue := old(Abs()).queue + [f.cb.value])
    {
      hide AllOk, NoRepeat, Tasks;
      var ft := FiberAndThread(f, None, -1);
      Push(fibers, ft);
      Schedule(ft);
    }

    ghost method Park(t: Task)
      requires Valid()
      modifies this`parked
      ensures Valid() && Abs() == old(Abs()).(parked := old(Abs()).parked + [t])
    {
      parked := parked + [t];
    }

    /** A slice of a picked fiber and what follows it. */
    method RunFiber(f: Fiber)
      requires Valid() && f !in FibersOf(fibers) && f.cb.Some? && f.state != EXEC
      modifies this`fibers, this`trace, this`nextTask, this`active, this`parked, f
      ensures Valid() && FibersOf(fibers) <= old(FibersOf(fibers)) + {f}
      ensures active == old(active) - 1
      ensures old(fibers) <= fibers && forall i :: |old(fibers)| <= i < |fibers| ==> fibers[i].thread == -1
      ensures var (w1, o) := Slice(old(f.cb.value.id), old(f.cb.value.script), old(Abs()));
              Abs() == Settle(old(f.cb.value.id), w1, o)
    {
      hide Valid, Abs, AllOk, EntryOk, Tasks, FibersOf, Slice;
      SwapIn(f);
      active := active - 1;
      if f.state == READY {
        Requeue(f);
      } else if !Done(f.state) {
        f.state := HOLD;
        Park(f.cb.value);
      }
    }

    /** `cb` is null, or a spare fiber of this thread: INIT and not in the queue. */
    ghost predicate SpareOk(cb: Fiber?)
      reads this`fibers, cb
    {
      cb != null ==> cb.state == INIT && cb !in FibersOf(fibers)
    }

    method NewFiber(cb: Option<Task>) returns (f: Fiber)
      ensures fresh(f) && f !in FibersOf(fibers) && f.state == INIT && f.cb == cb
    {
      f := new Fiber(cb);
    }

    /** A picked callback: on the spare fiber or a new one, which is kept if the callback is done with it. */
    method RunCallback(t: Task, cb: Fiber?) returns (spare: Fiber?)
      requires Valid() && SpareOk(cb)
      modifies this`fibers, this`trace, this`nextTask, this`active, this`parked, cb
      ensures Valid() && SpareOk(spare) && (spare != null ==> spare == cb || fresh(spare))
      ensures forall f :: f in FibersOf(fibers) ==> f in old(FibersOf(fibers)) || f == cb || fresh(f)
      ensures active == old(active) - 1
      ensures old(fibers) <= fibers && forall i :: |old(fibers)| <= i < |fibers| ==> fibers[i].thread == -1
      ensures var (w1, o) := Slice(t.id, t.script, old(Abs()));
              Abs() == Settle(t.id, w1, o)
    {
      hide Valid, Abs, AllOk, EntryOk, Tasks, Slice;
      var f: Fiber;
      if cb != null {
        f := cb;
        f.Reset(Some(t));
      } else {
        f := NewFiber(Some(t));
      }
      SwapIn(f);
      active := active - 1;
      if f.state == READY {
        Requeue(f);
        spare := null;
      } else if Done(f.state) {
        f.Reset(None);
        spare := f;
      } else {
        f.state := HOLD;
        Park(f.cb.value);
        spare := null;
      }
    }

    /** When this thread may take every entry, the scan takes the oldest. */
    method PickFirst(me: int) returns (ft: FiberAndThread)
      requires Valid() && OnlyFor(fibers, me)
      modifies this`fibers, this`active
      ensures Valid() && OnlyFor(fibers, me)
      ensures old(fibers) == [] <==> old(Abs()).queue == []
      ensures old(Abs()).queue == [] ==> ft == NOTHING && fibers == [] && active == old(active) && Abs() == old(Abs())
      ensures old(Abs()).queue != [] ==>
                && active == old(active) + 1 && FibersOf(fibers) <= old(FibersOf(fibers))
                && EntryOk(ft) && TaskOf(ft) == old(Abs()).queue[0] && IsWork(ft)
                && (ft.fiber != null ==> ft.fiber in old(FibersOf(fibers)) && ft.fiber !in FibersOf(fibers))
                && Abs() == old(Abs()).(queue := old(Abs()).queue[1..])
    {
      hide FibersOf, Tasks;
      ghost var before := fibers;
      ghost var k;
      assert |Tasks(fibers)| == |fibers|;
      if before != [] { Tail(before); }
      ft, k := Pick(me);
      assert before != [] ==> k == 0 && fibers == before[1..];
    }

    predicate Stopping()
      reads this`autoStop, this`stopping, this`fibers, this`active
    {
      autoStop && stopping && fibers == [] && active == 0
    }

    /** One slice of the idle fiber: it returns when the scheduler may stop, and yields otherwise. */
    method SwapInIdle(idle: Fiber)
      requires idle.state != EXEC && !Done(idle.state)
      modifies idle
      ensures idle.state == if Stopping() then TERM else HOLD
      ensures idle.state == TERM <==> autoStop && stopping && fibers == [] && active == 0
    {
      idle.state := EXEC;
      idle.state := if Stopping() then TERM else HOLD;
    }

    method RunIdle(idle: Fiber)
      requires idle.state != EXEC && !Done(idle.state)
      modifies this`idling, idle
      ensures idling == old(idling) && idle.state == if Stopping() then TERM else HOLD
      ensures idle.state == TERM <==> autoStop && stopping && fibers == [] && active == 0
    {
      idling := idling + 1;
      SwapInIdle(idle);
      idling := idling - 1;
      if !Done(idle.state) {
        idle.state := HOLD;
      }
    }

    /** The worker loop, entered after `stop` was called: it drains the queue in turns and leaves. */
    method Run(me: int)
      requires Valid() && OnlyFor(fibers, me) && autoStop && stopping && active == 0 && idling == 0
      modifies this`fibers, this`trace, this`nextTask, this`active, this`idling, this`parked, FibersOf(fibers)
      ensures Valid() && fibers == [] && active == 0 && idling == 0
      ensures Abs() == Drain(old(Abs()))
    {
      hide Valid, Abs, AllOk, EntryOk, Tasks, Slice, Turn, Drain, QueueWeight;
      ghost var w0 := Abs();
      var idle := NewFiber(None);
      var cb: Fiber? := null;
      while true
        invariant Valid() && OnlyFor(fibers, me) && SpareOk(cb)
        invariant idle !in FibersOf(fibers) && idle != cb && fresh(idle) && (cb != null ==> fresh(cb))
        invariant forall f :: f in FibersOf(fibers) ==> f in old(FibersOf(fibers)) || fresh(f)
        invariant active == 0 && idling == 0
        invariant idle.state == INIT || idle.state == HOLD || (idle.state == TERM && fibers == [])
        invariant Drain(Abs()) == Drain(w0)
        decreases QueueWeight(Abs().queue), idle.state != TERM
      {
        ghost var w := Abs();
        var ft := PickFirst(me);
        if w.queue != [] { Unfold(ft, w); } else { DrainDone(w); }
        if ft.fiber != null && !Done(ft.fiber.state) {
          RunFiber(ft.fiber);
        } else if ft.cb.Some? {
          cb := RunCallback(ft.cb.value, cb);
        } else {
          if idle.state == TERM {
            break;
          }
          RunIdle(idle);
        }
      }
    }

    lemma NoWork()
      requires Valid()
      ensures fibers == [] ==> Abs().queue == [] && Drain(Abs()) == Abs()
    {
    }

    /**
     `stop()` of a scheduler whose only thread is the caller's (scheduler.cc:109-151).
     With work left it enters the root fiber, which drains the queue, whatever was
     scheduled before and during the drain. The root fiber never yields; if it is
     running (a task called `stop`) or has ended, entering it fails an assertion.
     */
    method Stop(me: int) returns (aborted: bool)
      requires Valid() && root != HOLD && root != READY
      requires root != EXEC ==> active == 0 && idling == 0
      requires root == INIT ==> OnlyFor(fibers, me)
      modifies this, FibersOf(fibers)
      ensures Valid() && autoStop && stopping && active == old(active) && idling == old(idling)
      ensures aborted == ((old(fibers) != [] || old(active) != 0) && old(root) != INIT)
      ensures aborted ==> fibers == old(fibers) && Abs() == old(Abs()) && root == old(root)
      ensures !aborted ==> Stopping() && Abs() == Drain(old(Abs()))
      ensures !aborted ==> root == if old(fibers) == [] then old(root) else TERM
    {
      hide Drain, Tasks;
      aborted := false;
      NoWork();
      autoStop := true;
      if root == TERM || root == INIT {
        stopping := true;
        if Stopping() {
          return;
        }
      }
      stopping := true;
      if !Stopping() {
        if root != INIT {
          aborted := true;
          return;
        }
        root := EXEC;
        Run(me);
        root := TERM;
      }
    }
  }

  /** A scheduler given callbacks and stopped: each callback does what its script does alone, and ends once. */
  method Session(scripts: seq<Script>, me: int) returns (s: Scheduler)
    ensures fresh(s) && s.fibers == [] && s.nextTask >= |scripts|
    ensures forall i :: 0 <= i < |scripts| ==> Own(s.trace, i) == Alone(i, scripts[i])
    ensures forall id: nat :: id < s.nextTask ==> EndsOnce(Own(s.trace, id))
    ensures exists births :: IsFamily(births, Numbering(scripts), |scripts|, s.trace, s.nextTask)
  {
    hide Numbering, Own, Alone, EndsOnce, Drain, Tasks, IsFamily;
    s := new Scheduler();
    NumberingStep([]);
    TasksNone(s.fibers);
    var i := 0;
    while i < |scripts|
      invariant 0 <= i <= |scripts| && fresh(s)
      invariant s.Valid() && OnlyFor(s.fibers, me) && FibersOf(s.fibers) == {}
      invariant s.active == 0 && s.idling == 0 && s.root == INIT
      invariant s.Abs() == World(Numbering(scripts[..i]), [], [], i)
    {
      s.SpawnTask(scripts[i]);
      NumberingStep(scripts[..i + 1]);
      assert scripts[..i + 1][..i] == scripts[..i];
      i := i + 1;
    }
    ghost var w := s.Abs();
    assert scripts[..|scripts|] == scripts;
    var aborted := s.Stop(me);
    SessionEnds(scripts, w);
  }

  ghost function Numbering(scripts: seq<Script>): (tasks: seq<Task>)
    ensures |tasks| == |scripts| && forall i :: 0 <= i < |scripts| ==> tasks[i] == Task(i, scripts[i])
  {
    if scripts == [] then []
    else Numbering(scripts[..|scripts| - 1]) + [Task(|scripts| - 1, scripts[|scripts| - 1])]
  }

  lemma NumberingStep(scripts: seq<Script>)
    ensures scripts == [] ==> Numbering(scripts) == []
    ensures scripts != [] ==>
              Numbering(scripts) == Numbering(scripts[..|scripts| - 1]) + [Task(|scripts| - 1, scripts[|scripts| - 1])]
  {
  }

  lemma TasksNone(fts: seq<FiberAndThread>)
    requires fts == []
    ensures AllOk(fts) && Tasks(fts) == []
  {
  }

  lemma OwnFirstOfNone()
    ensures forall id :: Own([], id) == []
  {
  }

  lemma SessionNumbered(scripts: seq<Script>, w: World)
    requires w == World(Numbering(scripts), [], [], |scripts|)
    ensures Numbered(w) && |w.queue| == |scripts| && w.trace == []
    ensures forall i :: 0 <= i < |scripts| ==> w.queue[i] == Task(i, scripts[i]) && !Absent(w, i)
  {
    NumberingSays(scripts);
    hide Numbering;
    forall i | 0 <= i < |scripts| ensures !Absent(w, i) {
      assert w.queue[i].id == i;
    }
  }

  lemma NumberingSays(scripts: seq<Script>)
    ensures var tasks := Numbering(scripts);
            |tasks| == |scripts| && forall i :: 0 <= i < |scripts| ==> tasks[i] == Task(i, scripts[i])
  {
  }

  lemma SessionEnds(scripts: seq<Script>, w: World)
    requires w == World(Numbering(scripts), [], [], |scripts|)
    ensures Drain(w).nextId >= |scripts|
    ensures forall i :: 0 <= i < |scripts| ==> Own(Drain(w).trace, i) == Alone(i, scripts[i])
    ensures forall id: nat :: id < Drain(w).nextId ==> EndsOnce(Own(Drain(w).trace, id))
    ensures IsFamily(DrainBirths(w), Numbering(scripts), |scripts|, Drain(w).trace, Drain(w).nextId)
  {
    hide Drain, Own, EndsOnce, Alone, Numbered, Absent, Numbering, IsFamily, DrainBirths;
    SessionNumbered(scripts, w);
    DrainFamily(w);
    OwnFirstOfNone();
    SessionNumbered(scripts, w);
    DrainCounts(w);
    forall i | 0 <= i < |scripts| ensures Own(Drain(w).trace, i) == Alone(i, scripts[i]) {
      DrainSaysAlone(w, i);
      assert [] + Alone(i, scripts[i]) == Alone(i, scripts[i]);
    }
    forall id: nat | id < Drain(w).nextId ensures EndsOnce(Own(Drain(w).trace, id)) {
      DrainEndsEveryTask(w, id);
    }
  }
}
