/** Concrete executions that show why the ownership and shutdown theorems are stated as they are. */
module SchedulerWitness {
  import opened Common
  import opened SchedulerModel
  import opened SchedulerShutdown

  const NEW_WORKER := Worker(Head, None, None, INIT, Main, Main)
  const OLD_WORKER := Worker(Head, None, None, TERM, Main, Main)

  ghost predicate Ends(states: seq<State>, labels: seq<Label>, s: State) {
    IsExecution(states, labels) && states[|labels|] == s
  }

  /** Executions grow one enabled step at a time. */
  lemma Grow(states: seq<State>, labels: seq<Label>, s: State, l: Label, s': State)
      returns (states': seq<State>, labels': seq<Label>)
    requires Ends(states, labels, s) && Enabled(s, l) && s' == Apply(s, l)
    ensures states' == states + [s'] && labels' == labels + [l] && Ends(states', labels', s')
  {
    states', labels' := states + [s'], labels + [l];
  }

  lemma EndsShape(states: seq<State>, labels: seq<Label>, s: State)
    requires Ends(states, labels, s)
    ensures IsExecution(states, labels) && |states| == |labels| + 1 && states[|labels|] == s
  {
  }

  /** Two workers and one task on one fiber. */
  ghost function Two(queue: seq<Entry>, w0: Worker, w1: Worker, fb: Fiber, active: int, stop: bool): State {
    State(queue, [w0, w1], map[0 := fb], {}, active, 0, stop, stop, 1, 1, {0}, {0}, {}, false)
  }

  ghost function Inside(pc: Pc): Current { if InFiber(pc) then Of(0) else Main }

  ghost function OnFiber(pc: Pc, idle: FState): Worker {
    Worker(pc, Some(FiberWork(0)), None, idle, Inside(pc), Inside(pc))
  }

  ghost function OnCallback(pc: Pc): Worker {
    Worker(pc, Some(CbWork(0)), Some(0), INIT, Inside(pc), Inside(pc))
  }

  const LOADED := Fiber(EXEC, Fresh, true, Some(0))

  ghost function Picked(): State {
    State([], [NEW_WORKER.(pc := Scanned, ft := Some(CbWork(0))), NEW_WORKER], map[], {},
          1, 0, false, false, 0, 1, {0}, {}, {}, false)
  }

  /** `thread` is -1 or the first worker. */
  lemma TaskPicked(thread: int) returns (states: seq<State>, labels: seq<Label>)
    requires thread == -1 || thread == 0
    ensures Ends(states, labels, Picked()) && labels == [PushCb(None, thread), Scan(0)]
  {
    var s0 := State([], [NEW_WORKER, NEW_WORKER], map[], {}, 0, 0, false, false, 0, 0, {}, {}, {}, false);
    states, labels := [s0], [];
    assert Ends(states, labels, s0);
    hide Ends;
    var s1 := s0.(queue := [Entry(CbWork(0), thread)], accepted := {0}, nextTask := 1);
    states, labels := Grow(states, labels, s0, PushCb(None, thread), s1);
    states, labels := Grow(states, labels, s1, Scan(0), Picked());
  }

  lemma TaskRunning(thread: int) returns (states: seq<State>, labels: seq<Label>)
    requires thread == -1 || thread == 0
    ensures Ends(states, labels, Two([], OnCallback(Running), NEW_WORKER, LOADED, 1, false))
    ensures labels == [PushCb(None, thread), Scan(0), Dispatch(0), Enter(0)]
  {
    hide Ends;
    states, labels := TaskPicked(thread);
    var s3 := Picked().(workers := [OnCallback(Entering), NEW_WORKER], nextFiber := 1,
                        fibers := map[0 := LOADED.(own := false)]);
    states, labels := Grow(states, labels, Picked(), Dispatch(0), s3);
    states, labels := Grow(states, labels, s3, Enter(0), Two([], OnCallback(Running), NEW_WORKER, LOADED, 1, false));
  }

  const READIED := Fiber(READY, Saved, true, Some(0))

  lemma TaskLeaving(thread: int) returns (states: seq<State>, labels: seq<Label>)
    requires thread == -1 || thread == 0
    ensures Ends(states, labels, Two([], OnCallback(Leaving), NEW_WORKER, LOADED.(state := READY), 1, false))
    ensures labels == [PushCb(None, thread), Scan(0), Dispatch(0), Enter(0), Yield(0, true)]
  {
    hide Ends;
    states, labels := TaskRunning(thread);
    states, labels := Grow(states, labels, Two([], OnCallback(Running), NEW_WORKER, LOADED, 1, false), Yield(0, true),
                           Two([], OnCallback(Leaving), NEW_WORKER, LOADED.(state := READY), 1, false));
  }

  lemma TaskYielded(thread: int) returns (states: seq<State>, labels: seq<Label>)
    requires thread == -1 || thread == 0
    ensures Ends(states, labels, Two([], OnCallback(Back), NEW_WORKER, READIED, 1, false))
    ensures labels == [PushCb(None, thread), Scan(0), Dispatch(0), Enter(0), Yield(0, true), SwapOut(0)]
  {
    hide Ends;
    states, labels := TaskLeaving(thread);
    states, labels := Grow(states, labels, Two([], OnCallback(Leaving), NEW_WORKER, LOADED.(state := READY), 1, false),
                           SwapOut(0), Two([], OnCallback(Back), NEW_WORKER, READIED, 1, false));
  }

  lemma TaskInTransit() returns (states: seq<State>, labels: seq<Label>)
    ensures Ends(states, labels, Two([], OnCallback(Post), NEW_WORKER, READIED, 0, true))
    ensures labels == [PushCb(None, -1), Scan(0), Dispatch(0), Enter(0), Yield(0, true), SwapOut(0),
                       SetAutoStop, SetStopping, Decrement(0)]
  {
    hide Ends;
    states, labels := TaskYielded(-1);
    var s6 := Two([], OnCallback(Back), NEW_WORKER, READIED, 1, false);
    var s7 := s6.(autoStop := true);
    states, labels := Grow(states, labels, s6, SetAutoStop, s7);
    var s8 := s7.(stopping := true);
    states, labels := Grow(states, labels, s7, SetStopping, s8);
    states, labels := Grow(states, labels, s8, Decrement(0), Two([], OnCallback(Post), NEW_WORKER, READIED, 0, true));
  }

  /** `stopping()` can be true with a ready task about to be queued again, and false right after. */
  lemma StoppingIsNotStable() returns (states: seq<State>, labels: seq<Label>)
    ensures IsRun(states, labels) && |labels| > 0
    ensures Stopping(states[|labels| - 1]) && !Stopping(states[|labels|])
  {
    states, labels := TaskInTransit();
    var s' := Two([Entry(FiberWork(0), -1)], OnCallback(DropCb), NEW_WORKER, READIED, 0, true);
    states, labels := Grow(states, labels, states[|labels|], PostProcess(0), s');
  }

  // ----- a pin ends at a READY yield -----

  lemma PinnedTaskRequeued() returns (states: seq<State>, labels: seq<Label>)
    ensures Ends(states, labels, Two(REQUEUED, OnCallback(DropCb), NEW_WORKER, READIED, 0, false))
    ensures labels == [PushCb(None, 0), Scan(0), Dispatch(0), Enter(0), Yield(0, true), SwapOut(0),
                       Decrement(0), PostProcess(0)]
  {
    hide Ends;
    states, labels := TaskYielded(0);
    var s6 := Two([], OnCallback(Back), NEW_WORKER, READIED, 1, false);
    var s7 := Two([], OnCallback(Post), NEW_WORKER, READIED, 0, false);
    states, labels := Grow(states, labels, s6, Decrement(0), s7);
    states, labels := Grow(states, labels, s7, PostProcess(0),
                           Two(REQUEUED, OnCallback(DropCb), NEW_WORKER, READIED, 0, false));
  }

  lemma PinnedTaskPicked() returns (states: seq<State>, labels: seq<Label>)
    ensures Ends(states, labels, Two([], OnCallback(DropCb), OnFiber(Scanned, INIT), READIED, 1, false))
    ensures labels == [PushCb(None, 0), Scan(0), Dispatch(0), Enter(0), Yield(0, true), SwapOut(0),
                       Decrement(0), PostProcess(0), Scan(1)]
  {
    hide Ends;
    states, labels := PinnedTaskRequeued();
    states, labels := Grow(states, labels, Two(REQUEUED, OnCallback(DropCb), NEW_WORKER, READIED, 0, false), Scan(1),
                           Two([], OnCallback(DropCb), OnFiber(Scanned, INIT), READIED, 1, false));
  }

  ghost function Moved(): State {
    Two([], OnCallback(DropCb), OnFiber(Running, INIT), LOADED.(ctx := Saved), 1, false)
  }

  lemma PinnedTaskLoaded() returns (states: seq<State>, labels: seq<Label>)
    ensures Ends(states, labels, Moved())
    ensures labels == [PushCb(None, 0), Scan(0), Dispatch(0), Enter(0), Yield(0, true), SwapOut(0),
                       Decrement(0), PostProcess(0), Scan(1), Dispatch(1)]
  {
    hide Ends;
    states, labels := PinnedTaskPicked();
    states, labels := Grow(states, labels, Two([], OnCallback(DropCb), OnFiber(Scanned, INIT), READIED, 1, false),
                           Dispatch(1), Moved());
  }

  /** A task scheduled for the first worker, whose first slice runs there, goes on on the second one. */
  lemma PinnedTaskMoves() returns (states: seq<State>, labels: seq<Label>)
    ensures IsRun(states, labels) && |labels| == 10 && labels[0] == PushCb(None, 0) && labels[2] == Dispatch(0)
    ensures var s := states[|labels|];
            && At(s, 1, Running) && Slice(s.workers[1]) == Some(0)
            && 0 in s.fibers && s.fibers[0].task == Some(0) && s.started == {0}
  {
    states, labels := PinnedTaskLoaded();
    hide Enabled, Apply, Init;
  }

  // ----- the token discipline is needed -----

  ghost function HalfParked(): State {
    Two([], OnCallback(Leaving), NEW_WORKER, LOADED.(state := HOLD), 1, false).(ext := {0})
  }

  lemma TaskHalfParked() returns (states: seq<State>, labels: seq<Label>)
    ensures Ends(states, labels, HalfParked())
    ensures labels == [PushCb(None, -1), Scan(0), Dispatch(0), Enter(0), Share(0), Yield(0, false)]
  {
    hide Ends;
    states, labels := TaskRunning(-1);
    var s4 := Two([], OnCallback(Running), NEW_WORKER, LOADED, 1, false);
    var s5 := s4.(ext := {0});
    states, labels := Grow(states, labels, s4, Share(0), s5);
    states, labels := Grow(states, labels, s5, Yield(0, false), HalfParked());
  }

  ghost function SharedFiber(): State {
    Two([], OnCallback(Leaving), OnFiber(Entering, INIT), LOADED, 2, false).(ext := {0})
  }

  lemma EarlyWake() returns (states: seq<State>, labels: seq<Label>)
    ensures Ends(states, labels, SharedFiber())
    ensures labels == [PushCb(None, -1), Scan(0), Dispatch(0), Enter(0), Share(0), Yield(0, false),
                       PushFiber(None, 0, -1, false), Scan(1), Dispatch(1)]
    ensures |states| == 10 && states[6] == HalfParked()
  {
    hide Ends;
    states, labels := TaskHalfParked();
    EndsShape(states, labels, HalfParked());
    var s7 := HalfParked().(queue := [Entry(FiberWork(0), -1)]);
    states, labels := Grow(states, labels, HalfParked(), PushFiber(None, 0, -1, false), s7);
    var s8 := s7.(queue := [], active := 2, workers := [OnCallback(Leaving), OnFiber(Scanned, INIT)]);
    states, labels := Grow(states, labels, s7, Scan(1), s8);
    states, labels := Grow(states, labels, s8, Dispatch(1), SharedFiber());
  }

  /**
   Outside the token discipline, scheduling a fiber whose state already reads
   HOLD while its yield has not saved the context loads it on two workers at once.
   */
  lemma EarlyWakeSharesFiber() returns (states: seq<State>, labels: seq<Label>)
    ensures IsExecution(states, labels) && |labels| == 9 && labels[6] == PushFiber(None, 0, -1, false)
    ensures 0 in states[6].fibers && states[6].fibers[0].state == HOLD && !Queued(states[6].queue, FiberWork(0))
    ensures forall i :: 0 <= i < |labels| && i != 6 ==> Disciplined(states[i], labels[i])
    ensures forall w :: 0 <= w < 2 ==>
              w < |states[9].workers| && InFiber(states[9].workers[w].pc) && Slice(states[9].workers[w]) == Some(0)
  {
    states, labels := EarlyWake();
    hide IsExecution;
  }

  // ----- a pinned entry can be left behind -----

  /** After the first label nothing is scheduled by outside code, and no fiber is scheduled or reset by hand. */
  ghost predicate Tame(labels: seq<Label>) {
    forall i {:trigger labels[i]} :: 0 < i < |labels| ==>
      !labels[i].PushFiber? && !labels[i].ResetFiber? && (labels[i].PushCb? ==> labels[i].who.Some?)
  }

  lemma TameGrow(states: seq<State>, labels: seq<Label>, s: State, l: Label, s': State)
      returns (states': seq<State>, labels': seq<Label>)
    requires Ends(states, labels, s) && Enabled(s, l) && s' == Apply(s, l)
    requires |labels| > 0 && labels[0] == PushCb(None, -1) && Tame(labels)
    requires !l.PushFiber? && !l.ResetFiber? && (l.PushCb? ==> l.who.Some?)
    ensures Ends(states', labels', s') && |labels'| > 0 && labels'[0] == labels[0] && Tame(labels')
  {
    states', labels' := Grow(states, labels, s, l, s');
  }

  const REQUEUED := [Entry(FiberWork(0), -1)]
  const SPENT := Worker(Head, Some(CbWork(0)), None, INIT, Main, Main)
  const GONE := Worker(Exited, None, None, TERM, Main, Main)

  lemma SecondIdleEnds() returns (states: seq<State>, labels: seq<Label>)
    ensures Ends(states, labels, Two([], OnCallback(Post), OLD_WORKER, READIED, 0, true))
    ensures |labels| > 0 && labels[0] == PushCb(None, -1) && Tame(labels)
  {
    hide Ends, Tame;
    states, labels := TaskInTransit();
    var w0 := OnCallback(Post);
    var s1 := Two([], w0, NEW_WORKER.(pc := Scanned), READIED, 0, true);
    states, labels := TameGrow(states, labels, Two([], w0, NEW_WORKER, READIED, 0, true), Scan(1), s1);
    var s2 := Two([], w0, Worker(IdleRun, None, None, EXEC, Idle, Idle), READIED, 0, true).(idling := 1);
    states, labels := TameGrow(states, labels, s1, Dispatch(1), s2);
    var s3 := Two([], w0, OLD_WORKER.(pc := IdleBack), READIED, 0, true).(idling := 1);
    states, labels := TameGrow(states, labels, s2, IdleCheck(1), s3);
    states, labels := TameGrow(states, labels, s3, IdleLeave(1), Two([], w0, OLD_WORKER, READIED, 0, true));
  }

  lemma SecondPicksUp() returns (states: seq<State>, labels: seq<Label>)
    ensures Ends(states, labels, Two([], SPENT, OnFiber(Running, TERM), READIED.(state := EXEC), 1, true))
    ensures |labels| > 0 && labels[0] == PushCb(None, -1) && Tame(labels)
  {
    hide Ends, Tame;
    states, labels := SecondIdleEnds();
    var s1 := Two(REQUEUED, OnCallback(DropCb), OLD_WORKER, READIED, 0, true);
    states, labels := TameGrow(states, labels, Two([], OnCallback(Post), OLD_WORKER, READIED, 0, true), PostProcess(0), s1);
    var s2 := Two(REQUEUED, SPENT, OLD_WORKER, READIED, 0, true);
    states, labels := TameGrow(states, labels, s1, ReleaseCb(0), s2);
    var s3 := Two([], SPENT, OnFiber(Scanned, TERM), READIED, 1, true);
    states, labels := TameGrow(states, labels, s2, Scan(1), s3);
    states, labels := TameGrow(states, labels, s3, Dispatch(1),
                               Two([], SPENT, OnFiber(Running, TERM), READIED.(state := EXEC), 1, true));
  }

  lemma SecondYields() returns (states: seq<State>, labels: seq<Label>)
    ensures Ends(states, labels, Two([], SPENT, OnFiber(Leaving, TERM), READIED, 1, true))
    ensures |labels| > 0 && labels[0] == PushCb(None, -1) && Tame(labels)
  {
    hide Ends, Tame;
    states, labels := SecondPicksUp();
    var s1 := Two([], SPENT, OnFiber(Running, TERM), READIED.(state := EXEC), 1, true);
    states, labels := TameGrow(states, labels, s1, Yield(1, true), Two([], SPENT, OnFiber(Leaving, TERM), READIED, 1, true));
  }

  lemma SecondLeaves() returns (states: seq<State>, labels: seq<Label>)
    ensures Ends(states, labels, Two([], SPENT, OnFiber(Back, TERM), READIED, 1, true))
    ensures |labels| > 0 && labels[0] == PushCb(None, -1) && Tame(labels)
  {
    hide Ends, Tame;
    states, labels := SecondYields();
    var s2 := Two([], SPENT, OnFiber(Leaving, TERM), READIED, 1, true);
    states, labels := TameGrow(states, labels, s2, SwapOut(1), Two([], SPENT, OnFiber(Back, TERM), READIED, 1, true));
  }

  lemma SecondInTransit() returns (states: seq<State>, labels: seq<Label>)
    ensures Ends(states, labels, Two([], SPENT, OnFiber(Post, TERM), READIED, 0, true))
    ensures |labels| > 0 && labels[0] == PushCb(None, -1) && Tame(labels)
  {
    hide Ends, Tame;
    states, labels := SecondLeaves();
    var s3 := Two([], SPENT, OnFiber(Back, TERM), READIED, 1, true);
    states, labels := TameGrow(states, labels, s3, Decrement(1), Two([], SPENT, OnFiber(Post, TERM), READIED, 0, true));
  }

  lemma FirstIdleEnds() returns (states: seq<State>, labels: seq<Label>)
    ensures Ends(states, labels, Two([], OLD_WORKER, OnFiber(Post, TERM), READIED, 0, true))
    ensures |labels| > 0 && labels[0] == PushCb(None, -1) && Tame(labels)
  {
    hide Ends, Tame;
    states, labels := SecondInTransit();
    var w1 := OnFiber(Post, TERM);
    var s1 := Two([], NEW_WORKER.(pc := Scanned), w1, READIED, 0, true);
    states, labels := TameGrow(states, labels, Two([], SPENT, w1, READIED, 0, true), Scan(0), s1);
    var s2 := Two([], Worker(IdleRun, None, None, EXEC, Idle, Idle), w1, READIED, 0, true).(idling := 1);
    states, labels := TameGrow(states, labels, s1, Dispatch(0), s2);
    var s3 := Two([], OLD_WORKER.(pc := IdleBack), w1, READIED, 0, true).(idling := 1);
    states, labels := TameGrow(states, labels, s2, IdleCheck(0), s3);
    states, labels := TameGrow(states, labels, s3, IdleLeave(0), Two([], OLD_WORKER, w1, READIED, 0, true));
  }

  lemma FirstExits() returns (states: seq<State>, labels: seq<Label>)
    ensures Ends(states, labels, Two(REQUEUED, GONE, OnFiber(Head, TERM), READIED, 0, true))
    ensures |labels| > 0 && labels[0] == PushCb(None, -1) && Tame(labels)
  {
    hide Ends, Tame;
    states, labels := FirstIdleEnds();
    var w1 := OnFiber(Post, TERM);
    var s1 := Two([], OLD_WORKER.(pc := Scanned), w1, READIED, 0, true);
    states, labels := TameGrow(states, labels, Two([], OLD_WORKER, w1, READIED, 0, true), Scan(0), s1);
    var s2 := Two([], GONE, w1, READIED, 0, true);
    states, labels := TameGrow(states, labels, s1, Dispatch(0), s2);
    states, labels := TameGrow(states, labels, s2, PostProcess(1), Two(REQUEUED, GONE, OnFiber(Head, TERM), READIED, 0, true));
  }

  /** The second worker alone, after the task has spawned a callback pinned to the first. */
  ghost function Last(w1: Worker, fb: Fiber, active: int, finished: set<TaskId>): State {
    State([Entry(CbWork(1), 0)], [GONE, w1], map[0 := fb], {}, active, 0, true, true, 1, 2, {0, 1}, {0}, finished, false)
  }

  lemma SpawnsPinned() returns (states: seq<State>, labels: seq<Label>)
    ensures Ends(states, labels, Last(OnFiber(Running, TERM), READIED.(state := EXEC), 1, {}))
    ensures |labels| > 0 && labels[0] == PushCb(None, -1) && Tame(labels)
  {
    hide Ends;
    states, labels := FirstExits();
    var s1 := Two([], GONE, OnFiber(Scanned, TERM), READIED, 1, true);
    states, labels := TameGrow(states, labels, Two(REQUEUED, GONE, OnFiber(Head, TERM), READIED, 0, true), Scan(1), s1);
    var s2 := Two([], GONE, OnFiber(Running, TERM), READIED.(state := EXEC), 1, true);
    states, labels := TameGrow(states, labels, s1, Dispatch(1), s2);
    states, labels := TameGrow(states, labels, s2, PushCb(Some(1), 0),
                               Last(OnFiber(Running, TERM), READIED.(state := EXEC), 1, {}));
  }

  const OVER := Fiber(TERM, Ended, false, None)

  lemma SpawnerEnds() returns (states: seq<State>, labels: seq<Label>)
    ensures Ends(states, labels, Last(OnFiber(Back, TERM), OVER, 1, {0}))
    ensures |labels| > 0 && labels[0] == PushCb(None, -1) && Tame(labels)
  {
    hide Ends;
    states, labels := SpawnsPinned();
    var s1 := Last(OnFiber(Ending, TERM), Fiber(TERM, Saved, true, None), 1, {0});
    states, labels := TameGrow(states, labels, Last(OnFiber(Running, TERM), READIED.(state := EXEC), 1, {}), Finish(1, true), s1);
    var s2 := Last(OnFiber(Unreferenced, TERM), Fiber(TERM, Saved, false, None), 1, {0});
    states, labels := TameGrow(states, labels, s1, Unref(1), s2);
    states, labels := TameGrow(states, labels, s2, SwapOut(1), Last(OnFiber(Back, TERM), OVER, 1, {0}));
  }

  lemma SecondExits() returns (states: seq<State>, labels: seq<Label>)
    ensures Ends(states, labels, Last(GONE, OVER, 0, {0}))
    ensures |labels| > 0 && labels[0] == PushCb(None, -1) && Tame(labels)
  {
    hide Ends;
    states, labels := SpawnerEnds();
    var s1 := Last(OnFiber(Post, TERM), OVER, 0, {0});
    states, labels := TameGrow(states, labels, Last(OnFiber(Back, TERM), OVER, 1, {0}), Decrement(1), s1);
    var s2 := Last(OnFiber(Head, TERM), OVER, 0, {0});
    states, labels := TameGrow(states, labels, s1, PostProcess(1), s2);
    var s3 := Last(OLD_WORKER.(pc := Scanned), OVER, 0, {0});
    states, labels := TameGrow(states, labels, s2, Scan(1), s3);
    states, labels := TameGrow(states, labels, s3, Dispatch(1), Last(GONE, OVER, 0, {0}));
  }

  /** A disciplined run, quiet after `stop`, whose workers all leave `run` with a pinned task never started. */
  lemma PinnedTaskIsAbandoned() returns (states: seq<State>, labels: seq<Label>)
    ensures IsRun(states, labels) && Quiet(states, labels) && AllExited(states[|labels|])
    ensures var s := states[|labels|]; 1 in s.accepted - s.started && s.queue == [Entry(CbWork(1), 0)]
  {
    states, labels := SecondExits();
    forall i {:trigger labels[i]} | 0 <= i < |labels|
      ensures Disciplined(states[i], labels[i]) && QuietAfterStop(states[i], labels[i])
    {
      if i == 0 { assert Init(states[0]); }
    }
  }
}
