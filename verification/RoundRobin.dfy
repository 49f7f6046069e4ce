/**
 What one scheduler thread computes, without fibers, counters or an idle loop:
 tasks take turns in first-in first-out order until none is left.
 */
module RoundRobin {
  import opened Common

  /** A task is a finite script; reaching its end returns. */
  datatype Action = Emit(x: int) | Spawn(child: Script) | YieldReady | YieldHold | Return | Throw
  type Script = seq<Action>

  datatype Task = Task(id: nat, script: Script)

  datatype Event = Emitted(id: nat, x: int) | Yielded(id: nat) | Parked(id: nat) | Finished(id: nat) | Failed(id: nat)

  datatype World = World(queue: seq<Task>, parked: seq<Task>, trace: seq<Event>, nextId: nat)

  /** How a slice ended; `rest` is what the saved context would still do. */
  datatype Outcome = Again(rest: Script) | Hold(rest: Script) | Over(ok: bool)

  function Say(w: World, e: Event): World { w.(trace := w.trace + [e]) }

  /** A new task, last in the queue, under the next id. */
  function Add(w: World, script: Script): World {
    w.(queue := w.queue + [Task(w.nextId, script)], nextId := w.nextId + 1)
  }

  /** One slice of task `id`: from its saved point to its next yield or its end. */
  function Slice(id: nat, script: Script, w: World): (World, Outcome)
    decreases |script|
  {
    if script == [] then (Say(w, Finished(id)), Over(true))
    else
      match script[0]
      case Emit(x) => Slice(id, script[1..], Say(w, Emitted(id, x)))
      case Spawn(child) => Slice(id, script[1..], Add(w, child))
      case YieldReady => (Say(w, Yielded(id)), Again(script[1..]))
      case YieldHold => (Say(w, Parked(id)), Hold(script[1..]))
      case Return => (Say(w, Finished(id)), Over(true))
      case Throw => (Say(w, Failed(id)), Over(false))
  }

  /** What becomes of the task after its slice. */
  function Settle(id: nat, w: World, o: Outcome): World {
    match o
    case Again(rest) => w.(queue := w.queue + [Task(id, rest)])
    case Hold(rest) => w.(parked := w.parked + [Task(id, rest)])
    case Over(_) => w
  }

  function Turn(w: World): World
    requires w.queue != []
  {
    var t := w.queue[0];
    var (w1, o) := Slice(t.id, t.script, w.(queue := w.queue[1..]));
    Settle(t.id, w1, o)
  }

  // ----- termination: every turn uses up script -----

  function Weight(script: Script): nat
    decreases script
  {
    if script == [] then 1
    else (match script[0] case Spawn(child) => 1 + Weight(child) case _ => 1) + Weight(script[1..])
  }

  function QueueWeight(queue: seq<Task>): nat {
    if queue == [] then 0 else Weight(queue[0].script) + QueueWeight(queue[1..])
  }

  lemma {:induction false} QueueWeightAppend(queue: seq<Task>, t: Task)
    ensures QueueWeight(queue + [t]) == QueueWeight(queue) + Weight(t.script)
  {
    if queue == [] {
      assert queue + [t] == [t];
    } else {
      assert (queue + [t])[1..] == queue[1..] + [t];
      QueueWeightAppend(queue[1..], t);
    }
  }

  ghost function Left(o: Outcome): nat { if o.Over? then 0 else Weight(o.rest) }

  /** A slice trades the script it uses up for the tasks it spawns. */
  lemma {:induction false} SliceWeight(id: nat, script: Script, w: World)
    ensures var (w1, o) := Slice(id, script, w);
            QueueWeight(w1.queue) + Left(o) < QueueWeight(w.queue) + Weight(script)
    decreases |script|
  {
    if script != [] {
      match script[0]
      case Emit(x) => SliceWeight(id, script[1..], Say(w, Emitted(id, x)));
      case Spawn(child) =>
        QueueWeightAppend(w.queue, Task(w.nextId, child));
        SliceWeight(id, script[1..], Add(w, child));
      case _ =>
    }
  }

  lemma TurnWeight(w: World)
    requires w.queue != []
    ensures QueueWeight(Turn(w).queue) < QueueWeight(w.queue)
  {
    var t := w.queue[0];
    SliceWeight(t.id, t.script, w.(queue := w.queue[1..]));
    var (w1, o) := Slice(t.id, t.script, w.(queue := w.queue[1..]));
    if o.Again? { QueueWeightAppend(w1.queue, Task(t.id, o.rest)); }
  }

  /** Turns until the queue is empty. */
  function Drain(w: World): (r: World)
    ensures r.queue == []
    decreases QueueWeight(w.queue)
  {
    if w.queue == [] then w else TurnWeight(w); Drain(Turn(w))
  }

  // ----- a task's own events do not depend on the others -----

  function Own(trace: seq<Event>, id: nat): seq<Event> {
    if trace == [] then []
    else (if trace[0].id == id then [trace[0]] else []) + Own(trace[1..], id)
  }

  lemma {:induction false} OwnAppend(trace: seq<Event>, e: Event, id: nat)
    ensures Own(trace + [e], id) == Own(trace, id) + if e.id == id then [e] else []
  {
    hide Own;
    OwnFirst(trace + [e], id);
    OwnFirst(trace, id);
    if trace == [] {
      assert trace + [e] == [e];
      OwnFirst([], id);
    } else {
      assert (trace + [e])[1..] == trace[1..] + [e];
      OwnAppend(trace[1..], e, id);
    }
  }

  lemma OwnFirst(trace: seq<Event>, id: nat)
    ensures trace == [] ==> Own(trace, id) == []
    ensures trace != [] ==> Own(trace, id) == (if trace[0].id == id then [trace[0]] else []) + Own(trace[1..], id)
  {
  }

  /** All a script says when run alone, over as many slices as it takes; it stops for good at a hold. */
  function Alone(id: nat, script: Script): seq<Event>
    decreases |script|
  {
    if script == [] then [Finished(id)]
    else
      match script[0]
      case Emit(x) => [Emitted(id, x)] + Alone(id, script[1..])
      case Spawn(_) => Alone(id, script[1..])
      case YieldReady => [Yielded(id)] + Alone(id, script[1..])
      case YieldHold => [Parked(id)]
      case Return => [Finished(id)]
      case Throw => [Failed(id)]
  }

  /** What the script still has to say after a slice. */
  function Later(id: nat, o: Outcome): seq<Event> {
    if o.Again? then Alone(id, o.rest) else []
  }

  /** Task ids in use are below the next one, and no two queued tasks share one. */
  ghost predicate Numbered(w: World) {
    && (forall i :: 0 <= i < |w.queue| ==> w.queue[i].id < w.nextId)
    && (forall i, j :: 0 <= i < j < |w.queue| ==> w.queue[i].id != w.queue[j].id)
    && (forall k :: 0 <= k < |w.trace| ==> w.trace[k].id < w.nextId)
  }

  ghost predicate Absent(w: World, id: nat) {
    forall i :: 0 <= i < |w.queue| ==> w.queue[i].id != id
  }

  /** A slice appends new tasks, numbered in order, and events of its own task, and nothing else. */
  lemma {:induction false} SliceGrows(id: nat, script: Script, w: World)
    ensures var (w1, _) := Slice(id, script, w);
            && w.queue <= w1.queue && w1.nextId - w.nextId == |w1.queue| - |w.queue|
            && (forall i :: |w.queue| <= i < |w1.queue| ==> w1.queue[i].id == w.nextId + i - |w.queue|)
            && w.trace <= w1.trace && (forall k :: |w.trace| <= k < |w1.trace| ==> w1.trace[k].id == id)
    decreases |script|
  {
    if script != [] {
      match script[0]
      case Emit(x) => SliceGrows(id, script[1..], Say(w, Emitted(id, x)));
      case Spawn(child) =>
        SliceGrows(id, script[1..], Add(w, child));
      case _ =>
    }
  }

  lemma SliceNumbers(id: nat, script: Script, w: World)
    requires Numbered(w) && id < w.nextId && Absent(w, id)
    ensures Numbered(Slice(id, script, w).0) && Absent(Slice(id, script, w).0, id)
  {
    SliceGrows(id, script, w);
    var w1 := Slice(id, script, w).0;
    assert forall i :: 0 <= i < |w.queue| ==> w1.queue[i] == w.queue[i];
    assert forall k :: 0 <= k < |w.trace| ==> w1.trace[k] == w.trace[k];
  }

  /** A slice says the next part of its own script and nothing for anybody else. */
  lemma {:induction false} SliceSays(id: nat, script: Script, w: World, other: nat)
    ensures var (w1, o) := Slice(id, script, w);
            if other == id then Own(w1.trace, id) + Later(id, o) == Own(w.trace, id) + Alone(id, script)
            else Own(w1.trace, other) == Own(w.trace, other)
    decreases |script|
  {
    hide Own;
    var before := Own(w.trace, id);
    if script == [] {
      SayLast(w, Finished(id), other);
    } else {
      match script[0]
      case Emit(x) =>
        OwnAppend(w.trace, Emitted(id, x), other);
        SliceSays(id, script[1..], Say(w, Emitted(id, x)), other);
        Associate(before, [Emitted(id, x)], Alone(id, script[1..]));
      case Spawn(child) =>
        SliceSays(id, script[1..], Add(w, child), other);
      case YieldReady =>
        OwnAppend(w.trace, Yielded(id), other);
        Associate(before, [Yielded(id)], Alone(id, script[1..]));
      case YieldHold => SayLast(w, Parked(id), other);
      case Return => SayLast(w, Finished(id), other);
      case Throw => SayLast(w, Failed(id), other);
    }
  }

  lemma SayLast(w: World, e: Event, other: nat)
    ensures Own(Say(w, e).trace, other) == if e.id == other then Own(w.trace, other) + [e] else Own(w.trace, other)
    ensures Own(Say(w, e).trace, other) + [] == Own(Say(w, e).trace, other)
  {
    hide Own;
    OwnAppend(w.trace, e, other);
    assert Own(w.trace, other) + [] == Own(w.trace, other);
  }

  lemma SettleNumbers(id: nat, w: World, o: Outcome)
    requires Numbered(w) && id < w.nextId && Absent(w, id)
    ensures Numbered(Settle(id, w, o)) && w.queue <= Settle(id, w, o).queue
  {
  }

  lemma TurnNumbers(w: World)
    requires Numbered(w) && w.queue != []
    ensures Numbered(Turn(w)) && w.nextId <= Turn(w).nextId && w.queue[1..] <= Turn(w).queue
    ensures forall i :: |w.queue| - 1 <= i < |Turn(w).queue| ==>
              Turn(w).queue[i].id == w.queue[0].id || w.nextId <= Turn(w).queue[i].id
  {
    hide Numbered, Absent;
    var head, w0 := w.queue[0], w.(queue := w.queue[1..]);
    TailNumbers(w);
    SliceNumbers(head.id, head.script, w0);
    SliceGrows(head.id, head.script, w0);
    var (w1, o) := Slice(head.id, head.script, w0);
    SettleNumbers(head.id, w1, o);
  }

  lemma TailNumbers(w: World)
    requires Numbered(w) && w.queue != []
    ensures Numbered(w.(queue := w.queue[1..])) && Absent(w.(queue := w.queue[1..]), w.queue[0].id)
    ensures w.queue[0].id < w.nextId
  {
  }

  lemma {:induction false} DrainCounts(w: World)
    requires Numbered(w)
    ensures w.nextId <= Drain(w).nextId
    decreases QueueWeight(w.queue)
  {
    if w.queue != [] {
      TurnNumbers(w);
      TurnWeight(w);
      DrainCounts(Turn(w));
    }
  }

  /** A task no longer queued says nothing more. */
  lemma {:induction false} DrainSilent(w: World, id: nat)
    requires Numbered(w) && id < w.nextId && Absent(w, id)
    ensures Own(Drain(w).trace, id) == Own(w.trace, id)
    decreases QueueWeight(w.queue)
  {
    if w.queue != [] {
      TurnNumbers(w);
      TurnWeight(w);
      SliceSays(w.queue[0].id, w.queue[0].script, w.(queue := w.queue[1..]), id);
      DrainSilent(Turn(w), id);
    }
  }

  lemma OtherId(w: World, i: nat)
    requires Numbered(w) && 0 < i < |w.queue|
    ensures w.queue[i].id != w.queue[0].id
  {
  }

  lemma Quietened(w1: World, w': World, id: nat)
    requires Absent(w1, id) && w'.queue == w1.queue
    ensures Absent(w', id) && forall t: seq<Event> :: t + [] == t
  {
  }

  /**
   Whatever else is queued, and whatever it spawns: each task says exactly what
   its script says when run alone.
   */
  lemma {:induction false} DrainSaysAlone(w: World, i: nat)
    requires Numbered(w) && i < |w.queue|
    ensures Own(Drain(w).trace, w.queue[i].id) == Own(w.trace, w.queue[i].id) + Alone(w.queue[i].id, w.queue[i].script)
    decreases QueueWeight(w.queue)
  {
    hide Own, Numbered, Absent, Slice;
    var id, script := w.queue[i].id, w.queue[i].script;
    var head, w0, w' := w.queue[0], w.(queue := w.queue[1..]), Turn(w);
    TurnNumbers(w);
    TurnWeight(w);
    SliceSays(head.id, head.script, w0, id);
    var (w1, o) := Slice(head.id, head.script, w0);
    if i > 0 {
      OtherId(w, i);
      assert w'.queue[i - 1] == w.queue[1..][i - 1] == w.queue[i];
      DrainSaysAlone(w', i - 1);
    } else {
      TailNumbers(w);
      SliceNumbers(head.id, head.script, w0);
      match o
      case Again(rest) =>
        assert w'.queue[|w1.queue|] == Task(id, rest);
        DrainSaysAlone(w', |w1.queue|);
      case Hold(_) =>
        Quietened(w1, w', id);
        DrainSilent(w', id);
      case Over(_) =>
        Quietened(w1, w', id);
        DrainSilent(w', id);
    }
  }

  // ----- nothing is lost -----

  predicate Ends(e: Event) { e.Parked? || e.Finished? || e.Failed? }

  /** The last event, and no other, ends the task. */
  ghost predicate EndsOnce(own: seq<Event>) {
    own != [] && forall k :: 0 <= k < |own| ==> (Ends(own[k]) <==> k == |own| - 1)
  }

  lemma {:induction false} AloneEndsOnce(id: nat, script: Script)
    ensures EndsOnce(Alone(id, script))
    decreases |script|
  {
    if script != [] {
      match script[0]
      case Emit(_) => AloneEndsOnce(id, script[1..]);
      case Spawn(_) => AloneEndsOnce(id, script[1..]);
      case YieldReady => AloneEndsOnce(id, script[1..]);
      case _ =>
    }
  }

  /** Every task queued at the start or spawned on the way finishes, fails or is parked, exactly once. */
  lemma {:induction false} DrainEndsEveryTask(w: World, id: nat)
    requires Numbered(w) && Own(w.trace, id) == [] && id < Drain(w).nextId
    requires w.nextId <= id || !Absent(w, id)
    ensures EndsOnce(Own(Drain(w).trace, id))
    decreases QueueWeight(w.queue)
  {
    if i: nat :| i < |w.queue| && w.queue[i].id == id {
      DrainSaysAlone(w, i);
      AloneEndsOnce(id, w.queue[i].script);
    } else {
      TurnNumbers(w);
      TurnWeight(w);
      TurnSpawns(w, id);
      SliceSays(w.queue[0].id, w.queue[0].script, w.(queue := w.queue[1..]), id);
      DrainEndsEveryTask(Turn(w), id);
    }
  }

  /** An id handed out during a turn belongs to a task queued after it. */
  lemma TurnSpawns(w: World, id: nat)
    requires Numbered(w) && w.queue != [] && w.nextId <= id
    ensures Turn(w).nextId <= id || !Absent(Turn(w), id)
  {
    var w0 := w.(queue := w.queue[1..]);
    SliceGrows(w.queue[0].id, w.queue[0].script, w0);
    var (w1, o) := Slice(w.queue[0].id, w.queue[0].script, w0);
    if id < w1.nextId {
      assert Turn(w).queue[|w0.queue| + id - w.nextId].id == id;
    }
  }
}
