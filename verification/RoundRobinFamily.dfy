/** Which tasks come into being while the queue drains, whose children they are, and that each runs its own script. */
module RoundRobinFamily {
  import opened Common
  import opened RoundRobin

  // ----- read off a script alone -----

  /** The scripts it spawns up to its end or hold, over as many slices as it takes. */
  function Spawns(script: Script): seq<Script>
    decreases |script|
  {
    if script == [] then []
    else
      match script[0]
      case Spawn(child) => [child] + Spawns(script[1..])
      case Emit(_) => Spawns(script[1..])
      case YieldReady => Spawns(script[1..])
      case _ => []
  }

  /** The scripts it spawns up to its next yield or its end. */
  function SliceSpawns(script: Script): seq<Script>
    decreases |script|
  {
    if script == [] then []
    else
      match script[0]
      case Spawn(child) => [child] + SliceSpawns(script[1..])
      case Emit(_) => SliceSpawns(script[1..])
      case _ => []
  }

  /** What ends the next slice. */
  function Stops(script: Script): Action
    decreases |script|
  {
    if script == [] then Return
    else if script[0].Emit? || script[0].Spawn? then Stops(script[1..]) else script[0]
  }

  /** What is left behind the action that ends the next slice. */
  function Behind(script: Script): Script
    decreases |script|
  {
    if script == [] then []
    else if script[0].Emit? || script[0].Spawn? then Behind(script[1..]) else script[1..]
  }

  lemma {:induction false} SpawnsBySlices(script: Script)
    ensures Spawns(script) == SliceSpawns(script) + if Stops(script) == YieldReady then Spawns(Behind(script)) else []
    decreases |script|
  {
    if script != [] {
      if script[0].Emit? || script[0].Spawn? { SpawnsBySlices(script[1..]); }
    }
  }

  /** New tasks with the next ids, in order. */
  function Newborn(first: nat, scripts: seq<Script>): seq<Task> {
    seq(|scripts|, i requires 0 <= i < |scripts| => Task(first + i, scripts[i]))
  }

  /** A slice, told from the script: what it adds to the queue and how it ends. */
  lemma {:induction false} SliceTells(id: nat, script: Script, w: World)
    ensures var (w1, o) := Slice(id, script, w);
            && w1.queue == w.queue + Newborn(w.nextId, SliceSpawns(script))
            && w1.nextId == w.nextId + |SliceSpawns(script)| && w1.parked == w.parked
            && o == match Stops(script)
                    case YieldReady => Again(Behind(script))
                    case YieldHold => Hold(Behind(script))
                    case Throw => Over(false)
                    case _ => Over(true)
    decreases |script|
  {
    if script == [] {
      assert w.queue + Newborn(w.nextId, []) == w.queue;
    } else {
      match script[0]
      case Emit(x) => SliceTells(id, script[1..], Say(w, Emitted(id, x)));
      case Spawn(child) =>
        SliceTells(id, script[1..], Add(w, child));
        assert w.queue + [Task(w.nextId, child)] + Newborn(w.nextId + 1, SliceSpawns(script[1..])) ==
               w.queue + Newborn(w.nextId, SliceSpawns(script));
      case _ => assert w.queue + Newborn(w.nextId, []) == w.queue;
    }
  }

  /** One turn: the head runs; behind the others come its new children, and behind them itself if it yielded READY. */
  lemma TurnOrder(w: World)
    requires w.queue != []
    ensures var t := w.queue[0];
            && Turn(w).queue == w.queue[1..] + Newborn(w.nextId, SliceSpawns(t.script)) +
                 (if Stops(t.script) == YieldReady then [Task(t.id, Behind(t.script))] else [])
            && Turn(w).parked == w.parked +
                 (if Stops(t.script) == YieldHold then [Task(t.id, Behind(t.script))] else [])
            && Turn(w).nextId == w.nextId + |SliceSpawns(t.script)|
  {
    hide Slice;
    SliceTells(w.queue[0].id, w.queue[0].script, w.(queue := w.queue[1..]));
  }

  // ----- births -----

  datatype Born = Born(parent: nat, script: Script)

  function Births(parent: nat, scripts: seq<Script>): seq<Born> {
    seq(|scripts|, i requires 0 <= i < |scripts| => Born(parent, scripts[i]))
  }

  /** The tasks that get an id during the drain, in the order of their ids. */
  function DrainBirths(w: World): seq<Born>
    decreases QueueWeight(w.queue)
  {
    if w.queue == [] then []
    else TurnWeight(w); Births(w.queue[0].id, SliceSpawns(w.queue[0].script)) + DrainBirths(Turn(w))
  }

  /** The scripts of the children of `id`, in order. */
  function ChildrenOf(births: seq<Born>, id: nat): seq<Script> {
    if births == [] then []
    else (if births[0].parent == id then [births[0].script] else []) + ChildrenOf(births[1..], id)
  }

  lemma {:induction false} ChildrenAppend(a: seq<Born>, b: seq<Born>, id: nat)
    ensures ChildrenOf(a + b, id) == ChildrenOf(a, id) + ChildrenOf(b, id)
  {
    hide ChildrenOf;
    ChildrenFirst(a + b, id);
    ChildrenFirst(a, id);
    if a == [] {
      assert a + b == b;
    } else {
      assert (a + b)[1..] == a[1..] + b && (a + b)[0] == a[0];
      ChildrenAppend(a[1..], b, id);
      Associate(if a[0].parent == id then [a[0].script] else [], ChildrenOf(a[1..], id), ChildrenOf(b, id));
    }
  }

  lemma ChildrenFirst(births: seq<Born>, id: nat)
    ensures births == [] ==> ChildrenOf(births, id) == []
    ensures births != [] ==>
              ChildrenOf(births, id) == (if births[0].parent == id then [births[0].script] else []) + ChildrenOf(births[1..], id)
  {
  }

  lemma {:induction false} ChildrenOfOne(parent: nat, scripts: seq<Script>, id: nat)
    ensures ChildrenOf(Births(parent, scripts), id) == if parent == id then scripts else []
  {
    hide ChildrenOf;
    var births := Births(parent, scripts);
    ChildrenFirst(births, id);
    if scripts != [] {
      assert births[1..] == Births(parent, scripts[1..]);
      ChildrenOfOne(parent, scripts[1..], id);
      assert [scripts[0]] + scripts[1..] == scripts;
    }
  }

  lemma BirthsStep(w: World, id: nat)
    requires w.queue != []
    ensures var head := w.queue[0];
            && DrainBirths(w) == Births(head.id, SliceSpawns(head.script)) + DrainBirths(Turn(w))
            && ChildrenOf(DrainBirths(w), id) ==
               (if head.id == id then SliceSpawns(head.script) else []) + ChildrenOf(DrainBirths(Turn(w)), id)
            && Drain(w) == Drain(Turn(w)) && QueueWeight(Turn(w).queue) < QueueWeight(w.queue)
  {
    hide ChildrenOf, Turn;
    var head := w.queue[0];
    TurnWeight(w);
    ChildrenAppend(Births(head.id, SliceSpawns(head.script)), DrainBirths(Turn(w)), id);
    ChildrenOfOne(head.id, SliceSpawns(head.script), id);
  }

  /** Every id handed out has its birth. */
  lemma {:induction false} BirthsCounted(w: World)
    ensures |DrainBirths(w)| == Drain(w).nextId - w.nextId
    decreases QueueWeight(w.queue)
  {
    hide Turn;
    if w.queue != [] {
      BirthsStep(w, 0);
      TurnOrder(w);
      BirthsCounted(Turn(w));
    }
  }

  /** A task no longer queued has no more children. */
  lemma {:induction false} NoMoreChildren(w: World, id: nat)
    requires Numbered(w) && id < w.nextId && Absent(w, id)
    ensures ChildrenOf(DrainBirths(w), id) == []
    decreases QueueWeight(w.queue)
  {
    hide ChildrenOf, DrainBirths, Turn, Numbered, Absent;
    if w.queue == [] {
      NoBirths(w, id);
    } else {
      BirthsStep(w, id);
      TurnNumbers(w);
      StaysAbsent(w, id);
      NoMoreChildren(Turn(w), id);
    }
  }

  lemma NoBirths(w: World, id: nat)
    requires w.queue == []
    ensures DrainBirths(w) == [] && ChildrenOf(DrainBirths(w), id) == []
  {
  }

  lemma StaysAbsent(w: World, id: nat)
    requires Numbered(w) && w.queue != [] && id < w.nextId && Absent(w, id)
    ensures w.queue[0].id != id && id < Turn(w).nextId && Absent(Turn(w), id)
  {
    hide Turn;
    TurnOrder(w);
  }

  /** A task whose slice did not end in a READY yield is not queued again. */
  lemma HeadLeaves(w: World)
    requires Numbered(w) && w.queue != [] && Stops(w.queue[0].script) != YieldReady
    ensures w.queue[0].id < Turn(w).nextId && Absent(Turn(w), w.queue[0].id)
  {
    hide Turn;
    TurnOrder(w);
  }

  /** Queued tasks get exactly the children their scripts spawn, in order. */
  lemma {:induction false} QueuedSpawn(w: World, i: nat)
    requires Numbered(w) && i < |w.queue|
    ensures ChildrenOf(DrainBirths(w), w.queue[i].id) == Spawns(w.queue[i].script)
    decreases QueueWeight(w.queue)
  {
    hide ChildrenOf, DrainBirths, Turn, Numbered, Absent, Spawns, SliceSpawns;
    var t := w.queue[i];
    BirthsStep(w, t.id);
    TurnNumbers(w);
    TurnOrder(w);
    if i > 0 {
      OtherId(w, i);
      assert Turn(w).queue[i - 1] == w.queue[1..][i - 1];
      QueuedSpawn(Turn(w), i - 1);
      assert [] + Spawns(t.script) == Spawns(t.script);
    } else {
      SpawnsBySlices(t.script);
      if Stops(t.script) == YieldReady {
        var last := |Turn(w).queue| - 1;
        assert Turn(w).queue[last] == Task(t.id, Behind(t.script));
        QueuedSpawn(Turn(w), last);
      } else {
        HeadLeaves(w);
        NoMoreChildren(Turn(w), t.id);
      }
    }
  }

  lemma {:induction false} NotSaid(trace: seq<Event>, id: nat)
    requires forall k :: 0 <= k < |trace| ==> trace[k].id != id
    ensures Own(trace, id) == []
  {
    hide Own;
    OwnFirst(trace, id);
    if trace != [] {
      assert trace[0].id != id;
      forall k | 0 <= k < |trace[1..]| ensures trace[1..][k].id != id { assert trace[1..][k] == trace[k + 1]; }
      NotSaid(trace[1..], id);
    }
  }

  lemma NewIsSilent(w: World, id: nat)
    requires Numbered(w) && w.nextId <= id
    ensures Own(w.trace, id) == []
  {
    NotSaid(w.trace, id);
  }

  lemma NotHead(w: World, id: nat)
    requires Numbered(w) && w.queue != [] && w.nextId <= id
    ensures w.queue[0].id != id
  {
  }

  /** A spawned task does what its script does alone, and has the children its script spawns. */
  lemma {:induction false} SpawnedRuns(w: World, m: nat)
    requires Numbered(w) && m < |DrainBirths(w)|
    ensures var id, script := w.nextId + m, DrainBirths(w)[m].script;
            && Own(Drain(w).trace, id) == Alone(id, script)
            && ChildrenOf(DrainBirths(w), id) == Spawns(script)
    decreases QueueWeight(w.queue)
  {
    hide ChildrenOf, DrainBirths, Turn, Numbered, Absent, Spawns, SliceSpawns, Own, Alone, Drain;
    var id := w.nextId + m;
    if w.queue == [] {
      NoBirths(w, id);
    } else {
      BirthsStep(w, id);
      TurnNumbers(w);
      TurnOrder(w);
      NotHead(w, id);
      var born := |SliceSpawns(w.queue[0].script)|;
      if m < born {
        var at := |w.queue| - 1 + m;
        NewAt(w, m);
        QueuedSpawn(Turn(w), at);
        DrainSaysAlone(Turn(w), at);
        TurnSilent(w, id);
        assert [] + Alone(id, DrainBirths(w)[m].script) == Alone(id, DrainBirths(w)[m].script);
      } else {
        SpawnedRuns(Turn(w), m - born);
      }
      assert forall x: seq<Script> :: [] + x == x;
    }
  }

  /** A new child stands in the queue under its id with its own script. */
  lemma NewAt(w: World, m: nat)
    requires w.queue != [] && m < |SliceSpawns(w.queue[0].script)|
    ensures var at := |w.queue| - 1 + m;
            && at < |Turn(w).queue| && m < |DrainBirths(w)|
            && Turn(w).queue[at] == Task(w.nextId + m, DrainBirths(w)[m].script)
  {
    hide Turn, SliceSpawns, ChildrenOf;
    TurnOrder(w);
    BirthsStep(w, 0);
  }

  lemma TurnSilent(w: World, id: nat)
    requires Numbered(w) && w.queue != [] && w.nextId <= id
    ensures Own(Turn(w).trace, id) == []
  {
    hide Slice, Own;
    NotHead(w, id);
    NewIsSilent(w, id);
    SliceSays(w.queue[0].id, w.queue[0].script, w.(queue := w.queue[1..]), id);
  }

  /** A parent was queued at the start, or got its own id earlier. */
  lemma {:induction false} ParentsFirst(w: World, m: nat)
    requires Numbered(w) && m < |DrainBirths(w)|
    ensures var p := DrainBirths(w)[m].parent; p < w.nextId + m && (!Absent(w, p) || w.nextId <= p)
    decreases QueueWeight(w.queue)
  {
    hide ChildrenOf, DrainBirths, Turn, SliceSpawns;
    if w.queue == [] {
      NoBirths(w, 0);
    } else {
      BirthsStep(w, 0);
      TurnNumbers(w);
      TurnOrder(w);
      var born := |SliceSpawns(w.queue[0].script)|;
      if m < born {
        assert DrainBirths(w)[m].parent == w.queue[0].id;
      } else {
        var p := DrainBirths(Turn(w))[m - born].parent;
        ParentsFirst(Turn(w), m - born);
        assert DrainBirths(w)[m].parent == p;
        if p < w.nextId && Absent(w, p) { StaysAbsent(w, p); }
      }
    }
  }

  // ----- all together -----

  /**
   `births` tells of every id from `first` on whose child it is and what it runs:
   parents come first, each task among `known` and each new one has exactly the
   children its script spawns, in order, and a new task does what its script does alone.
   */
  ghost predicate IsFamily(births: seq<Born>, known: seq<Task>, first: nat, trace: seq<Event>, next: nat) {
    && first + |births| == next
    && (forall i :: 0 <= i < |known| ==> ChildrenOf(births, known[i].id) == Spawns(known[i].script))
    && (forall m :: 0 <= m < |births| ==>
          && ChildrenOf(births, first + m) == Spawns(births[m].script)
          && Own(trace, first + m) == Alone(first + m, births[m].script)
          && births[m].parent < first + m
          && ((exists i :: 0 <= i < |known| && known[i].id == births[m].parent) || first <= births[m].parent))
  }

  /** The drain hands out ids to the children the scripts spawn, at any depth, and each child runs its own script. */
  lemma DrainFamily(w: World)
    requires Numbered(w)
    ensures IsFamily(DrainBirths(w), w.queue, w.nextId, Drain(w).trace, Drain(w).nextId)
  {
    hide ChildrenOf, DrainBirths, Turn, Spawns, Own, Alone, Drain, Numbered;
    var births := DrainBirths(w);
    BirthsCounted(w);
    forall i | 0 <= i < |w.queue| ensures ChildrenOf(births, w.queue[i].id) == Spawns(w.queue[i].script) {
      QueuedSpawn(w, i);
    }
    forall m | 0 <= m < |births|
      ensures ChildrenOf(births, w.nextId + m) == Spawns(births[m].script)
              && Own(Drain(w).trace, w.nextId + m) == Alone(w.nextId + m, births[m].script)
              && births[m].parent < w.nextId + m && (!Absent(w, births[m].parent) || w.nextId <= births[m].parent)
    {
      SpawnedRuns(w, m);
      ParentsFirst(w, m);
    }
  }
}
