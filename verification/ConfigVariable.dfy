/** One configuration variable with its change listeners, and what a listener gets to see over any run. */
module ConfigVariable {
  import opened Common

  /** The type of a variable: its name, its `==`, and the conversion from text, which may fail. */
  datatype Kind<!T> = Kind(typeName: string, eq: (T, T) -> bool, parse: string -> Option<T>)

  /** One listener call: who was told of which change. */
  datatype Call<T> = Call(id: nat, before: T, after: T)

  /**
   Value, ids of the registered listeners in order, every listener call so far,
   and the last id handed out to any variable of this type.
   */
  datatype VarState<T> = VarState(val: T, cbs: seq<nat>, calls: seq<Call<T>>, lastId: nat)

  datatype Op<T> = Set(v: T) | Parse(text: string) | Add | AddElsewhere | Delete(id: nat) | Clear

  /** One call per listener, in order. */
  function Notify<T>(cbs: seq<nat>, before: T, after: T): seq<Call<T>> {
    if cbs == [] then [] else [Call(cbs[0], before, after)] + Notify(cbs[1..], before, after)
  }

  function SetTo<T>(s: VarState<T>, v: T, k: Kind<T>): VarState<T> {
    if k.eq(v, s.val) then s else s.(val := v, calls := s.calls + Notify(s.cbs, s.val, v))
  }

  function Without(cbs: seq<nat>, id: nat): seq<nat> {
    if cbs == [] then [] else (if cbs[0] == id then [] else [cbs[0]]) + Without(cbs[1..], id)
  }

  function Step<T>(s: VarState<T>, op: Op<T>, k: Kind<T>): VarState<T> {
    match op
    case Set(v) => SetTo(s, v, k)
    case Parse(text) => (match k.parse(text) case Some(v) => SetTo(s, v, k) case None => s)
    case Add => s.(lastId := s.lastId + 1, cbs := s.cbs + [s.lastId + 1])
    case AddElsewhere => s.(lastId := s.lastId + 1)
    case Delete(id) => s.(cbs := Without(s.cbs, id))
    case Clear => s.(cbs := [])
  }

  function Run<T>(s: VarState<T>, ops: seq<Op<T>>, k: Kind<T>): VarState<T>
    decreases |ops|
  {
    if ops == [] then s else Run(Step(s, ops[0], k), ops[1..], k)
  }

  lemma {:induction false} RunAppend<T>(s: VarState<T>, a: seq<Op<T>>, b: seq<Op<T>>, k: Kind<T>)
    ensures Run(s, a + b, k) == Run(Run(s, a, k), b, k)
    decreases |a|
  {
    if a == [] {
      assert a + b == b;
    } else {
      assert (a + b)[1..] == a[1..] + b;
      RunAppend(Step(s, a[0], k), a[1..], b, k);
    }
  }

  // ----- what a listener receives -----

  function Received<T>(calls: seq<Call<T>>, id: nat): seq<(T, T)> {
    if calls == [] then []
    else (if calls[0].id == id then [(calls[0].before, calls[0].after)] else []) + Received(calls[1..], id)
  }

  /** The changes of the value over a run, in order. */
  function Changes<T>(s: VarState<T>, ops: seq<Op<T>>, k: Kind<T>): seq<(T, T)>
    decreases |ops|
  {
    if ops == [] then []
    else ChangeOf(s, ops[0], k) + Changes(Step(s, ops[0], k), ops[1..], k)
  }

  function ChangeOf<T>(s: VarState<T>, op: Op<T>, k: Kind<T>): seq<(T, T)> {
    match op
    case Set(v) => if k.eq(v, s.val) then [] else [(s.val, v)]
    case Parse(text) =>
      (match k.parse(text) case Some(v) => if k.eq(v, s.val) then [] else [(s.val, v)] case None => [])
    case _ => []
  }

  /** Each pair starts where the one before ended, and no pair is a change to an equal value. */
  ghost predicate Chain<T>(pairs: seq<(T, T)>, first: T, last: T, k: Kind<T>) {
    if pairs == [] then first == last
    else pairs[0].0 == first && !k.eq(pairs[0].1, pairs[0].0) && Chain(pairs[1..], pairs[0].1, last, k)
  }

  ghost predicate Ascending(cbs: seq<nat>) {
    forall i, j :: 0 <= i < j < |cbs| ==> cbs[i] < cbs[j]
  }

  /** Ids ascend, and no id in use is beyond the last one handed out. */
  ghost predicate Sound<T>(s: VarState<T>) {
    && Ascending(s.cbs)
    && (forall i :: 0 <= i < |s.cbs| ==> s.cbs[i] <= s.lastId)
    && (forall i :: 0 <= i < |s.calls| ==> s.calls[i].id <= s.lastId)
  }

  /** The listener is taken off by this operation. */
  predicate Removes<T>(op: Op<T>, id: nat) {
    op.Clear? || (op.Delete? && op.id == id)
  }

  lemma {:induction false} ReceivedAppend<T>(a: seq<Call<T>>, b: seq<Call<T>>, id: nat)
    ensures Received(a + b, id) == Received(a, id) + Received(b, id)
  {
    hide Received;
    if a == [] {
      assert a + b == b;
      ReceivedNone<T>(id);
    } else {
      assert (a + b)[1..] == a[1..] + b && (a + b)[0] == a[0];
      ReceivedFirst(a + b, id);
      ReceivedFirst(a, id);
      ReceivedAppend(a[1..], b, id);
    }
  }

  lemma ReceivedNone<T>(id: nat)
    ensures Received<T>([], id) == []
  {
  }

  lemma ReceivedFirst<T>(calls: seq<Call<T>>, id: nat)
    requires calls != []
    ensures Received(calls, id) ==
            (if calls[0].id == id then [(calls[0].before, calls[0].after)] else []) + Received(calls[1..], id)
  {
  }

  /** A change is told exactly once to each listener, in the order of their ids, and to nobody else. */
  lemma {:induction false} NotifyReaches<T>(cbs: seq<nat>, before: T, after: T, id: nat)
    requires Ascending(cbs)
    ensures Received(Notify(cbs, before, after), id) == if id in cbs then [(before, after)] else []
    ensures |Notify(cbs, before, after)| == |cbs|
    ensures forall i :: 0 <= i < |cbs| ==> Notify(cbs, before, after)[i] == Call(cbs[i], before, after)
  {
    if cbs != [] {
      NotifyReaches(cbs[1..], before, after, id);
      assert Notify(cbs, before, after)[1..] == Notify(cbs[1..], before, after);
      assert id in cbs[1..] ==> cbs[0] < id;
    }
  }

  lemma {:induction false} WithoutSays(cbs: seq<nat>, id: nat)
    requires Ascending(cbs)
    ensures Ascending(Without(cbs, id))
    ensures forall x :: x in Without(cbs, id) <==> x in cbs && x != id
  {
    if cbs != [] {
      var rest, head := Without(cbs[1..], id), if cbs[0] == id then [] else [cbs[0]];
      WithoutSays(cbs[1..], id);
      assert Without(cbs, id) == head + rest && cbs == [cbs[0]] + cbs[1..];
      forall x | x in rest ensures cbs[0] < x { assert x in cbs[1..]; }
      forall i | 0 <= i < |rest| ensures cbs[0] < rest[i] { assert rest[i] in rest; }
    }
  }

  lemma WithoutOne(cbs: seq<nat>, i: nat, id: nat)
    requires i < |cbs|
    ensures Without(cbs[i..], id) == (if cbs[i] == id then [] else [cbs[i]]) + Without(cbs[i + 1..], id)
  {
    assert cbs[i..][1..] == cbs[i + 1..];
  }

  lemma WithoutNone(cbs: seq<nat>, id: nat)
    ensures Without(cbs[|cbs|..], id) == []
  {
  }

  /** One operation: the listener hears of the change, if there is one, exactly when it is registered. */
  lemma StepHeard<T>(s: VarState<T>, op: Op<T>, k: Kind<T>, id: nat)
    requires Sound(s)
    ensures var t := Step(s, op, k);
            && Sound(t) && s.lastId <= t.lastId
            && Received(t.calls, id) == Received(s.calls, id) + (if id in s.cbs then ChangeOf(s, op, k) else [])
            && (id in t.cbs <==> (id in s.cbs && !Removes(op, id)) || (op.Add? && id == s.lastId + 1))
  {
    hide Notify, Received, Without;
    var none: seq<(T, T)> := [];
    assert Received(s.calls, id) == Received(s.calls, id) + none;
    var change := ChangeOf(s, op, k);
    if change != [] {
      NotifyReaches(s.cbs, s.val, change[0].1, id);
      ReceivedAppend(s.calls, Notify(s.cbs, s.val, change[0].1), id);
    }
    if op.Delete? {
      WithoutSays(s.cbs, op.id);
      var rest := Without(s.cbs, op.id);
      forall i | 0 <= i < |rest| ensures rest[i] <= s.lastId { assert rest[i] in rest; }
    }
  }

  /** While registered, a listener receives every change of the value, once and in order. */
  lemma {:induction false} HearsEverything<T>(s: VarState<T>, ops: seq<Op<T>>, k: Kind<T>, id: nat)
    requires Sound(s) && id in s.cbs && forall i :: 0 <= i < |ops| ==> !Removes(ops[i], id)
    ensures var t := Run(s, ops, k);
            Sound(t) && id in t.cbs && Received(t.calls, id) == Received(s.calls, id) + Changes(s, ops, k)
    decreases |ops|
  {
    hide Step, ChangeOf, Received, Sound;
    if ops == [] {
      assert Received(s.calls, id) + Changes(s, ops, k) == Received(s.calls, id);
    } else {
      StepHeard(s, ops[0], k, id);
      HearsEverything(Step(s, ops[0], k), ops[1..], k, id);
    }
  }

  /** An id that is not registered now and is not a future one stays silent for ever: ids are never reused. */
  lemma {:induction false} SilentForEver<T>(s: VarState<T>, ops: seq<Op<T>>, k: Kind<T>, id: nat)
    requires Sound(s) && id !in s.cbs && id <= s.lastId
    ensures var t := Run(s, ops, k); id !in t.cbs && Received(t.calls, id) == Received(s.calls, id)
    decreases |ops|
  {
    hide Step, ChangeOf, Received, Sound;
    if ops != [] {
      StepHeard(s, ops[0], k, id);
      assert Received(s.calls, id) + [] == Received(s.calls, id);
      SilentForEver(Step(s, ops[0], k), ops[1..], k, id);
    }
  }

  /** The changes over a run lead from the first value to the last one. */
  lemma {:induction false} ChangesChain<T>(s: VarState<T>, ops: seq<Op<T>>, k: Kind<T>)
    ensures Chain(Changes(s, ops, k), s.val, Run(s, ops, k).val, k)
    decreases |ops|
  {
    hide Step, ChangeOf;
    if ops != [] {
      var t := Step(s, ops[0], k);
      ChangesChain(t, ops[1..], k);
      ChangeSays(s, ops[0], k);
      hide Chain;
      ChainFront(ChangeOf(s, ops[0], k), Changes(t, ops[1..], k), s.val, t.val, Run(t, ops[1..], k).val, k);
    }
  }

  lemma ChangeSays<T>(s: VarState<T>, op: Op<T>, k: Kind<T>)
    ensures var c, t := ChangeOf(s, op, k), Step(s, op, k);
            if c == [] then t.val == s.val else |c| == 1 && c[0] == (s.val, t.val) && !k.eq(t.val, s.val)
  {
    hide Notify, Without;
  }

  lemma ChainFront<T>(c: seq<(T, T)>, rest: seq<(T, T)>, a: T, b: T, last: T, k: Kind<T>)
    requires if c == [] then a == b else |c| == 1 && c[0] == (a, b) && !k.eq(b, a)
    requires Chain(rest, b, last, k)
    ensures Chain(c + rest, a, last, k)
  {
    if c == [] {
      assert c + rest == rest;
    } else {
      assert (c + rest)[1..] == rest;
    }
  }

  lemma {:induction false} NothingReceived<T>(calls: seq<Call<T>>, id: nat)
    requires forall i :: 0 <= i < |calls| ==> calls[i].id != id
    ensures Received(calls, id) == []
  {
    if calls != [] {
      assert calls[0].id != id;
      forall i | 0 <= i < |calls[1..]| ensures calls[1..][i].id != id { assert calls[1..][i] == calls[i + 1]; }
      NothingReceived(calls[1..], id);
    }
  }

  /**
   A listener added in any state, kept over any operations and then removed: it
   has received a chain from the value at its registration to the value at its
   removal, one pair for every change between, and receives nothing afterwards.
   */
  lemma ListenerHistory<T>(s: VarState<T>, during: seq<Op<T>>, removal: Op<T>, later: seq<Op<T>>, k: Kind<T>)
    requires Sound(s)
    requires var id := s.lastId + 1;
             (forall i :: 0 <= i < |during| ==> !Removes(during[i], id)) && Removes(removal, id)
    ensures var id, t := s.lastId + 1, Step(s, Add, k);
            var u := Run(t, during, k);
            && Received(u.calls, id) == Changes(t, during, k)
            && Chain(Received(u.calls, id), s.val, u.val, k)
            && Received(Run(Step(u, removal, k), later, k).calls, id) == Received(u.calls, id)
  {
    hide Run, Changes, Chain, Received;
    var id, t := s.lastId + 1, Step(s, Add, k);
    StepHeard(s, Add, k, id);
    NothingReceived(s.calls, id);
    HearsEverything(t, during, k, id);
    assert [] + Changes(t, during, k) == Changes(t, during, k);
    ChangesChain(t, during, k);
    var u := Run(t, during, k);
    LastIdGrows(t, during, k);
    StepHeard(u, removal, k, id);
    var none: seq<(T, T)> := [];
    assert ChangeOf(u, removal, k) == none && Received(u.calls, id) + none == Received(u.calls, id);
    SilentForEver(Step(u, removal, k), later, k, id);
  }

  lemma {:induction false} LastIdGrows<T>(s: VarState<T>, ops: seq<Op<T>>, k: Kind<T>)
    ensures s.lastId <= Run(s, ops, k).lastId
    decreases |ops|
  {
    if ops != [] {
      LastIdGrows(Step(s, ops[0], k), ops[1..], k);
    }
  }

  // ----- the object -----

  /** The static counter behind `addListener`, shared by all variables of one type. */
  class IdSource {
    var last: nat

    constructor ()
      ensures last == 0
    {
      last := 0;
    }
  }

  class ConfigVar<!T> {
    const name: string
    const kind: Kind<T>
    const ids: IdSource
    var val: T
    var cbs: seq<nat>
    var calls: seq<Call<T>>

    ghost function Abs(): VarState<T>
      reads this, ids
    {
      VarState(val, cbs, calls, ids.last)
    }

    constructor (name: string, defaultValue: T, kind: Kind<T>, ids: IdSource)
      ensures this.name == name && this.kind == kind && this.ids == ids
      ensures Abs() == VarState(defaultValue, [], [], ids.last)
    {
      this.name, this.kind, this.ids := name, kind, ids;
      val, cbs, calls := defaultValue, [], [];
    }

    /** Tells every listener the old and the new value, then stores; an equal value is dropped. */
    method SetValue(v: T)
      modifies this`val, this`calls
      ensures Abs() == SetTo(old(Abs()), v, kind)
    {
      if kind.eq(v, val) {
        return;
      }
      ghost var before := calls;
      assert calls + Notify([], val, v) == calls;
      for i := 0 to |cbs|
        invariant val == old(val) && calls == before + Notify(cbs[..i], val, v)
      {
        calls := calls + [Call(cbs[i], val, v)];
        NotifyOneMore(cbs, i, val, v);
      }
      assert cbs[..|cbs|] == cbs;
      val := v;
    }

    method FromString(text: string) returns (ok: bool)
      modifies this`val, this`calls
      ensures ok == kind.parse(text).Some?
      ensures Abs() == Step(old(Abs()), Parse(text), kind)
    {
      match kind.parse(text)
      case Some(v) =>
        SetValue(v);
        ok := true;
      case None =>
        ok := false;
    }

    method AddListener() returns (id: nat)
      modifies this`cbs, ids
      ensures id == old(ids.last) + 1 && Abs() == Step(old(Abs()), Add, kind)
    {
      ids.last := ids.last + 1;
      cbs := cbs + [ids.last];
      id := ids.last;
    }

    /** Takes this listener off and keeps the others, in order; an id that is not registered changes nothing. */
    method DelListener(id: nat)
      modifies this`cbs
      ensures Abs() == Step(old(Abs()), Delete(id), kind)
      ensures forall x :: x in cbs <==> x in old(cbs) && x != id
      ensures Ascending(old(cbs)) ==> Ascending(cbs)
      ensures id !in old(cbs) ==> cbs == old(cbs)
    {
      hide Without;
      var kept: seq<nat> := [];
      assert cbs[0..] == cbs;
      for i := 0 to |cbs|
        invariant cbs == old(cbs) && kept + Without(cbs[i..], id) == Without(cbs, id)
        invariant forall x :: x in kept <==> x in cbs[..i] && x != id
        invariant id !in cbs ==> kept == cbs[..i]
      {
        WithoutOne(cbs, i, id);
        assert cbs[..i + 1] == cbs[..i] + [cbs[i]];
        if cbs[i] != id {
          kept := kept + [cbs[i]];
        }
      }
      assert cbs[..|cbs|] == cbs;
      WithoutNone(cbs, id);
      if Ascending(cbs) { WithoutSays(cbs, id); }
      cbs := kept;
    }

    method ClearListener()
      modifies this`cbs
      ensures Abs() == Step(old(Abs()), Clear, kind)
    {
      cbs := [];
    }
  }

  lemma {:induction false} NotifyOneMore<T>(cbs: seq<nat>, i: nat, before: T, after: T)
    requires i < |cbs|
    ensures Notify(cbs[..i + 1], before, after) == Notify(cbs[..i], before, after) + [Call(cbs[i], before, after)]
  {
    if i > 0 {
      assert cbs[..i + 1][1..] == cbs[1..][..i] && cbs[..i][1..] == cbs[1..][..i - 1];
      NotifyOneMore(cbs[1..], i - 1, before, after);
    }
  }
}
