/** The registry of configuration variables and the loading of a tree into it. */
module ConfigRegistry {
  import opened Common
  import opened ConfigTree
  import opened ConfigVariable

  /** The texts a tree offers to one name: those of its nodes in preorder; the empty name gets none. */
  function Texts(name: string, members: seq<Member>, emit: Node -> string): seq<string> {
    if members == [] then []
    else (if members[0].name == name && name != "" then [TextOf(members[0].node, emit)] else []) +
         Texts(name, members[1..], emit)
  }

  function TextOf(node: Node, emit: Node -> string): string {
    if node.Scalar? then node.text else emit(node)
  }

  function Parses<T>(texts: seq<string>): (ops: seq<Op<T>>)
    ensures |ops| == |texts| && forall i :: 0 <= i < |texts| ==> ops[i] == Parse(texts[i])
  {
    seq(|texts|, i requires 0 <= i < |texts| => Parse(texts[i]))
  }

  /** What loading `root` does to the variable called `name`. */
  function Loaded<T>(s: VarState<T>, name: string, root: Node, emit: Node -> string, k: Kind<T>): VarState<T> {
    Run(s, Parses(Texts(name, Preorder("", root), emit)), k)
  }

  lemma {:induction false} TextsAppend(name: string, a: seq<Member>, b: seq<Member>, emit: Node -> string)
    ensures Texts(name, a + b, emit) == Texts(name, a, emit) + Texts(name, b, emit)
  {
    if a == [] {
      assert a + b == b;
    } else {
      assert (a + b)[1..] == a[1..] + b;
      TextsAppend(name, a[1..], b, emit);
    }
  }

  /** Dropping illegal names takes nothing from a legal one. */
  lemma {:induction false} TextsOfLegal(name: string, members: seq<Member>, emit: Node -> string)
    requires Legal(name)
    ensures Texts(name, LegalOnes(members), emit) == Texts(name, members, emit)
  {
    if members != [] {
      TextsOfLegal(name, members[1..], emit);
      if Legal(members[0].name) {
        assert LegalOnes(members)[1..] == LegalOnes(members[1..]);
      } else {
        assert LegalOnes(members) == LegalOnes(members[1..]);
      }
    }
  }

  /** What one listed node does to the variable called `name`. */
  function Told<T>(s: VarState<T>, name: string, m: Member, emit: Node -> string, k: Kind<T>): VarState<T> {
    if m.name == name && name != "" then Step(s, Parse(TextOf(m.node, emit)), k) else s
  }

  /** One more member: the variable of its name, if the name is not empty, parses its text. */
  lemma LoadStep<T>(s: VarState<T>, name: string, members: seq<Member>, i: nat, emit: Node -> string, k: Kind<T>)
    requires i < |members|
    ensures var t := Run(s, Parses(Texts(name, members[..i], emit)), k);
            Run(s, Parses(Texts(name, members[..i + 1], emit)), k) == Told(t, name, members[i], emit, k)
  {
    hide Run, Step;
    var a, b := Texts(name, members[..i], emit), Texts(name, [members[i]], emit);
    assert members[..i + 1] == members[..i] + [members[i]];
    TextsAppend(name, members[..i], [members[i]], emit);
    assert Parses<T>(a + b) == Parses<T>(a) + Parses<T>(b);
    RunAppend(s, Parses(a), Parses(b), k);
    var t := Run(s, Parses(a), k);
    if members[i].name == name && name != "" {
      assert b == [TextOf(members[i].node, emit)];
      assert Parses<T>(b) == [Parse(TextOf(members[i].node, emit))];
      RunOne(t, Parse(TextOf(members[i].node, emit)), k);
    } else {
      assert b == [] && Parses<T>(b) == [];
      RunNone(t, k);
    }
  }

  lemma RunOne<T>(s: VarState<T>, op: Op<T>, k: Kind<T>)
    ensures Run(s, [op], k) == Step(s, op, k)
  {
    hide Step;
  }

  lemma RunNone<T>(s: VarState<T>, k: Kind<T>)
    ensures Run(s, [], k) == s
  {
  }

  // ----- the value after a load -----

  /** The conversion of the last text that converts, or else the value from before. */
  function LastGood<T>(texts: seq<string>, before: T, k: Kind<T>): T {
    if texts == [] then before
    else LastGood(texts[1..], match k.parse(texts[0]) case Some(v) => v case None => before, k)
  }

  ghost predicate Equivalence<T(!new)>(eq: (T, T) -> bool) {
    && (forall x :: eq(x, x))
    && (forall x, y :: eq(x, y) ==> eq(y, x))
    && (forall x, y, z :: eq(x, y) && eq(y, z) ==> eq(x, z))
  }

  lemma {:induction false} EqualStarts<T(!new)>(texts: seq<string>, a: T, b: T, k: Kind<T>)
    requires Equivalence(k.eq) && k.eq(a, b)
    ensures k.eq(LastGood(texts, a, k), LastGood(texts, b, k))
  {
    if texts != [] {
      match k.parse(texts[0])
      case Some(v) => EqualStarts(texts[1..], v, v, k);
      case None => EqualStarts(texts[1..], a, b, k);
    }
  }

  lemma {:induction false} ParsesValue<T(!new)>(s: VarState<T>, texts: seq<string>, k: Kind<T>)
    requires Equivalence(k.eq)
    ensures k.eq(Run(s, Parses(texts), k).val, LastGood(texts, s.val, k))
    decreases |texts|
  {
    if texts != [] {
      var t := Step(s, Parse(texts[0]), k);
      assert Parses<T>(texts)[1..] == Parses<T>(texts[1..]);
      ParsesValue(t, texts[1..], k);
      match k.parse(texts[0])
      case Some(v) => EqualStarts(texts[1..], t.val, v, k);
      case None =>
    }
  }

  /**
   After a load a variable holds, up to its own `==`, the conversion of the last
   node with its name that converts. If `==` is equality it holds just that, and
   a variable no node of the tree names keeps its whole state.
   */
  lemma LoadedValue<T(!new)>(s: VarState<T>, name: string, root: Node, emit: Node -> string, k: Kind<T>)
    requires Equivalence(k.eq)
    ensures var texts, t := Texts(name, Preorder("", root), emit), Loaded(s, name, root, emit, k);
            && k.eq(t.val, LastGood(texts, s.val, k))
            && ((forall x, y :: k.eq(x, y) ==> x == y) ==> t.val == LastGood(texts, s.val, k))
            && (texts == [] ==> t == s)
  {
    ParsesValue(s, Texts(name, Preorder("", root), emit), k);
  }

  /** What `LastGood` finds: some text converts to it, and no later text converts. */
  lemma {:induction false} LastGoodIsLast<T>(texts: seq<string>, before: T, k: Kind<T>)
    ensures (forall i :: 0 <= i < |texts| ==> k.parse(texts[i]).None?) ==> LastGood(texts, before, k) == before
    ensures (exists i :: 0 <= i < |texts| && k.parse(texts[i]).Some?) ==>
              exists i :: 0 <= i < |texts| && k.parse(texts[i]) == Some(LastGood(texts, before, k)) &&
                          forall j :: i < j < |texts| ==> k.parse(texts[j]).None?
  {
    if texts != [] {
      var next := match k.parse(texts[0]) case Some(v) => v case None => before;
      var rest := texts[1..];
      LastGoodIsLast(rest, next, k);
      assert forall i :: 0 <= i < |rest| ==> rest[i] == texts[i + 1];
      if i :| 0 <= i < |rest| && k.parse(rest[i]).Some? {
        var l :| 0 <= l < |rest| && k.parse(rest[l]) == Some(LastGood(rest, next, k)) &&
                 forall j :: l < j < |rest| ==> k.parse(rest[j]).None?;
        assert k.parse(texts[l + 1]) == Some(LastGood(texts, before, k));
        forall j | l + 1 < j < |texts| ensures k.parse(texts[j]).None? { assert texts[j] == rest[j - 1]; }
      } else {
        forall j | 0 < j < |texts| ensures k.parse(texts[j]).None? { assert texts[j] == rest[j - 1]; }
      }
    }
  }

  // ----- the registry -----

  datatype LookUpResult<!T> = Found(v: ConfigVar<T>) | WrongType | InvalidName

  class Config<!T> {
    var datas: map<string, ConfigVar<T>>

    ghost predicate Valid()
      reads this
    {
      && (forall n :: n in datas ==> Legal(n) && datas[n].name == n)
    }

    constructor ()
      ensures Valid() && datas == map[]
    {
      datas := map[];
    }

    /** Finds or creates; an existing variable of another type and an illegal new name are refused. */
    method LookUp(name: string, defaultValue: T, kind: Kind<T>, ids: IdSource) returns (r: LookUpResult<T>)
      requires Valid()
      modifies this
      ensures Valid()
      ensures name in old(datas) ==>
                datas == old(datas) &&
                r == if datas[name].kind.typeName == kind.typeName then Found(datas[name]) else WrongType
      ensures name !in old(datas) && !Legal(name) ==> datas == old(datas) && r == InvalidName
      ensures name !in old(datas) && Legal(name) ==>
                && r.Found? && fresh(r.v) && datas == old(datas)[name := r.v]
                && r.v.kind == kind && r.v.ids == ids && r.v.Abs() == VarState(defaultValue, [], [], ids.last)
    {
      if name in datas {
        r := if datas[name].kind.typeName == kind.typeName then Found(datas[name]) else WrongType;
        return;
      }
      if exists i :: 0 <= i < |name| && !InAlphabet(name[i]) {
        r := InvalidName;
        return;
      }
      var v := new ConfigVar(name, defaultValue, kind, ids);
      datas := datas[name := v];
      r := Found(v);
    }

    /** The body of the loader's loop: the node goes to the variable of its lower-cased name. */
    method LoadMember(m: Member, emit: Node -> string)
      requires Valid() && ToLower(m.name) == m.name
      modifies set n | n in datas :: datas[n]
      ensures forall n {:trigger datas[n]} :: n in datas ==>
                datas[n].Abs() == Told(old(datas[n].Abs()), n, m, emit, datas[n].kind)
    {
      hide Step, ToLower, Legal;
      var key := m.name;
      if key == "" {
        return;
      }
      key := ToLower(key);
      if key in datas {
        var v := datas[key];
        var ok := v.FromString(if m.node.Scalar? then m.node.text else emit(m.node));
        forall n | n in datas && n != key ensures datas[n].Abs() == old(datas[n].Abs()) {
          assert datas[n].name != v.name;
        }
      }
    }

    /** Lists the tree and hands every listed node to the variable of its name. */
    method LoadFromYaml(root: Node, emit: Node -> string)
      requires Valid()
      modifies set n | n in datas :: datas[n]
      ensures forall n {:trigger datas[n]} :: n in datas ==>
                datas[n].Abs() == Loaded(old(datas[n].Abs()), n, root, emit, datas[n].kind)
    {
      hide Run, Told, Texts, Parses, LegalOnes, Preorder, Legal, ToLower, ConfigVar.Abs;
      var list := new MemberList();
      list.ListAllMember("", root);
      var all := list.output;
      ghost var members := LegalOnes(Preorder("", root));
      assert all == members by { assert [] + members == members; }
      ghost var start := map n | n in datas :: datas[n].Abs();
      forall n | n in datas {
        LoadNothing(start[n], n, all, emit, datas[n].kind);
      }
      for i := 0 to |all|
        invariant forall n {:trigger datas[n]} :: n in datas ==>
                    datas[n].Abs() == Run(start[n], Parses(Texts(n, all[..i], emit)), datas[n].kind)
      {
        ListedIsLegal(Preorder("", root), i);
        forall n | n in datas {
          LoadStep(start[n], n, all, i, emit, datas[n].kind);
        }
        LoadMember(all[i], emit);
      }
      assert all[..|all|] == all;
      forall n | n in datas ensures datas[n].Abs() == Loaded(start[n], n, root, emit, datas[n].kind) {
        LegalName(n);
        TextsOfLegal(n, Preorder("", root), emit);
      }
    }

    lemma LegalName(n: string)
      requires Valid() && n in datas
      ensures Legal(n)
    {
    }
  }

  lemma LoadNothing<T>(s: VarState<T>, name: string, members: seq<Member>, emit: Node -> string, k: Kind<T>)
    ensures Run(s, Parses(Texts(name, members[..0], emit)), k) == s
  {
  }
}
