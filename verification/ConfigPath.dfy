/** Dotted names as paths through a tree: which node a name reaches, and what its variable is given. */
module ConfigPath {
  import opened Common
  import opened ConfigTree
  import opened ConfigVariable
  import opened ConfigRegistry

  /** Keys joined by dots. */
  function Dotted(keys: seq<string>): string {
    if keys == [] then "" else if |keys| == 1 then keys[0] else keys[0] + "." + Dotted(keys[1..])
  }

  /** The keys lead from `root` through maps to `node`. */
  ghost predicate Leads(root: Node, keys: seq<string>, node: Node)
    decreases |keys|
  {
    if keys == [] then node == root
    else root.Map? && exists i :: 0 <= i < |root.entries| && root.entries[i].name == keys[0] &&
                                  Leads(root.entries[i].node, keys[1..], node)
  }

  ghost predicate NoneEmpty(keys: seq<string>) { forall i :: 0 <= i < |keys| ==> keys[i] != "" }

  ghost predicate AllLegal(keys: seq<string>) { forall i :: 0 <= i < |keys| ==> Legal(keys[i]) }

  /** No map in the tree has an empty key. */
  ghost predicate NoEmptyKey(root: Node) {
    root.Map? ==> forall i :: 0 <= i < |root.entries| ==> root.entries[i].name != "" && NoEmptyKey(root.entries[i].node)
  }

  // ----- the alphabet -----

  const FIRST_LETTERS := "abcdefghikjlm"
  const LAST_LETTERS := "nopqrstuvwxyz"
  const OTHERS := "._012345678"

  lemma FirstLetters(c: char)
    ensures c in FIRST_LETTERS <==> 'a' <= c <= 'm'
  {
    if 'a' <= c <= 'h' {
      assert FIRST_LETTERS[c as int - 'a' as int] == c;
    } else if c == 'i' || c == 'k' || c == 'j' {
      assert FIRST_LETTERS[8] == 'i' && FIRST_LETTERS[9] == 'k' && FIRST_LETTERS[10] == 'j';
    } else if 'l' <= c <= 'm' {
      assert FIRST_LETTERS[c as int - 'a' as int] == c;
    }
  }

  lemma LastLetters(c: char)
    ensures c in LAST_LETTERS <==> 'n' <= c <= 'z'
  {
    if 'n' <= c <= 'z' { assert LAST_LETTERS[c as int - 'n' as int] == c; }
  }

  lemma OtherCharacters(c: char)
    ensures c in OTHERS <==> '0' <= c <= '8' || c == '.' || c == '_'
  {
    if '0' <= c <= '8' {
      assert OTHERS[c as int - '0' as int + 2] == c;
    } else if c == '.' || c == '_' {
      assert OTHERS[0] == '.' && OTHERS[1] == '_';
    }
  }

  /** The characters a name may have: the string in the source, cut into three. */
  lemma AlphabetIs(name: string)
    ensures Legal(name) <==>
            forall i :: 0 <= i < |name| ==> name[i] in FIRST_LETTERS || name[i] in LAST_LETTERS || name[i] in OTHERS
  {
    forall i | 0 <= i < |name|
      ensures InAlphabet(name[i]) <==> name[i] in FIRST_LETTERS || name[i] in LAST_LETTERS || name[i] in OTHERS
    {
      FirstLetters(name[i]);
      LastLetters(name[i]);
      OtherCharacters(name[i]);
    }
  }

  lemma LegalJoin(a: string, b: string)
    ensures Legal(a + "." + b) <==> Legal(a) && Legal(b)
  {
    var c := a + "." + b;
    assert c[|a|] == '.';
    if Legal(c) {
      forall i | 0 <= i < |a| ensures InAlphabet(a[i]) { assert c[i] == a[i]; }
      forall i | 0 <= i < |b| ensures InAlphabet(b[i]) { assert c[|a| + 1 + i] == b[i]; }
    }
    if Legal(a) && Legal(b) {
      forall i | 0 <= i < |c| ensures InAlphabet(c[i]) {
        if i < |a| { assert c[i] == a[i]; } else if i > |a| { assert c[i] == b[i - |a| - 1]; }
      }
    }
  }

  /** A dotted name is legal exactly when its keys are. */
  lemma {:induction false} DottedLegal(keys: seq<string>)
    ensures Legal(Dotted(keys)) <==> AllLegal(keys)
  {
    if |keys| > 1 {
      LegalJoin(keys[0], Dotted(keys[1..]));
      DottedLegal(keys[1..]);
      hide Legal;
      assert keys == [keys[0]] + keys[1..];
    } else if |keys| == 1 {
      assert Legal(keys[0]) <==> AllLegal(keys);
    }
  }

  // ----- paths are listed -----

  /** The name under which a listing that started with `prefix` shows the end of the path. */
  function Under(prefix: string, keys: seq<string>): string {
    if keys == [] then prefix else if prefix == "" then Dotted(keys) else prefix + "." + Dotted(keys)
  }

  lemma UnderBelow(prefix: string, keys: seq<string>)
    requires keys != [] && keys[0] != ""
    ensures Under(Below(prefix, keys[0]), keys[1..]) == Under(prefix, keys)
  {
    if |keys| > 1 && prefix != "" {
      assert prefix + "." + keys[0] + "." + Dotted(keys[1..]) == prefix + "." + (keys[0] + "." + Dotted(keys[1..]));
    }
  }

  lemma {:induction false} EntryListed(prefix: string, entries: seq<Member>, i: nat, m: Member)
    requires i < |entries| && m in Preorder(Below(prefix, entries[i].name), entries[i].node)
    ensures m in PreorderEntries(prefix, entries)
  {
    hide Preorder;
    if i > 0 {
      EntryListed(prefix, entries[1..], i - 1, m);
    }
  }

  lemma {:induction false} PathListed(prefix: string, root: Node, keys: seq<string>, node: Node)
    requires Leads(root, keys, node) && NoneEmpty(keys)
    ensures Member(Under(prefix, keys), node) in Preorder(prefix, root)
    decreases |keys|
  {
    hide PreorderEntries;
    if keys != [] {
      var i :| 0 <= i < |root.entries| && root.entries[i].name == keys[0] && Leads(root.entries[i].node, keys[1..], node);
      UnderBelow(prefix, keys);
      assert forall k :: 0 <= k < |keys| - 1 ==> keys[1..][k] == keys[k + 1];
      PathListed(Below(prefix, keys[0]), root.entries[i].node, keys[1..], node);
      EntryListed(prefix, root.entries, i, Member(Under(prefix, keys), node));
    }
  }

  // ----- what is listed is a path -----

  lemma {:induction false} WhichEntry(prefix: string, entries: seq<Member>, m: Member) returns (i: nat)
    requires m in PreorderEntries(prefix, entries)
    ensures i < |entries| && m in Preorder(Below(prefix, entries[i].name), entries[i].node)
  {
    hide Preorder;
    if m in Preorder(Below(prefix, entries[0].name), entries[0].node) {
      i := 0;
    } else {
      i := WhichEntry(prefix, entries[1..], m);
      i := i + 1;
    }
  }

  lemma {:induction false} ListedPath(prefix: string, root: Node, m: Member) returns (keys: seq<string>)
    requires m in Preorder(prefix, root) && NoEmptyKey(root)
    ensures Leads(root, keys, m.node) && NoneEmpty(keys) && m.name == Under(prefix, keys)
    decreases root
  {
    hide PreorderEntries;
    if m == Member(prefix, root) {
      keys := [];
    } else {
      assert root.Map? && m in PreorderEntries(prefix, root.entries);
      var i := WhichEntry(prefix, root.entries, m);
      var key := root.entries[i].name;
      assert root.entries[i].node < root;
      var rest := ListedPath(Below(prefix, key), root.entries[i].node, m);
      keys := [key] + rest;
      assert keys[1..] == rest;
      UnderBelow(prefix, keys);
    }
  }

  lemma {:induction false} LegalMember(members: seq<Member>, m: Member)
    ensures m in LegalOnes(members) <==> m in members && Legal(m.name)
  {
    if members != [] {
      LegalMember(members[1..], m);
      assert members == [members[0]] + members[1..];
    }
  }

  /** A path of non-empty legal keys is listed, with its node, under its keys joined by dots: for every tree. */
  lemma PathIsListed(root: Node, keys: seq<string>, node: Node)
    requires Leads(root, keys, node) && NoneEmpty(keys) && AllLegal(keys)
    ensures Member(Dotted(keys), node) in LegalOnes(Preorder("", root))
  {
    hide Preorder, LegalOnes, Legal;
    PathListed("", root, keys, node);
    DottedLegal(keys);
    LegalMember(Preorder("", root), Member(Dotted(keys), node));
  }

  /** In a tree without empty keys the listing is exactly the paths of legal keys. */
  lemma ListingIsPaths(root: Node, name: string, node: Node)
    requires NoEmptyKey(root)
    ensures Member(name, node) in LegalOnes(Preorder("", root)) <==>
            exists keys :: Leads(root, keys, node) && NoneEmpty(keys) && AllLegal(keys) && name == Dotted(keys)
  {
    hide Preorder, LegalOnes, Legal, Leads, NoEmptyKey;
    var m := Member(name, node);
    LegalMember(Preorder("", root), m);
    if m in LegalOnes(Preorder("", root)) {
      var keys := ListedPath("", root, m);
      DottedLegal(keys);
      assert name == Dotted(keys);
    }
    forall keys | Leads(root, keys, node) && NoneEmpty(keys) && AllLegal(keys) && name == Dotted(keys)
      ensures m in LegalOnes(Preorder("", root))
    {
      PathIsListed(root, keys, node);
    }
  }

  // ----- what the variable of a path is given -----

  /** The text of a scalar is its own; of any other node its emission. */
  ghost predicate Gives(node: Node, emit: Node -> string, text: string) {
    (node.Scalar? ==> text == node.text) && (!node.Scalar? ==> text == emit(node))
  }

  lemma {:induction false} TextOfMember(name: string, members: seq<Member>, emit: Node -> string, j: nat) returns (i: nat)
    requires name != "" && j < |members| && members[j].name == name
    ensures i < |Texts(name, members, emit)| && Gives(members[j].node, emit, Texts(name, members, emit)[i])
  {
    if j == 0 {
      i := 0;
    } else {
      i := TextOfMember(name, members[1..], emit, j - 1);
      if members[0].name == name { i := i + 1; }
    }
  }

  lemma {:induction false} MemberOfText(name: string, members: seq<Member>, emit: Node -> string, i: nat) returns (j: nat)
    requires i < |Texts(name, members, emit)|
    ensures j < |members| && members[j].name == name && Gives(members[j].node, emit, Texts(name, members, emit)[i])
  {
    if members[0].name == name && name != "" && i == 0 {
      j := 0;
    } else {
      j := MemberOfText(name, members[1..], emit, if members[0].name == name && name != "" then i - 1 else i);
      j := j + 1;
    }
  }

  lemma DottedNotEmpty(keys: seq<string>)
    requires keys != [] && NoneEmpty(keys)
    ensures Dotted(keys) != ""
  {
  }

  /** A load gives the variable named by a path the text of the node at its end, in every tree. */
  lemma PathIsGiven(root: Node, keys: seq<string>, node: Node, emit: Node -> string)
    requires Leads(root, keys, node) && NoneEmpty(keys) && keys != []
    ensures var texts := Texts(Dotted(keys), Preorder("", root), emit);
            exists i :: 0 <= i < |texts| && Gives(node, emit, texts[i])
  {
    hide Preorder, Texts, Leads, Gives, Dotted;
    PathListed("", root, keys, node);
    DottedNotEmpty(keys);
    var members := Preorder("", root);
    var j :| 0 <= j < |members| && members[j] == Member(Dotted(keys), node);
    var i := TextOfMember(Dotted(keys), members, emit, j);
  }

  /** The end of every path of that name is this node. */
  ghost predicate Sole(root: Node, name: string, node: Node) {
    forall keys, other :: Leads(root, keys, other) && NoneEmpty(keys) && Dotted(keys) == name ==> other == node
  }

  lemma SoleText(root: Node, name: string, node: Node, emit: Node -> string, text: string, i: nat)
    requires NoEmptyKey(root) && name != "" && Sole(root, name, node) && Gives(node, emit, text)
    requires i < |Texts(name, Preorder("", root), emit)|
    ensures Texts(name, Preorder("", root), emit)[i] == text
  {
    hide Preorder, Texts, Leads, NoEmptyKey, NoneEmpty;
    var members := Preorder("", root);
    var j := MemberOfText(name, members, emit, i);
    var path := ListedPath("", root, members[j]);
    assert path != [] && Dotted(path) == name;
  }

  lemma {:induction false} SameTexts<T>(s: VarState<T>, texts: seq<string>, text: string, v: T, k: Kind<T>)
    requires forall i :: 0 <= i < |texts| ==> texts[i] == text
    requires k.eq(v, v) && k.parse(text) == Some(v) && (texts == [] ==> k.eq(v, s.val))
    ensures k.eq(v, Run(s, Parses(texts), k).val)
    decreases |texts|
  {
    if texts != [] {
      assert Parses<T>(texts)[1..] == Parses<T>(texts[1..]);
      SameTexts(Step(s, Parse(texts[0]), k), texts[1..], text, v, k);
    }
  }

  lemma {:induction false} NoTexts<T>(s: VarState<T>, texts: seq<string>, k: Kind<T>)
    requires forall i :: 0 <= i < |texts| ==> k.parse(texts[i]) == None
    ensures Run(s, Parses(texts), k) == s
    decreases |texts|
  {
    if texts != [] {
      assert Parses<T>(texts)[1..] == Parses<T>(texts[1..]);
      NoTexts(s, texts[1..], k);
    }
  }

  /**
   Loading a tree without empty keys in which a path of keys leads to a node, and
   no other node has its dotted name: the variable of that name holds the
   conversion of the node's text, up to its `==`, or is left alone if the text
   does not convert.
   */
  lemma NestedSetting<T>(s: VarState<T>, root: Node, keys: seq<string>, node: Node, emit: Node -> string, text: string, k: Kind<T>)
    requires NoEmptyKey(root) && Leads(root, keys, node) && NoneEmpty(keys) && keys != []
    requires Sole(root, Dotted(keys), node) && Gives(node, emit, text)
    ensures k.parse(text) == None ==> Loaded(s, Dotted(keys), root, emit, k) == s
    ensures k.parse(text).Some? && k.eq(k.parse(text).value, k.parse(text).value) ==>
              k.eq(k.parse(text).value, Loaded(s, Dotted(keys), root, emit, k).val)
  {
    hide Preorder, Texts, Leads, Run, Parses, NoEmptyKey, Dotted, Gives, Sole;
    var name := Dotted(keys);
    var texts := Texts(name, Preorder("", root), emit);
    PathIsGiven(root, keys, node, emit);
    DottedNotEmpty(keys);
    forall i | 0 <= i < |texts| ensures texts[i] == text {
      SoleText(root, name, node, emit, text, i);
    }
    match k.parse(text)
    case Some(v) => if k.eq(v, v) { SameTexts(s, texts, text, v, k); }
    case None => NoTexts(s, texts, k);
  }

  // ----- order -----

  lemma {:induction false} EntriesAppend(prefix: string, a: seq<Member>, b: seq<Member>)
    ensures PreorderEntries(prefix, a + b) == PreorderEntries(prefix, a) + PreorderEntries(prefix, b)
  {
    hide Preorder;
    if a == [] {
      assert a + b == b;
    } else {
      assert (a + b)[1..] == a[1..] + b && (a + b)[0] == a[0];
      EntriesAppend(prefix, a[1..], b);
      Associate(Preorder(Below(prefix, a[0].name), a[0].node), PreorderEntries(prefix, a[1..]), PreorderEntries(prefix, b));
    }
  }

  /** What later entries of a map say of a name comes after what the earlier ones say, so it wins. */
  lemma LaterEntriesLater(name: string, a: seq<Member>, b: seq<Member>, emit: Node -> string)
    ensures Texts(name, Preorder("", Map(a + b)), emit) ==
            Texts(name, Preorder("", Map(a)), emit) + Texts(name, Preorder("", Map(b)), emit)
  {
    hide PreorderEntries;
    EntriesAppend("", a, b);
    MapTexts(name, a, emit);
    MapTexts(name, b, emit);
    MapTexts(name, a + b, emit);
    TextsAppend(name, PreorderEntries("", a), PreorderEntries("", b), emit);
  }

  lemma MapTexts(name: string, entries: seq<Member>, emit: Node -> string)
    ensures Texts(name, Preorder("", Map(entries)), emit) == Texts(name, PreorderEntries("", entries), emit)
  {
    hide PreorderEntries;
    var all := Preorder("", Map(entries));
    assert all[0] == Member("", Map(entries)) && all[1..] == PreorderEntries("", entries);
  }
}
