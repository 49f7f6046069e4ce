/** The flattening of a configuration tree into dotted names. */
module ConfigTree {

  datatype Node = Null | Scalar(text: string) | Sequence(items: seq<Node>) | Map(entries: seq<Member>)

  /** A node with its key, or in a listing with its whole dotted name. */
  datatype Member = Member(name: string, node: Node)

  /** The alphabet of names lists no upper case and stops at `8`. */
  predicate InAlphabet(c: char) {
    'a' <= c <= 'z' || '0' <= c <= '8' || c == '.' || c == '_'
  }

  predicate Legal(name: string) { forall i :: 0 <= i < |name| ==> InAlphabet(name[i]) }

  /** The name of an entry below `prefix`. */
  function Below(prefix: string, key: string): string {
    if prefix == "" then key else prefix + "." + key
  }

  /** Every node with its dotted name, in preorder, whatever the name. */
  function Preorder(prefix: string, node: Node): seq<Member>
    decreases node, 1
  {
    [Member(prefix, node)] + if node.Map? then PreorderEntries(prefix, node.entries) else []
  }

  function PreorderEntries(prefix: string, entries: seq<Member>): seq<Member>
    decreases entries, 0
  {
    if entries == [] then []
    else Preorder(Below(prefix, entries[0].name), entries[0].node) + PreorderEntries(prefix, entries[1..])
  }

  /** The members with a legal name, in order. */
  function LegalOnes(members: seq<Member>): seq<Member> {
    if members == [] then []
    else (if Legal(members[0].name) then [members[0]] else []) + LegalOnes(members[1..])
  }

  lemma {:induction false} LegalAppend(a: seq<Member>, b: seq<Member>)
    ensures LegalOnes(a + b) == LegalOnes(a) + LegalOnes(b)
  {
    if a == [] {
      assert a + b == b;
    } else {
      assert (a + b)[1..] == a[1..] + b;
      LegalAppend(a[1..], b);
    }
  }

  lemma BelowIllegal(prefix: string, key: string)
    requires !Legal(prefix)
    ensures !Legal(Below(prefix, key))
  {
    var i :| 0 <= i < |prefix| && !InAlphabet(prefix[i]);
    assert Below(prefix, key)[i] == prefix[i];
  }

  /** Nothing below an illegal name has a legal one, so pruning there loses nothing. */
  lemma {:induction false} NothingLegalBelow(prefix: string, node: Node)
    requires !Legal(prefix)
    ensures LegalOnes(Preorder(prefix, node)) == []
    decreases node, 1
  {
    var tail := if node.Map? then PreorderEntries(prefix, node.entries) else [];
    if node.Map? { NothingLegalInEntries(prefix, node.entries); }
    assert ([Member(prefix, node)] + tail)[1..] == tail;
  }

  lemma {:induction false} NothingLegalInEntries(prefix: string, entries: seq<Member>)
    requires !Legal(prefix)
    ensures LegalOnes(PreorderEntries(prefix, entries)) == []
    decreases entries, 0
  {
    if entries != [] {
      BelowIllegal(prefix, entries[0].name);
      NothingLegalBelow(Below(prefix, entries[0].name), entries[0].node);
      NothingLegalInEntries(prefix, entries[1..]);
      LegalAppend(Preorder(Below(prefix, entries[0].name), entries[0].node), PreorderEntries(prefix, entries[1..]));
    }
  }

  lemma LegalNode(prefix: string, node: Node)
    requires Legal(prefix)
    ensures LegalOnes(Preorder(prefix, node)) ==
            [Member(prefix, node)] + if node.Map? then LegalOnes(PreorderEntries(prefix, node.entries)) else []
  {
    var tail := if node.Map? then PreorderEntries(prefix, node.entries) else [];
    assert ([Member(prefix, node)] + tail)[1..] == tail;
  }

  lemma LegalEntry(prefix: string, entries: seq<Member>, i: nat)
    requires i < |entries|
    ensures LegalOnes(PreorderEntries(prefix, entries[i..])) ==
            LegalOnes(Preorder(Below(prefix, entries[i].name), entries[i].node)) +
            LegalOnes(PreorderEntries(prefix, entries[i + 1..]))
  {
    assert entries[i..][1..] == entries[i + 1..];
    LegalAppend(Preorder(Below(prefix, entries[i].name), entries[i].node), PreorderEntries(prefix, entries[i + 1..]));
  }

  lemma NoEntries(prefix: string, entries: seq<Member>)
    ensures entries[0..] == entries && LegalOnes(PreorderEntries(prefix, entries[|entries|..])) == []
  {
  }

  /** The list `ListAllMember` appends to. */
  class MemberList {
    var output: seq<Member>

    constructor ()
      ensures output == []
    {
      output := [];
    }

    /** Recurses with an early return; appends exactly the legal part of the full preorder. */
    method ListAllMember(prefix: string, node: Node)
      modifies this
      ensures output == old(output) + LegalOnes(Preorder(prefix, node))
      decreases node
    {
      hide Preorder, PreorderEntries, LegalOnes;
      if exists i :: 0 <= i < |prefix| && !InAlphabet(prefix[i]) {
        NothingLegalBelow(prefix, node);
        assert output == output + [];
        return;
      }
      LegalNode(prefix, node);
      output := output + [Member(prefix, node)];
      if node.Map? {
        ghost var begin := output;
        NoEntries(prefix, node.entries);
        for i := 0 to |node.entries|
          invariant output + LegalOnes(PreorderEntries(prefix, node.entries[i..])) ==
                    begin + LegalOnes(PreorderEntries(prefix, node.entries))
        {
          var entry := node.entries[i];
          LegalEntry(prefix, node.entries, i);
          ListAllMember(if prefix == "" then entry.name else prefix + "." + entry.name, entry.node);
        }
        ghost var below := LegalOnes(PreorderEntries(prefix, node.entries));
        assert output + [] == begin + below;
        assert old(output) + [Member(prefix, node)] + below == old(output) + ([Member(prefix, node)] + below);
      }
    }
  }

  // ----- lower-casing -----

  function Lower(c: char): char {
    if 'A' <= c <= 'Z' then c - 'A' + 'a' else c
  }

  function ToLower(s: string): (r: string)
    ensures |r| == |s| && forall i :: 0 <= i < |s| ==> r[i] == Lower(s[i])
  {
    if s == "" then "" else [Lower(s[0])] + ToLower(s[1..])
  }

  /** What lower-casing does: no capital is left, a capital becomes its own small letter, all else stays. */
  lemma LowerSays(s: string, i: nat)
    requires i < |s|
    ensures !('A' <= ToLower(s)[i] <= 'Z')
    ensures 'A' <= s[i] <= 'Z' ==> ToLower(s)[i] as int == s[i] as int + 32
    ensures !('A' <= s[i] <= 'Z') ==> ToLower(s)[i] == s[i]
  {
  }

  /** Lower-casing a listed name, as the loader does, never changes it. */
  lemma LegalIsLower(name: string)
    requires Legal(name)
    ensures ToLower(name) == name
  {
    forall i | 0 <= i < |name| ensures Lower(name[i]) == name[i] {
      assert InAlphabet(name[i]);
    }
  }

  lemma {:induction false} ListedIsLegal(members: seq<Member>, i: nat)
    requires i < |LegalOnes(members)|
    ensures Legal(LegalOnes(members)[i].name) && ToLower(LegalOnes(members)[i].name) == LegalOnes(members)[i].name
  {
    if Legal(members[0].name) && i == 0 {
      LegalIsLower(members[0].name);
    } else {
      ListedIsLegal(members[1..], if Legal(members[0].name) then i - 1 else i);
    }
  }

  /**
   A name with a 9 is never listed, lower-cased or not: no node of any tree can
   reach a variable of such a name, although lower-casing would keep the name.
   */
  lemma NineIsIllegal(name: string, root: Node)
    requires '9' in name
    ensures !Legal(name) && !Legal(ToLower(name)) && ('9' in ToLower(name))
    ensures var listed := LegalOnes(Preorder("", root));
            forall i :: 0 <= i < |listed| ==> listed[i].name != name && ToLower(listed[i].name) != ToLower(name)
  {
    var k :| 0 <= k < |name| && name[k] == '9';
    assert ToLower(name)[k] == '9' && !InAlphabet('9');
    var members := LegalOnes(Preorder("", root));
    forall i | 0 <= i < |members| ensures members[i].name != name && ToLower(members[i].name) != ToLower(name) {
      ListedIsLegal(Preorder("", root), i);
    }
  }
}
