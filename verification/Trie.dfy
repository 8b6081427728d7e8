/** Merkle-Patricia tries (Appendix D of the Ethereum Yellow Paper) and what the program's proof
    walk says about them: exactly which values it accepts, and when those are the stored ones. */
module Trie {
  import opened ByteStrings
  import opened Options
  import opened HexPrefix
  import opened TrieProof
  import opened Rlp

  datatype Node =
    | Empty
    | Leaf(path: Nibbles, value: Bytes)
    | Extension(path: Nibbles, child: Node)
    | Branch(children: seq<Node>, value: Bytes)

  // ------------------------------------------------------------------ definition

  /** c(t): the RLP structure of a node. */
  ghost function Structure(k: Hash, t: Node): (item: Item)
    ensures t.Empty? <==> item.Str?
    decreases t, 0
  {
    match t
    case Empty => Str([])
    case Leaf(path, value) => List([Str(EncodePath(path, true)), Str(value)])
    case Extension(path, child) => List([Str(EncodePath(path, false)), Ref(k, child)])
    case Branch(children, value) => List(Refs(k, children) + [Str(value)])
  }

  /** n(t): how a parent refers to a node: the node itself when its encoding is short, else its hash. */
  ghost function Ref(k: Hash, t: Node): Item
    decreases t, 1
  {
    if t.Empty? || |Encode(Structure(k, t))| < 32 then Structure(k, t)
    else Str(k(Encode(Structure(k, t))))
  }

  ghost function Refs(k: Hash, ts: seq<Node>): (items: seq<Item>)
    ensures |items| == |ts| && forall i :: 0 <= i < |ts| ==> items[i] == Ref(k, ts[i])
    decreases ts
  {
    if ts == [] then [] else [Ref(k, ts[0])] + Refs(k, ts[1..])
  }

  ghost function Encoding(k: Hash, t: Node): Bytes {
    Encode(Structure(k, t))
  }

  ghost function Root(k: Hash, t: Node): Digest {
    k(Encoding(k, t))
  }

  ghost predicate Embedded(k: Hash, t: Node) {
    !t.Empty? && |Encoding(k, t)| < 32
  }

  ghost predicate WellFormed(k: Hash, t: Node) {
    && Fits(Structure(k, t))
    && match t
       case Empty => true
       case Leaf(_, _) => true
       case Extension(_, child) => !child.Empty? && WellFormed(k, child)
       case Branch(children, _) => |children| == 16 && forall i :: 0 <= i < 16 ==> WellFormed(k, children[i])
  }

  /** The value slot the key leads to; a branch's slot may hold the empty string. */
  ghost function Lookup(t: Node, key: Nibbles): Option<Bytes> {
    match t
    case Empty => None
    case Leaf(path, value) => if path == key then Some(value) else None
    case Extension(path, child) => if path <= key then Lookup(child, key[|path|..]) else None
    case Branch(children, value) =>
      if key == [] then Some(value)
      else if key[0] < |children| then Lookup(children[key[0]], key[1..])
      else None
  }

  ghost function Encodings(k: Hash, t: Node): set<Bytes>
  {
    {Encoding(k, t)} +
    match t
    case Empty => {}
    case Leaf(_, _) => {}
    case Extension(_, child) => Encodings(k, child)
    case Branch(children, _) => set i, e | 0 <= i < |children| && e in Encodings(k, children[i]) :: e
  }

  // ------------------------------------------------------------------ one node

  ghost function RefOf(k: Hash, c: Node): Option<NodeRef>
  {
    if c.Empty? then None
    else if Embedded(k, c) then Some(Inline(EncodeAll(Structure(k, c).items)))
    else Some(Hashed(k(Encoding(k, c))))
  }

  lemma ItemsAtLeastOne(xs: seq<Item>)
    ensures |EncodeAll(xs)| >= |xs|
  {
  }

  lemma {:induction false} MemberSize(xs: seq<Item>, i: nat)
    requires i < |xs|
    ensures |EncodeAll(xs)| >= |Encode(xs[i])| + |xs| - 1
  {
    if i == 0 {
      ItemsAtLeastOne(xs[1..]);
    } else {
      MemberSize(xs[1..], i - 1);
    }
  }

  lemma ChildRefRead(k: Hash, c: Node)
    requires WellFormed(k, c)
    ensures ChildRef(Encode(Ref(k, c))) == RefOf(k, c)
  {
    var item := Ref(k, c);
    assert Encode(item) + [] == Encode(item);
    match item
    case Str(s) => StringRead(s, []);
    case List(xs) =>
      ListRead(xs, []);
      ItemsAtLeastOne(xs);
  }

  ghost function DescendInto(k: Hash, c: Node, remaining: Nibbles): Visit {
    match RefOf(k, c)
    case None => Panic
    case Some(r) => Descend(r, remaining)
  }

  /** What visiting the bytes of trie node t does. */
  ghost function Expected(k: Hash, t: Node, remaining: Nibbles): Visit
    requires !t.Empty? && (t.Branch? ==> |t.children| == 16)
  {
    match t
    case Leaf(path, value) => if path == remaining then Accept(value) else Panic
    case Extension(path, child) => if path <= remaining then DescendInto(k, child, remaining[|path|..]) else Panic
    case Branch(children, value) =>
      if remaining == [] then Accept(value) else DescendInto(k, children[remaining[0]], remaining[1..])
  }

  lemma ViewMember(xs: seq<Item>, rest: Bytes, i: nat)
    requires i < |xs| && Fits(List(xs))
    ensures At(Encode(List(xs)) + rest, i) == Some(Encode(xs[i]))
    ensures ItemCount(Encode(List(xs)) + rest) == Some(|xs|)
    ensures Fits(xs[i])
    ensures xs[i].Str? ==> Data(Encode(xs[i])) == Some(xs[i].str)
  {
    ListItemsRead(xs, rest);
    MemberFits(xs, i);
    if xs[i].Str? {
      StringRead(xs[i].str, []);
      assert Encode(xs[i]) + [] == Encode(xs[i]);
    }
  }

  /** What the two views of a leaf or extension show. */
  lemma ViewTwoItems(k: Hash, t: Node, rest: Bytes)
    requires (t.Leaf? || t.Extension?) && WellFormed(k, t)
    ensures var (xs, node) := (Structure(k, t).items, Encoding(k, t) + rest);
            && |xs| == 2 && ItemCount(node) == Some(2) && At(node, 1) == Some(Encode(xs[1]))
            && (xs[1].Str? ==> Data(Encode(xs[1])) == Some(xs[1].str))
            && At(node, 0).Some? && Data(At(node, 0).value) == Some(EncodePath(t.path, t.Leaf?))
  {
    var xs := Structure(k, t).items;
    ViewMember(xs, rest, 0);
    ViewMember(xs, rest, 1);
  }

  lemma VisitLeaf(k: Hash, t: Node, rest: Bytes, remaining: Nibbles)
    requires t.Leaf? && WellFormed(k, t)
    ensures VisitNode(Encoding(k, t) + rest, remaining) == Expected(k, t, remaining)
  {
    ViewTwoItems(k, t, rest);
    PathRoundTrip(t.path, true);
  }

  lemma VisitExtension(k: Hash, t: Node, rest: Bytes, remaining: Nibbles)
    requires t.Extension? && WellFormed(k, t)
    ensures VisitNode(Encoding(k, t) + rest, remaining) == Expected(k, t, remaining)
  {
    ViewTwoItems(k, t, rest);
    PathRoundTrip(t.path, false);
    ChildRefRead(k, t.child);
  }

  lemma VisitBranchNode(k: Hash, t: Node, rest: Bytes, remaining: Nibbles)
    requires t.Branch? && WellFormed(k, t)
    ensures VisitNode(Encoding(k, t) + rest, remaining) == Expected(k, t, remaining)
  {
    var xs := Structure(k, t).items;
    var i: nat := if remaining == [] then 16 else remaining[0];
    ViewMember(xs, rest, i);
    if remaining != [] {
      ChildRefRead(k, t.children[remaining[0]]);
    }
  }

  lemma VisitTrieNode(k: Hash, t: Node, rest: Bytes, remaining: Nibbles)
    requires !t.Empty? && WellFormed(k, t)
    ensures VisitNode(Encoding(k, t) + rest, remaining) == Expected(k, t, remaining)
  {
    if t.Branch? {
      VisitBranchNode(k, t, rest, remaining);
    } else if t.Leaf? {
      VisitLeaf(k, t, rest, remaining);
    } else {
      VisitExtension(k, t, rest, remaining);
    }
  }
}
