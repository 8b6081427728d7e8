/** The proving program's walk over Merkle-Patricia proof nodes. A panic of the program is None. */
module TrieProof {
  import opened ByteStrings
  import opened Options
  import opened HexPrefix
  import Rlp

  type Digest = d: Bytes | |d| == 32 witness Zeros(32)

  /** Any function to 32-byte digests can stand for keccak256; nothing is assumed about it.
      Theorems that need collision resistance say "or two of these strings collide". */
  type Hash = Bytes -> Digest

  ghost predicate HasCollision(k: Hash, pool: set<Bytes>) {
    exists a, b :: a in pool && b in pool && a != b && k(a) == k(b)
  }

  datatype NodeRef = Hashed(digest: Digest) | Inline(bytes: Bytes)

  /** data() takes the payload of string and list alike, so an embedded child loses its list header. */
  function ChildRef(item: Bytes): Option<NodeRef> {
    var bytes :- Rlp.Data(item);
    if bytes == [] then None
    else if |bytes| == 32 then Some(Hashed(bytes))
    else Some(Inline(bytes))
  }

  predicate Matches(k: Hash, expected: NodeRef, node: Bytes) {
    match expected
    case Hashed(d) => k(node) == d
    case Inline(bytes) => node == bytes
  }

  datatype Visit = Panic | Accept(value: Bytes) | Descend(next: NodeRef, remaining: Nibbles)

  function DescendTo(item: Option<Bytes>, remaining: Nibbles): Visit {
    if item.None? || ChildRef(item.value).None? then Panic
    else Descend(ChildRef(item.value).value, remaining)
  }

  function AcceptData(item: Option<Bytes>): Visit {
    if item.None? || Rlp.Data(item.value).None? then Panic
    else Accept(Rlp.Data(item.value).value)
  }

  function VisitBranch(node: Bytes, remaining: Nibbles): Visit {
    if remaining == [] then AcceptData(Rlp.At(node, 16))
    else DescendTo(Rlp.At(node, remaining[0]), remaining[1..])
  }

  function VisitPath(node: Bytes, remaining: Nibbles): Visit {
    if Rlp.At(node, 0).None? || Rlp.Data(Rlp.At(node, 0).value).None? then Panic
    else
      match DecodePath(Rlp.Data(Rlp.At(node, 0).value).value)
      case None => Panic
      case Some((isLeaf, path)) =>
        if !(path <= remaining) then Panic
        else if isLeaf then
          if path != remaining then Panic else AcceptData(Rlp.At(node, 1))
        else DescendTo(Rlp.At(node, 1), remaining[|path|..])
  }

  function VisitNode(node: Bytes, remaining: Nibbles): Visit {
    match Rlp.ItemCount(node)
    case None => Panic
    case Some(n) =>
      if n == 17 then VisitBranch(node, remaining)
      else if n == 2 then VisitPath(node, remaining)
      else Panic
  }

  function Walk(k: Hash, expected: NodeRef, remaining: Nibbles, nodes: seq<Bytes>): Option<Bytes>
    decreases |nodes|
  {
    if nodes == [] || !Matches(k, expected, nodes[0]) then None
    else
      match VisitNode(nodes[0], remaining)
      case Panic => None
      case Accept(v) => Some(v)
      case Descend(next, rest) => Walk(k, next, rest, nodes[1..])
  }

  function Verify(k: Hash, root: Digest, key: Bytes, nodes: seq<Bytes>): Option<Bytes> {
    Walk(k, Hashed(root), NibblesOf(key), nodes)
  }

  /** The loop: one expected reference and the unread part of the key, updated node by node. */
  method VerifyTrieProof(k: Hash, root: Digest, key: Bytes, nodes: seq<Bytes>) returns (r: Option<Bytes>)
    ensures r == Verify(k, root, key, nodes)
  {
    var expected := Hashed(root);
    var remaining := SplitIntoNibbles(key);
    for i := 0 to |nodes|
      invariant Verify(k, root, key, nodes) == Walk(k, expected, remaining, nodes[i..])
    {
      if !Matches(k, expected, nodes[i]) {
        return None;
      }
      match VisitNode(nodes[i], remaining) {
        case Panic => return None;
        case Accept(v) => return Some(v);
        case Descend(next, rest) =>
          expected, remaining := next, rest;
      }
    }
    return None;
  }

  /** Two accepted walks from one reference agree on the value, whatever nodes were supplied. */
  lemma {:induction false} WalkBinding(k: Hash, expected: NodeRef, remaining: Nibbles, nodes: seq<Bytes>, nodes': seq<Bytes>)
    requires Walk(k, expected, remaining, nodes).Some?
    requires Walk(k, expected, remaining, nodes').Some?
    ensures Walk(k, expected, remaining, nodes) == Walk(k, expected, remaining, nodes')
         || HasCollision(k, (set b | b in nodes) + (set b | b in nodes'))
    decreases |nodes|
  {
    if nodes[0] == nodes'[0] {
      match VisitNode(nodes[0], remaining)
      case Panic =>
      case Accept(v) =>
      case Descend(next, rest) => WalkBinding(k, next, rest, nodes[1..], nodes'[1..]);
    } else {
      assert k(nodes[0]) == k(nodes'[0]);
    }
  }

  function Continue(k: Hash, visit: Visit, rest: seq<Bytes>): Option<Bytes> {
    match visit
    case Panic => None
    case Accept(v) => Some(v)
    case Descend(next, left) => Walk(k, next, left, rest)
  }

  lemma WalkStep(k: Hash, expected: NodeRef, remaining: Nibbles, first: Bytes, rest: seq<Bytes>)
    ensures Walk(k, expected, remaining, [first] + rest)
            == if Matches(k, expected, first) then Continue(k, VisitNode(first, remaining), rest) else None
  {
    assert ([first] + rest)[1..] == rest;
  }

  /** Nodes after the accepting one are never looked at. */
  lemma {:induction false} RestIsIgnored(k: Hash, expected: NodeRef, remaining: Nibbles, nodes: seq<Bytes>, rest: seq<Bytes>)
    requires Walk(k, expected, remaining, nodes).Some?
    ensures Walk(k, expected, remaining, nodes + rest) == Walk(k, expected, remaining, nodes)
    decreases |nodes|, 1
  {
    SplitFirst(nodes, rest);
    RestIsIgnoredFrom(k, expected, remaining, nodes[0], nodes[1..], rest);
  }

  lemma SplitFirst(nodes: seq<Bytes>, rest: seq<Bytes>)
    requires nodes != []
    ensures nodes == [nodes[0]] + nodes[1..] && nodes + rest == [nodes[0]] + (nodes[1..] + rest)
  {
  }

  lemma {:induction false} RestIsIgnoredFrom(k: Hash, expected: NodeRef, remaining: Nibbles,
                                             first: Bytes, tail: seq<Bytes>, rest: seq<Bytes>)
    requires Walk(k, expected, remaining, [first] + tail).Some?
    ensures Walk(k, expected, remaining, [first] + (tail + rest)) == Walk(k, expected, remaining, [first] + tail)
    decreases |tail| + 1, 0
  {
    WalkStep(k, expected, remaining, first, tail);
    WalkStep(k, expected, remaining, first, tail + rest);
    var visit := VisitNode(first, remaining);
    if visit.Descend? {
      RestIsIgnored(k, visit.next, visit.remaining, tail, rest);
    }
  }
}
