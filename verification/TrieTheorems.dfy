/** Which values the proof walk can be made to return from the root of a trie.
    `Reach` answers that for every trie; for the tries the program meets it is the stored value. */
module TrieTheorems {
  import opened ByteStrings
  import opened Options
  import opened HexPrefix
  import opened TrieProof
  import opened Rlp
  import opened Trie

  // ------------------------------------------------------------------ exact reach of the walk

  /** The walk's outcome at node t, over all proofs. It differs from Lookup below embedded children:
      the walk refuses an embedded leaf or extension, and takes an embedded branch for its slot 0. */
  ghost function Reach(k: Hash, t: Node, key: Nibbles): Option<Bytes>
    decreases t, 0
  {
    match t
    case Empty => None
    case Leaf(path, value) => if path == key then Some(value) else None
    case Extension(path, child) => if path <= key then Follow(k, child, key[|path|..]) else None
    case Branch(children, value) =>
      if key == [] then Some(value)
      else if key[0] < |children| then Follow(k, children[key[0]], key[1..])
      else None
  }

  ghost function Follow(k: Hash, c: Node, key: Nibbles): Option<Bytes>
    decreases c, 1
  {
    if c.Empty? then None
    else if !Embedded(k, c) then Reach(k, c, key)
    else if c.Branch? && c.children != [] && Embedded(k, c.children[0]) then Reach(k, c.children[0], key)
    else None
  }

  /** The payload of an embedded branch starts with its slot 0: that child is what the walk sees. */
  lemma EmbeddedPayload(k: Hash, c: Node)
    requires Embedded(k, c) && WellFormed(k, c)
    ensures var items := Structure(k, c).items;
            var first := items[0];
            && EncodeAll(items) == Encode(first) + EncodeAll(items[1..])
            && Fits(first)
            && (first.List? <==> c.Branch? && Embedded(k, c.children[0]))
            && (first.List? ==> first == Structure(k, c.children[0]))
  {
    MemberFits(Structure(k, c).items, 0);
  }

  lemma VisitEmbedded(k: Hash, c: Node, key: Nibbles)
    requires Embedded(k, c) && WellFormed(k, c)
    ensures var seen := VisitNode(RefOf(k, c).value.bytes, key);
            if c.Branch? && Embedded(k, c.children[0])
            then WellFormed(k, c.children[0]) && seen == Expected(k, c.children[0], key)
            else seen == Panic
  {
    EmbeddedPayload(k, c);
    var items := Structure(k, c).items;
    if c.Branch? && Embedded(k, c.children[0]) {
      VisitTrieNode(k, c.children[0], EncodeAll(items[1..]), key);
    } else {
      ItemRead(items[0], EncodeAll(items[1..]));
    }
  }

  lemma EncodingsOfChildren(k: Hash, t: Node)
    ensures Encoding(k, t) in Encodings(k, t)
    ensures t.Extension? ==> Encodings(k, t.child) <= Encodings(k, t)
    ensures t.Branch? ==> forall i :: 0 <= i < |t.children| ==> Encodings(k, t.children[i]) <= Encodings(k, t)
  {
  }

  lemma CollisionGrows(k: Hash, pool: set<Bytes>, pool': set<Bytes>)
    requires pool <= pool' && HasCollision(k, pool)
    ensures HasCollision(k, pool')
  {
  }

  ghost function Pool(k: Hash, t: Node, nodes: seq<Bytes>): set<Bytes> {
    (set b | b in nodes) + Encodings(k, t)
  }

  /** Nothing but Reach is ever accepted, unless two of the strings involved collide. */
  lemma {:induction false} WalkWithinReach(k: Hash, c: Node, key: Nibbles, nodes: seq<Bytes>)
    requires WellFormed(k, c) && RefOf(k, c).Some?
    requires Walk(k, RefOf(k, c).value, key, nodes).Some?
    ensures Walk(k, RefOf(k, c).value, key, nodes) == Follow(k, c, key) || HasCollision(k, Pool(k, c, nodes))
    decreases |nodes|, 1
  {
    var node := nodes[0];
    EncodingsOfChildren(k, c);
    if Embedded(k, c) {
      VisitEmbedded(k, c, key);
      if c.Branch? && Embedded(k, c.children[0]) {
        StepWithinReach(k, c.children[0], key, nodes);
        if HasCollision(k, Pool(k, c.children[0], nodes)) {
          CollisionGrows(k, Pool(k, c.children[0], nodes), Pool(k, c, nodes));
        }
      }
    } else if node == Encoding(k, c) {
      assert node + [] == node;
      VisitTrieNode(k, c, [], key);
      StepWithinReach(k, c, key, nodes);
    } else {
      assert k(node) == k(Encoding(k, c));
    }
  }

  lemma {:induction false} StepWithinReach(k: Hash, t: Node, key: Nibbles, nodes: seq<Bytes>)
    requires WellFormed(k, t) && !t.Empty? && nodes != []
    requires Continue(k, Expected(k, t, key), nodes[1..]).Some?
    ensures Continue(k, Expected(k, t, key), nodes[1..]) == Reach(k, t, key) || HasCollision(k, Pool(k, t, nodes))
    decreases |nodes|, 0
  {
    EncodingsOfChildren(k, t);
    match t
    case Leaf(_, _) =>
    case Extension(path, child) =>
      WalkWithinReach(k, child, key[|path|..], nodes[1..]);
      if HasCollision(k, Pool(k, child, nodes[1..])) {
        CollisionGrows(k, Pool(k, child, nodes[1..]), Pool(k, t, nodes));
      }
    case Branch(children, _) =>
      if key != [] {
        var child := children[key[0]];
        WalkWithinReach(k, child, key[1..], nodes[1..]);
        if HasCollision(k, Pool(k, child, nodes[1..])) {
          CollisionGrows(k, Pool(k, child, nodes[1..]), Pool(k, t, nodes));
        }
      }
  }

  /** The node list an honest prover sends. */
  ghost function Proof(k: Hash, t: Node, key: Nibbles): seq<Bytes>
    decreases t, 0
  {
    match t
    case Empty => []
    case Leaf(_, _) => []
    case Extension(path, child) => if path <= key then ProofFrom(k, child, key[|path|..]) else []
    case Branch(children, _) =>
      if key != [] && key[0] < |children| then ProofFrom(k, children[key[0]], key[1..]) else []
  }

  ghost function ProofFrom(k: Hash, c: Node, key: Nibbles): seq<Bytes>
    decreases c, 1
  {
    if c.Empty? then []
    else if !Embedded(k, c) then [Encoding(k, c)] + Proof(k, c, key)
    else if c.Branch? && c.children != [] && Embedded(k, c.children[0])
      then [EncodeAll(Structure(k, c).items)] + Proof(k, c.children[0], key)
    else []
  }

  /** Everything in Reach is accepted, with an explicit proof. */
  lemma {:induction false} ReachIsAccepted(k: Hash, c: Node, key: Nibbles)
    requires WellFormed(k, c) && Follow(k, c, key).Some?
    ensures RefOf(k, c).Some? && Walk(k, RefOf(k, c).value, key, ProofFrom(k, c, key)) == Follow(k, c, key)
    decreases c, 1
  {
    var nodes := ProofFrom(k, c, key);
    if Embedded(k, c) {
      VisitEmbedded(k, c, key);
      StepIsAccepted(k, c.children[0], key);
    } else {
      assert nodes[0] + [] == nodes[0];
      VisitTrieNode(k, c, [], key);
      StepIsAccepted(k, c, key);
    }
  }

  lemma {:induction false} StepIsAccepted(k: Hash, t: Node, key: Nibbles)
    requires WellFormed(k, t) && Reach(k, t, key).Some?
    ensures Continue(k, Expected(k, t, key), Proof(k, t, key)) == Reach(k, t, key)
    decreases t, 0
  {
    match t
    case Leaf(_, _) =>
    case Extension(path, child) => ReachIsAccepted(k, child, key[|path|..]);
    case Branch(children, _) =>
      if key != [] {
        ReachIsAccepted(k, children[key[0]], key[1..]);
      }
  }

  lemma RootIsHashed(k: Hash, t: Node, key: Nibbles, nodes: seq<Bytes>)
    requires WellFormed(k, t) && !t.Empty?
    requires Walk(k, Hashed(Root(k, t)), key, nodes).Some?
    ensures Walk(k, Hashed(Root(k, t)), key, nodes) == Reach(k, t, key) || HasCollision(k, Pool(k, t, nodes))
  {
    EncodingsOfChildren(k, t);
    if nodes[0] == Encoding(k, t) {
      assert nodes[0] + [] == nodes[0];
      VisitTrieNode(k, t, [], key);
      StepWithinReach(k, t, key, nodes);
    } else {
      assert k(nodes[0]) == k(Encoding(k, t));
    }
  }

  lemma HonestRoot(k: Hash, t: Node, key: Nibbles)
    requires WellFormed(k, t) && Reach(k, t, key).Some?
    ensures Walk(k, Hashed(Root(k, t)), key, [Encoding(k, t)] + Proof(k, t, key)) == Reach(k, t, key)
  {
    var nodes := [Encoding(k, t)] + Proof(k, t, key);
    assert nodes[0] + [] == nodes[0];
    VisitTrieNode(k, t, [], key);
    StepIsAccepted(k, t, key);
  }

  /** Exactly the reachable value is accepted: an accepting proof of v exists if and only if Reach gives v,
      barring collisions. */
  lemma WalkIsReach(k: Hash, t: Node, key: Nibbles, v: Bytes)
    requires WellFormed(k, t) && !t.Empty?
    ensures Reach(k, t, key) == Some(v) ==> exists nodes :: Walk(k, Hashed(Root(k, t)), key, nodes) == Some(v)
    ensures forall nodes :: Walk(k, Hashed(Root(k, t)), key, nodes) == Some(v)
              ==> Reach(k, t, key) == Some(v) || HasCollision(k, Pool(k, t, nodes))
  {
    if Reach(k, t, key) == Some(v) {
      HonestRoot(k, t, key);
    }
    forall nodes | Walk(k, Hashed(Root(k, t)), key, nodes) == Some(v)
      ensures Reach(k, t, key) == Some(v) || HasCollision(k, Pool(k, t, nodes))
    {
      RootIsHashed(k, t, key, nodes);
    }
  }

  // ------------------------------------------------------------------ which tries are sound

  /** Wherever the walk skips a nibble (an embedded branch with an embedded leaf in slot 0, and keys that end at
      that leaf after a whole number of bytes) the branch itself leads to the same value. */
  ghost predicate Agreeing(k: Hash, t: Node, depth: nat)
    decreases t, 0
  {
    match t
    case Empty => true
    case Leaf(_, _) => true
    case Extension(path, child) => AgreeingBelow(k, child, depth + |path|)
    case Branch(children, _) => forall i :: 0 <= i < |children| ==> AgreeingBelow(k, children[i], depth + 1)
  }

  /** A key from that depth on completes a whole number of bytes. */
  ghost predicate WholeBytes(depth: nat, key: Nibbles) {
    (depth + |key|) % 2 == 0
  }

  ghost predicate AgreeingBelow(k: Hash, c: Node, depth: nat)
    decreases c, 1
  {
    if !Embedded(k, c) then Agreeing(k, c, depth)
    else
      SkipsToLeaf(k, c) && WholeBytes(depth, c.children[0].path) ==>
        Lookup(c, c.children[0].path) == Some(c.children[0].value)
  }

  ghost predicate SkipsToLeaf(k: Hash, c: Node) {
    c.Branch? && c.children != [] && c.children[0].Leaf? && Embedded(k, c.children[0])
  }

  lemma BranchSize(k: Hash, t: Node)
    requires t.Branch? && |t.children| == 16
    ensures |Encoding(k, t)| >= 18
    ensures forall i :: 0 <= i < 16 ==> |Encoding(k, t)| >= |Encode(Ref(k, t.children[i]))| + 17
  {
    var xs := Structure(k, t).items;
    ItemsAtLeastOne(xs);
    forall i | 0 <= i < 16
      ensures |Encoding(k, t)| >= |Encode(Ref(k, t.children[i]))| + 17
    {
      MemberSize(xs, i);
    }
  }

  /** An embedded node has no room for a branch below its slot 0. */
  lemma EmbeddedSlotZero(k: Hash, c: Node, key: Nibbles)
    requires Embedded(k, c) && c.Branch? && WellFormed(k, c) && Embedded(k, c.children[0])
    requires Reach(k, c.children[0], key).Some?
    ensures c.children[0].Leaf?
  {
    BranchSize(k, c);
    var g := c.children[0];
    assert WellFormed(k, g) && |Encode(Ref(k, g))| == |Encoding(k, g)| <= 14;
    if g.Branch? {
      BranchSize(k, g);
    } else if g.Extension? {
      assert Structure(k, g).items[1] == Ref(k, g.child);
      MemberSize(Structure(k, g).items, 1);
      assert WellFormed(k, g.child) && Embedded(k, g.child);
      if g.child.Branch? {
        BranchSize(k, g.child);
      }
    }
  }

  /** What the walk can take from an embedded node: the leaf in its slot 0. */
  lemma SkippedTo(k: Hash, c: Node, key: Nibbles)
    requires WellFormed(k, c) && Embedded(k, c) && Follow(k, c, key).Some?
    ensures SkipsToLeaf(k, c) && c.children[0].path == key && Follow(k, c, key) == Some(c.children[0].value)
  {
    EmbeddedSlotZero(k, c, key);
  }

  ghost predicate EndsAt(t: Node, key: Nibbles) {
    t.Leaf? || (t.Branch? && key == [])
  }

  /** One turn of the walk on the trie's side: the child it goes to and the nibbles it eats. */
  lemma OneDown(k: Hash, t: Node, depth: nat, key: Nibbles) returns (child: Node, eaten: nat)
    requires WellFormed(k, t) && Agreeing(k, t, depth)
    requires Reach(k, t, key).Some? && !EndsAt(t, key)
    ensures child < t && eaten <= |key|
    ensures WellFormed(k, child) && AgreeingBelow(k, child, depth + eaten)
    ensures Reach(k, t, key) == Follow(k, child, key[eaten..]) && Lookup(t, key) == Lookup(child, key[eaten..])
  {
    if t.Extension? {
      child, eaten := t.child, |t.path|;
    } else {
      child, eaten := t.children[key[0]], 1;
    }
  }

  lemma EndIsTruthful(k: Hash, t: Node, key: Nibbles)
    requires EndsAt(t, key)
    ensures Lookup(t, key) == Reach(k, t, key)
  {
  }

  lemma StillWhole(depth: nat, eaten: nat, key: Nibbles)
    requires eaten <= |key|
    ensures WholeBytes(depth, key) <==> WholeBytes(depth + eaten, key[eaten..])
  {
  }

  /** Agreement suffices: the walk reads what the trie holds, for every key of a whole number of bytes. */
  lemma {:induction false} AgreeingIsTruthful(k: Hash, t: Node, depth: nat, key: Nibbles)
    requires WellFormed(k, t) && Agreeing(k, t, depth) && WholeBytes(depth, key)
    requires Reach(k, t, key).Some?
    ensures Lookup(t, key) == Reach(k, t, key)
    decreases t, 0
  {
    if EndsAt(t, key) {
      EndIsTruthful(k, t, key);
    } else {
      var child, eaten := OneDown(k, t, depth, key);
      StillWhole(depth, eaten, key);
      BelowIsTruthful(k, child, depth + eaten, key[eaten..]);
    }
  }

  lemma {:induction false} BelowIsTruthful(k: Hash, c: Node, depth: nat, key: Nibbles)
    requires WellFormed(k, c) && AgreeingBelow(k, c, depth) && WholeBytes(depth, key)
    requires Follow(k, c, key).Some?
    ensures Lookup(c, key) == Follow(k, c, key)
    decreases c, 1
  {
    if Embedded(k, c) {
      SkippedTo(k, c, key);
    } else {
      AgreeingIsTruthful(k, c, depth, key);
    }
  }

  ghost predicate Misread(k: Hash, t: Node, key: Nibbles) {
    Reach(k, t, key).Some? && Lookup(t, key) != Reach(k, t, key)
  }

  ghost predicate MisreadBelow(k: Hash, c: Node, key: Nibbles) {
    Follow(k, c, key).Some? && Lookup(c, key) != Follow(k, c, key)
  }

  /** What is misread at the child is misread from t, once the nibbles that lead there are put before it. */
  ghost predicate Leads(k: Hash, t: Node, child: Node, lead: Nibbles) {
    forall key :: Reach(k, t, lead + key) == Follow(k, child, key) && Lookup(t, lead + key) == Lookup(child, key)
  }

  lemma ExtensionLeads(k: Hash, t: Node)
    requires t.Extension?
    ensures Leads(k, t, t.child, t.path)
  {
    forall key: Nibbles
      ensures Reach(k, t, t.path + key) == Follow(k, t.child, key) && Lookup(t, t.path + key) == Lookup(t.child, key)
    {
      assert (t.path + key)[|t.path|..] == key;
    }
  }

  lemma BranchLeads(k: Hash, t: Node, i: Nibble)
    requires t.Branch? && i < |t.children|
    ensures Leads(k, t, t.children[i], [i])
  {
    forall key: Nibbles
      ensures Reach(k, t, [i] + key) == Follow(k, t.children[i], key) && Lookup(t, [i] + key) == Lookup(t.children[i], key)
    {
      assert ([i] + key)[1..] == key;
    }
  }

  lemma DisagreeingChild(k: Hash, t: Node, depth: nat) returns (child: Node, lead: Nibbles)
    requires WellFormed(k, t) && !Agreeing(k, t, depth)
    ensures child < t && WellFormed(k, child) && !AgreeingBelow(k, child, depth + |lead|)
    ensures Leads(k, t, child, lead)
  {
    if t.Extension? {
      ExtensionLeads(k, t);
      child, lead := t.child, t.path;
    } else {
      var i: Nibble :| i < |t.children| && !AgreeingBelow(k, t.children[i], depth + 1);
      BranchLeads(k, t, i);
      child, lead := t.children[i], [i];
    }
  }

  /** Agreement is needed: without it some key of a whole number of bytes is misread. */
  lemma {:induction false} DisagreementIsMisread(k: Hash, t: Node, depth: nat) returns (key: Nibbles)
    requires WellFormed(k, t) && !Agreeing(k, t, depth)
    ensures WholeBytes(depth, key) && Misread(k, t, key)
    decreases t, 0
  {
    var child, lead := DisagreeingChild(k, t, depth);
    key := DisagreementBelow(k, child, depth + |lead|);
    assert Reach(k, t, lead + key) == Follow(k, child, key);
    assert (lead + key)[|lead|..] == key;
    StillWhole(depth, |lead|, lead + key);
    key := lead + key;
  }

  lemma {:induction false} DisagreementBelow(k: Hash, c: Node, depth: nat) returns (key: Nibbles)
    requires WellFormed(k, c) && !AgreeingBelow(k, c, depth)
    ensures WholeBytes(depth, key) && MisreadBelow(k, c, key)
    decreases c, 1
  {
    if Embedded(k, c) {
      key := c.children[0].path;
    } else {
      key := DisagreementIsMisread(k, c, depth);
    }
  }

  lemma AcceptedIsReached(k: Hash, t: Node, key: Bytes, v: Bytes)
    requires WellFormed(k, t) && !t.Empty?
    ensures forall nodes :: Verify(k, Root(k, t), key, nodes) == Some(v)
              ==> Reach(k, t, NibblesOf(key)) == Some(v) || HasCollision(k, Pool(k, t, nodes))
  {
    WalkIsReach(k, t, NibblesOf(key), v);
    forall nodes | Verify(k, Root(k, t), key, nodes) == Some(v)
      ensures Reach(k, t, NibblesOf(key)) == Some(v) || HasCollision(k, Pool(k, t, nodes))
    {
      assert Walk(k, Hashed(Root(k, t)), NibblesOf(key), nodes) == Some(v);
    }
  }

  lemma ReachedIsAccepted(k: Hash, t: Node, key: Bytes)
    requires WellFormed(k, t) && Reach(k, t, NibblesOf(key)).Some?
    ensures exists nodes :: Verify(k, Root(k, t), key, nodes) == Reach(k, t, NibblesOf(key))
  {
    HonestRoot(k, t, NibblesOf(key));
    var nodes := [Encoding(k, t)] + Proof(k, t, NibblesOf(key));
    assert Verify(k, Root(k, t), key, nodes) == Reach(k, t, NibblesOf(key));
  }

  /** Whatever is accepted for a byte key is what the trie holds there, or a presented node collides with a real one. */
  ghost predicate Sound(k: Hash, t: Node) {
    forall key, nodes :: Verify(k, Root(k, t), key, nodes).Some?
      ==> Verify(k, Root(k, t), key, nodes) == Lookup(t, NibblesOf(key)) || HasCollision(k, Pool(k, t, nodes))
  }

  /** Some byte key has an accepted proof of a value that the trie does not hold there. */
  ghost predicate Misled(k: Hash, t: Node) {
    exists key, nodes :: Verify(k, Root(k, t), key, nodes).Some?
                         && Verify(k, Root(k, t), key, nodes) != Lookup(t, NibblesOf(key))
  }

  lemma MisreadMisleads(k: Hash, t: Node, path: Nibbles)
    requires WellFormed(k, t) && |path| % 2 == 0 && Misread(k, t, path)
    ensures Misled(k, t)
  {
    NibblesOfPacked(path);
    ReachedIsAccepted(k, t, Pack(path));
  }

  lemma AgreeingAccepts(k: Hash, t: Node, key: Bytes, nodes: seq<Bytes>, v: Bytes)
    requires WellFormed(k, t) && !t.Empty? && Agreeing(k, t, 0)
    requires Verify(k, Root(k, t), key, nodes) == Some(v)
    ensures Lookup(t, NibblesOf(key)) == Some(v) || HasCollision(k, Pool(k, t, nodes))
  {
    AcceptedReach(k, t, key, nodes, v);
    AgreeingReach(k, t, key);
  }

  lemma AcceptedReach(k: Hash, t: Node, key: Bytes, nodes: seq<Bytes>, v: Bytes)
    requires WellFormed(k, t) && !t.Empty?
    requires Verify(k, Root(k, t), key, nodes) == Some(v)
    ensures Reach(k, t, NibblesOf(key)) == Some(v) || HasCollision(k, Pool(k, t, nodes))
  {
    AcceptedIsReached(k, t, key, v);
  }

  lemma AgreeingReach(k: Hash, t: Node, key: Bytes)
    requires WellFormed(k, t) && Agreeing(k, t, 0)
    ensures Reach(k, t, NibblesOf(key)).Some? ==> Lookup(t, NibblesOf(key)) == Reach(k, t, NibblesOf(key))
  {
    if Reach(k, t, NibblesOf(key)).Some? {
      AgreeingIsTruthful(k, t, 0, NibblesOf(key));
    }
  }

  lemma AgreeingIsSound(k: Hash, t: Node)
    requires WellFormed(k, t) && !t.Empty? && Agreeing(k, t, 0)
    ensures Sound(k, t)
  {
    forall key, nodes | Verify(k, Root(k, t), key, nodes).Some?
      ensures Verify(k, Root(k, t), key, nodes) == Lookup(t, NibblesOf(key)) || HasCollision(k, Pool(k, t, nodes))
    {
      AgreeingAccepts(k, t, key, nodes, Verify(k, Root(k, t), key, nodes).value);
    }
  }

  /** The agreeing tries are sound; every other well-formed trie misleads the program, collisions or not. */
  lemma SoundExactlyWhenAgreeing(k: Hash, t: Node)
    requires WellFormed(k, t) && !t.Empty?
    ensures if Agreeing(k, t, 0) then Sound(k, t) else Misled(k, t)
  {
    if Agreeing(k, t, 0) {
      AgreeingIsSound(k, t);
    } else {
      var path := DisagreementIsMisread(k, t, 0);
      MisreadMisleads(k, t, path);
    }
  }

  // ------------------------------------------------------------------ soundness for byte-keyed tries

  /** Every leaf sits at an even depth, as in any trie whose keys are byte strings. */
  ghost predicate EvenLeaves(t: Node, depth: nat) {
    match t
    case Empty => true
    case Leaf(path, _) => (depth + |path|) % 2 == 0
    case Extension(path, child) => EvenLeaves(child, depth + |path|)
    case Branch(children, _) => forall i :: 0 <= i < |children| ==> EvenLeaves(children[i], depth + 1)
  }

  /** Skipping a nibble would land on a leaf of the wrong parity. */
  lemma {:induction false} EvenIsAgreeing(k: Hash, t: Node, depth: nat)
    requires EvenLeaves(t, depth)
    ensures Agreeing(k, t, depth)
    decreases t
  {
    match t
    case Empty =>
    case Leaf(_, _) =>
    case Extension(path, child) =>
      if Embedded(k, child) {
        SkippedLeaf(k, child, depth + |path|);
      } else {
        EvenIsAgreeing(k, child, depth + |path|);
      }
    case Branch(children, _) =>
      forall i | 0 <= i < |children|
        ensures AgreeingBelow(k, children[i], depth + 1)
      {
        if Embedded(k, children[i]) {
          SkippedLeaf(k, children[i], depth + 1);
        } else {
          EvenIsAgreeing(k, children[i], depth + 1);
        }
      }
  }

  lemma SkippedLeaf(k: Hash, c: Node, depth: nat)
    requires EvenLeaves(c, depth) && Embedded(k, c)
    ensures AgreeingBelow(k, c, depth)
  {
    if SkipsToLeaf(k, c) {
      assert EvenLeaves(c.children[0], depth + 1);
    }
  }

  /** Soundness: whatever is accepted against the root of a well-formed byte-keyed trie, for a byte key,
      is exactly the value slot that key leads to, or a presented node collides with a real one. */
  lemma TrieSoundness(k: Hash, t: Node, key: Bytes, v: Bytes)
    requires WellFormed(k, t) && !t.Empty? && EvenLeaves(t, 0)
    ensures forall nodes :: Verify(k, Root(k, t), key, nodes) == Some(v)
              ==> Lookup(t, NibblesOf(key)) == Some(v) || HasCollision(k, Pool(k, t, nodes))
  {
    EvenIsAgreeing(k, t, 0);
    AgreeingIsSound(k, t);
  }

  // ------------------------------------------------------------------ a trie that misleads the program

  ghost function Blank(n: nat): (ts: seq<Node>)
    ensures |ts| == n && forall i :: 0 <= i < n ==> ts[i] == Empty
  {
    seq(n, i => Empty)
  }

  lemma {:induction false} EncodeAllBound(xs: seq<Item>)
    requires forall i :: 0 <= i < |xs| ==> |Encode(xs[i])| <= 33
    ensures |EncodeAll(xs)| <= 33 * |xs|
  {
    if xs != [] {
      EncodeAllBound(xs[1..]);
    }
  }

  lemma {:induction false} BlankSlots(k: Hash, n: nat)
    ensures |EncodeAll(Refs(k, Blank(n)) + [Str([])])| == n + 1
  {
    var xs := Refs(k, Blank(n)) + [Str([])];
    if n == 0 {
      assert xs == [Str([])] && xs[1..] == [];
    } else {
      assert xs[0] == Str([]);
      assert xs[1..] == Refs(k, Blank(n - 1)) + [Str([])];
      BlankSlots(k, n - 1);
    }
  }

  const ODD_LEAF: Node := Leaf([2], [7])

  /** A branch holding one short leaf in slot 0: twenty bytes, so a parent embeds it. */
  ghost function ShortBranch(): Node { Branch([ODD_LEAF] + Blank(15), []) }

  ghost function OddTrie(): Node { Branch(Blank(1) + [ShortBranch()] + Blank(14), []) }

  lemma OddLeafSize(k: Hash)
    ensures |Encoding(k, ODD_LEAF)| == 3
  {
    var path := EncodePath([2], true);
    assert [3 as Nibble] + [2] == [3, 2];
    assert path == [0x32] by {
      assert Pack([3, 2]) == [0x32] + Pack([3 as Nibble, 2][2..]);
    }
    var xs := Structure(k, ODD_LEAF).items;
    assert xs == [Str([0x32]), Str([7])];
    assert xs[1..] == [Str([7])] && xs[1..][1..] == [];
    assert EncodeAll(xs[1..]) == [7] + [];
    assert EncodeAll(xs) == [0x32] + EncodeAll(xs[1..]);
  }

  lemma BranchItems(k: Hash, t: Node, first: Node, rest: seq<Node>)
    requires t.Branch? && t.children == [first] + rest
    ensures Structure(k, t).List?
    ensures var xs := Structure(k, t).items;
            |xs| == |rest| + 2 && xs[0] == Ref(k, first) && xs[1..] == Refs(k, rest) + [Str(t.value)]
  {
    RefsCons(k, first, rest);
    assert ([Ref(k, first)] + Refs(k, rest) + [Str(t.value)])[1..] == Refs(k, rest) + [Str(t.value)];
  }

  lemma RefsCons(k: Hash, t: Node, ts: seq<Node>)
    ensures Refs(k, [t] + ts) == [Ref(k, t)] + Refs(k, ts)
  {
    assert ([t] + ts)[1..] == ts;
  }

  lemma ShortBranchSize(k: Hash)
    ensures |Encoding(k, ShortBranch())| == 20
  {
    OddLeafSize(k);
    var t := ShortBranch();
    var xs := Structure(k, t).items;
    BranchItems(k, t, ODD_LEAF, Blank(15));
    BlankSlots(k, 15);
    assert EncodeAll(xs) == Encode(xs[0]) + EncodeAll(xs[1..]);
    ShortListSize(xs);
  }

  lemma ShortListSize(xs: seq<Item>)
    requires |EncodeAll(xs)| <= 55
    ensures |Encode(List(xs))| == 1 + |EncodeAll(xs)|
  {
  }

  lemma SlotsFit(xs: seq<Item>)
    requires |xs| == 17 && forall i :: 0 <= i < |xs| ==> |Encode(xs[i])| <= 33
    ensures Fits(List(xs))
  {
    EncodeAllBound(xs);
    var n := |EncodeAll(xs)|;
    assert n < Pow256(2) by {
      assert Pow256(1) == 256;
    }
    MinimalLength(n, 2);
  }

  lemma RefSize(k: Hash, t: Node)
    ensures |Encode(Ref(k, t))| <= 33
  {
  }

  lemma SmallBranchFits(k: Hash, t: Node)
    requires t.Branch? && |t.children| == 16 && t.value == []
    ensures Fits(Structure(k, t))
  {
    var xs := Refs(k, t.children) + [Str([])];
    forall i | 0 <= i < |xs|
      ensures |Encode(xs[i])| <= 33
    {
      if i < 16 {
        RefSize(k, t.children[i]);
      }
    }
    SlotsFit(xs);
  }

  lemma BranchOver(k: Hash, t: Node, c: Node)
    requires t.Branch? && |t.children| == 16 && t.value == [] && WellFormed(k, c)
    requires forall i :: 0 <= i < 16 ==> t.children[i] == c || t.children[i] == Empty
    ensures WellFormed(k, t)
  {
    SmallBranchFits(k, t);
    assert WellFormed(k, Empty);
  }

  lemma ShortBranchWellFormed(k: Hash)
    ensures WellFormed(k, ShortBranch())
  {
    OddLeafSize(k);
    BranchOver(k, ShortBranch(), ODD_LEAF);
  }

  lemma OddTrieWellFormed(k: Hash)
    ensures WellFormed(k, OddTrie())
  {
    ShortBranchWellFormed(k);
    OddTrieChildren();
    BranchOver(k, OddTrie(), ShortBranch());
  }

  lemma OddTrieChildren()
    ensures OddTrie().Branch? && |OddTrie().children| == 16 && OddTrie().value == []
    ensures forall i :: 0 <= i < 16 ==> OddTrie().children[i] == ShortBranch() || OddTrie().children[i] == Empty
  {
  }

  /** A branch embedding an odd leaf in slot 0, under slot 1 of the root. */
  ghost predicate OddShape(t: Node, c: Node) {
    && t.Branch? && c.Branch? && |t.children| == 16 && |c.children| == 16
    && t.children[1] == c && c.children[0] == ODD_LEAF && c.children[2] == Empty
  }

  lemma OddDepth(t: Node, c: Node)
    requires OddShape(t, c)
    ensures !EvenLeaves(t, 0)
  {
    assert !EvenLeaves(ODD_LEAF, 2);
    assert !EvenLeaves(c, 1);
  }

  lemma OddLookups(t: Node, c: Node)
    requires OddShape(t, c)
    ensures Lookup(t, [1, 0, 2]) == Some([7]) && Lookup(t, [1, 2]) == None
  {
    var key: Nibbles := [1, 0, 2];
    assert key[1..] == [0, 2] && key[1..][1..] == [2];
    var short: Nibbles := [1, 2];
    assert short[1..] == [2] && short[1..][1..] == [];
    assert Lookup(t, short) == Lookup(c, [2]) == Lookup(Empty, []);
    assert Lookup(t, key) == Lookup(c, [0, 2]) == Lookup(ODD_LEAF, [2]);
  }

  lemma OddReach(k: Hash, t: Node, c: Node)
    requires OddShape(t, c) && Embedded(k, c) && Embedded(k, ODD_LEAF)
    ensures Reach(k, t, [1, 2]) == Some([7])
  {
    var short: Nibbles := [1, 2];
    assert short[1..] == [2];
    assert Reach(k, t, short) == Follow(k, c, [2]) == Reach(k, ODD_LEAF, [2]);
  }

  lemma OddTrieShape()
    ensures OddShape(OddTrie(), ShortBranch())
  {
  }

  lemma OddTriePaths(k: Hash)
    requires Embedded(k, ShortBranch()) && Embedded(k, ODD_LEAF)
    ensures !EvenLeaves(OddTrie(), 0)
    ensures Lookup(OddTrie(), [1, 0, 2]) == Some([7]) && Lookup(OddTrie(), [1, 2]) == None
    ensures Reach(k, OddTrie(), [1, 2]) == Some([7])
  {
    var t, c := OddTrie(), ShortBranch();
    OddTrieShape();
    OddDepth(t, c);
    OddLookups(t, c);
    OddReach(k, t, c);
  }

  lemma OneByteKey()
    ensures NibblesOf([0x12]) == [1, 2]
  {
    assert [0x12 as Byte][1..] == [];
  }

  /** With a leaf at an odd depth soundness fails, for every hash: in this well-formed trie the value 7 sits at
      nibbles 1-0-2, nothing is stored at byte 0x12, and yet some proof makes the program return 7 for 0x12. */
  lemma OddTrieFoolsTheWalk(k: Hash)
    ensures WellFormed(k, OddTrie()) && !EvenLeaves(OddTrie(), 0)
    ensures Lookup(OddTrie(), [1, 0, 2]) == Some([7]) && Lookup(OddTrie(), NibblesOf([0x12])) == None
    ensures exists nodes :: Verify(k, Root(k, OddTrie()), [0x12], nodes) == Some([7])
  {
    OddTrieWellFormed(k);
    OddLeafSize(k);
    ShortBranchSize(k);
    OddTriePaths(k);
    OneByteKey();
    ReachedIsAccepted(k, OddTrie(), [0x12]);
  }

  // ------------------------------------------------------------------ completeness

  /** Every node the key passes through is referenced by hash. */
  ghost predicate HashedPath(k: Hash, t: Node, key: Nibbles) {
    match t
    case Empty => true
    case Leaf(_, _) => true
    case Extension(path, child) => path <= key ==> !Embedded(k, child) && HashedPath(k, child, key[|path|..])
    case Branch(children, _) =>
      key != [] && key[0] < |children| ==> !Embedded(k, children[key[0]]) && HashedPath(k, children[key[0]], key[1..])
  }

  lemma {:induction false} LookupIsReach(k: Hash, t: Node, key: Nibbles)
    requires HashedPath(k, t, key)
    ensures Reach(k, t, key) == Lookup(t, key)
    decreases t
  {
    match t
    case Empty =>
    case Leaf(_, _) =>
    case Extension(path, child) =>
      if path <= key {
        LookupIsReach(k, child, key[|path|..]);
      }
    case Branch(children, _) =>
      if key != [] && key[0] < |children| {
        LookupIsReach(k, children[key[0]], key[1..]);
      }
  }

  /** Completeness: the honest root-to-terminator list is accepted and yields the stored value. */
  lemma TrieCompleteness(k: Hash, t: Node, key: Bytes)
    requires WellFormed(k, t) && HashedPath(k, t, NibblesOf(key))
    requires Lookup(t, NibblesOf(key)).Some?
    ensures Verify(k, Root(k, t), key, [Encoding(k, t)] + Proof(k, t, NibblesOf(key))) == Lookup(t, NibblesOf(key))
  {
    LookupIsReach(k, t, NibblesOf(key));
    HonestRoot(k, t, NibblesOf(key));
  }

  /** No dead branches, and every stored value is at least 32 bytes, as every receipt is. */
  ghost predicate LargeValues(t: Node) {
    match t
    case Empty => true
    case Leaf(_, value) => |value| >= 32
    case Extension(_, child) => !child.Empty? && LargeValues(child)
    case Branch(children, value) =>
      && (forall i :: 0 <= i < |children| ==> LargeValues(children[i]))
      && (|value| >= 32 || exists i :: 0 <= i < |children| && !children[i].Empty?)
  }

  lemma {:induction false} LargeMeansHashed(k: Hash, t: Node)
    requires LargeValues(t) && !t.Empty?
    ensures !Embedded(k, t)
    decreases t
  {
    var xs := Structure(k, t).items;
    match t
    case Leaf(_, _) => MemberSize(xs, 1);
    case Extension(_, child) =>
      LargeMeansHashed(k, child);
      assert xs[1] == Ref(k, child);
      MemberSize(xs, 1);
    case Branch(children, value) =>
      if |value| >= 32 {
        assert xs[|children|] == Str(value);
        MemberSize(xs, |children|);
      } else {
        var i :| 0 <= i < |children| && !children[i].Empty?;
        LargeMeansHashed(k, children[i]);
        assert xs[i] == Ref(k, children[i]);
        MemberSize(xs, i);
      }
  }

  lemma {:induction false} LargeMeansHashedPath(k: Hash, t: Node, key: Nibbles)
    requires LargeValues(t)
    ensures HashedPath(k, t, key)
    decreases t
  {
    match t
    case Empty =>
    case Leaf(_, _) =>
    case Extension(path, child) =>
      LargeMeansHashed(k, child);
      if path <= key {
        LargeMeansHashedPath(k, child, key[|path|..]);
      }
    case Branch(children, _) =>
      if key != [] && key[0] < |children| {
        if !children[key[0]].Empty? {
          LargeMeansHashed(k, children[key[0]]);
        }
        LargeMeansHashedPath(k, children[key[0]], key[1..]);
      }
  }

  /** Receipt-sized tries: a value can be proved for a key if and only if the trie stores it there,
      barring collisions; no parity condition is needed. */
  lemma LargeTrieExact(k: Hash, t: Node, key: Bytes, v: Bytes)
    requires WellFormed(k, t) && LargeValues(t) && !t.Empty?
    ensures Lookup(t, NibblesOf(key)) == Some(v) ==> exists nodes :: Verify(k, Root(k, t), key, nodes) == Some(v)
    ensures forall nodes :: Verify(k, Root(k, t), key, nodes) == Some(v)
              ==> Lookup(t, NibblesOf(key)) == Some(v) || HasCollision(k, Pool(k, t, nodes))
  {
    LargeMeansHashedPath(k, t, NibblesOf(key));
    LookupIsReach(k, t, NibblesOf(key));
    AcceptedIsReached(k, t, key, v);
    if Lookup(t, NibblesOf(key)) == Some(v) {
      TrieCompleteness(k, t, key);
    }
  }
}
