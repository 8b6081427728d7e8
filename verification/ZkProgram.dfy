/** The proving program's main: header hash, receipt inclusion, IntentCreated decoding.
    Every panic is None; an accepted input commits exactly one Output. */
module ZkProgram {
  import opened ByteStrings
  import opened Options
  import opened HexPrefix
  import opened TrieProof
  import opened Rlp
  import opened Receipts
  import opened Trie
  import opened TrieTheorems

  datatype Input = Input(header: Bytes, nodes: seq<Bytes>, txIndex: nat, logIndex: nat, contract: Bytes)

  datatype Event = Event(
    contract: Bytes, intentId: Bytes, sender: Bytes, amount: Bytes, token: Bytes,
    wallet: Bytes, chainId: nat, expiry: nat, slippageBps: nat)

  datatype Output = Output(blockHash: Digest, blockNumber: nat, blockTimestamp: nat, event: Event)

  function Ascii(s: string): Bytes {
    seq(|s|, i requires 0 <= i < |s| => s[i] as int % 256)
  }

  const SIGNATURE := Ascii("IntentCreated(bytes32,address,uint256,address,bytes32,uint64,uint64,uint16)")

  function Field(b: Bytes, i: nat): Option<Bytes> {
    var item :- At(b, i);
    Data(item)
  }

  datatype HeaderFields = HeaderFields(receiptsRoot: Digest, number: nat, timestamp: nat)

  function ReadHeader(header: Bytes): Option<HeaderFields> {
    if ItemCount(header) != Some(16) then None
    else
      var root :- Field(header, 5);
      var number :- Field(header, 8);
      var timestamp :- Field(header, 11);
      if |root| != 32 then None else Some(HeaderFields(root, U64Of(number), U64Of(timestamp)))
  }

  /** The event a log denotes for the required emitter, if it is a live IntentCreated event at that time. */
  function ReadEvent(k: Hash, log: Log, contract: Bytes, timestamp: nat): Option<Event> {
    if log.address != contract || |log.topics| < 3 || log.topics[0] != k(SIGNATURE) then None
    else if |log.topics[1]| != 32 || |log.topics[2]| < 32 || |log.data| != 192 then None
    else if U64Of(log.data[128..160]) <= timestamp then None
    else Some(Event(contract, log.topics[1], log.topics[2][12..32], log.data[0..32], log.data[44..64],
                    log.data[64..96], U64Of(log.data[96..128]), U64Of(log.data[128..160]),
                    U64Of(log.data[160..192]) % 0x1_0000))
  }

  // ------------------------------------------------------------------ which bytes are which field

  /** A Solidity word: 32 bytes, big-endian. */
  ghost function Word(n: nat): (w: Bytes)
    requires n < TWO_TO_64
    ensures |w| == 32 && BigEndian(w) == n
  {
    Pow256Eight();
    MinimalLength(n, 8);
    var (pad, m) := (Zeros(32 - |Minimal(n)|), Minimal(n));
    BigEndianConcat(pad, m);
    BigEndianZeros(|pad|);
    MinimalDenotes(n);
    pad + m
  }

  ghost predicate WellSized(e: Event) {
    && |e.intentId| == 32 && |e.sender| == 20 && |e.amount| == 32 && |e.token| == 20 && |e.wallet| == 32
    && e.chainId < TWO_TO_64 && e.expiry < TWO_TO_64 && e.slippageBps < 0x1_0000
  }

  /** The log IntentManager emits for an event: the signature and the two indexed arguments as topics, the six
      others as words of the data, an address being the last 20 bytes of its word. */
  ghost function LogOf(k: Hash, e: Event): Log
    requires WellSized(e)
  {
    Log(e.contract, [k(SIGNATURE), e.intentId, Zeros(12) + e.sender],
        e.amount + (Zeros(12) + e.token) + e.wallet + Word(e.chainId) + Word(e.expiry) + Word(e.slippageBps))
  }

  lemma WordAt(front: Bytes, w: Bytes, back: Bytes)
    ensures (front + w + back)[|front|..|front| + |w|] == w
  {
  }

  /** Six words laid end to end are found at their offsets. */
  lemma SixWords(a: Bytes, b: Bytes, c: Bytes, d: Bytes, e: Bytes, f: Bytes)
    requires |a| == |b| == |c| == |d| == |e| == |f| == 32
    ensures var x := a + b + c + d + e + f;
            && |x| == 192 && x[0..32] == a && x[32..64] == b && x[64..96] == c
            && x[96..128] == d && x[128..160] == e && x[160..192] == f
  {
    var x := a + b + c + d + e + f;
    assert x == [] + a + (b + c + d + e + f) && x == a + b + (c + d + e + f) && x == (a + b) + c + (d + e + f);
    assert x == (a + b + c) + d + (e + f) && x == (a + b + c + d) + e + f && x == (a + b + c + d + e) + f + [];
    WordAt([], a, b + c + d + e + f);
    WordAt(a, b, c + d + e + f);
    WordAt(a + b, c, d + e + f);
    WordAt(a + b + c, d, e + f);
    WordAt(a + b + c + d, e, f);
    WordAt(a + b + c + d + e, f, []);
  }

  lemma TokenOfData(data: Bytes, token: Bytes)
    requires |data| == 192 && |token| == 20 && data[32..64] == Zeros(12) + token
    ensures data[44..64] == token
  {
    assert data[44..64] == data[32..64][12..];
  }

  /** What a log says field by field, by the offsets at which the contract's event was encoded. */
  ghost predicate Carries(k: Hash, log: Log, e: Event) {
    && log.address == e.contract && |log.topics| >= 3 && log.topics[0] == k(SIGNATURE)
    && |e.intentId| == 32 && log.topics[1] == e.intentId
    && |log.topics[2]| >= 32 && e.sender == log.topics[2][12..32]
    && |log.data| == 192
    && e.amount == log.data[0..32] && e.token == log.data[44..64] && e.wallet == log.data[64..96]
    && e.chainId == U64Of(log.data[96..128]) && e.expiry == U64Of(log.data[128..160])
    && e.slippageBps == U64Of(log.data[160..192]) % 0x1_0000
  }

  /** Reading gives an event exactly when the log carries it, live at that time; nothing else. */
  lemma ReadsExactly(k: Hash, log: Log, contract: Bytes, timestamp: nat, e: Event)
    ensures ReadEvent(k, log, contract, timestamp) == Some(e)
            <==> Carries(k, log, e) && e.contract == contract && e.expiry > timestamp
  {
  }

  lemma LogCarries(k: Hash, e: Event)
    requires WellSized(e)
    ensures Carries(k, LogOf(k, e), e)
  {
    var log := LogOf(k, e);
    assert log.topics[2][12..32] == e.sender;
    SixWords(e.amount, Zeros(12) + e.token, e.wallet, Word(e.chainId), Word(e.expiry), Word(e.slippageBps));
    TokenOfData(log.data, e.token);
  }

  /** The contract's log of any event not yet expired reads back as that event, every field its own. */
  lemma EventRoundTrip(k: Hash, e: Event, timestamp: nat)
    requires WellSized(e) && e.expiry > timestamp
    ensures ReadEvent(k, LogOf(k, e), e.contract, timestamp) == Some(e)
  {
    LogCarries(k, e);
    ReadsExactly(k, LogOf(k, e), e.contract, timestamp, e);
  }

  // ------------------------------------------------------------------ main

  function ReadReceipt(k: Hash, receipt: Bytes, logIndex: nat, contract: Bytes, timestamp: nat): Option<Event> {
    var logs :- DecodeReceiptLogs(receipt);
    if logIndex >= |logs| then None
    else
      var log :- DecodeLog(logs[logIndex]);
      ReadEvent(k, log, contract, timestamp)
  }

  function Program(k: Hash, input: Input): Option<Output> {
    var fields :- ReadHeader(input.header);
    var receipt :- Verify(k, fields.receiptsRoot, EncodeNumber(input.txIndex), input.nodes);
    var event :- ReadReceipt(k, receipt, input.logIndex, input.contract, fields.timestamp);
    Some(Output(k(input.header), fields.number, fields.timestamp, event))
  }

  ghost function Presented(input: Input): set<Bytes> {
    {input.header} + set b | b in input.nodes
  }

  lemma EventNamesEmitter(k: Hash, receipt: Bytes, logIndex: nat, contract: Bytes, contract': Bytes, timestamp: nat)
    requires ReadReceipt(k, receipt, logIndex, contract, timestamp).Some?
    requires ReadReceipt(k, receipt, logIndex, contract', timestamp).Some?
    ensures contract == contract'
  {
  }

  /** Binding: two accepted inputs with one block hash, transaction index and log index commit the same
      output, whatever nodes and whatever emitter the hosts supplied, or they contain a collision. */
  lemma Binding(k: Hash, a: Input, b: Input)
    requires Program(k, a).Some? && Program(k, b).Some?
    requires Program(k, a).value.blockHash == Program(k, b).value.blockHash
    requires a.txIndex == b.txIndex && a.logIndex == b.logIndex
    ensures Program(k, a) == Program(k, b) || HasCollision(k, Presented(a) + Presented(b))
  {
    if a.header != b.header {
      assert k(a.header) == k(b.header);
    } else {
      var fields := ReadHeader(a.header).value;
      var key := EncodeNumber(a.txIndex);
      WalkBinding(k, Hashed(fields.receiptsRoot), NibblesOf(key), a.nodes, b.nodes);
      var nodes := (set n | n in a.nodes) + (set n | n in b.nodes);
      if HasCollision(k, nodes) {
        CollisionGrows(k, nodes, Presented(a) + Presented(b));
      } else {
        var receipt := Verify(k, fields.receiptsRoot, key, a.nodes).value;
        EventNamesEmitter(k, receipt, a.logIndex, a.contract, b.contract, fields.timestamp);
      }
    }
  }

  // ------------------------------------------------------------------ the host's header

  /** Header positions holding numbers, which the host strips of leading zeros. */
  predicate IsNumberField(i: nat) {
    7 <= i <= 11 || i == 15
  }

  function HeaderField(raw: seq<Bytes>, i: nat): Bytes
    requires i < |raw|
  {
    if IsNumberField(i) then Minimal(BigEndian(raw[i])) else raw[i]
  }

  function HeaderFieldsOf(raw: seq<Bytes>): (fields: seq<Bytes>)
    ensures |fields| == |raw| && forall i :: 0 <= i < |raw| ==> fields[i] == HeaderField(raw, i)
  {
    seq(|raw|, i requires 0 <= i < |raw| => HeaderField(raw, i))
  }

  function HeaderItem(raw: seq<Bytes>): Item {
    List(Strings(HeaderFieldsOf(raw)))
  }

  /** Strips the numeric fields, then appends all sixteen to the stream. */
  method HeaderRlpBytes(raw: seq<Bytes>) returns (b: Bytes)
    requires |raw| == 16
    ensures b == Encode(HeaderItem(raw))
  {
    var items: seq<Item> := [];
    ghost var expected := Strings(HeaderFieldsOf(raw));
    for i := 0 to 16
      invariant items == expected[..i]
    {
      var field := raw[i];
      if IsNumberField(i) {
        field := StripLeadingZeros(field);
      }
      assert field == HeaderField(raw, i);
      items := items + [Str(field)];
    }
    assert expected[..16] == expected;
    b := Encode(List(items));
  }

  lemma HeaderRoundTrip(raw: seq<Bytes>)
    requires |raw| == 16 && |raw[5]| == 32 && Fits(HeaderItem(raw))
    ensures ReadHeader(Encode(HeaderItem(raw))) == Some(HeaderFields(raw[5], U64Of(raw[8]), U64Of(raw[11])))
  {
    var items := Strings(HeaderFieldsOf(raw));
    assert Encode(List(items)) + [] == Encode(List(items));
    ListItemsRead(items, []);
    ReadMember(items, 5);
    ReadMember(items, 8);
    ReadMember(items, 11);
    MinimalDenotes(BigEndian(raw[8]));
    MinimalDenotes(BigEndian(raw[11]));
  }

  // ------------------------------------------------------------------ acceptance means a real event

  /** A block: its raw header, its receipts, and the trie over them whose root the header carries. */
  datatype Block = Block(raw: seq<Bytes>, receipts: seq<Receipt>, trie: Node)

  ghost function KeyOf(i: nat): Nibbles {
    NibblesOf(EncodeNumber(i))
  }

  ghost predicate StoresReceipts(t: Node, receipts: seq<Receipt>) {
    && (forall i :: 0 <= i < |receipts| ==> Lookup(t, KeyOf(i)) == Some(ReceiptBytes(receipts[i])))
    && (forall i :: |receipts| <= i ==> Lookup(t, KeyOf(i)) in {None, Some([])})
  }

  ghost predicate ValidBlock(k: Hash, b: Block) {
    && |b.raw| == 16 && Fits(HeaderItem(b.raw))
    && WellFormed(k, b.trie) && !b.trie.Empty? && EvenLeaves(b.trie, 0)
    && b.raw[5] == Root(k, b.trie)
    && StoresReceipts(b.trie, b.receipts)
    && forall i :: 0 <= i < |b.receipts| ==> Encodable(b.receipts[i])
  }

  /** The index of the first receipt is the only one encoded as the single byte 0x80. */
  lemma FirstKey(i: nat)
    ensures EncodeNumber(0) == [0x80] && KeyOf(0) == [8, 0]
    ensures i > 0 ==> EncodeNumber(i) != [0x80]
  {
    assert Minimal(0) == [];
    assert [0x80 as Byte][1..] == [];
    var m := Minimal(i);
    if i > 0 && !(|m| == 1 && m[0] < 0x80) {
      assert |Encode(Str(m))| >= 2;
    }
  }

  lemma {:induction false} NibblesInjective(a: Bytes, b: Bytes)
    requires NibblesOf(a) == NibblesOf(b)
    ensures a == b
  {
    if a != [] && b != [] {
      assert NibblesOf(a)[2..] == NibblesOf(a[1..]) && NibblesOf(b)[2..] == NibblesOf(b[1..]);
      assert NibblesOf(a)[0] == a[0] / 16 && NibblesOf(a)[1] == a[0] % 16;
      assert NibblesOf(b)[0] == b[0] / 16 && NibblesOf(b)[1] == b[0] % 16;
      NibblesInjective(a[1..], b[1..]);
      assert a == [a[0]] + a[1..] && b == [b[0]] + b[1..];
    }
  }

  /** The bloom filter alone, 256 bytes in every receipt, makes a receipt large. */
  lemma BloomFillsReceipt(r: Receipt)
    ensures |ReceiptBytes(r)| >= |r.bloom|
  {
    MemberSize(ReceiptItem(r).items, 2);
  }

  /** Blocks as both theorems below want them exist: the trie of one receipt is a single leaf. */
  lemma SingleReceiptBlock(k: Hash, raw: seq<Bytes>, r: Receipt)
    requires Encodable(r) && Fits(Structure(k, Leaf([8, 0], ReceiptBytes(r))))
    requires |raw| == 16 && Fits(HeaderItem(raw)) && raw[5] == Root(k, Leaf([8, 0], ReceiptBytes(r)))
    ensures ValidBlock(k, Block(raw, [r], Leaf([8, 0], ReceiptBytes(r))))
    ensures |r.bloom| >= 32 ==> LargeValues(Leaf([8, 0], ReceiptBytes(r)))
  {
    BloomFillsReceipt(r);
    var leaf := Leaf([8, 0], ReceiptBytes(r));
    FirstKey(0);
    forall i | 1 <= i
      ensures Lookup(leaf, KeyOf(i)) == None
    {
      FirstKey(i);
      if KeyOf(i) == [8, 0] {
        NibblesInjective(EncodeNumber(i), EncodeNumber(0));
      }
    }
  }

  ghost predicate Encodable(r: Receipt) {
    Fits(ReceiptItem(r)) && (r.kind == 0 || r.kind % 256 < 0xc0)
  }

  ghost function HeaderBytes(b: Block): Bytes {
    Encode(HeaderItem(b.raw))
  }

  /** The block holds that log, of a transaction that succeeded. */
  ghost predicate HasLog(b: Block, txIndex: nat, logIndex: nat, log: Log) {
    && txIndex < |b.receipts| && U64Of(b.receipts[txIndex].status) == 1
    && logIndex < |b.receipts[txIndex].logs| && b.receipts[txIndex].logs[logIndex] == log
  }

  /** What a block commits for one log: nothing unless it is a successful transaction's live event. */
  ghost function CommittedEvent(k: Hash, b: Block, txIndex: nat, logIndex: nat, contract: Bytes): Option<Event>
    requires |b.raw| == 16
  {
    if txIndex >= |b.receipts| || U64Of(b.receipts[txIndex].status) != 1 then None
    else if logIndex >= |b.receipts[txIndex].logs| then None
    else ReadEvent(k, b.receipts[txIndex].logs[logIndex], contract, U64Of(b.raw[11]))
  }

  ghost function Everything(k: Hash, b: Block, input: Input): set<Bytes> {
    Presented(input) + {HeaderBytes(b)} + Encodings(k, b.trie)
  }

  lemma ReadStoredReceipt(k: Hash, b: Block, txIndex: nat, logIndex: nat, contract: Bytes)
    requires ValidBlock(k, b)
    ensures txIndex < |b.receipts| ==>
              ReadReceipt(k, ReceiptBytes(b.receipts[txIndex]), logIndex, contract, U64Of(b.raw[11]))
              == CommittedEvent(k, b, txIndex, logIndex, contract)
  {
    if txIndex < |b.receipts| {
      assert Encodable(b.receipts[txIndex]);
      ReceiptRoundTrip(b.receipts[txIndex]);
    }
  }

  lemma AcceptedReceiptIsStored(k: Hash, b: Block, input: Input, receipt: Bytes)
    requires ValidBlock(k, b)
    requires Verify(k, Root(k, b.trie), EncodeNumber(input.txIndex), input.nodes) == Some(receipt) && receipt != []
    ensures HasCollision(k, Everything(k, b, input))
         || (input.txIndex < |b.receipts| && receipt == ReceiptBytes(b.receipts[input.txIndex]))
  {
    TrieSoundness(k, b.trie, EncodeNumber(input.txIndex), receipt);
    if HasCollision(k, Pool(k, b.trie, input.nodes)) {
      CollisionGrows(k, Pool(k, b.trie, input.nodes), Everything(k, b, input));
    } else {
      assert Lookup(b.trie, KeyOf(input.txIndex)) == Some(receipt);
    }
  }

  lemma CommittedExactly(k: Hash, b: Block, txIndex: nat, logIndex: nat, contract: Bytes, e: Event)
    requires |b.raw| == 16
    ensures CommittedEvent(k, b, txIndex, logIndex, contract) == Some(e)
            <==> exists log :: HasLog(b, txIndex, logIndex, log) && Carries(k, log, e)
                             && e.contract == contract && e.expiry > U64Of(b.raw[11])
  {
    if txIndex < |b.receipts| && logIndex < |b.receipts[txIndex].logs| {
      ReadsExactly(k, b.receipts[txIndex].logs[logIndex], contract, U64Of(b.raw[11]), e);
      assert U64Of(b.receipts[txIndex].status) == 1 ==> HasLog(b, txIndex, logIndex, b.receipts[txIndex].logs[logIndex]);
    }
  }

  /** Soundness end to end: an accepted input whose committed hash is that of a real block commits, field by
      field, what that block's own log says, or something presented collides with something real. */
  lemma AcceptedEventIsReal(k: Hash, b: Block, input: Input)
    requires ValidBlock(k, b)
    requires Program(k, input).Some? && Program(k, input).value.blockHash == k(HeaderBytes(b))
    ensures HasCollision(k, Everything(k, b, input))
         || var out := Program(k, input).value;
            && (exists log :: HasLog(b, input.txIndex, input.logIndex, log) && Carries(k, log, out.event))
            && out.event.contract == input.contract && out.event.expiry > out.blockTimestamp
            && out.blockNumber == U64Of(b.raw[8]) && out.blockTimestamp == U64Of(b.raw[11])
  {
    if input.header != HeaderBytes(b) {
      assert k(input.header) == k(HeaderBytes(b));
    } else {
      HeaderRoundTrip(b.raw);
      var receipt := Verify(k, Root(k, b.trie), EncodeNumber(input.txIndex), input.nodes).value;
      AcceptedReceiptIsStored(k, b, input, receipt);
      ReadStoredReceipt(k, b, input.txIndex, input.logIndex, input.contract);
      CommittedExactly(k, b, input.txIndex, input.logIndex, input.contract, Program(k, input).value.event);
    }
  }

  /** Completeness end to end: every live event that some log of a successful transaction carries can be
      proved, by the honest input and with exactly its fields. */
  lemma RealEventIsProvable(k: Hash, b: Block, txIndex: nat, logIndex: nat, log: Log, e: Event)
    requires ValidBlock(k, b) && LargeValues(b.trie)
    requires HasLog(b, txIndex, logIndex, log) && Carries(k, log, e) && e.expiry > U64Of(b.raw[11])
    ensures var nodes := [Encoding(k, b.trie)] + Proof(k, b.trie, KeyOf(txIndex));
            Program(k, Input(HeaderBytes(b), nodes, txIndex, logIndex, e.contract))
            == Some(Output(k(HeaderBytes(b)), U64Of(b.raw[8]), U64Of(b.raw[11]), e))
  {
    HeaderRoundTrip(b.raw);
    LargeMeansHashedPath(k, b.trie, KeyOf(txIndex));
    TrieCompleteness(k, b.trie, EncodeNumber(txIndex));
    CommittedExactly(k, b, txIndex, logIndex, e.contract, e);
    ReadStoredReceipt(k, b, txIndex, logIndex, e.contract);
  }

  // ------------------------------------------------------------------ the host's header, field by field

  /** The sixteen fields in the host's order: difficulty to timestamp and the base fee as numbers, the rest as given. */
  lemma HeaderFieldsInOrder(raw: seq<Bytes>)
    requires |raw| == 16
    ensures HeaderItem(raw) == List([
              Str(raw[0]), Str(raw[1]), Str(raw[2]), Str(raw[3]), Str(raw[4]), Str(raw[5]), Str(raw[6]),
              Str(Minimal(BigEndian(raw[7]))), Str(Minimal(BigEndian(raw[8]))), Str(Minimal(BigEndian(raw[9]))),
              Str(Minimal(BigEndian(raw[10]))), Str(Minimal(BigEndian(raw[11]))),
              Str(raw[12]), Str(raw[13]), Str(raw[14]), Str(Minimal(BigEndian(raw[15])))])
  {
  }
}
