/** Recursive Length Prefix (Appendix B of the Ethereum Yellow Paper): the encoder the host uses,
    and the lazy byte view the proving program reads nodes, headers and receipts through.
    A view is just the byte string it starts at; bytes after the item it denotes are ignored. */
module Rlp {
  import opened ByteStrings
  import opened Options

  datatype Item = Str(str: Bytes) | List(items: seq<Item>)

  // ------------------------------------------------------------------ encoding

  function Header(base: Byte, n: nat): (h: Bytes)
    requires base == 0x80 || base == 0xc0
    ensures |h| >= 1
  {
    if n <= 55 then [base + n] else [(base + 55 + |Minimal(n)|) % 256] + Minimal(n)
  }

  function Encode(item: Item): (e: Bytes)
    ensures |e| >= 1
    decreases item, 0
  {
    match item
    case Str(s) => if |s| == 1 && s[0] < 0x80 then s else Header(0x80, |s|) + s
    case List(xs) => Header(0xc0, |EncodeAll(xs)|) + EncodeAll(xs)
  }

  function EncodeAll(xs: seq<Item>): Bytes
    decreases xs, 1
  {
    if xs == [] then [] else Encode(xs[0]) + EncodeAll(xs[1..])
  }

  /** rlp::encode of a u64: the minimal big-endian string. */
  function EncodeNumber(n: nat): Bytes {
    Encode(Str(Minimal(n)))
  }

  /** Every length the encoder wrote fits the eight length bytes RLP allows. */
  predicate Fits(item: Item) {
    |Encode(item)| < TWO_TO_64
  }

  // ------------------------------------------------------------------ viewing

  datatype Info = Info(header: nat, value: nat)

  function LongInfo(b: Bytes, k: nat): Option<Info>
    requires k >= 1
  {
    if |b| < 2 || b[1] == 0 || |b| < 1 + k then None
    else if BigEndian(b[1..1 + k]) <= 55 then None
    else Some(Info(1 + k, BigEndian(b[1..1 + k])))
  }

  function HeaderInfo(b: Bytes): (r: Option<Info>)
    requires b != []
    ensures r.Some? ==> 1 <= r.value.header + r.value.value
  {
    var l := b[0];
    if l <= 0x7f then Some(Info(0, 1))
    else if l <= 0xb7 then Some(Info(1, l - 0x80))
    else if l <= 0xbf then LongInfo(b, l - 0xb7)
    else if l <= 0xf7 then Some(Info(1, l - 0xc0))
    else LongInfo(b, l - 0xf7)
  }

  /** Where the item at the front of b keeps its payload, if the item is all there. */
  function PayloadInfo(b: Bytes): (r: Option<Info>)
    ensures r.Some? ==> 1 <= r.value.header + r.value.value <= |b|
  {
    if b == [] then None
    else
      var info :- HeaderInfo(b);
      if info.header + info.value <= |b| then Some(info) else None
  }

  predicate IsList(b: Bytes) {
    b != [] && b[0] >= 0xc0
  }

  /** The payload of the item at the front of b, list or string alike. */
  function Data(b: Bytes): Option<Bytes> {
    var info :- PayloadInfo(b);
    Some(b[info.header..info.header + info.value])
  }

  function First(b: Bytes): Option<Bytes> {
    var info :- PayloadInfo(b);
    Some(b[..info.header + info.value])
  }

  function Skip(p: Bytes, n: nat): Option<Bytes>
    decreases n
  {
    if n == 0 then Some(p)
    else
      var info :- PayloadInfo(p);
      Skip(p[info.header + info.value..], n - 1)
  }

  function At(b: Bytes, i: nat): Option<Bytes> {
    if !IsList(b) then None
    else
      var payload :- Data(b);
      var rest :- Skip(payload, i);
      First(rest)
  }

  /** Counting stops at the first item that does not decode. */
  function CountItems(p: Bytes): nat
    decreases |p|
  {
    match PayloadInfo(p)
    case None => 0
    case Some(info) => 1 + CountItems(p[info.header + info.value..])
  }

  function ItemCount(b: Bytes): Option<nat> {
    if !IsList(b) then None
    else match Data(b)
      case None => Some(0)
      case Some(payload) => Some(CountItems(payload))
  }

  /** The items of a list, as far as they decode. */
  function Items(p: Bytes): (r: seq<Bytes>)
    ensures |r| == CountItems(p)
    decreases |p|
  {
    match PayloadInfo(p)
    case None => []
    case Some(info) => [p[..info.header + info.value]] + Items(p[info.header + info.value..])
  }

  function ListItems(b: Bytes): seq<Bytes> {
    if !IsList(b) then []
    else match Data(b)
      case None => []
      case Some(payload) => Items(payload)
  }

  // ------------------------------------------------------------------ viewing undoes encoding

  lemma LongInfoRead(first: Byte, m: Bytes, rest: Bytes)
    requires m != [] && m[0] != 0 && BigEndian(m) > 55
    ensures LongInfo([first] + m + rest, |m|) == Some(Info(1 + |m|, BigEndian(m)))
  {
    var b := [first] + m + rest;
    assert b[1..1 + |m|] == m && b[1] == m[0];
  }

  lemma LongFirstByte(base: Byte, k: nat, b: Bytes)
    requires base == 0x80 || base == 0xc0
    requires 1 <= k <= 8 && b != [] && b[0] == base + 55 + k
    ensures HeaderInfo(b) == LongInfo(b, k) && (b[0] >= 0xc0 <==> base == 0xc0)
  {
  }

  lemma LengthBytes(n: nat)
    requires 0 < n < TWO_TO_64
    ensures var m := Minimal(n); 1 <= |m| <= 8 && m[0] != 0 && BigEndian(m) == n
  {
    Pow256Eight();
    MinimalLength(n, 8);
    MinimalDenotes(n);
  }

  lemma LongPayload(first: Byte, base: Byte, m: Bytes, rest: Bytes)
    requires base == 0x80 || base == 0xc0
    requires 1 <= |m| <= 8 && m[0] != 0 && 55 < BigEndian(m) <= |rest| && first == base + 55 + |m|
    ensures PayloadInfo([first] + m + rest) == Some(Info(1 + |m|, BigEndian(m)))
    ensures ([first] + m + rest)[0] >= 0xc0 <==> base == 0xc0
  {
    LongFirstByte(base, |m|, [first] + m + rest);
    LongInfoRead(first, m, rest);
  }

  lemma LongHeaderRead(base: Byte, n: nat, rest: Bytes)
    requires base == 0x80 || base == 0xc0
    requires 55 < n < TWO_TO_64 && n <= |rest|
    ensures PayloadInfo(Header(base, n) + rest) == Some(Info(|Header(base, n)|, n))
    ensures (Header(base, n) + rest)[0] >= 0xc0 <==> base == 0xc0
  {
    LengthBytes(n);
    LongHeader(base, n, Minimal(n));
    LongPayload(base + 55 + |Minimal(n)|, base, Minimal(n), rest);
  }

  lemma LongHeader(base: Byte, n: nat, m: Bytes)
    requires base == 0x80 || base == 0xc0
    requires n > 55 && m == Minimal(n) && |m| <= 8
    ensures Header(base, n) == [base + 55 + |m|] + m
  {
    assert (base + 55 + |m|) % 256 == base + 55 + |m|;
  }

  lemma ShortHeaderRead(base: Byte, n: nat, rest: Bytes)
    requires base == 0x80 || base == 0xc0
    requires n <= 55 && n <= |rest|
    ensures PayloadInfo(Header(base, n) + rest) == Some(Info(|Header(base, n)|, n))
    ensures (Header(base, n) + rest)[0] >= 0xc0 <==> base == 0xc0
  {
    var b: Bytes := [base + n] + rest;
    assert Header(base, n) == [base + n];
    assert HeaderInfo(b) == Some(Info(1, n));
  }

  lemma HeaderRead(base: Byte, n: nat, rest: Bytes)
    requires base == 0x80 || base == 0xc0
    requires n < TWO_TO_64 && n <= |rest|
    ensures PayloadInfo(Header(base, n) + rest) == Some(Info(|Header(base, n)|, n))
    ensures (Header(base, n) + rest)[0] >= 0xc0 <==> base == 0xc0
  {
    if n > 55 {
      LongHeaderRead(base, n, rest);
    } else {
      ShortHeaderRead(base, n, rest);
    }
  }

  lemma StringRead(s: Bytes, rest: Bytes)
    requires Fits(Str(s))
    ensures !IsList(Encode(Str(s)) + rest)
    ensures Data(Encode(Str(s)) + rest) == Some(s)
    ensures First(Encode(Str(s)) + rest) == Some(Encode(Str(s)))
  {
    var e := Encode(Str(s));
    if |s| == 1 && s[0] < 0x80 {
      assert (e + rest)[0..1] == s;
    } else {
      var h := Header(0x80, |s|);
      assert e + rest == h + (s + rest);
      HeaderRead(0x80, |s|, s + rest);
      assert (e + rest)[|h|..|h| + |s|] == s;
      assert (e + rest)[..|e|] == e;
    }
  }

  lemma ListRead(xs: seq<Item>, rest: Bytes)
    requires Fits(List(xs))
    ensures IsList(Encode(List(xs)) + rest)
    ensures Data(Encode(List(xs)) + rest) == Some(EncodeAll(xs))
    ensures First(Encode(List(xs)) + rest) == Some(Encode(List(xs)))
  {
    var e, p := Encode(List(xs)), EncodeAll(xs);
    var h := Header(0xc0, |p|);
    assert e + rest == h + (p + rest);
    HeaderRead(0xc0, |p|, p + rest);
    assert (e + rest)[|h|..|h| + |p|] == p;
    assert (e + rest)[..|e|] == e;
  }

  lemma ItemRead(item: Item, rest: Bytes)
    requires Fits(item)
    ensures PayloadInfo(Encode(item) + rest).Some?
    ensures First(Encode(item) + rest) == Some(Encode(item))
    ensures IsList(Encode(item) + rest) <==> item.List?
  {
    match item
    case Str(s) => StringRead(s, rest);
    case List(xs) => ListRead(xs, rest);
  }

  lemma SkipFront(xs: seq<Item>, i: nat)
    requires xs != [] && i > 0 && |EncodeAll(xs)| < TWO_TO_64
    ensures Skip(EncodeAll(xs), i) == Skip(EncodeAll(xs[1..]), i - 1)
  {
    FrontSplits(xs);
  }

  /** Skipping i items of an encoded list lands exactly on item i. */
  lemma {:induction false} SkipItems(xs: seq<Item>, i: nat)
    requires i <= |xs| && |EncodeAll(xs)| < TWO_TO_64
    ensures Skip(EncodeAll(xs), i) == Some(EncodeAll(xs[i..]))
  {
    if i == 0 {
      assert xs[0..] == xs;
    } else {
      SkipFront(xs, i);
      SkipItems(xs[1..], i - 1);
      assert xs[1..][i - 1..] == xs[i..];
    }
  }

  lemma FrontSplits(xs: seq<Item>)
    requires xs != [] && |EncodeAll(xs)| < TWO_TO_64
    ensures Fits(xs[0])
    ensures var r := PayloadInfo(EncodeAll(xs)); r.Some? && EncodeAll(xs)[r.value.header + r.value.value..] == EncodeAll(xs[1..])
    ensures First(EncodeAll(xs)) == Some(Encode(xs[0]))
  {
    ItemRead(xs[0], EncodeAll(xs[1..]));
  }

  lemma FrontItem(xs: seq<Item>)
    requires xs != [] && |EncodeAll(xs)| < TWO_TO_64
    ensures Items(EncodeAll(xs)) == [Encode(xs[0])] + Items(EncodeAll(xs[1..]))
  {
    FrontSplits(xs);
  }

  lemma Prepended(all: seq<Bytes>, tail: seq<Bytes>, xs: seq<Item>)
    requires xs != [] && all == [Encode(xs[0])] + tail && |tail| == |xs| - 1
    requires forall i :: 0 <= i < |tail| ==> tail[i] == Encode(xs[1..][i])
    ensures |all| == |xs| && forall i :: 0 <= i < |xs| ==> all[i] == Encode(xs[i])
  {
    assert forall i :: 1 <= i < |xs| ==> all[i] == tail[i - 1] && xs[i] == xs[1..][i - 1];
  }

  lemma {:induction false} ItemsOfEncoded(xs: seq<Item>)
    requires |EncodeAll(xs)| < TWO_TO_64
    ensures |Items(EncodeAll(xs))| == |xs|
    ensures forall i :: 0 <= i < |xs| ==> Items(EncodeAll(xs))[i] == Encode(xs[i])
  {
    if xs != [] {
      FrontItem(xs);
      ItemsOfEncoded(xs[1..]);
      Prepended(Items(EncodeAll(xs)), Items(EncodeAll(xs[1..])), xs);
    }
  }

  /** The view of an encoded list has the list's items, in order and no others. */
  lemma ListItemsRead(xs: seq<Item>, rest: Bytes)
    requires Fits(List(xs))
    ensures ItemCount(Encode(List(xs)) + rest) == Some(|xs|)
    ensures |ListItems(Encode(List(xs)) + rest)| == |xs|
    ensures forall i :: 0 <= i < |xs| ==> ListItems(Encode(List(xs)) + rest)[i] == Encode(xs[i])
    ensures forall i :: 0 <= i < |xs| ==> At(Encode(List(xs)) + rest, i) == Some(Encode(xs[i]))
  {
    ListRead(xs, rest);
    ItemsOfEncoded(xs);
    forall i | 0 <= i < |xs|
      ensures At(Encode(List(xs)) + rest, i) == Some(Encode(xs[i]))
    {
      SkipItems(xs, i);
      SuffixFits(xs, i);
      FrontSplits(xs[i..]);
    }
  }

  lemma {:induction false} SuffixFits(xs: seq<Item>, i: nat)
    requires i <= |xs|
    ensures |EncodeAll(xs[i..])| <= |EncodeAll(xs)|
  {
    if i == 0 {
      assert xs[0..] == xs;
    } else {
      SuffixFits(xs[1..], i - 1);
      assert xs[1..][i - 1..] == xs[i..];
    }
  }

  lemma MemberFits(xs: seq<Item>, i: nat)
    requires i < |xs| && Fits(List(xs))
    ensures Fits(xs[i])
  {
    SuffixFits(xs, i);
    assert xs[i..][0] == xs[i];
  }

  /** Different items never share an encoding, even when one encoding is followed by more bytes. */
  lemma {:induction false} EncodeInjective(a: Item, b: Item)
    requires Fits(a) && Fits(b) && Encode(a) == Encode(b)
    ensures a == b
    decreases a
  {
    ItemRead(a, []);
    ItemRead(b, []);
    assert Encode(a) + [] == Encode(a) && Encode(b) + [] == Encode(b);
    match a
    case Str(s) =>
      StringRead(s, []);
      StringRead(b.str, []);
    case List(xs) =>
      ListRead(xs, []);
      ListRead(b.items, []);
      EncodeAllInjective(xs, b.items);
  }

  lemma FrontsAgree(xs: seq<Item>, ys: seq<Item>)
    requires xs != [] && ys != [] && |EncodeAll(xs)| < TWO_TO_64 && EncodeAll(xs) == EncodeAll(ys)
    ensures Fits(xs[0]) && Fits(ys[0]) && Encode(xs[0]) == Encode(ys[0])
    ensures |EncodeAll(xs[1..])| < TWO_TO_64 && EncodeAll(xs[1..]) == EncodeAll(ys[1..])
  {
    FrontSplits(xs);
    FrontSplits(ys);
  }

  lemma {:induction false} EncodeAllInjective(xs: seq<Item>, ys: seq<Item>)
    requires |EncodeAll(xs)| < TWO_TO_64 && EncodeAll(xs) == EncodeAll(ys)
    ensures xs == ys
    decreases xs
  {
    if xs != [] && ys != [] {
      FrontsAgree(xs, ys);
      EncodeInjective(xs[0], ys[0]);
      EncodeAllInjective(xs[1..], ys[1..]);
      assert xs == [xs[0]] + xs[1..] && ys == [ys[0]] + ys[1..];
    }
  }
}
