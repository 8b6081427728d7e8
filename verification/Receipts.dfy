/** Transaction receipts: the host's encoder and the program's decoder (EIP-2718, section "Receipts"). */
module Receipts {
  import opened ByteStrings
  import opened Options
  import opened Rlp

  datatype Log = Log(address: Bytes, topics: seq<Bytes>, data: Bytes)

  /** Numbers arrive as big-endian bytes with any number of leading zeros. */
  datatype Receipt = Receipt(status: Bytes, cumulativeGas: Bytes, bloom: Bytes, logs: seq<Log>, kind: nat)

  function Strings(bs: seq<Bytes>): (items: seq<Item>)
    ensures |items| == |bs| && forall i :: 0 <= i < |bs| ==> items[i] == Str(bs[i])
  {
    seq(|bs|, i requires 0 <= i < |bs| => Str(bs[i]))
  }

  function LogItem(log: Log): Item {
    List([Str(log.address), List(Strings(log.topics)), Str(log.data)])
  }

  function LogItems(logs: seq<Log>): (items: seq<Item>)
    ensures |items| == |logs| && forall i :: 0 <= i < |logs| ==> items[i] == LogItem(logs[i])
  {
    seq(|logs|, i requires 0 <= i < |logs| => LogItem(logs[i]))
  }

  function ReceiptItem(r: Receipt): Item {
    List([Str(Minimal(BigEndian(r.status))), Str(Minimal(BigEndian(r.cumulativeGas))), Str(r.bloom), List(LogItems(r.logs))])
  }

  /** Legacy receipts are the bare list; any other type is one truncated type byte before it. */
  function ReceiptBytes(r: Receipt): (b: Bytes)
    ensures b != []
  {
    if r.kind == 0 then Encode(ReceiptItem(r)) else [r.kind % 256] + Encode(ReceiptItem(r))
  }

  method EncodeLog(log: Log) returns (item: Item)
    ensures item == LogItem(log)
  {
    var topics: seq<Item> := [];
    for j := 0 to |log.topics|
      invariant topics == Strings(log.topics)[..j]
    {
      topics := topics + [Str(log.topics[j])];
    }
    assert topics == Strings(log.topics);
    item := List([Str(log.address), List(topics), Str(log.data)]);
  }

  method EncodeLogs(logs: seq<Log>) returns (items: seq<Item>)
    ensures items == LogItems(logs)
  {
    items := [];
    for i := 0 to |logs|
      invariant items == LogItems(logs)[..i]
    {
      var item := EncodeLog(logs[i]);
      items := items + [item];
    }
  }

  /** The host's encoder, its loops over logs and topics split off. */
  method EncodeReceipt(r: Receipt) returns (b: Bytes)
    ensures b == ReceiptBytes(r)
  {
    var status := StripLeadingZeros(r.status);
    var gas := StripLeadingZeros(r.cumulativeGas);
    var logs := EncodeLogs(r.logs);
    var item := List([Str(status), Str(gas), Str(r.bloom), List(logs)]);
    assert item == ReceiptItem(r);
    var body := Encode(item);
    b := if r.kind == 0 then body else [r.kind % 256] + body;
  }

  // ------------------------------------------------------------------ the program's side

  /** The log items of a successful receipt; None for any panic, including a status other than 1. */
  function DecodeReceiptLogs(receipt: Bytes): Option<seq<Bytes>> {
    if receipt == [] then None
    else
      var body := if receipt[0] < 0xc0 then receipt[1..] else receipt;
      var statusItem :- At(body, 0);
      var status :- Data(statusItem);
      if U64Of(status) != 1 then None
      else
        var logsItem :- At(body, 3);
        Some(ListItems(logsItem))
  }

  function DataOfAll(items: seq<Bytes>): Option<seq<Bytes>> {
    if items == [] then Some([])
    else
      var first :- Data(items[0]);
      var rest :- DataOfAll(items[1..]);
      Some([first] + rest)
  }

  function DecodeLog(item: Bytes): Option<Log> {
    var addressItem :- At(item, 0);
    var address :- Data(addressItem);
    var topicsItem :- At(item, 1);
    var topics :- DataOfAll(ListItems(topicsItem));
    var dataItem :- At(item, 2);
    var data :- Data(dataItem);
    Some(Log(address, topics, data))
  }

  lemma ReadMember(xs: seq<Item>, i: nat)
    requires i < |xs| && Fits(List(xs))
    ensures At(Encode(List(xs)), i) == Some(Encode(xs[i])) && Fits(xs[i])
    ensures xs[i].Str? ==> Data(Encode(xs[i])) == Some(xs[i].str)
    ensures xs[i].List? ==> |ListItems(Encode(xs[i]))| == |xs[i].items|
    ensures xs[i].List? ==> forall j :: 0 <= j < |xs[i].items| ==> ListItems(Encode(xs[i]))[j] == Encode(xs[i].items[j])
  {
    assert Encode(List(xs)) + [] == Encode(List(xs));
    ListItemsRead(xs, []);
    MemberFits(xs, i);
    assert Encode(xs[i]) + [] == Encode(xs[i]);
    match xs[i]
    case Str(s) => StringRead(s, []);
    case List(ys) => ListItemsRead(ys, []);
  }

  lemma {:induction false} DataOfStrings(items: seq<Bytes>, bs: seq<Bytes>)
    requires |items| == |bs|
    requires forall i :: 0 <= i < |bs| ==> Data(items[i]) == Some(bs[i])
    ensures DataOfAll(items) == Some(bs)
  {
    if bs != [] {
      DataOfStrings(items[1..], bs[1..]);
      assert bs == [bs[0]] + bs[1..];
    }
  }

  lemma LogRoundTrip(log: Log)
    requires Fits(LogItem(log))
    ensures DecodeLog(Encode(LogItem(log))) == Some(log)
  {
    var xs := LogItem(log).items;
    ReadMember(xs, 0);
    ReadMember(xs, 1);
    ReadMember(xs, 2);
    var topics := ListItems(Encode(xs[1]));
    forall j | 0 <= j < |log.topics|
      ensures Data(topics[j]) == Some(log.topics[j])
    {
      ReadMember(Strings(log.topics), j);
    }
    DataOfStrings(topics, log.topics);
  }

  lemma ReceiptBody(r: Receipt)
    requires Fits(ReceiptItem(r)) && (r.kind == 0 || r.kind % 256 < 0xc0)
    ensures var b := ReceiptBytes(r);
            (if b[0] < 0xc0 then b[1..] else b) == Encode(ReceiptItem(r))
  {
    var e := Encode(ReceiptItem(r));
    assert e + [] == e;
    ItemRead(ReceiptItem(r), []);
  }

  lemma LogsRoundTrip(logs: seq<Log>)
    requires Fits(List(LogItems(logs)))
    ensures var items := ListItems(Encode(List(LogItems(logs))));
            |items| == |logs| && forall i :: 0 <= i < |logs| ==> DecodeLog(items[i]) == Some(logs[i])
  {
    var e := Encode(List(LogItems(logs)));
    assert e + [] == e;
    ListItemsRead(LogItems(logs), []);
    forall i | 0 <= i < |logs|
      ensures DecodeLog(ListItems(e)[i]) == Some(logs[i])
    {
      MemberFits(LogItems(logs), i);
      LogRoundTrip(logs[i]);
    }
  }

  lemma ReceiptFields(r: Receipt)
    requires Fits(ReceiptItem(r))
    ensures var body := Encode(ReceiptItem(r));
            && At(body, 0).Some? && Data(At(body, 0).value) == Some(Minimal(BigEndian(r.status)))
            && At(body, 3) == Some(Encode(List(LogItems(r.logs))))
            && Fits(List(LogItems(r.logs)))
  {
    var xs := ReceiptItem(r).items;
    ReadMember(xs, 0);
    ReadMember(xs, 3);
  }

  /** Decoding an encoded receipt panics unless its status is 1 modulo 2^64, and otherwise gives back
      the receipt's logs, in order and in full. */
  lemma ReceiptRoundTrip(r: Receipt)
    requires Fits(ReceiptItem(r)) && (r.kind == 0 || r.kind % 256 < 0xc0)
    ensures DecodeReceiptLogs(ReceiptBytes(r)).Some? <==> U64Of(r.status) == 1
    ensures U64Of(r.status) == 1 ==>
              var items := DecodeReceiptLogs(ReceiptBytes(r)).value;
              && |items| == |r.logs|
              && forall i :: 0 <= i < |r.logs| ==> DecodeLog(items[i]) == Some(r.logs[i])
  {
    ReceiptBody(r);
    ReceiptFields(r);
    LogsRoundTrip(r.logs);
    MinimalDenotes(BigEndian(r.status));
  }

  /** What the host wrote is what a reader of the four fields finds, in this order, after the type byte if any. */
  lemma ReceiptReadsBack(r: Receipt, logs: Bytes)
    requires Fits(ReceiptItem(r)) && logs == Encode(List(LogItems(r.logs)))
    ensures var body := if r.kind == 0 then ReceiptBytes(r) else ReceiptBytes(r)[1..];
            && (r.kind != 0 ==> ReceiptBytes(r)[0] == r.kind % 256)
            && ItemCount(body) == Some(4)
            && At(body, 0).Some? && Data(At(body, 0).value) == Some(Minimal(BigEndian(r.status)))
            && At(body, 1).Some? && Data(At(body, 1).value) == Some(Minimal(BigEndian(r.cumulativeGas)))
            && At(body, 2).Some? && Data(At(body, 2).value) == Some(r.bloom)
            && At(body, 3) == Some(logs)
  {
    var xs := ReceiptItem(r).items;
    assert Encode(List(xs)) + [] == Encode(List(xs));
    ListItemsRead(xs, []);
    ReadMember(xs, 0);
    ReadMember(xs, 1);
    ReadMember(xs, 2);
    ReadMember(xs, 3);
  }
}
