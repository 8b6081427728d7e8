/** The listener's Base58Check encoder, with a decoder showing that no address is ever lost. */
module Base58 {
  import opened ByteStrings

  /** Double SHA-256 cut to four bytes; any function will do. */
  type Checksum = c: Bytes | |c| == 4 witness Zeros(4)

  /** The alphabet in order: 1-9, A-H, J-N, P-Z, a-k, m-z. */
  function DigitChar(d: nat): char
    requires d < 58
  {
    if d < 9 then '1' + d as char
    else if d < 17 then 'A' + (d - 9) as char
    else if d < 22 then 'J' + (d - 17) as char
    else if d < 33 then 'P' + (d - 22) as char
    else if d < 44 then 'a' + (d - 33) as char
    else 'm' + (d - 44) as char
  }

  /** A number in base 58, most significant digit first, without leading zero digits. */
  function Digits(v: nat): string {
    if v == 0 then "" else Digits(v / 58) + [DigitChar(v % 58)]
  }

  function Ones(n: nat): (s: string)
    ensures |s| == n && forall i :: 0 <= i < n ==> s[i] == '1'
  {
    seq(n, i => '1')
  }

  function Encode(bytes: Bytes): string {
    Ones(LeadingZeros(bytes)) + Digits(BigEndian(bytes))
  }

  method EncodeNumber(v: nat) returns (result: string)
    ensures result == Digits(v)
  {
    var value := v;
    result := "";
    while value > 0
      invariant Digits(v) == Digits(value) + result
    {
      assert Digits(value) + result == Digits(value / 58) + ([DigitChar(value % 58)] + result);
      result := [DigitChar(value % 58)] + result;
      value := value / 58;
    }
  }

  lemma LeadingZeroStep(bytes: Bytes, i: nat)
    requires i <= |bytes|
    ensures i < |bytes| && bytes[i] == 0 ==> LeadingZeros(bytes[i..]) == 1 + LeadingZeros(bytes[i + 1..])
    ensures i == |bytes| || bytes[i] != 0 ==> LeadingZeros(bytes[i..]) == 0
  {
    if i < |bytes| {
      assert bytes[i..][1..] == bytes[i + 1..];
    }
  }

  lemma OneMore(n: nat, digits: string)
    ensures Ones(n + 1) + digits == "1" + (Ones(n) + digits)
  {
  }

  method PrependOnes(bytes: Bytes, digits: string) returns (result: string)
    ensures result == Ones(LeadingZeros(bytes)) + digits
  {
    result := digits;
    var i := 0;
    assert bytes[0..] == bytes;
    while i < |bytes| && bytes[i] == 0
      invariant 0 <= i <= |bytes|
      invariant LeadingZeros(bytes) == i + LeadingZeros(bytes[i..])
      invariant result == Ones(i) + digits
    {
      LeadingZeroStep(bytes, i);
      OneMore(i, digits);
      result := "1" + result;
      i := i + 1;
    }
    LeadingZeroStep(bytes, i);
  }

  /** Divides the value down to zero, then prepends a '1' per leading zero byte. */
  method Base58CheckEncode(buf: Bytes, checksum: Bytes -> Checksum) returns (result: string)
    ensures result == Encode(buf + checksum(buf))
  {
    var bytes := buf + checksum(buf);
    var digits := EncodeNumber(BigEndian(bytes));
    result := PrependOnes(bytes, digits);
  }

  // ------------------------------------------------------------------ decoding

  function DigitValue(c: char): nat {
    if '1' <= c <= '9' then c as nat - '1' as nat
    else if 'A' <= c <= 'H' then c as nat - 'A' as nat + 9
    else if 'J' <= c <= 'N' then c as nat - 'J' as nat + 17
    else if 'P' <= c <= 'Z' then c as nat - 'P' as nat + 22
    else if 'a' <= c <= 'k' then c as nat - 'a' as nat + 33
    else if 'm' <= c <= 'z' then c as nat - 'm' as nat + 44
    else 0
  }

  function Value(s: string): nat {
    if s == "" then 0 else Value(s[..|s| - 1]) * 58 + DigitValue(s[|s| - 1])
  }

  function LeadingOnes(s: string): (n: nat)
    ensures n <= |s|
  {
    if s == "" || s[0] != '1' then 0 else 1 + LeadingOnes(s[1..])
  }

  function Decode(s: string): Bytes {
    Zeros(LeadingOnes(s)) + Minimal(Value(s[LeadingOnes(s)..]))
  }

  lemma DigitRoundTrip(d: nat)
    requires d < 58
    ensures DigitValue(DigitChar(d)) == d
    ensures DigitChar(d) == '1' <==> d == 0
  {
  }

  lemma {:induction false} DigitsDenote(v: nat)
    ensures Value(Digits(v)) == v
    ensures v > 0 ==> Digits(v) != "" && Digits(v)[0] != '1'
  {
    if v != 0 {
      DigitsDenote(v / 58);
      DigitRoundTrip(v % 58);
      assert Digits(v)[..|Digits(v)| - 1] == Digits(v / 58);
    }
  }

  lemma {:induction false} OnesCounted(n: nat, s: string)
    requires s == "" || s[0] != '1'
    ensures LeadingOnes(Ones(n) + s) == n
  {
    if n == 0 {
      assert Ones(0) + s == s;
    } else {
      assert (Ones(n) + s)[1..] == Ones(n - 1) + s;
      OnesCounted(n - 1, s);
    }
  }

  lemma EncodingSplits(bytes: Bytes)
    ensures LeadingOnes(Encode(bytes)) == LeadingZeros(bytes)
    ensures Value(Encode(bytes)[LeadingZeros(bytes)..]) == BigEndian(bytes)
  {
    var (n, digits) := (LeadingZeros(bytes), Digits(BigEndian(bytes)));
    DigitsDenote(BigEndian(bytes));
    OnesCounted(n, digits);
    assert (Ones(n) + digits)[n..] == digits;
  }

  /** Decoding recovers the exact bytes, leading zero bytes included. */
  lemma RoundTrip(bytes: Bytes)
    ensures Decode(Encode(bytes)) == bytes
  {
    var n := LeadingZeros(bytes);
    var rest := bytes[n..];
    StrippedDenotes(bytes);
    MinimalUnique(rest);
    EncodingSplits(bytes);
    assert bytes == Zeros(n) + rest;
  }

  /** Two payloads never share an address, whatever the checksum function. */
  lemma CheckEncodeInjective(a: Bytes, b: Bytes, checksum: Bytes -> Checksum)
    requires Encode(a + checksum(a)) == Encode(b + checksum(b))
    ensures a == b
  {
    RoundTrip(a + checksum(a));
    RoundTrip(b + checksum(b));
    assert a == (a + checksum(a))[..|a + checksum(a)| - 4];
    assert b == (b + checksum(b))[..|b + checksum(b)| - 4];
  }

  /** The 58 digits are letters and figures in ascending order, without 0, O, I and l: that leaves no choice. */
  lemma AlphabetIsAscending(d: nat, e: nat)
    requires d < e < 58
    ensures DigitChar(d) < DigitChar(e)
    ensures var c := DigitChar(e); ('0' <= c <= '9' || 'A' <= c <= 'Z' || 'a' <= c <= 'z') && c !in {'0', 'O', 'I', 'l'}
    ensures DigitChar(0) == '1' && DigitChar(57) == 'z'
  {
  }
}
