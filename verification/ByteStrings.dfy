/** Bytes, nibbles and big-endian numbers, as the prover program and its host handle them. */
module ByteStrings {

  type Byte = x: int | 0 <= x < 256
  type Nibble = x: int | 0 <= x < 16
  type Bytes = seq<Byte>
  type Nibbles = seq<Nibble>

  const TWO_TO_64: nat := 0x1_0000_0000_0000_0000

  function Pow256(k: nat): (p: nat)
    ensures p >= 1
  {
    if k == 0 then 1 else 256 * Pow256(k - 1)
  }

  /** The number a byte string denotes, most significant byte first. */
  function BigEndian(b: Bytes): nat {
    if b == [] then 0 else BigEndian(b[..|b| - 1]) * 256 + b[|b| - 1]
  }

  /** The shortest byte string denoting n: empty for zero, never a leading zero byte. */
  function Minimal(n: nat): (b: Bytes)
    ensures n > 0 ==> b != [] && b[0] != 0
  {
    if n == 0 then [] else Minimal(n / 256) + [n % 256]
  }

  lemma {:induction false} MinimalDenotes(n: nat)
    ensures BigEndian(Minimal(n)) == n
  {
    if n != 0 {
      MinimalDenotes(n / 256);
      assert Minimal(n)[..|Minimal(n)| - 1] == Minimal(n / 256);
    }
  }

  lemma {:induction false} MinimalLength(n: nat, k: nat)
    requires n < Pow256(k)
    ensures |Minimal(n)| <= k
  {
    if n != 0 {
      MinimalLength(n / 256, k - 1);
    }
  }

  lemma {:induction false} MinimalUnique(b: Bytes)
    requires b == [] || b[0] != 0
    ensures Minimal(BigEndian(b)) == b
  {
    if b != [] {
      var front, last := b[..|b| - 1], b[|b| - 1];
      MinimalUnique(front);
      if front == [] {
        assert BigEndian(front) == 0;
      }
      assert BigEndian(b) / 256 == BigEndian(front) && BigEndian(b) % 256 == last;
      assert BigEndian(b) != 0 by {
        if front != [] {
          assert Minimal(BigEndian(front)) == front;
        }
      }
      assert b == front + [last];
    }
  }

  lemma {:induction false} BigEndianBound(b: Bytes)
    ensures BigEndian(b) < Pow256(|b|)
  {
    if b != [] {
      BigEndianBound(b[..|b| - 1]);
    }
  }

  lemma ShiftSum(high: nat, p: nat, low: nat, digit: nat)
    ensures (high * p + low) * 256 + digit == high * (256 * p) + (low * 256 + digit)
  {
  }

  lemma {:induction false} BigEndianConcat(a: Bytes, b: Bytes)
    ensures BigEndian(a + b) == BigEndian(a) * Pow256(|b|) + BigEndian(b)
  {
    if b == [] {
      assert a + b == a;
    } else {
      var front := b[..|b| - 1];
      BigEndianConcat(a, front);
      assert (a + b)[..|a + b| - 1] == a + front;
      ShiftSum(BigEndian(a), Pow256(|front|), BigEndian(front), b[|b| - 1]);
    }
  }

  function Zeros(n: nat): (z: Bytes)
    ensures |z| == n && forall i :: 0 <= i < n ==> z[i] == 0
  {
    seq(n, i => 0)
  }

  lemma {:induction false} BigEndianZeros(n: nat)
    ensures BigEndian(Zeros(n)) == 0
  {
    if n != 0 {
      assert Zeros(n)[..n - 1] == Zeros(n - 1);
      BigEndianZeros(n - 1);
    }
  }

  /** How many leading zero bytes a string has. */
  function LeadingZeros(b: Bytes): (n: nat)
    ensures n <= |b|
    ensures b[..n] == Zeros(n)
    ensures n < |b| ==> b[n] != 0
  {
    if b == [] || b[0] != 0 then 0
    else
      var n := 1 + LeadingZeros(b[1..]);
      assert b[..n] == [b[0]] + b[1..][..n - 1];
      n
  }

  lemma StrippedDenotes(b: Bytes)
    ensures BigEndian(b[LeadingZeros(b)..]) == BigEndian(b)
  {
    var n := LeadingZeros(b);
    assert b == Zeros(n) + b[n..];
    BigEndianConcat(Zeros(n), b[n..]);
    BigEndianZeros(n);
  }

  /** The value of the last eight bytes: what a u64 keeps of a longer big-endian word. */
  function U64Of(b: Bytes): (v: nat)
    ensures v < TWO_TO_64
  {
    BigEndian(b) % TWO_TO_64
  }

  lemma Pow256Eight()
    ensures Pow256(8) == TWO_TO_64
  {
    assert Pow256(4) == 0x1_0000_0000;
    assert Pow256(6) == 0x1_0000_0000_0000;
  }

  lemma LastEightBytes(b: Bytes)
    requires |b| >= 8
    ensures BigEndian(b[|b| - 8..]) == U64Of(b)
  {
    var hi, lo := b[..|b| - 8], b[|b| - 8..];
    assert b == hi + lo;
    BigEndianConcat(hi, lo);
    BigEndianBound(lo);
    Pow256Eight();
    RemainderOf(BigEndian(hi), BigEndian(lo));
  }

  lemma RemainderOf(high: nat, low: nat)
    requires low < TWO_TO_64
    ensures (high * TWO_TO_64 + low) % TWO_TO_64 == low
  {
  }

  /** Zero-padding on the left leaves the number unchanged. */
  lemma PaddedDenotes(n: nat, b: Bytes)
    ensures BigEndian(Zeros(n) + b) == BigEndian(b)
  {
    BigEndianConcat(Zeros(n), b);
    BigEndianZeros(n);
  }

  /** The eight-byte window be_bytes_to_u64 reads: the last bytes, right-aligned. */
  function RightAligned(b: Bytes): (w: Bytes)
    ensures |w| == 8
  {
    if |b| < 8 then Zeros(8 - |b|) + b else b[|b| - 8..]
  }

  lemma SmallValueFits(n: nat)
    requires n < TWO_TO_64
    ensures n % TWO_TO_64 == n
  {
  }

  lemma EightBytesFit(b: Bytes)
    requires |b| == 8
    ensures BigEndian(b) < TWO_TO_64 && U64Of(b) == BigEndian(b)
  {
    BigEndianBound(b);
    Pow256Eight();
    SmallValueFits(BigEndian(b));
  }

  lemma ShortBytesFit(b: Bytes)
    requires |b| < 8
    ensures U64Of(b) == BigEndian(b) == BigEndian(Zeros(8 - |b|) + b)
  {
    PaddedDenotes(8 - |b|, b);
    EightBytesFit(Zeros(8 - |b|) + b);
    SmallValueFits(BigEndian(b));
  }

  lemma RightAlignedDenotes(b: Bytes)
    ensures BigEndian(RightAligned(b)) == U64Of(b)
    ensures |b| <= 8 ==> U64Of(b) == BigEndian(b)
  {
    if |b| < 8 {
      ShortBytesFit(b);
    } else {
      LastEightBytes(b);
      if |b| == 8 {
        EightBytesFit(b);
      }
    }
  }

  /** Copies the last eight bytes, right-aligned, into a zeroed buffer. */
  method FillBuffer(b: Bytes) returns (buf: array<Byte>)
    ensures fresh(buf) && buf.Length == 8 && buf[..] == RightAligned(b)
  {
    buf := new Byte[8](_ => 0);
    var n := if |b| < 8 then |b| else 8;
    for i := 0 to n
      invariant forall j :: 0 <= j < 8 - n ==> buf[j] == 0
      invariant forall j :: 8 - n <= j < 8 - n + i ==> buf[j] == b[j + |b| - 8]
    {
      buf[8 - n + i] := b[|b| - n + i];
    }
    assert buf[..] == RightAligned(b);
  }

  method FromBeBytes(buf: Bytes) returns (v: nat)
    ensures v == BigEndian(buf)
  {
    v := 0;
    for i := 0 to |buf|
      invariant v == BigEndian(buf[..i])
    {
      assert buf[..i + 1][..i] == buf[..i];
      v := v * 256 + buf[i];
    }
    assert buf[..|buf|] == buf;
  }

  /** Fills the buffer and reads it back as a number: the big-endian value modulo 2^64, whatever the
      length of the input. */
  method BeBytesToU64(b: Bytes) returns (v: nat)
    ensures v == U64Of(b)
    ensures |b| <= 8 ==> v == BigEndian(b)
  {
    var buf := FillBuffer(b);
    v := FromBeBytes(buf[..]);
    RightAlignedDenotes(b);
  }

  /** Removes leading zero bytes one at a time. */
  method StripLeadingZeros(b: Bytes) returns (r: Bytes)
    ensures r == b[LeadingZeros(b)..]
    ensures BigEndian(r) == BigEndian(b)
    ensures r == Minimal(BigEndian(b))
  {
    r := b;
    ghost var dropped := 0;
    while r != [] && r[0] == 0
      invariant 0 <= dropped <= |b| && r == b[dropped..]
      invariant LeadingZeros(b) == dropped + LeadingZeros(r)
      decreases |r|
    {
      r := r[1..];
      dropped := dropped + 1;
    }
    StrippedDenotes(b);
    MinimalUnique(r);
  }

  /** What the host strips from a number, the program reads back: the value modulo 2^64. */
  lemma StripThenRead(b: Bytes)
    ensures U64Of(b[LeadingZeros(b)..]) == U64Of(b)
    ensures b[LeadingZeros(b)..] == Minimal(BigEndian(b))
  {
    StrippedDenotes(b);
    MinimalUnique(b[LeadingZeros(b)..]);
  }
}
