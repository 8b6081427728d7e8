/** Hex-prefix paths (Appendix C of the Ethereum Yellow Paper) and the program's decoder for them. */
module HexPrefix {
  import opened ByteStrings
  import opened Options

  function NibblesOf(b: Bytes): (n: Nibbles)
    ensures |n| == 2 * |b|
  {
    if b == [] then [] else [b[0] / 16, b[0] % 16] + NibblesOf(b[1..])
  }

  lemma {:induction false} NibblesOfConcat(a: Bytes, b: Bytes)
    ensures NibblesOf(a + b) == NibblesOf(a) + NibblesOf(b)
  {
    if a == [] {
      assert a + b == b;
    } else {
      var (front, rest) := ([a[0] / 16, a[0] % 16], a[1..]);
      NibblesOfConcat(rest, b);
      assert (a + b)[1..] == rest + b;
      assert NibblesOf(a + b) == front + NibblesOf(rest + b);
      assert NibblesOf(a) == front + NibblesOf(rest);
    }
  }

  /** Pushes the high then the low half of every byte. */
  method SplitIntoNibbles(b: Bytes) returns (out: Nibbles)
    ensures out == NibblesOf(b)
  {
    out := [];
    for i := 0 to |b|
      invariant out == NibblesOf(b[..i])
    {
      assert b[..i + 1] == b[..i] + [b[i]];
      NibblesOfConcat(b[..i], [b[i]]);
      out := out + [b[i] / 16];
      out := out + [b[i] % 16];
    }
    assert b[..|b|] == b;
  }

  function Pack(n: Nibbles): (b: Bytes)
    requires |n| % 2 == 0
    ensures |b| == |n| / 2
  {
    if n == [] then [] else [n[0] as int * 16 + n[1] as int] + Pack(n[2..])
  }

  lemma {:induction false} NibblesOfPacked(n: Nibbles)
    requires |n| % 2 == 0
    ensures NibblesOf(Pack(n)) == n
  {
    if n != [] {
      NibblesOfPacked(n[2..]);
      assert n == [n[0], n[1]] + n[2..];
    }
  }

  /** HP(path, leaf): a flag nibble (2 for a leaf, plus 1 for an odd path), padding when even, the path. */
  function EncodePath(path: Nibbles, leaf: bool): (e: Bytes)
    ensures e != []
  {
    var flag: Nibble := if leaf then 2 else 0;
    if |path| % 2 == 1 then Pack([flag + 1] + path) else Pack([flag, 0] + path)
  }

  /** (is_leaf, path); None is the out-of-bounds panic on an empty string. */
  function DecodePath(encoded: Bytes): Option<(bool, Nibbles)> {
    var nibbles := NibblesOf(encoded);
    if nibbles == [] then None
    else
      var flag := nibbles[0];
      var isLeaf := flag == 2 || flag == 3;
      var odd := flag == 1 || flag == 3;
      Some((isLeaf, if odd then nibbles[1..] else nibbles[2..]))
  }

  /** Decoding undoes encoding for odd and even, leaf and extension paths alike. */
  lemma PathRoundTrip(path: Nibbles, leaf: bool)
    ensures DecodePath(EncodePath(path, leaf)) == Some((leaf, path))
  {
    var flag: Nibble := if leaf then 2 else 0;
    if |path| % 2 == 1 {
      NibblesOfPacked([flag + 1] + path);
    } else {
      NibblesOfPacked([flag, 0] + path);
    }
  }
}
