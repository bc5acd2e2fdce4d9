/**
 * Fixed-width unsigned reads over a byte buffer, as the record accessors use
 * them: one byte, or a little-endian u16 or u32 at a byte offset.
 *
 * A read whose bytes do not all lie inside the buffer does not fail: like the
 * reader the decoder is built on, it falls back to the type's default, 0.
 */
module ByteReader {

  type u8 = x: int | 0 <= x < 0x100
  type u16 = x: int | 0 <= x < 0x1_0000
  type u32 = x: int | 0 <= x < 0x1_0000_0000

  /** 256 to the power n: the number of values n bytes can hold. */
  function Pow256(n: nat): (r: nat)
    ensures r >= 1
  {
    if n == 0 then 1 else 0x100 * Pow256(n - 1)
  }

  /** The unsigned value of a little-endian byte string (least significant byte first). */
  function FromLE(s: seq<u8>): (r: nat)
    ensures r < Pow256(|s|)
  {
    if s == [] then 0 else s[0] + 0x100 * FromLE(s[1..])
  }

  /** The n least significant bytes of x, least significant first. */
  function ToLE(x: nat, n: nat): (s: seq<u8>)
    ensures |s| == n
  {
    if n == 0 then [] else [x % 0x100] + ToLE(x / 0x100, n - 1)
  }

  /** Decoding the encoding gives the value back when it fits in n bytes. */
  lemma {:induction false} FromToLE(x: nat, n: nat)
    requires x < Pow256(n)
    ensures FromLE(ToLE(x, n)) == x
  {
    if n > 0 {
      var s := ToLE(x, n);
      assert s[1..] == ToLE(x / 0x100, n - 1);
      assert x / 0x100 < Pow256(n - 1);
      FromToLE(x / 0x100, n - 1);
    }
  }

  /** Encoding a decoded byte string to its own width gives the same bytes back. */
  lemma {:induction false} ToFromLE(s: seq<u8>)
    ensures ToLE(FromLE(s), |s|) == s
  {
    if s != [] {
      var x := FromLE(s);
      var rest := FromLE(s[1..]);
      assert x == s[0] + 0x100 * rest;
      assert x % 0x100 == s[0];
      assert x / 0x100 == rest;
      ToFromLE(s[1..]);
      assert ToLE(x, |s|) == [s[0]] + s[1..];
    }
  }

  /** Little-endian decoding of a concatenation: the first part is the low end. */
  lemma {:induction false} FromLEAppend(a: seq<u8>, b: seq<u8>)
    ensures FromLE(a + b) == FromLE(a) + Pow256(|a|) * FromLE(b)
  {
    if a == [] {
      assert a + b == b;
    } else {
      assert (a + b)[1..] == a[1..] + b;
      FromLEAppend(a[1..], b);
      var lo, p, hi := FromLE(a[1..]), Pow256(|a| - 1), FromLE(b);
      assert FromLE(a + b) == a[0] + 0x100 * (lo + p * hi);
      assert Pow256(|a|) == 0x100 * p;
      ScaleSum(lo, p, hi);
    }
  }

  lemma ScaleSum(lo: nat, p: nat, hi: nat)
    ensures 0x100 * (lo + p * hi) == 0x100 * lo + (0x100 * p) * hi
  {
  }

  /** Two byte strings decode alike exactly when they are equal (same width). */
  lemma FromLEInjective(a: seq<u8>, b: seq<u8>)
    requires |a| == |b|
    ensures FromLE(a) == FromLE(b) <==> a == b
  {
  }

  /** The byte at `offset`, or 0 when `offset` is past the end. */
  function ReadU8(data: seq<u8>, offset: nat): (r: u8)
    ensures offset < |data| ==> r == data[offset]
    ensures offset >= |data| ==> r == 0
  {
    if offset < |data| then data[offset] else 0
  }

  /** A byte read is the one-byte little-endian decoding of that byte. */
  lemma ReadU8IsFromLE(data: seq<u8>, offset: nat)
    requires offset < |data|
    ensures ReadU8(data, offset) == FromLE(data[offset..offset + 1])
  {
    assert data[offset..offset + 1][1..] == [];
  }

  /** The little-endian u16 at `offset`, or 0 when its two bytes do not both fit. */
  function ReadLE16(data: seq<u8>, offset: nat): (r: u16)
    ensures offset + 2 <= |data| ==> r == data[offset] as int + 0x100 * data[offset + 1] as int
    ensures offset + 2 > |data| ==> r == 0
  {
    if offset + 2 <= |data| then
      var s := data[offset..offset + 2];
      assert FromLE(s[1..]) == s[1] + 0x100 * FromLE(s[1..][1..]);
      assert s[1..][1..] == [];
      FromLE(s)
    else
      0
  }

  /** The little-endian u32 at `offset`, or 0 when its four bytes do not all fit. */
  function ReadLE32(data: seq<u8>, offset: nat): (r: u32)
    ensures offset + 4 <= |data| ==>
      r == data[offset] as int + 0x100 * data[offset + 1] as int
           + 0x1_0000 * data[offset + 2] as int + 0x100_0000 * data[offset + 3] as int
    ensures offset + 4 > |data| ==> r == 0
  {
    if offset + 4 <= |data| then
      var s := data[offset..offset + 4];
      assert FromLE(s[1..]) == s[1] + 0x100 * FromLE(s[1..][1..]);
      assert FromLE(s[1..][1..]) == s[2] + 0x100 * FromLE(s[1..][1..][1..]);
      assert FromLE(s[1..][1..][1..]) == s[3] + 0x100 * FromLE(s[1..][1..][1..][1..]);
      assert s[1..][1..][1..][1..] == [];
      assert Pow256(4) == 0x1_0000_0000;
      FromLE(s)
    else
      0
  }

  /** A u16 read is the byte read at `offset` plus 0x100 times the byte read after it. */
  lemma ReadLE16Bytes(data: seq<u8>, offset: nat)
    requires offset + 2 <= |data|
    ensures ReadLE16(data, offset) == ReadU8(data, offset) + 0x100 * ReadU8(data, offset + 1)
  {
  }

  /** A u32 read is its low u16 plus 0x10000 times its high u16. */
  lemma ReadLE32Halves(data: seq<u8>, offset: nat)
    requires offset + 4 <= |data|
    ensures ReadLE32(data, offset) == ReadLE16(data, offset) + 0x1_0000 * ReadLE16(data, offset + 2)
  {
  }

  /** A read depends on its own bytes only: buffers agreeing there read alike. */
  lemma ReadLE16Frame(a: seq<u8>, b: seq<u8>, offset: nat)
    requires offset + 2 <= |a| && offset + 2 <= |b|
    requires a[offset] == b[offset] && a[offset + 1] == b[offset + 1]
    ensures ReadLE16(a, offset) == ReadLE16(b, offset)
  {
  }
}
