/**
 * The generation-6 record decoder: a 232-byte stored record is decrypted once,
 * with the seed held in its first four bytes, and every field is then a read
 * at a fixed byte offset of the 232-byte plaintext.
 *
 * The decryption routine is not part of this model. It is a parameter of type
 * `Decryptor`, whose only promise is the one its signature makes: it maps a
 * 232-byte record and a 32-bit seed to a 232-byte record.
 */
module Pk6Record {
  import opened ByteReader

  /** Size in bytes of a stored record. */
  const STORED_SIZE: nat := 232
  /** Size in bytes of one of the shuffled blocks; passed on to the decryption routine. */
  const BLOCK_SIZE: nat := 56

  /** A record-sized byte array. */
  type Pk6Bytes = s: seq<u8> | |s| == STORED_SIZE
    witness seq(STORED_SIZE, _ => 0)

  /** Decryption of a whole record under a seed, record size in, record size out. */
  type Decryptor = (Pk6Bytes, u32) -> Pk6Bytes

  /** A decoded record: the decrypted plaintext, never changed after construction. */
  datatype Pk6 = Pk6(data: Pk6Bytes)

  /** The raw record wrapper that byte-level loaders fill in. */
  datatype Pk6Data = Pk6Data(bytes: Pk6Bytes)

  /** The six per-stat values, in the game's stat order. */
  datatype Stats = Stats(hp: u8, atk: u8, def: u8, spa: u8, spd: u8, spe: u8)

  /** The seed of a stored record: the little-endian u32 in its bytes 0..4. */
  function Seed(raw: Pk6Bytes): (seed: u32)
    ensures seed == raw[0] as int + 0x100 * raw[1] as int
                    + 0x1_0000 * raw[2] as int + 0x100_0000 * raw[3] as int
  {
    ReadLE32(raw[0..4], 0)
  }

  /** Decodes a stored record: decrypts it with the seed read from its first four bytes. */
  function New(raw: Pk6Bytes, decrypt: Decryptor): (p: Pk6)
    ensures p.data == decrypt(raw, raw[0] as int + 0x100 * raw[1] as int
                                   + 0x1_0000 * raw[2] as int + 0x100_0000 * raw[3] as int)
  {
    Pk6(decrypt(raw, Seed(raw)))
  }

  /** Converting the raw wrapper decodes the 232 bytes it holds. */
  function FromData(d: Pk6Data, decrypt: Decryptor): (p: Pk6)
    ensures p.data == decrypt(d.bytes, Seed(d.bytes))
  {
    New(d.bytes, decrypt)
  }

  /** The default raw wrapper: 232 zero bytes (the length is carried by `Pk6Bytes`). */
  function DefaultData(): (d: Pk6Data)
    ensures forall i :: 0 <= i < |d.bytes| ==> d.bytes[i] == 0
  {
    Pk6Data(seq(STORED_SIZE, _ => 0))
  }

  /** The default record is decrypted with seed 0. */
  lemma DefaultDataSeed(decrypt: Decryptor)
    ensures Seed(DefaultData().bytes) == 0
    ensures FromData(DefaultData(), decrypt).data == decrypt(DefaultData().bytes, 0)
  {
  }

  /**
   * Decoding keeps the record size: the plaintext is as long as the stored
   * record. Both lengths are carried by `Pk6Bytes`, as the array type carries
   * them in the source; the lemma spells the fact out.
   */
  lemma SizePreserved(raw: Pk6Bytes, decrypt: Decryptor)
    ensures |New(raw, decrypt).data| == |raw| == STORED_SIZE
  {
  }

  // Field accessors. Each is one read at a fixed offset of the plaintext.

  /** The encryption constant: little-endian u32 at 0x00. */
  function EncryptionConstant(p: Pk6): (r: u32)
    ensures r == p.data[0x00] as int + 0x100 * p.data[0x01] as int
                 + 0x1_0000 * p.data[0x02] as int + 0x100_0000 * p.data[0x03] as int
  {
    ReadLE32(p.data, 0x00)
  }

  /** The species id: little-endian u16 at 0x08. */
  function Species(p: Pk6): (r: u16)
    ensures r == p.data[0x08] as int + 0x100 * p.data[0x09] as int
  {
    ReadLE16(p.data, 0x08)
  }

  /** The trainer id: little-endian u16 at 0x0C. */
  function Tid(p: Pk6): (r: u16)
    ensures r == p.data[0x0C] as int + 0x100 * p.data[0x0D] as int
  {
    ReadLE16(p.data, 0x0C)
  }

  /** The secret id: little-endian u16 at 0x0E. */
  function Sid(p: Pk6): (r: u16)
    ensures r == p.data[0x0E] as int + 0x100 * p.data[0x0F] as int
  {
    ReadLE16(p.data, 0x0E)
  }

  /** The ability id: the single byte at 0x14, widened to u16. */
  function Ability(p: Pk6): (r: u16)
    ensures r == p.data[0x14]
    ensures r < 0x100
  {
    ReadU8(p.data, 0x14)
  }

  /** The ability slot: the byte at 0x15. */
  function AbilityNumber(p: Pk6): (r: u8)
    ensures r == p.data[0x15]
  {
    ReadU8(p.data, 0x15)
  }

  /** The personality value: little-endian u32 at 0x18. */
  function Pid(p: Pk6): (r: u32)
    ensures r == p.data[0x18] as int + 0x100 * p.data[0x19] as int
                 + 0x1_0000 * p.data[0x1A] as int + 0x100_0000 * p.data[0x1B] as int
  {
    ReadLE32(p.data, 0x18)
  }

  /** The nature id: the byte at 0x1C. */
  function Nature(p: Pk6): (r: u8)
    ensures r == p.data[0x1C]
  {
    ReadU8(p.data, 0x1C)
  }

  /**
   * Bits 1 and 2 of a byte, as a number 0..3: `(b >> 1) & 3`. On an unsigned
   * byte the shift is halving (rounding down) and the mask is the remainder mod 4.
   */
  function GenderBits(b: u8): (r: u8)
    ensures r < 4
  {
    (b / 2) % 4
  }

  /**
   * Only bits 1 and 2 count: a byte with bit 0 `lo`, bits 1-2 `g` and bits 3-7
   * `hi` has gender bits `g`, whatever `lo` and `hi` are.
   */
  lemma GenderBitsOfFields(hi: nat, g: nat, lo: nat)
    requires hi < 32 && g < 4 && lo < 2
    ensures GenderBits(8 * hi + 2 * g + lo) == g
  {
  }

  /** Flipping bit 0 or any of bits 3 to 7 never changes the gender bits. */
  lemma GenderBitsIgnoreOtherBits(b: u8, c: u8)
    requires b % 8 / 2 == c % 8 / 2
    ensures GenderBits(b) == GenderBits(c)
  {
  }

  /** The gender: bits 1 and 2 of the byte at 0x1D. */
  function Gender(p: Pk6): (r: u8)
    ensures r < 4
    ensures r == p.data[0x1D] % 8 / 2
  {
    GenderBitsOfFields(p.data[0x1D] / 8, p.data[0x1D] % 8 / 2, p.data[0x1D] % 2);
    GenderBits(ReadU8(p.data, 0x1D))
  }

  /** The effort values: one byte each at 0x1E..0x23, hp first and spe last. */
  function Evs(p: Pk6): (r: Stats)
    ensures [r.hp, r.atk, r.def, r.spa, r.spd, r.spe] == p.data[0x1E..0x24]
  {
    Stats(
      hp := ReadU8(p.data, 0x1E),
      atk := ReadU8(p.data, 0x1F),
      def := ReadU8(p.data, 0x20),
      spa := ReadU8(p.data, 0x21),
      spd := ReadU8(p.data, 0x22),
      spe := ReadU8(p.data, 0x23))
  }

  /** The first move id: little-endian u16 at 0x5A. */
  function Move1(p: Pk6): (r: u16)
    ensures r == p.data[0x5A] as int + 0x100 * p.data[0x5B] as int
  {
    ReadLE16(p.data, 0x5A)
  }

  /** The second move id: little-endian u16 at 0x5C. */
  function Move2(p: Pk6): (r: u16)
    ensures r == p.data[0x5C] as int + 0x100 * p.data[0x5D] as int
  {
    ReadLE16(p.data, 0x5C)
  }

  /** The third move id: little-endian u16 at 0x5E. */
  function Move3(p: Pk6): (r: u16)
    ensures r == p.data[0x5E] as int + 0x100 * p.data[0x5F] as int
  {
    ReadLE16(p.data, 0x5E)
  }

  /** The fourth move id: little-endian u16 at 0x60. */
  function Move4(p: Pk6): (r: u16)
    ensures r == p.data[0x60] as int + 0x100 * p.data[0x61] as int
  {
    ReadLE16(p.data, 0x60)
  }

  /** The packed individual-value word: little-endian u32 at 0x74. */
  function Iv32(p: Pk6): (r: u32)
    ensures r == p.data[0x74] as int + 0x100 * p.data[0x75] as int
                 + 0x1_0000 * p.data[0x76] as int + 0x100_0000 * p.data[0x77] as int
  {
    ReadLE32(p.data, 0x74)
  }

  /** The handling trainer's friendship, read as a u32 at 0xA2 (bytes 0xA2..0xA5). */
  function HtFriendship(p: Pk6): (r: u32)
    ensures r == p.data[0xA2] as int + 0x100 * p.data[0xA3] as int
                 + 0x1_0000 * p.data[0xA4] as int + 0x100_0000 * p.data[0xA5] as int
  {
    ReadLE32(p.data, 0xA2)
  }

  /** The original trainer's friendship, read as a u32 at 0xCA (bytes 0xCA..0xCD). */
  function OtFriendship(p: Pk6): (r: u32)
    ensures r == p.data[0xCA] as int + 0x100 * p.data[0xCB] as int
                 + 0x1_0000 * p.data[0xCC] as int + 0x100_0000 * p.data[0xCD] as int
  {
    ReadLE32(p.data, 0xCA)
  }

  /** The language id: the byte at 0xE3, the highest offset any accessor reads. */
  function Language(p: Pk6): (r: u8)
    ensures r == p.data[0xE3]
  {
    ReadU8(p.data, 0xE3)
  }

  // Properties relating several accessors or several records.

  /**
   * When decryption leaves the first four bytes as they were (they hold the
   * seed), the decoded encryption constant is the seed decryption was given.
   */
  lemma EncryptionConstantIsSeed(raw: Pk6Bytes, decrypt: Decryptor)
    requires decrypt(raw, Seed(raw))[..4] == raw[..4]
    ensures EncryptionConstant(New(raw, decrypt)) == Seed(raw)
  {
  }

  /** The personality value's low and high halves are the u16s at 0x18 and 0x1A. */
  lemma PidHalves(p: Pk6)
    ensures Pid(p) == ReadLE16(p.data, 0x18) + 0x1_0000 * ReadLE16(p.data, 0x1A)
    ensures Pid(p) % 0x1_0000 == ReadLE16(p.data, 0x18)
    ensures Pid(p) / 0x1_0000 == ReadLE16(p.data, 0x1A)
  {
  }

  /** Two records that agree on one move's two bytes have the same move there. */
  lemma MovesIndependent(p: Pk6, q: Pk6)
    ensures p.data[0x5A..0x5C] == q.data[0x5A..0x5C] ==> Move1(p) == Move1(q)
    ensures p.data[0x5C..0x5E] == q.data[0x5C..0x5E] ==> Move2(p) == Move2(q)
    ensures p.data[0x5E..0x60] == q.data[0x5E..0x60] ==> Move3(p) == Move3(q)
    ensures p.data[0x60..0x62] == q.data[0x60..0x62] ==> Move4(p) == Move4(q)
  {
  }

  /** Overwriting one move's two bytes leaves the other three moves as they were. */
  lemma MovesDisjoint(p: Pk6, a: u8, b: u8)
    ensures var q := Pk6(p.data[0x5A := a][0x5B := b]);
      Move2(q) == Move2(p) && Move3(q) == Move3(p) && Move4(q) == Move4(p)
    ensures var q := Pk6(p.data[0x5C := a][0x5D := b]);
      Move1(q) == Move1(p) && Move3(q) == Move3(p) && Move4(q) == Move4(p)
    ensures var q := Pk6(p.data[0x5E := a][0x5F := b]);
      Move1(q) == Move1(p) && Move2(q) == Move2(p) && Move4(q) == Move4(p)
    ensures var q := Pk6(p.data[0x60 := a][0x61 := b]);
      Move1(q) == Move1(p) && Move2(q) == Move2(p) && Move3(q) == Move3(p)
  {
  }
}
