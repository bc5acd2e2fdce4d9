/**
 * The encrypted record and its decrypted plaintext that the decoder's unit
 * tests use, and the field values those tests read from it.
 *
 * Decryption itself is not modelled, so every fact about the decoded record
 * is stated for any decryption routine that maps this record, under its seed,
 * to this plaintext, as the decryption test asserts.
 */
module Pk6Fixture {
  import opened ByteReader
  import opened Pk6Record

  /** Eight consecutive bytes of a record. */
  type Row = s: seq<u8> | |s| == 8
    witness [0, 0, 0, 0, 0, 0, 0, 0]

  /** The row holding b0..b7 in that order. */
  function Row8(b0: u8, b1: u8, b2: u8, b3: u8, b4: u8, b5: u8, b6: u8, b7: u8): Row
  {
    [b0, b1, b2, b3, b4, b5, b6, b7]
  }

  /** A record given as its 29 rows of eight bytes, first row first. */
  function FromRows(rows: seq<Row>): (r: Pk6Bytes)
    requires |rows| == STORED_SIZE / 8
    ensures forall i :: 0 <= i < STORED_SIZE ==> r[i] == rows[i / 8][i % 8]
  {
    seq(STORED_SIZE, i requires 0 <= i < STORED_SIZE => rows[i / 8][i % 8])
  }

  /** The stored (encrypted) test record, eight bytes per row. */
  const TestEkxRows: seq<Row> := [
    Row8(0x80, 0x5c, 0x86, 0x02, 0x00, 0x00, 0xd6, 0x41),
    Row8(0x20, 0x0e, 0x56, 0x4f, 0xaa, 0xf1, 0xf4, 0x2f),
    Row8(0xa5, 0x9e, 0xcc, 0xfe, 0x8b, 0xf2, 0x32, 0x20),
    Row8(0x51, 0xd1, 0x99, 0xdd, 0x42, 0xd2, 0x55, 0xe5),
    Row8(0x05, 0x1f, 0x85, 0x2a, 0x62, 0xe2, 0x2a, 0x14),
    Row8(0x5a, 0x21, 0x96, 0xdb, 0x76, 0x2e, 0xd6, 0x4e),
    Row8(0x72, 0xa0, 0x72, 0x08, 0xa0, 0x2b, 0x59, 0x35),
    Row8(0xf9, 0x56, 0xba, 0xc6, 0x92, 0x55, 0x0c, 0x01),
    Row8(0xf9, 0x2b, 0xdb, 0x58, 0xbd, 0x84, 0x5a, 0xc9),
    Row8(0x94, 0x77, 0x96, 0x72, 0x1d, 0x5b, 0x13, 0xd1),
    Row8(0x8a, 0x7b, 0x7e, 0x07, 0x93, 0xec, 0xe2, 0x81),
    Row8(0x08, 0x4b, 0x13, 0xfa, 0xda, 0x5f, 0x4a, 0x6c),
    Row8(0x0a, 0xcb, 0x50, 0x90, 0xb9, 0x48, 0x37, 0x99),
    Row8(0x68, 0x9b, 0x51, 0xe9, 0xe7, 0x1b, 0xfe, 0x80),
    Row8(0xcb, 0x56, 0xad, 0x23, 0xb8, 0x56, 0x50, 0x60),
    Row8(0x47, 0xf4, 0x59, 0x27, 0xee, 0x49, 0xb3, 0x76),
    Row8(0xcb, 0xa7, 0xef, 0x77, 0xe7, 0x59, 0xdb, 0xd8),
    Row8(0xe9, 0x1e, 0x4e, 0xe9, 0xf5, 0xa9, 0xf3, 0xb7),
    Row8(0x77, 0x93, 0x7c, 0x45, 0x86, 0x5e, 0xef, 0x41),
    Row8(0x3f, 0x0d, 0xb1, 0xb6, 0x66, 0xf2, 0xd8, 0x86),
    Row8(0x98, 0x64, 0xf2, 0xf2, 0x7f, 0x4b, 0x86, 0xf6),
    Row8(0x46, 0xda, 0x44, 0x7f, 0xec, 0x75, 0x34, 0xd4),
    Row8(0xcd, 0x58, 0x4b, 0x7a, 0x33, 0x21, 0x3e, 0xdf),
    Row8(0x68, 0xb1, 0xe9, 0xbd, 0x55, 0x11, 0x91, 0x28),
    Row8(0x53, 0x6e, 0xfb, 0x5a, 0xc1, 0xcf, 0x38, 0x72),
    Row8(0xec, 0x04, 0xd1, 0xac, 0xe1, 0x8c, 0x5a, 0x51),
    Row8(0x30, 0xb4, 0x8b, 0xa4, 0xec, 0x45, 0xbc, 0x43),
    Row8(0x6d, 0x14, 0xb8, 0x8e, 0x93, 0x80, 0x91, 0x1e),
    Row8(0x91, 0xca, 0x14, 0xb7, 0xdf, 0xf2, 0xb3, 0x26)
  ]

  /** The plaintext the test record decrypts to, eight bytes per row. */
  const DecryptedRows: seq<Row> := [
    Row8(0x80, 0x5c, 0x86, 0x02, 0x00, 0x00, 0xd6, 0x41),
    Row8(0x84, 0x00, 0x18, 0x01, 0x56, 0xf6, 0x42, 0xc8),
    Row8(0x40, 0x42, 0x0f, 0x00, 0x96, 0x04, 0x00, 0x00),
    Row8(0x23, 0x0f, 0x37, 0x31, 0x03, 0x04, 0xfc, 0x00),
    Row8(0x06, 0xfc, 0x00, 0x00, 0x00, 0x00, 0x00, 0x00),
    Row8(0x00, 0x00, 0x3f, 0x31, 0x00, 0x00, 0x00, 0x00),
    Row8(0x00, 0x00, 0x00, 0x00, 0x00, 0x00, 0x00, 0x00),
    Row8(0x00, 0x00, 0x00, 0x00, 0x00, 0x00, 0x00, 0x00),
    Row8(0x41, 0x00, 0x64, 0x00, 0x61, 0x00, 0x6d, 0x00),
    Row8(0x61, 0x00, 0x6e, 0x00, 0x74, 0x00, 0x20, 0x00),
    Row8(0x36, 0x00, 0x49, 0x00, 0x56, 0x00, 0x73, 0x00),
    Row8(0x00, 0x00, 0x90, 0x00, 0x00, 0x00, 0x00, 0x00),
    Row8(0x00, 0x00, 0x10, 0x00, 0x00, 0x00, 0x03, 0x00),
    Row8(0x00, 0x00, 0x00, 0x00, 0x00, 0x00, 0x00, 0x00),
    Row8(0x00, 0x00, 0x00, 0x00, 0xff, 0xff, 0xff, 0xbf),
    Row8(0x45, 0x00, 0x56, 0x00, 0x92, 0xe0, 0x00, 0x00),
    Row8(0x00, 0x00, 0x00, 0x00, 0x00, 0x00, 0x00, 0x00),
    Row8(0x00, 0x00, 0x00, 0x00, 0x00, 0x00, 0x00, 0x00),
    Row8(0x00, 0x00, 0x00, 0x01, 0x2c, 0x31, 0x0a, 0x12),
    Row8(0x2c, 0x31, 0x10, 0x31, 0x00, 0x31, 0x00, 0x00),
    Row8(0x00, 0x00, 0x46, 0x00, 0x03, 0x04, 0x00, 0x00),
    Row8(0x09, 0x00, 0x00, 0x00, 0x00, 0x00, 0x00, 0x00),
    Row8(0x44, 0x00, 0x69, 0x00, 0x74, 0x00, 0x74, 0x00),
    Row8(0x6f, 0x00, 0x20, 0x00, 0x69, 0x00, 0x73, 0x00),
    Row8(0x20, 0x00, 0x92, 0xe0, 0x00, 0x00, 0x00, 0x00),
    Row8(0x00, 0x00, 0x46, 0x03, 0x07, 0x0f, 0x97, 0x00),
    Row8(0x02, 0x00, 0x00, 0x00, 0x0c, 0x0c, 0x19, 0x00),
    Row8(0x00, 0x00, 0x94, 0x00, 0x0b, 0x1e, 0x00, 0x18),
    Row8(0x12, 0x0a, 0x01, 0x03, 0x00, 0x00, 0x00, 0x00)
  ]

  /** The stored (encrypted) test record. */
  const TestEkx: Pk6Bytes := FromRows(TestEkxRows)

  /** The plaintext the test record decrypts to. */
  const Decrypted: Pk6Bytes := FromRows(DecryptedRows)

  /** The decryption test: this routine turns the test record into its plaintext. */
  predicate DecryptsFixture(decrypt: Decryptor) {
    decrypt(TestEkx, 0x02865c80) == Decrypted
  }

  /** The decoded test record, for a routine that passes the decryption test. */
  function Decoded(decrypt: Decryptor): (p: Pk6)
    requires DecryptsFixture(decrypt)
    ensures p.data == Decrypted
  {
    FixtureSeed();
    New(TestEkx, decrypt)
  }

  /** The seed of the test record is 0x02865c80. */
  lemma FixtureSeed()
    ensures Seed(TestEkx) == 0x02865c80
  {
  }

  /**
   * The first eight bytes are the same before and after decryption, so the
   * decoded encryption constant is the seed decryption was given.
   */
  lemma FixtureEncryptionConstant(decrypt: Decryptor)
    requires DecryptsFixture(decrypt)
    ensures TestEkx[..8] == Decrypted[..8]
    ensures EncryptionConstant(Decoded(decrypt)) == Seed(TestEkx) == 0x02865c80
  {
  }

  /** Species, trainer id, secret id and personality value of the test record. */
  lemma FixtureIdentity(decrypt: Decryptor)
    requires DecryptsFixture(decrypt)
    ensures Species(Decoded(decrypt)) == 132
    ensures Tid(Decoded(decrypt)) == 63062
    ensures Sid(Decoded(decrypt)) == 51266
    ensures Pid(Decoded(decrypt)) == 0x31370F23
  {
  }

  /** The nature of the test record. */
  lemma FixtureNature(decrypt: Decryptor)
    requires DecryptsFixture(decrypt)
    ensures Nature(Decoded(decrypt)) == 3
  {
  }

  /** Ability id and ability slot of the test record. */
  lemma FixtureAbility(decrypt: Decryptor)
    requires DecryptsFixture(decrypt)
    ensures Ability(Decoded(decrypt)) == 150
    ensures AbilityNumber(Decoded(decrypt)) == 4
  {
  }

  /** Language and gender of the test record. */
  lemma FixtureLanguageGender(decrypt: Decryptor)
    requires DecryptsFixture(decrypt)
    ensures Language(Decoded(decrypt)) == 3
    ensures Gender(Decoded(decrypt)) == 2
  {
  }

  /** The effort values of the test record. */
  lemma FixtureEvs(decrypt: Decryptor)
    requires DecryptsFixture(decrypt)
    ensures Evs(Decoded(decrypt)) == Stats(hp := 252, atk := 0, def := 6, spa := 252, spd := 0, spe := 0)
  {
  }

  /** The moves of the test record: only the first slot is filled. */
  lemma FixtureMoves(decrypt: Decryptor)
    requires DecryptsFixture(decrypt)
    ensures Move1(Decoded(decrypt)) == 144
    ensures Move2(Decoded(decrypt)) == 0
    ensures Move3(Decoded(decrypt)) == 0
    ensures Move4(Decoded(decrypt)) == 0
  {
  }

  /** The packed individual-value word of the test record: its low 30 bits are all set. */
  lemma FixtureIv32(decrypt: Decryptor)
    requires DecryptsFixture(decrypt)
    ensures Iv32(Decoded(decrypt)) == 0xBFFF_FFFF
    ensures Iv32(Decoded(decrypt)) % 0x4000_0000 == 0x3FFF_FFFF
  {
  }

  /** What the two friendship accessors read from the test record, four bytes each. */
  lemma FixtureFriendship(decrypt: Decryptor)
    requires DecryptsFixture(decrypt)
    ensures HtFriendship(Decoded(decrypt)) == 0x0403_0046
    ensures OtFriendship(Decoded(decrypt)) == 0x0F07_0346
  {
  }
}
