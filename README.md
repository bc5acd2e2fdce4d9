# Generation-6 creature record decoder (`Pk6`)

This project models the decoder for generation-6 creature records in `pkm-rs`.
A stored record is 232 bytes. The seed is the little-endian u32 in the
record's first four bytes. The decoder passes the record and that seed to the
decryption routine and keeps the 232-byte plaintext it gets back. Every field
is then one read at a fixed byte offset of that plaintext: a single byte, or a
little-endian u16 or u32. The gender is a 2-bit field, and the effort values
are six consecutive bytes.

The model has three modules:

- `ByteReader` (`byte_reader.dfy`): the 1-, 2- and 4-byte reads the accessors
  use. A read whose bytes do not all fit in the buffer falls back to 0, as the
  reader in the source does. Little-endian decoding (`FromLE`) has an inverse
  (`ToLE`), and the round trips are proved in both directions.
- `Pk6Record` (`pk6_record.dfy`): the constants `STORED_SIZE` and `BLOCK_SIZE`,
  the record type, construction with the seed hand-off, the raw `Pk6Data`
  wrapper with its default and its conversion, and one function per accessor.
  Each accessor's contract names the exact bytes it reads and how they combine.
  So every accessor's bytes lie inside the 232-byte plaintext, and no read can
  fall back to 0. Language at 0xE3 is the highest offset read. The u32 reads at
  0x74, 0xA2 and 0xCA end by 0xCE.
- `Pk6Fixture` (`pk6_fixture.dfy`): the encrypted test record, its plaintext,
  and the field values read from it.

The decryption routine (`poke_crypto::decrypt`) is not part of this model. It
is a parameter of type `Decryptor = (Pk6Bytes, u32) -> Pk6Bytes`. Its type
carries its one promise here: a 232-byte record in, a 232-byte record out.
The fixture facts hold for every routine that passes the source's decryption
test, that is, one that maps the test record under seed 0x02865c80 to the
listed plaintext.

Where the code and its tests or design notes disagree, the model follows the code:

- The code reads each friendship counter as a four-byte u32 at 0xA2 and 0xCA
  (`default_read` into a `u32`). On the test record these reads give
  0x04030046 and 0x0F070346. The source's two friendship tests expect 0.
  The model keeps the code's reads.
- `default_read` of a type wider than one byte is a native-endian read: it
  follows the byte order of the machine that runs the decoder. The model reads
  such fields as on a little-endian machine (see "## Left out").
- `types::Stats` is not part of this model. Its fields are taken to be single
  bytes, because the tested effort values {252, 0, 6, 252, 0, 0} come out of
  the plaintext only with one-byte reads.

## Model

| member | source | states |
|---|---|---|
| `ByteReader.FromLE` | src/pkm/pk6.rs:17-18 | A little-endian byte string of length n decodes to a value below 256^n. |
| `ByteReader.FromToLE` | src/pkm/pk6.rs:17-18 | Decoding the n-byte little-endian encoding of any value below 256^n gives that value back. |
| `ByteReader.ToFromLE` | src/pkm/pk6.rs:17-18 | Encoding a decoded byte string to its own width gives the same bytes back. |
| `ByteReader.FromLEInjective` | src/pkm/pk6.rs:17-18 | Two byte strings of the same width decode to the same value if and only if they are equal. |
| `ByteReader.FromLEAppend` | src/pkm/pk6.rs:57-59 | In a concatenation the first part is the low end: the value is the first part's value plus 256^len times the second part's value. |
| `ByteReader.ReadU8IsFromLE` | src/pkm/pk6.rs:53-55 | An in-bounds byte read equals the one-byte little-endian decoding of that byte, so single-byte and multi-byte reads share one decoding. |
| `ByteReader.ReadLE16Bytes` | src/pkm/pk6.rs:40-42 | An in-bounds u16 read is the byte read at o plus 0x100 times the byte read at o+1. |
| `ByteReader.ReadLE16` | src/pkm/pk6.rs:40-42 | A u16 read returns byte[o] + 256 * byte[o+1] when both bytes are inside the buffer, and 0 otherwise. |
| `ByteReader.ReadLE32` | src/pkm/pk6.rs:32-34 | A u32 read returns the four bytes at o, least significant first, when all four are inside the buffer, and 0 otherwise. |
| `ByteReader.ReadLE32Halves` | src/pkm/pk6.rs:57-59 | A u32 read is the u16 at o plus 0x10000 times the u16 at o+2. |
| `ByteReader.ReadLE16Frame` | src/pkm/pk6.rs:81-95 | A u16 read depends only on its own two bytes. |
| `Pk6Record.Seed` | src/pkm/pk6.rs:17-18 | The seed is the little-endian u32 of raw bytes 0..4. |
| `Pk6Record.New` | src/pkm/pk6.rs:16-22 | The plaintext is what decryption returns for the raw record and the little-endian u32 of its bytes 0..4. |
| `Pk6Record.FromData` | src/pkm/pk6.rs:120-124 | Converting the raw wrapper decodes its 232 bytes under their own seed. |
| `Pk6Record.DefaultData` | src/pkm/pk6.rs:126-130 | The default raw wrapper is STORED_SIZE zero bytes. |
| `Pk6Record.DefaultDataSeed` | src/pkm/pk6.rs:120-130 | The default wrapper's seed is 0, so converting it decrypts under seed 0. |
| `Pk6Record.SizePreserved` | src/pkm/pk6.rs:13-22 | The decoded plaintext is as long as the stored record: STORED_SIZE = 232 bytes. |
| `Pk6Record.EncryptionConstant` | src/pkm/pk6.rs:32-34 | The encryption constant is the little-endian u32 of plaintext bytes 0x00..0x03. |
| `Pk6Record.Species` | src/pkm/pk6.rs:36-38 | The species id is the little-endian u16 of bytes 0x08..0x09. |
| `Pk6Record.Tid` | src/pkm/pk6.rs:40-42 | The trainer id is the little-endian u16 of bytes 0x0C..0x0D. |
| `Pk6Record.Sid` | src/pkm/pk6.rs:44-46 | The secret id is the little-endian u16 of bytes 0x0E..0x0F. |
| `Pk6Record.Ability` | src/pkm/pk6.rs:48-51 | The ability id is the byte at 0x14 widened to u16, so it is below 256. |
| `Pk6Record.AbilityNumber` | src/pkm/pk6.rs:53-55 | The ability slot is the byte at 0x15. |
| `Pk6Record.Pid` | src/pkm/pk6.rs:57-59 | The personality value is the little-endian u32 of bytes 0x18..0x1B. |
| `Pk6Record.Nature` | src/pkm/pk6.rs:61-63 | The nature id is the byte at 0x1C. |
| `Pk6Record.GenderBits` | src/pkm/pk6.rs:65-68 | `(b >> 1) & 3` always lies in 0..3. |
| `Pk6Record.GenderBitsOfFields` | src/pkm/pk6.rs:65-68 | For a byte built from bit 0, bits 1-2 and bits 3-7, the gender bits are exactly bits 1-2, whatever the other bits are. |
| `Pk6Record.GenderBitsIgnoreOtherBits` | src/pkm/pk6.rs:65-68 | Two bytes that agree on bits 1-2 have the same gender bits. |
| `Pk6Record.Gender` | src/pkm/pk6.rs:65-68 | The gender is bits 1-2 of the byte at 0x1D, a value in 0..3. |
| `Pk6Record.Evs` | src/pkm/pk6.rs:70-79 | The effort values hp, atk, def, spa, spd, spe are exactly bytes 0x1E..0x23, in that order. |
| `Pk6Record.Move1` | src/pkm/pk6.rs:81-83 | Move 1 is the little-endian u16 of bytes 0x5A..0x5B. |
| `Pk6Record.Move2` | src/pkm/pk6.rs:85-87 | Move 2 is the little-endian u16 of bytes 0x5C..0x5D. |
| `Pk6Record.Move3` | src/pkm/pk6.rs:89-91 | Move 3 is the little-endian u16 of bytes 0x5E..0x5F. |
| `Pk6Record.Move4` | src/pkm/pk6.rs:93-95 | Move 4 is the little-endian u16 of bytes 0x60..0x61. |
| `Pk6Record.Iv32` | src/pkm/pk6.rs:97-99 | The packed individual-value word is the little-endian u32 of bytes 0x74..0x77. |
| `Pk6Record.HtFriendship` | src/pkm/pk6.rs:101-103 | The handling trainer's friendship is read as the little-endian u32 of bytes 0xA2..0xA5. |
| `Pk6Record.OtFriendship` | src/pkm/pk6.rs:105-107 | The original trainer's friendship is read as the little-endian u32 of bytes 0xCA..0xCD. |
| `Pk6Record.Language` | src/pkm/pk6.rs:109-111 | The language id is the byte at 0xE3. |
| `Pk6Record.EncryptionConstantIsSeed` | src/pkm/pk6.rs:16-34 | If decryption leaves bytes 0..3 unchanged, the decoded encryption constant equals the seed that construction used. |
| `Pk6Record.PidHalves` | src/pkm/pk6.rs:57-59 | The personality value's low 16 bits are the u16 at 0x18 and its high 16 bits the u16 at 0x1A. |
| `Pk6Record.MovesIndependent` | src/pkm/pk6.rs:81-95 | Each move depends only on its own two bytes: two records that agree on those bytes have the same move there. |
| `Pk6Record.MovesDisjoint` | src/pkm/pk6.rs:81-95 | The four moves use disjoint byte pairs: overwriting one move's two bytes leaves the other three moves unchanged. |
| `Pk6Fixture.Decoded` | src/pkm/pk6.rs:155-179 | Decoding the test record gives the listed plaintext, for any decryption that passes the decryption test. |
| `Pk6Fixture.FixtureSeed` | src/pkm/pk6.rs:136-137 | The test record's seed is 0x02865c80. |
| `Pk6Fixture.FixtureEncryptionConstant` | src/pkm/pk6.rs:136-158 | Bytes 0..7 are the same in the test record and its plaintext, so the decoded encryption constant is the seed 0x02865c80. |
| `Pk6Fixture.FixtureIdentity` | src/pkm/pk6.rs:186-211 | The test record decodes to species 132, tid 63062, sid 51266 and pid 0x31370F23. |
| `Pk6Fixture.FixtureNature` | src/pkm/pk6.rs:226-230 | The test record decodes to nature 3. |
| `Pk6Fixture.FixtureAbility` | src/pkm/pk6.rs:238-248 | The test record decodes to ability 150 and ability slot 4. |
| `Pk6Fixture.FixtureLanguageGender` | src/pkm/pk6.rs:256-266 | The test record decodes to language 3 and gender 2. |
| `Pk6Fixture.FixtureEvs` | src/pkm/pk6.rs:306-318 | The test record's effort values are {252, 0, 6, 252, 0, 0}. |
| `Pk6Fixture.FixtureMoves` | src/pkm/pk6.rs:268-290 | The test record's moves are 144, 0, 0 and 0. |
| `Pk6Fixture.FixtureIv32` | src/pkm/pk6.rs:292-304 | The test record's packed individual-value word is 0xBFFFFFFF, and its low 30 bits are all set. |
| `Pk6Fixture.FixtureFriendship` | src/pkm/pk6.rs:101-107 | On the test record the u32 friendship reads give 0x04030046 at 0xA2 and 0x0F070346 at 0xCA. |

## Left out

- Decryption (`poke_crypto::decrypt`: keystream, XOR and block shuffle) is not part of this model. It is a parameter, and `BLOCK_SIZE` is only declared.
- The derived values `tsv`, `psv`, `ivs`, `hidden_power` and `minted_nature` are default methods in `pkx.rs`, which is not part of this model. So the tests of tsv = psv = 993, all individual values 31, hidden power and minted nature are not stated.
- FixtureIv32: states the packed word only. Unpacking it into six values of 31 happens in `pkx.rs`, which is not part of this model.
- The conversions into `Species`, `Move`, `Nature`, `Language`, `Gender` and `AbilityNumber` live in `types`, which is not part of this model. Fields are raw integers. The tests compare against enum variants (Ditto, Imposter, Hidden, Adamant, Genderless, French, Transform). The fixture lemmas state the raw values 132, 150, 4, 3, 2, 3 and 144 instead.
- FixtureFriendship: states the values the code computes, not the 0 that the friendship tests expect.
- Move1, Move2, Move3, Move4, HtFriendship, OtFriendship: `default_read` of a u16 or u32 is native-endian, and these are modelled as read on a little-endian machine. On a big-endian machine the source would decode these fields with their bytes reversed, which the model does not capture.
- The reader's fallback is modelled only by its value (0). The reader library itself and the `TriviallyTransmutable` marker are not modelled.
- The size test of `Pk6Data` is carried by its type: `Pk6Bytes` holds exactly `STORED_SIZE` bytes.
- `src/pkm/mod.rs` declares and re-exports modules and has no logic.
