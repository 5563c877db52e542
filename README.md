# Portable SHA-256 and SHA-512 in Dafny

This project models the two portable SHA-2 library crates of a hash benchmark
repository, `sha256_rust` and `sha512_rust`, and proves them correct against
FIPS 180-4. Each crate has two parts.

- **The generic compression function** (`sha256_transform_generic` /
  `sha512_transform_generic`) and its non-ARM delegate `*_transform_arm`.
  It loads a 64- or 128-byte block into a 64- or 80-word message schedule
  `w`, runs the round loop over the eight working variables `a..h`, and
  adds the result back onto the hash state in place.
- **The incremental hasher** (`Sha256` / `Sha512`). It holds a hash state,
  a one-block residual buffer, the buffered byte count `buffer_len` and the
  total byte count `total_len`. `update` tops up the buffer, compresses
  whole blocks straight from the input, and stores the rest. `finalize`
  writes the 0x80 byte, the zeros and the big-endian bit length. It
  compresses one or two final blocks and returns the state words big-endian.

Files:

- `bytes.dfy` (module `Bytes`) holds what both crates share:
  - the big-endian encoding of the length field (Rust's `to_be_bytes` on an integer);
  - zero runs, and copying a run of bytes into an array (`copy_from_slice`);
  - whole-block counts;
  - the Merkle-Damgard chaining `Chain` of a compression function over a sequence of blocks.
- `sha256.dfy` (module `Sha256`) and `sha512.dfy` (module `Sha512`) have the same layout:
  - the constants: the IV, the round constants `K`, and the bound on the length counter;
  - the specification functions of FIPS 180-4:
    - the logical functions of section 4.1.2 or 4.1.3;
    - the schedule, rounds and feed-forward of section 6.2.2 or 6.4.2;
    - the padding of section 5.1.1 or 5.1.2;
    - `HashBlocks`, `Digest` and `Serialize`;
  - the crate's code as methods over arrays: `NewState`, `MessageSchedule`, `CompressRounds`, `FeedForwardInPlace`, `TransformGeneric`, `TransformArm`, `StateBytes`;
  - the `Hasher` class.
- `roots.dfy` (module `Roots`) holds the number theory behind the constants:
  - integer powers and roots, and `FractionalBits`: the first bits of the fractional part of an e-th root;
  - primality by trial division, proved equal to "no divisor between 2 and n";
  - the table of the first eighty primes, proved to be exactly the primes from 2 upwards.
- `sha256_constants.dfy` (module `Sha256Constants`) and `sha512_constants.dfy` (module `Sha512Constants`) prove that the crates' tables are the constants FIPS 180-4 defines: `K` comes from the cube roots of the first primes, and the IV from the square roots of the first eight.
- `sha256_vectors.dfy` and `sha512_vectors.dfy` hold the crates' known-answer tests.
  - The digests of "" and "abc" are proved about the specification, following the one padded block through its schedule and rounds.
  - Each test is also a method that runs `new`, `update` and `finalize` and states the expected bytes.

The hasher keeps two ghost sequences:

- `absorbed`: every byte given to `Update`;
- `compressed`: the whole blocks already folded into `state`.

Its invariant `Valid` says four things:

- `buffer_len` is below the block size;
- `total_len == |absorbed|`, and it fits the counter's width;
- `absorbed == compressed + buffer[..buffer_len]`;
- `state` is the chain of the compression function over the blocks of `compressed`, starting from the IV.

`Finalize` ensures that its result is `Digest(absorbed)`. That is the
FIPS 180-4 digest: pad the whole stream, fold the compression function
over its blocks, and serialise the final state big-endian.

## Model

| member | source | states |
|---|---|---|
| Sha256.NewState | sha256_rust/src/lib.rs:15-28 | the fresh state array holds the eight IV words of FIPS 180-4 section 5.3.3 |
| Sha256Constants.InitialHashIsSquareRoots | sha256_rust/src/lib.rs:13-28 | IV word i is the first 32 bits of the fractional part of the square root of the (i + 1)-th prime, FIPS 180-4 section 5.3.3 |
| Sha256Constants.RoundConstantsAreCubeRoots | sha256_rust/src/lib.rs:31-50 | K[t] is the first 32 bits of the fractional part of the cube root of the (t + 1)-th prime, FIPS 180-4 section 4.2.2 |
| Roots.NthPrimeIsNextPrime | sha256_rust/src/lib.rs:31-32 | the table starts at 2, every entry is prime, and no prime lies between neighbouring entries, so entry i is the (i + 1)-th prime |
| Sha256.WordToBytes | sha256_rust/src/lib.rs:225 | `to_be_bytes` gives four bytes that `from_be_bytes` reads back as the same word |
| Sha256.WordBytesRoundTrip | sha256_rust/src/lib.rs:73-78 | four bytes read big-endian as a word and written back are the same four bytes |
| Sha256.WordFromBytesValue | sha256_rust/src/lib.rs:73-78 | the word `u32::from_be_bytes` reads has the big-endian integer value of its four bytes, the same reading the length field uses |
| Sha256.ChChooses | sha256_rust/src/lib.rs:105 | `(e & f) ^ (!e & g)` picks f's bit where e is set and g's where it is clear |
| Sha256.MajIsMajority | sha256_rust/src/lib.rs:114 | `(a & b) ^ (a & c) ^ (b & c)` is the bitwise majority of a, b, c |
| Sha256.SchedulePrefixStable | sha256_rust/src/lib.rs:69-89 | a schedule word, once computed, is not changed by later steps of the two loops |
| Sha256.ScheduleWordLoaded | sha256_rust/src/lib.rs:72-79 | W[t] for t < 16 is the big-endian word of block bytes 4t..4t+3 |
| Sha256.ScheduleWordRecurrence | sha256_rust/src/lib.rs:82-89 | W[t] = W[t-16] + σ0(W[t-15]) + W[t-7] + σ1(W[t-2]) mod 2^32 for 16 <= t < 64, with σ0 = ROTR7^ROTR18^SHR3 and σ1 = ROTR17^ROTR19^SHR10 |
| Sha256.LoadWords | sha256_rust/src/lib.rs:72-79 | after the first loop, w[0..15] are the first 16 schedule words of the block |
| Sha256.LoadWord | sha256_rust/src/lib.rs:73-78 | one iteration extends the loaded prefix of w by the big-endian word of bytes 4i..4i+3 |
| Sha256.LoadedNext | sha256_rust/src/lib.rs:73-78 | the word read from bytes 4i..4i+3 is the next schedule word for i < 16 |
| Sha256.SetWord | sha256_rust/src/lib.rs:73 | the store `w[i] = …` puts the word at index i, keeps the entries before it and leaves those after it unchanged |
| Sha256.ExpandWords | sha256_rust/src/lib.rs:82-89 | after the second loop, w is the whole 64-word schedule |
| Sha256.ExpandWord | sha256_rust/src/lib.rs:83-88 | one iteration extends the schedule prefix by the σ recurrence |
| Sha256.MessageSchedule | sha256_rust/src/lib.rs:69-89 | the array w holds exactly Schedule(block) |
| Sha256.CompressRounds | sha256_rust/src/lib.rs:92-126 | the loop leaves a..h equal to 64 Rounds from the state, each round T1 = h + Σ1(e) + Ch + K[i] + W[i] and T2 = Σ0(a) + Maj, Σ1 = ROTR6^ROTR11^ROTR25, Σ0 = ROTR2^ROTR13^ROTR22 |
| Sha256.RoundsWindow | sha256_rust/src/lib.rs:119-126 | the register shift `h = g; … b = a` means that after round n, b, c, d hold a and f, g, h hold e from rounds n - 1, n - 2, n - 3 |
| Sha256.FeedForwardInPlace | sha256_rust/src/lib.rs:129-136 | each state word becomes its old value plus its working variable, mod 2^32 |
| Sha256.TransformGeneric | sha256_rust/src/lib.rs:67-137 | the new state is Transform(old state, block): the state after the block depends only on the state and the block |
| Sha256.TransformArm | sha256_rust/src/lib.rs:61-64 | the non-ARM `sha256_transform_arm` produces exactly the state of the generic transform |
| Sha256.WholeBlocksMod | sha256_rust/src/lib.rs:179-184 | a byte count is a whole number of 64-byte blocks exactly when 64 divides it |
| Sha256.BlocksAppend | sha256_rust/src/lib.rs:179-184 | the blocks of a ++ b are the blocks of a followed by the blocks of b |
| Sha256.BlocksSnoc | sha256_rust/src/lib.rs:182 | one more whole block at the end is one more block of the split |
| Sha256.HashBlocksExtend | sha256_rust/src/lib.rs:182 | compressing one more block onto the hash of a prefix is one more Transform |
| Sha256.SingleBlock | sha256_rust/src/lib.rs:220 | a one-block stream hashes to a single Transform of that block |
| Sha256.PadZerosFill | sha256_rust/src/lib.rs:199-220 | the message, 0x80, the zero run and the 8-byte length make whole 64-byte blocks |
| Sha256.PadZerosCongruent | sha256_rust/src/lib.rs:203-216 | message length + 1 + zeros = 56 mod 64 (section 5.1.1 in bytes) |
| Sha256.PadZerosLeast | sha256_rust/src/lib.rs:203-216 | no shorter zero run reaches 56 mod 64: the zero run is the least one |
| Sha256.U64ToBeBytes | sha256_rust/src/lib.rs:219 | `u64::to_be_bytes` gives 8 bytes that read back big-endian as the value |
| Sha256.LengthField | sha256_rust/src/lib.rs:196 | the length field is 8 bytes whose big-endian value is 8 times the byte count |
| Sha256.Pad | sha256_rust/src/lib.rs:199-220 | the padded stream is a whole number of blocks and adds between 9 and 72 bytes |
| Sha256.PadShape | sha256_rust/src/lib.rs:199-220 | the padded stream is the message, 0x80, zeros, then the bit length big-endian in its last 8 bytes |
| Sha256.PadShort | sha256_rust/src/lib.rs:199-220 | a message under 32 bytes pads to one block ending in seven zeros and the bit-length byte |
| Sha256.SerializeWord | sha256_rust/src/lib.rs:223-226 | digest bytes 4i..4i+3 are state word i big-endian, and read back as that word |
| Sha256.SerializeSnoc | sha256_rust/src/lib.rs:225 | serialising one more word appends its four big-endian bytes |
| Sha256.PadZerosAfterBlocks | sha256_rust/src/lib.rs:203-216 | after whole blocks and r buffered bytes the zero run is 55 - r if r < 56 and 119 - r otherwise |
| Sha256.TwoFinalBlocks | sha256_rust/src/lib.rs:203-220 | with 56..63 bytes buffered, the padding after the compressed blocks is the block (tail, 0x80, zeros) then (56 zeros, length) |
| Sha256.FinalBlocks | sha256_rust/src/lib.rs:199-220 | the one or two blocks `finalize` compresses are the section 5.1.1 padding of compressed ++ buffered bytes |
| Sha256.AbsorbSplit | sha256_rust/src/lib.rs:159-192 | the top-up, the direct blocks and the stored rest together append the input to compressed ++ buffer |
| Sha256.StateBytes | sha256_rust/src/lib.rs:223-227 | the digest loop returns the eight state words big-endian, in order |
| Sha256.WriteWord | sha256_rust/src/lib.rs:225 | one iteration writes word i to bytes 4i..4i+3, keeps the prefix serialised and leaves the later bytes unchanged |
| Bytes.CopyInto | sha256_rust/src/lib.rs:225 | `copy_from_slice` at offset n: the array's first n bytes are kept, the copied bytes follow them and the bytes after them are unchanged |
| Sha256.Hasher.constructor | sha256_rust/src/lib.rs:149-156 | a fresh hasher is Valid with nothing absorbed, `buffer_len == 0`, `total_len == 0` and the IV as state |
| Sha256.Hasher.CompressBlock | sha256_rust/src/lib.rs:173 | the state after one transform is the hash of the compressed blocks plus this block |
| Sha256.Hasher.TopUp | sha256_rust/src/lib.rs:164-176 | takes min(64 - buffer_len, data.len()) bytes of input into the buffer, compressing it when full; the consumed input is appended to compressed ++ buffer, and either the buffer ends empty or the input is used up |
| Sha256.Hasher.CompressDirect | sha256_rust/src/lib.rs:179-184 | the loop compresses whole blocks from the input until fewer than 64 bytes remain, keeping compressed ++ rest of input fixed |
| Sha256.Hasher.StoreRest | sha256_rust/src/lib.rs:187-191 | the remaining input goes to the front of the buffer and `buffer_len` is its length, below 64 |
| Sha256.Hasher.Absorb | sha256_rust/src/lib.rs:163-191 | the three steps of `update` append data to compressed ++ buffer and keep `buffer_len < 64` |
| Sha256.Hasher.Update | sha256_rust/src/lib.rs:159-192 | `update` adds `data.len()` to `total_len`, appends data to the absorbed stream and keeps Valid (`buffer_len < 64`, compressed ++ buffer == absorbed) |
| Sha256.Hasher.ZeroFill | sha256_rust/src/lib.rs:204-207 | the zero loop appends zeros up to index n |
| Sha256.Hasher.WriteLength | sha256_rust/src/lib.rs:219 | the 8 length bytes land at 56..63 and bytes 0..55 are kept |
| Sha256.Hasher.StartPadding | sha256_rust/src/lib.rs:199-210 | 0x80 follows the buffered bytes; exactly when `buffer_len + 1 > 56` the block is zero-filled and compressed |
| Sha256.Hasher.FinishPadding | sha256_rust/src/lib.rs:213-220 | the last block compressed is the buffered bytes, zeros to byte 56 and the big-endian bit length |
| Sha256.Hasher.PadAndCompress | sha256_rust/src/lib.rs:196-220 | after the padding steps the compressed stream is Pad(absorbed), the section 5.1.1 padding |
| Sha256.Hasher.Finalize | sha256_rust/src/lib.rs:195-228 | `finalize` returns Digest(absorbed): the big-endian state words after folding Transform over Pad(absorbed) |
| Sha256.HashInTwoUpdates | sha256_rust/src/lib.rs:159-228 | two `update` calls hash the same as one call with a ++ b |
| Sha256Vectors.EmptyDigest | sha256_rust/src/lib.rs:236-250 | SHA-256("") is e3b0c442…7852b855 |
| Sha256Vectors.AbcDigest | sha256_rust/src/lib.rs:253-267 | SHA-256("abc") is ba7816bf…f20015ad |
| Sha256Vectors.TestSha256Empty | sha256_rust/src/lib.rs:236-250 | `new`, `update(b"")`, `finalize` return the 32 bytes the test expects |
| Sha256Vectors.TestSha256Abc | sha256_rust/src/lib.rs:253-267 | `new`, `update(b"abc")`, `finalize` return the 32 bytes the test expects |
| Sha512.NewState | sha512_rust/src/lib.rs:14-27 | the fresh state array holds the eight IV words of FIPS 180-4 section 5.3.5 |
| Sha512Constants.InitialHashIsSquareRoots | sha512_rust/src/lib.rs:12-27 | IV word i is the first 64 bits of the fractional part of the square root of the (i + 1)-th prime, FIPS 180-4 section 5.3.5 |
| Sha512Constants.RoundConstantsAreCubeRoots | sha512_rust/src/lib.rs:30-53 | K[t] is the first 64 bits of the fractional part of the cube root of the (t + 1)-th prime, FIPS 180-4 section 4.2.3 |
| Sha512.WordToBytes | sha512_rust/src/lib.rs:238 | `u64::to_be_bytes` gives eight bytes that `from_be_bytes` reads back as the same word |
| Sha512.WordBytesRoundTrip | sha512_rust/src/lib.rs:80-89 | eight bytes read big-endian as a word and written back are the same eight bytes |
| Sha512.WordFromBytesValue | sha512_rust/src/lib.rs:80-89 | the word `u64::from_be_bytes` reads has the big-endian integer value of its eight bytes, the same reading the length field uses |
| Sha512.ChChooses | sha512_rust/src/lib.rs:116 | `(e & f) ^ (!e & g)` picks f's bit where e is set and g's where it is clear |
| Sha512.MajIsMajority | sha512_rust/src/lib.rs:125 | `(a & b) ^ (a & c) ^ (b & c)` is the bitwise majority of a, b, c |
| Sha512.SchedulePrefixStable | sha512_rust/src/lib.rs:75-100 | a schedule word, once computed, is not changed by later steps of the two loops |
| Sha512.ScheduleWordLoaded | sha512_rust/src/lib.rs:79-90 | W[t] for t < 16 is the big-endian word of block bytes 8t..8t+7 |
| Sha512.ScheduleWordRecurrence | sha512_rust/src/lib.rs:93-100 | W[t] = W[t-16] + σ0(W[t-15]) + W[t-7] + σ1(W[t-2]) mod 2^64 for 16 <= t < 80, with σ0 = ROTR1^ROTR8^SHR7 and σ1 = ROTR19^ROTR61^SHR6 |
| Sha512.LoadWords | sha512_rust/src/lib.rs:79-90 | after the first loop, w[0..15] are the first 16 schedule words of the block |
| Sha512.LoadWord | sha512_rust/src/lib.rs:80-89 | one iteration extends the loaded prefix of w by the big-endian word of bytes 8i..8i+7 |
| Sha512.LoadedNext | sha512_rust/src/lib.rs:80-89 | the word read from bytes 8i..8i+7 is the next schedule word for i < 16 |
| Sha512.SetWord | sha512_rust/src/lib.rs:80 | the store `w[i] = …` puts the word at index i, keeps the entries before it and leaves those after it unchanged |
| Sha512.ExpandWords | sha512_rust/src/lib.rs:93-100 | after the second loop, w is the whole 80-word schedule |
| Sha512.ExpandWord | sha512_rust/src/lib.rs:94-99 | one iteration extends the schedule prefix by the σ recurrence |
| Sha512.MessageSchedule | sha512_rust/src/lib.rs:75-100 | the array w holds exactly Schedule(block) |
| Sha512.CompressRounds | sha512_rust/src/lib.rs:103-137 | the loop leaves a..h equal to 80 Rounds from the state, with Σ1 = ROTR14^ROTR18^ROTR41 and Σ0 = ROTR28^ROTR34^ROTR39 |
| Sha512.RoundsWindow | sha512_rust/src/lib.rs:129-136 | the register shift `h = g; … b = a` means that after round n, b, c, d hold a and f, g, h hold e from rounds n - 1, n - 2, n - 3 |
| Sha512.FeedForwardInPlace | sha512_rust/src/lib.rs:140-147 | each state word becomes its old value plus its working variable, mod 2^64 |
| Sha512.TransformGeneric | sha512_rust/src/lib.rs:73-148 | the new state is Transform(old state, block): the state after the block depends only on the state and the block |
| Sha512.TransformArm | sha512_rust/src/lib.rs:67-70 | the non-ARM `sha512_transform_arm` produces exactly the state of the generic transform |
| Sha512.WholeBlocksMod | sha512_rust/src/lib.rs:190-195 | a byte count is a whole number of 128-byte blocks exactly when 128 divides it |
| Sha512.BlocksAppend | sha512_rust/src/lib.rs:190-195 | the blocks of a ++ b are the blocks of a followed by the blocks of b |
| Sha512.BlocksSnoc | sha512_rust/src/lib.rs:193 | one more whole block at the end is one more block of the split |
| Sha512.HashBlocksExtend | sha512_rust/src/lib.rs:193 | compressing one more block onto the hash of a prefix is one more Transform |
| Sha512.SingleBlock | sha512_rust/src/lib.rs:232 | a one-block stream hashes to a single Transform of that block |
| Sha512.PadZerosFill | sha512_rust/src/lib.rs:210-232 | the message, 0x80, the zero run and the 16-byte length make whole 128-byte blocks |
| Sha512.PadZerosCongruent | sha512_rust/src/lib.rs:215-228 | message length + 1 + zeros = 112 mod 128 (section 5.1.2 in bytes) |
| Sha512.PadZerosLeast | sha512_rust/src/lib.rs:215-228 | no shorter zero run reaches 112 mod 128: the zero run is the least one |
| Sha512.U128ToBeBytes | sha512_rust/src/lib.rs:231 | `u128::to_be_bytes` gives 16 bytes that read back big-endian as the value |
| Sha512.LengthField | sha512_rust/src/lib.rs:207 | the length field is 16 bytes whose big-endian value is 8 times the byte count |
| Sha512.Pad | sha512_rust/src/lib.rs:210-232 | the padded stream is a whole number of blocks and adds between 17 and 144 bytes |
| Sha512.PadShape | sha512_rust/src/lib.rs:210-232 | the padded stream is the message, 0x80, zeros, then the bit length big-endian in its last 16 bytes |
| Sha512.PadShort | sha512_rust/src/lib.rs:210-232 | a message under 32 bytes pads to one block ending in fifteen zeros and the bit-length byte |
| Sha512.SerializeWord | sha512_rust/src/lib.rs:236-239 | digest bytes 8i..8i+7 are the `to_be_bytes` of state word i |
| Sha512.SerializeReadBack | sha512_rust/src/lib.rs:236-239 | digest bytes 8i..8i+7 read back big-endian as state word i |
| Sha512.SerializeSnoc | sha512_rust/src/lib.rs:238 | serialising one more word appends its eight big-endian bytes |
| Sha512.PadZerosAfterBlocks | sha512_rust/src/lib.rs:215-228 | after whole blocks and r buffered bytes the zero run is 111 - r if r < 112 and 239 - r otherwise |
| Sha512.TwoFinalBlocks | sha512_rust/src/lib.rs:215-232 | with 112..127 bytes buffered, the padding after the compressed blocks is the block (tail, 0x80, zeros) then (112 zeros, length) |
| Sha512.FinalBlocks | sha512_rust/src/lib.rs:210-232 | the one or two blocks `finalize` compresses are the section 5.1.2 padding of compressed ++ buffered bytes |
| Sha512.AbsorbSplit | sha512_rust/src/lib.rs:170-203 | the top-up, the direct blocks and the stored rest together append the input to compressed ++ buffer |
| Sha512.StateBytes | sha512_rust/src/lib.rs:236-240 | the digest loop returns the eight state words big-endian, in order |
| Sha512.WriteWord | sha512_rust/src/lib.rs:238 | one iteration writes word i to bytes 8i..8i+7, keeps the prefix serialised and leaves the later bytes unchanged |
| Sha512.Hasher.constructor | sha512_rust/src/lib.rs:160-167 | a fresh hasher is Valid with nothing absorbed, `buffer_len == 0`, `total_len == 0` and the IV as state |
| Sha512.Hasher.HashOfStep | sha512_rust/src/lib.rs:184 | compressing one more block onto the hash of the compressed blocks gives the hash of those blocks plus this one |
| Sha512.Hasher.CompressBlock | sha512_rust/src/lib.rs:184 | the state after one transform is the hash of the compressed blocks plus this block |
| Sha512.Hasher.TopUp | sha512_rust/src/lib.rs:175-187 | takes min(128 - buffer_len, data.len()) bytes of input into the buffer, compressing it when full; the consumed input is appended to compressed ++ buffer, and either the buffer ends empty or the input is used up |
| Sha512.Hasher.CompressDirect | sha512_rust/src/lib.rs:190-195 | the loop compresses whole blocks from the input until fewer than 128 bytes remain, keeping compressed ++ rest of input fixed |
| Sha512.Hasher.StoreRest | sha512_rust/src/lib.rs:198-202 | the remaining input goes to the front of the buffer and `buffer_len` is its length, below 128 |
| Sha512.Hasher.Absorb | sha512_rust/src/lib.rs:174-202 | the three steps of `update` append data to compressed ++ buffer and keep `buffer_len < 128` |
| Sha512.Hasher.Update | sha512_rust/src/lib.rs:170-203 | `update` adds `data.len()` to the `u128` `total_len`, appends data to the absorbed stream and keeps Valid (`buffer_len < 128`, compressed ++ buffer == absorbed) |
| Sha512.Hasher.ZeroFill | sha512_rust/src/lib.rs:216-219 | the zero loop appends zeros up to index n |
| Sha512.Hasher.WriteLength | sha512_rust/src/lib.rs:231 | the 16 length bytes land at 112..127 and bytes 0..111 are kept |
| Sha512.Hasher.StartPadding | sha512_rust/src/lib.rs:211-222 | 0x80 follows the buffered bytes; exactly when `buffer_len + 1 > 112` the block is zero-filled and compressed |
| Sha512.Hasher.FinishPadding | sha512_rust/src/lib.rs:225-232 | the last block compressed is the buffered bytes, zeros to byte 112 and the 16-byte big-endian bit length |
| Sha512.Hasher.PadAndCompress | sha512_rust/src/lib.rs:207-232 | after the padding steps the compressed stream is Pad(absorbed), the section 5.1.2 padding |
| Sha512.Hasher.Finalize | sha512_rust/src/lib.rs:206-241 | `finalize` returns Digest(absorbed): the big-endian state words after folding Transform over Pad(absorbed) |
| Sha512.HashInTwoUpdates | sha512_rust/src/lib.rs:170-241 | two `update` calls hash the same as one call with a ++ b |
| Sha512Vectors.EmptyDigest | sha512_rust/src/lib.rs:250-268 | SHA-512("") is cf83e135…a927da3e |
| Sha512Vectors.AbcDigest | sha512_rust/src/lib.rs:272-289 | SHA-512("abc") is ddaf35a1…a54ca49f |
| Sha512Vectors.TestSha512Empty | sha512_rust/src/lib.rs:250-268 | `new`, `update(b"")`, `finalize` return the 64 bytes the test expects |
| Sha512Vectors.TestSha512Abc | sha512_rust/src/lib.rs:272-289 | `new`, `update(b"abc")`, `finalize` return the 64 bytes the test expects |
| Bytes.BigEndianRoundTrip | sha512_rust/src/lib.rs:231 | the big-endian encoding of a length reads back as that length |
| Bytes.FromBigEndianRoundTrip | sha512_rust/src/lib.rs:231 | every byte string is the encoding of its value, so the encoding is a bijection onto strings of its width |

## Left out

- The aarch64 crates (`sha256_aarch64`, `sha512_aarch64`) are not part of this model. Their compression is inline assembly and NEON intrinsics whose meaning is defined by the ARM architecture, not by the repository's text.
- The benchmark programs (`sha256_rust/src/main.rs`, `sha512_rust/src/main.rs`) are not part of this model. They are timing loops, floating-point statistics and console output.
- The `#[cfg(target_arch = "arm")] unsafe` versions of `*_transform_arm` are modelled once. Their body is the same call to the generic transform as the non-ARM version, modelled by `TransformArm`.
- Sha256.Hasher.Update: requires `total_len + data.len() < 2^64`. Rust's `u64` `+=` panics in debug builds and wraps in release builds. Neither outcome is modelled.
- Sha512.Hasher.Update: requires `total_len + data.len() < 2^128`, for the same reason with `u128`.
- Sha256.Hasher.Finalize: requires `total_len < 2^61`, so that the `u64` product `total_len * 8` does not overflow. The wrapped length field of a release build is not modelled. FIPS 180-4 allows SHA-256 messages below 2^64 bits; the crate's `u64` byte counter times 8 stays in range only below 2^61 bytes, which is this requires.
- Sha512.Hasher.Finalize: requires `total_len < 2^125`, so that the `u128` product does not overflow.
- Sha256.Hasher.Finalize: `finalize(mut self)` consumes the hasher. The model expresses this only by leaving the object outside `Valid` afterwards: no further `Update` or `Finalize` can be verified on it. The same holds for Sha512.Hasher.Finalize.
- Inputs are modelled as values:
  - the `&[u8; N]` and `&[u8]` arguments are Dafny `seq<bv8>`, because they are immutable borrows;
  - the temporary `block` array that `update` copies each whole input block into is the slice value `data[pos..pos + N]`;
  - the buffer passed to the transform is a snapshot of the buffer array.
- `buffer_len` and `total_len` are `nat` fields whose bounds live in `Valid`, rather than `usize`, `u64` and `u128`.
- The hasher folds its state with a ghost constant `compress` that equals `Transform`. This is a proof device only; `Finalize` connects it back to `Transform`.
- Each transform call inside `update` and `finalize` is modelled as a call to `TransformGeneric`, as in the source.
- The `Clone`/`Copy` derivations and `#[repr(C)]` of the state structs have no counterpart.
