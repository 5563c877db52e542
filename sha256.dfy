/** The portable SHA-256 crate: the constant tables, the generic compression
    function over one 64-byte block, and the incremental hasher with its
    one-block residual buffer. The specification functions follow FIPS 180-4
    (sections 4.1.2, 4.2.2, 5.1.1, 5.3.3 and 6.2.2); the methods follow the
    crate's loops and in-place updates and are proved against them. */
module Sha256 {
  import opened Bytes

  type Word = bv32

  /** A 64-byte message block (the crate's `&[u8; 64]`). */
  type Block = b: seq<Byte> | |b| == 64 witness Zeros(64)

  /** A hash value H(i): eight words (the crate's `Sha256State::h`). */
  type HashValue = h: seq<Word> | |h| == 8 witness [0, 0, 0, 0, 0, 0, 0, 0]

  /** Largest message, in bytes, whose bit length fits the 64-bit length
      field (and Rust's `u64` product `total_len * 8`). */
  const MaxMessageBytes: nat := 0x2000_0000_0000_0000

  /** Bound of the `u64` total byte counter. */
  const U64Bound: nat := 0x1_0000_0000_0000_0000

  /** Initial hash value H(0) (section 5.3.3), as `Sha256State::new` sets it. */
  const IV: HashValue := [
    0x6a09e667, 0xbb67ae85, 0x3c6ef372, 0xa54ff53a,
    0x510e527f, 0x9b05688c, 0x1f83d9ab, 0x5be0cd19
  ]

  /** The round constant K[t] (section 4.2.2), t < 64: the crate's table
      `K`, written as a function of the index. */
  function K(t: nat): Word
    requires t < 64
  {
    match t
    case 0 => 0x428a2f98
    case 1 => 0x71374491
    case 2 => 0xb5c0fbcf
    case 3 => 0xe9b5dba5
    case 4 => 0x3956c25b
    case 5 => 0x59f111f1
    case 6 => 0x923f82a4
    case 7 => 0xab1c5ed5
    case 8 => 0xd807aa98
    case 9 => 0x12835b01
    case 10 => 0x243185be
    case 11 => 0x550c7dc3
    case 12 => 0x72be5d74
    case 13 => 0x80deb1fe
    case 14 => 0x9bdc06a7
    case 15 => 0xc19bf174
    case 16 => 0xe49b69c1
    case 17 => 0xefbe4786
    case 18 => 0x0fc19dc6
    case 19 => 0x240ca1cc
    case 20 => 0x2de92c6f
    case 21 => 0x4a7484aa
    case 22 => 0x5cb0a9dc
    case 23 => 0x76f988da
    case 24 => 0x983e5152
    case 25 => 0xa831c66d
    case 26 => 0xb00327c8
    case 27 => 0xbf597fc7
    case 28 => 0xc6e00bf3
    case 29 => 0xd5a79147
    case 30 => 0x06ca6351
    case 31 => 0x14292967
    case 32 => 0x27b70a85
    case 33 => 0x2e1b2138
    case 34 => 0x4d2c6dfc
    case 35 => 0x53380d13
    case 36 => 0x650a7354
    case 37 => 0x766a0abb
    case 38 => 0x81c2c92e
    case 39 => 0x92722c85
    case 40 => 0xa2bfe8a1
    case 41 => 0xa81a664b
    case 42 => 0xc24b8b70
    case 43 => 0xc76c51a3
    case 44 => 0xd192e819
    case 45 => 0xd6990624
    case 46 => 0xf40e3585
    case 47 => 0x106aa070
    case 48 => 0x19a4c116
    case 49 => 0x1e376c08
    case 50 => 0x2748774c
    case 51 => 0x34b0bcb5
    case 52 => 0x391c0cb3
    case 53 => 0x4ed8aa4a
    case 54 => 0x5b9cca4f
    case 55 => 0x682e6ff3
    case 56 => 0x748f82ee
    case 57 => 0x78a5636f
    case 58 => 0x84c87814
    case 59 => 0x8cc70208
    case 60 => 0x90befffa
    case 61 => 0xa4506ceb
    case 62 => 0xbef9a3f7
    case _ => 0xc67178f2
  }

  /** Addition modulo 2^32 (`bv32` addition wraps): Rust's
      `u32::wrapping_add`. */
  function WrappingAdd(x: Word, y: Word): Word
  {
    x + y
  }

  // ---------------------------------------------------------------------
  // The logical functions of section 4.1.2 (`rotate_right` is ROTR, `>>` SHR)

  function Ch(x: Word, y: Word, z: Word): Word { (x & y) ^ (!x & z) }
  function Maj(x: Word, y: Word, z: Word): Word { (x & y) ^ (x & z) ^ (y & z) }
  function BigSigma0(x: Word): Word { x.RotateRight(2) ^ x.RotateRight(13) ^ x.RotateRight(22) }
  function BigSigma1(x: Word): Word { x.RotateRight(6) ^ x.RotateRight(11) ^ x.RotateRight(25) }
  function SmallSigma0(x: Word): Word { x.RotateRight(7) ^ x.RotateRight(18) ^ (x >> 3) }
  function SmallSigma1(x: Word): Word { x.RotateRight(17) ^ x.RotateRight(19) ^ (x >> 10) }

  /** Ch picks, bit by bit, y where x is set and z where it is clear. */
  lemma ChChooses(x: Word, y: Word, z: Word)
    ensures Ch(x, y, z) == (x & y) | (!x & z)
  {
  }

  /** Maj is the bitwise majority of its three arguments. */
  lemma MajIsMajority(x: Word, y: Word, z: Word)
    ensures Maj(x, y, z) == (x & y) | (x & z) | (y & z)
  {
  }

  // ---------------------------------------------------------------------
  // Words and bytes

  /** `u32::from_be_bytes`. */
  function WordFromBytes(b: seq<Byte>): Word
    requires |b| == 4
  {
    ((b[0] as Word) << 24) | ((b[1] as Word) << 16) | ((b[2] as Word) << 8) | (b[3] as Word)
  }

  /** `u32::to_be_bytes`; reading the bytes back gives the word. */
  function WordToBytes(x: Word): (r: seq<Byte>)
    ensures |r| == 4
    ensures WordFromBytes(r) == x
  {
    [(x >> 24) as Byte, ((x >> 16) & 0xff) as Byte, ((x >> 8) & 0xff) as Byte, (x & 0xff) as Byte]
  }

  /** The other direction: four bytes read as a word and written back are
      the same four bytes. */
  lemma WordBytesRoundTrip(b: seq<Byte>)
    requires |b| == 4
    ensures WordToBytes(WordFromBytes(b)) == b
  {
  }

  /** The first k bytes of b read big-endian into a word, one byte at a
      time. */
  function ReadPrefix(b: seq<Byte>, k: nat): Word
    requires k <= |b|
  {
    if k == 0 then 0 else (ReadPrefix(b, k - 1) << 8) | b[k - 1] as Word
  }

  /** One step of ReadPrefix, with the shorter prefix's word named r and
      the next byte c. */
  lemma ReadPrefixStep(b: seq<Byte>, k: nat, r: Word, c: Byte)
    requires 0 < k <= |b| && r == ReadPrefix(b, k - 1) && c == b[k - 1]
    ensures ReadPrefix(b, k) == (r << 8) | c as Word
  {
  }

  /** Shifting a word below 2^24 left by a byte and or-ing in the
      byte c appends the base-256 digit c. */
  lemma AppendByte(x: Word, c: Byte)
    requires x as nat < 0x100_0000
    ensures ((x << 8) | c as Word) as nat == x as nat * 256 + c as nat
  {
  }

  /** The word read from the first k <= 4 bytes has their big-endian
      value. */
  lemma {:induction false} ReadPrefixValue(b: seq<Byte>, k: nat)
    requires k <= |b| && k <= 4
    ensures ReadPrefix(b, k) as nat == FromBigEndian(b[..k])
  {
    if k > 0 {
      ReadPrefixValue(b, k - 1);
      assert b[..k][..k - 1] == b[..k - 1];
      Pow256Monotone(k - 1, 3);
      assert Pow256(3) == 0x100_0000;
      AppendByte(ReadPrefix(b, k - 1), b[k - 1]);
    }
  }

  /** Shifting in one byte at a time puts each byte in its place. */
  lemma ShiftsCompose(c0: Byte, c1: Byte, c2: Byte, c3: Byte,
                      r0: Word, r1: Word, r2: Word, r3: Word, r4: Word)
    requires r0 == 0 && r1 == (r0 << 8) | c0 as Word && r2 == (r1 << 8) | c1 as Word
    requires r3 == (r2 << 8) | c2 as Word && r4 == (r3 << 8) | c3 as Word
    ensures r4 == ((c0 as Word) << 24) | ((c1 as Word) << 16) | ((c2 as Word) << 8) | (c3 as Word)
  {
  }

  /** `from_be_bytes` is 4 steps of ReadPrefix. */
  lemma ReadPrefixWord(b: seq<Byte>)
    requires |b| == 4
    ensures ReadPrefix(b, 4) == WordFromBytes(b)
  {
    var c0, c1, c2, c3 := b[0], b[1], b[2], b[3];
    var r0, r1, r2, r3 := ReadPrefix(b, 0), ReadPrefix(b, 1), ReadPrefix(b, 2), ReadPrefix(b, 3);
    ReadPrefixStep(b, 1, r0, c0);
    ReadPrefixStep(b, 2, r1, c1);
    ReadPrefixStep(b, 3, r2, c2);
    ReadPrefixStep(b, 4, r3, c3);
    ShiftsCompose(c0, c1, c2, c3, r0, r1, r2, r3, ReadPrefix(b, 4));
  }

  /** The word `from_be_bytes` reads has the big-endian value of its bytes:
      the word view of the schedule and the integer view of the length field
      (Bytes.FromBigEndian) agree. */
  lemma WordFromBytesValue(b: seq<Byte>)
    requires |b| == 4
    ensures WordFromBytes(b) as nat == FromBigEndian(b)
  {
    ReadPrefixValue(b, 4);
    ReadPrefixWord(b);
    assert b[..4] == b;
  }

  // ---------------------------------------------------------------------
  // Message schedule (section 6.2.2, step 1)

  /** The schedule word that follows the prefix w (|w| >= 16). */
  function NextScheduleWord(w: seq<Word>): Word
    requires |w| >= 16
  {
    var i := |w|;
    WrappingAdd(WrappingAdd(WrappingAdd(w[i - 16], SmallSigma0(w[i - 15])), w[i - 7]), SmallSigma1(w[i - 2]))
  }

  /** The next schedule word in terms of the four words it depends on. */
  lemma NextScheduleWordOf(p: seq<Word>, n: nat, w16: Word, w15: Word, w7: Word, w2: Word)
    requires |p| == n >= 16
    requires p[n - 16] == w16 && p[n - 15] == w15 && p[n - 7] == w7 && p[n - 2] == w2
    ensures NextScheduleWord(p) == WrappingAdd(WrappingAdd(WrappingAdd(w16, SmallSigma0(w15)), w7), SmallSigma1(w2))
  {
  }

  /** The first n words of the message schedule of a block, in the order
      the crate's two loops fill the array `w`. */
  function SchedulePrefix(block: Block, n: nat): (w: seq<Word>)
    requires n <= 64
    ensures |w| == n
    decreases n
  {
    if n == 0 then []
    else
      var p := SchedulePrefix(block, n - 1);
      var i := n - 1;
      p + [if i < 16 then WordFromBytes(block[4 * i..4 * i + 4]) else NextScheduleWord(p)]
  }

  /** The 64-word message schedule W of a block. */
  function Schedule(block: Block): (w: seq<Word>)
    ensures |w| == 64
  {
    SchedulePrefix(block, 64)
  }

  /** A word, once computed, is not changed by later schedule steps. */
  lemma {:induction false} SchedulePrefixStable(block: Block, i: nat, n: nat, m: nat)
    requires i < n <= m <= 64
    ensures SchedulePrefix(block, m)[i] == SchedulePrefix(block, n)[i]
    decreases m
  {
    if m > n {
      SchedulePrefixStable(block, i, n, m - 1);
      var longer := SchedulePrefix(block, m);
      SchedulePrefixLast(block, m);
      assert longer[i] == longer[..m - 1][i];
    }
  }

  /** The prefix of length m without its last word is the prefix of
      length m - 1. */
  lemma SchedulePrefixLast(block: Block, m: nat)
    requires 0 < m <= 64
    ensures SchedulePrefix(block, m)[..m - 1] == SchedulePrefix(block, m - 1)
  {
  }

  /** The schedule word by word, as section 6.2.2 defines it: W[t] is the
      big-endian reading of bytes 4t..4t+3 for t < 16, ... */
  lemma ScheduleWordLoaded(block: Block, t: nat)
    requires t < 16
    ensures Schedule(block)[t] == WordFromBytes(block[4 * t..4 * t + 4])
  {
    SchedulePrefixStable(block, t, t + 1, 64);
  }

  /** Four consecutive bytes as a slice and as a display. */
  lemma SliceFour(s: seq<Byte>, i: nat)
    requires i + 4 <= |s|
    ensures s[i..i + 4] == [s[i], s[i + 1], s[i + 2], s[i + 3]]
  {
  }

  /** ... and W[t-16] + sigma0(W[t-15]) + W[t-7] + sigma1(W[t-2]) mod 2^32
      for 16 <= t < 64. */
  lemma ScheduleWordRecurrence(block: Block, t: nat)
    requires 16 <= t < 64
    ensures var w := Schedule(block);
      w[t] == WrappingAdd(WrappingAdd(WrappingAdd(w[t - 16], SmallSigma0(w[t - 15])), w[t - 7]), SmallSigma1(w[t - 2]))
  {
    var w, p := Schedule(block), SchedulePrefix(block, t);
    assert w[t] == NextScheduleWord(p) by {
      SchedulePrefixStable(block, t, t + 1, 64);
    }
    assert p[t - 16] == w[t - 16] && p[t - 15] == w[t - 15] && p[t - 7] == w[t - 7] && p[t - 2] == w[t - 2] by {
      SchedulePrefixStable(block, t - 2, t, 64);
      SchedulePrefixStable(block, t - 7, t, 64);
      SchedulePrefixStable(block, t - 15, t, 64);
      SchedulePrefixStable(block, t - 16, t, 64);
    }
    RecurrenceAt(w, p, t);
  }

  /** The recurrence at index t of a sequence whose word t follows the
      prefix p, and p agrees with it at the four words it depends on. */
  lemma RecurrenceAt(w: seq<Word>, p: seq<Word>, t: nat)
    requires 16 <= t < |w| && |p| == t && w[t] == NextScheduleWord(p)
    requires p[t - 16] == w[t - 16] && p[t - 15] == w[t - 15] && p[t - 7] == w[t - 7] && p[t - 2] == w[t - 2]
    ensures w[t] == WrappingAdd(WrappingAdd(WrappingAdd(w[t - 16], SmallSigma0(w[t - 15])), w[t - 7]), SmallSigma1(w[t - 2]))
  {
    NextScheduleWordOf(p, t, w[t - 16], w[t - 15], w[t - 7], w[t - 2]);
  }

  // ---------------------------------------------------------------------
  // Compression (section 6.2.2, steps 2 to 4)

  /** The eight working variables a..h. */
  datatype Vars = Vars(a: Word, b: Word, c: Word, d: Word, e: Word, f: Word, g: Word, h: Word)

  /** Step 2: the working variables start as the hash value. */
  function Load(h: HashValue): Vars
  {
    Vars(h[0], h[1], h[2], h[3], h[4], h[5], h[6], h[7])
  }

  /** One round with constant k and schedule word w (step 3). */
  function Round(v: Vars, k: Word, w: Word): Vars
  {
    var t1 := WrappingAdd(WrappingAdd(WrappingAdd(WrappingAdd(v.h, BigSigma1(v.e)), Ch(v.e, v.f, v.g)), k), w);
    var t2 := WrappingAdd(BigSigma0(v.a), Maj(v.a, v.b, v.c));
    Vars(WrappingAdd(t1, t2), v.a, v.b, v.c, WrappingAdd(v.d, t1), v.e, v.f, v.g)
  }

  /** The working variables after the first n rounds over schedule w. */
  function Rounds(v: Vars, w: seq<Word>, n: nat): Vars
    requires n <= |w| && n <= 64
  {
    if n == 0 then v else Round(Rounds(v, w, n - 1), K(n - 1), w[n - 1])
  }

  /** Each round computes only two new words, a and e: after round n the
      registers b, c, d hold a from rounds n - 1, n - 2, n - 3, and f, g, h
      hold e from those rounds. */
  lemma RoundsWindow(v: Vars, w: seq<Word>, n: nat)
    requires 3 <= n <= |w| && n <= 64
    ensures Rounds(v, w, n).b == Rounds(v, w, n - 1).a && Rounds(v, w, n).f == Rounds(v, w, n - 1).e
    ensures Rounds(v, w, n).c == Rounds(v, w, n - 2).a && Rounds(v, w, n).g == Rounds(v, w, n - 2).e
    ensures Rounds(v, w, n).d == Rounds(v, w, n - 3).a && Rounds(v, w, n).h == Rounds(v, w, n - 3).e
  {
  }

  /** Step 4: the Davies-Meyer feed-forward, word-wise modular addition of
      the working variables onto the hash value. */
  function FeedForward(h: HashValue, v: Vars): HashValue
  {
    [WrappingAdd(h[0], v.a), WrappingAdd(h[1], v.b), WrappingAdd(h[2], v.c), WrappingAdd(h[3], v.d),
     WrappingAdd(h[4], v.e), WrappingAdd(h[5], v.f), WrappingAdd(h[6], v.g), WrappingAdd(h[7], v.h)]
  }

  /** The compression function: the hash value after one more block. */
  function Transform(h: HashValue, block: Block): HashValue
  {
    FeedForward(h, Rounds(Load(h), Schedule(block), 64))
  }

  // ---------------------------------------------------------------------
  // Chaining over the blocks of a message

  /** m is a whole number of 64-byte blocks exactly when 64 divides |m|. */
  lemma {:induction false} WholeBlocksMod(n: nat)
    ensures WholeBlocks(n, 64) <==> n % 64 == 0
    decreases n
  {
    if n >= 64 {
      WholeBlocksMod(n - 64);
      assert (n - 64) % 64 == n % 64;
    }
  }

  /** m cut into its consecutive 64-byte blocks. */
  function Blocks(m: seq<Byte>): (bs: seq<Block>)
    requires WholeBlocks(|m|, 64)
    decreases |m|
  {
    if m == [] then [] else [m[..64]] + Blocks(m[64..])
  }

  /** The blocks of a ++ b are the blocks of a, then those of b. */
  lemma {:induction false} BlocksAppend(a: seq<Byte>, b: seq<Byte>)
    requires WholeBlocks(|a|, 64) && WholeBlocks(|b|, 64)
    ensures WholeBlocks(|a + b|, 64)
    ensures Blocks(a + b) == Blocks(a) + Blocks(b)
    decreases |a|
  {
    WholeBlocksAdd(|a|, |b|, 64);
    assert |a + b| == |a| + |b|;
    if a == [] {
      assert a + b == b;
    } else {
      assert (a + b)[..64] == a[..64];
      assert (a + b)[64..] == a[64..] + b;
      BlocksAppend(a[64..], b);
    }
  }

  /** The hash value after compressing the blocks of m, starting from h. */
  function HashBlocks(h: HashValue, m: seq<Byte>): HashValue
    requires WholeBlocks(|m|, 64)
  {
    Chain(Transform, h, Blocks(m))
  }

  /** One more block at the end of a whole-block stream is one more block
      in its split. */
  lemma BlocksSnoc(a: seq<Byte>, block: Block)
    requires WholeBlocks(|a|, 64)
    ensures WholeBlocks(|a + block|, 64)
    ensures Blocks(a + block) == Blocks(a) + [block]
  {
    assert WholeBlocks(|block|, 64) by {
      assert WholeBlocks(|block| - 64, 64);
    }
    BlocksAppend(a, block);
    assert block[..64] == block && block[64..] == [];
    assert Blocks(block) == [block];
  }

  /** Compressing one more block onto a prefix is one more Transform. */
  lemma HashBlocksExtend(h: HashValue, a: seq<Byte>, block: Block)
    requires WholeBlocks(|a|, 64)
    ensures WholeBlocks(|a + block|, 64)
    ensures HashBlocks(h, a + block) == Transform(HashBlocks(h, a), block)
  {
    BlocksSnoc(a, block);
    ChainSnoc(Transform, h, Blocks(a), block);
  }

  /** A single-block message hashes to one Transform. */
  lemma SingleBlock(h: HashValue, b: Block)
    ensures WholeBlocks(|b|, 64) && HashBlocks(h, b) == Transform(h, b)
  {
    assert WholeBlocks(|b|, 64) by {
      assert WholeBlocks(|b| - 64, 64);
    }
    assert b[..64] == b && b[64..] == [];
    assert Blocks(b) == [b];
    ChainOne(Transform, h, b);
  }

  // ---------------------------------------------------------------------
  // Padding (section 5.1.1) and the digest

  /** The number k of zero bytes between the 0x80 byte and the 8-byte
      length field, counted one block at a time: what is left after the
      whole blocks of n is padded to byte 56 of its block, or of the next
      block when fewer than 9 bytes remain. */
  function PadZeros(n: nat): (k: nat)
    ensures k < 64
    decreases n
  {
    if n >= 64 then PadZeros(n - 64) else if n < 56 then 55 - n else 119 - n
  }

  /** The zeros make up whole blocks together with n, the 0x80 byte and the
      8-byte length field. */
  lemma {:induction false} PadZerosFill(n: nat)
    ensures WholeBlocks(n + 1 + PadZeros(n) + 8, 64)
    decreases n
  {
    var k := PadZeros(n);
    if n >= 64 {
      PadZerosFill(n - 64);
      assert n + 1 + k + 8 - 64 == (n - 64) + 1 + PadZeros(n - 64) + 8;
    } else if n < 56 {
      assert WholeBlocks(n + 1 + k + 8 - 64, 64);
    } else {
      assert WholeBlocks(n + 1 + k + 8 - 128, 64);
      assert WholeBlocks(n + 1 + k + 8 - 64, 64);
    }
  }

  /** Section 5.1.1 in bytes: n + 1 + k = 56 (mod 64) for k = PadZeros(n). */
  lemma {:induction false} PadZerosCongruent(n: nat)
    ensures (n + 1 + PadZeros(n)) % 64 == 56
    decreases n
  {
    if n >= 64 {
      PadZerosCongruent(n - 64);
      assert (n + 1 + PadZeros(n)) % 64 == (n - 64 + 1 + PadZeros(n - 64)) % 64;
    }
  }

  /** ... and k is the least such number. */
  lemma {:induction false} PadZerosLeast(n: nat, j: nat)
    requires j < PadZeros(n)
    ensures (n + 1 + j) % 64 != 56
    decreases n
  {
    if n >= 64 {
      PadZerosLeast(n - 64, j);
      assert (n + 1 + j) % 64 == (n - 64 + 1 + j) % 64;
    }
  }

  /** `u64::to_be_bytes`: the eight big-endian bytes of x, which read back
      as x. */
  function U64ToBeBytes(x: nat): (r: seq<Byte>)
    requires x < U64Bound
    ensures |r| == 8 && FromBigEndian(r) == x
  {
    assert Pow256(8) == U64Bound;
    BigEndianRoundTrip(x, 8);
    BigEndian(x, 8)
  }

  /** The length field that ends the padding: the bit length 8n of an
      n-byte message as a 64-bit big-endian integer (Rust's
      `(total_len * 8).to_be_bytes()`). */
  function LengthField(n: nat): (r: seq<Byte>)
    requires n < MaxMessageBytes
    ensures |r| == 8 && FromBigEndian(r) == 8 * n
  {
    U64ToBeBytes(8 * n)
  }

  /** The padded message: m, the byte 0x80, k zero bytes and the length
      field. It is a whole number of blocks, begins with m and adds between
      9 and 72 bytes. */
  function Pad(m: seq<Byte>): (p: seq<Byte>)
    requires |m| < MaxMessageBytes
    ensures WholeBlocks(|p|, 64) && |m| + 9 <= |p| <= |m| + 72
  {
    PadZerosFill(|m|);
    m + [0x80] + Zeros(PadZeros(|m|)) + LengthField(|m|)
  }

  /** The shape of the padded message, byte by byte: m, then 0x80, then
      zeros, then the bit length 8 |m| as a big-endian number in the last
      8 bytes. */
  lemma PadShape(m: seq<Byte>)
    requires |m| < MaxMessageBytes
    ensures var p := Pad(m);
      && p[..|m|] == m && p[|m|] == 0x80
      && (forall i :: |m| < i < |p| - 8 ==> p[i] == 0)
      && FromBigEndian(p[|p| - 8..]) == 8 * |m|
  {
    var p := Pad(m);
    assert p[|p| - 8..] == LengthField(|m|);
  }


  /** The padding of a message of fewer than 32 bytes: one block whose
      length field is seven zero bytes and the bit length. */
  lemma PadShort(m: seq<Byte>)
    requires |m| < 32
    ensures Pad(m) == m + [0x80] + Zeros(55 - |m|) + (Zeros(7) + [ToByte(8 * |m|)])
  {
    assert PadZeros(|m|) == 55 - |m|;
    assert Pow256(8) == U64Bound;
    BigEndianSmall(8 * |m|, 8);
  }

  /** The big-endian concatenation of the words of h. */
  function Serialize(h: seq<Word>): (r: seq<Byte>)
    ensures |r| == 4 * |h|
  {
    if h == [] then [] else Serialize(h[..|h| - 1]) + WordToBytes(h[|h| - 1])
  }

  /** Bytes 4i..4i+3 of the serialisation are word i, big-endian. */
  lemma {:induction false} SerializeWord(h: seq<Word>, i: nat)
    requires i < |h|
    ensures Serialize(h)[4 * i..4 * i + 4] == WordToBytes(h[i])
    ensures WordFromBytes(Serialize(h)[4 * i..4 * i + 4]) == h[i]
    decreases |h|
  {
    var n := |h|;
    if i < n - 1 {
      SerializeWord(h[..n - 1], i);
      assert Serialize(h)[4 * i..4 * i + 4] == Serialize(h[..n - 1])[4 * i..4 * i + 4];
    }
  }

  /** The serialisation of the first i + 1 words is that of the first i
      followed by the bytes of word i. */
  lemma SerializeSnoc(h: seq<Word>, i: nat)
    requires i < |h|
    ensures Serialize(h[..i + 1]) == Serialize(h[..i]) + WordToBytes(h[i])
  {
    assert h[..i + 1][..i] == h[..i];
  }

  /** With 56 to 63 bytes buffered (so that the zero run is 119 - |tail|
      bytes long) the padding of c + tail after c is two blocks: tail, 0x80
      and zeros; then 56 zeros and the length field. */
  lemma TwoFinalBlocks(c: seq<Byte>, tail: seq<Byte>)
    requires |c + tail| < MaxMessageBytes
    requires 56 <= |tail| < 64 && PadZeros(|c + tail|) == 119 - |tail|
    ensures c + (tail + [0x80] + Zeros(63 - |tail|)) + (Zeros(56) + LengthField(|c + tail|)) == Pad(c + tail)
  {
    var k, z, lf := 119 - |tail|, 63 - |tail|, LengthField(|c + tail|);
    calc {
      Pad(c + tail);
    == { SplitPad(c, tail, k); }
      c + (tail + [0x80] + Zeros(k) + lf);
    == { ZerosAppend(z, 56, k); }
      c + (tail + [0x80] + (Zeros(z) + Zeros(56)) + lf);
    == { Regroup(c, tail, [0x80], Zeros(z), Zeros(56), lf); }
      c + (tail + [0x80] + Zeros(z)) + (Zeros(56) + lf);
    }
  }

  /** What `finalize` compresses is the padding of the stream c + tail,
      where c is the whole blocks compressed so far and tail the buffered
      bytes (so that the zero run fills the block of tail, or that block
      and 56 bytes of the next): `front` is the stream compressed before the last block and
      `lead` the bytes in the buffer ahead of the zeros of the last block.
      With at most 55 bytes buffered the last block is tail, 0x80, zeros and
      the length field; with 56 to 63 the block of tail, 0x80 and zeros
      comes first and the last block is 56 zeros and the length field. */
  lemma FinalBlocks(c: seq<Byte>, tail: seq<Byte>, front: seq<Byte>, lead: seq<Byte>)
    requires |c + tail| < MaxMessageBytes
    requires |tail| < 64 && PadZeros(|c + tail|) == if |tail| < 56 then 55 - |tail| else 119 - |tail|
    requires |tail| < 56 ==> front == c && lead == tail + [0x80]
    requires |tail| >= 56 ==> front == c + (tail + [0x80] + Zeros(63 - |tail|)) && lead == []
    ensures |lead| <= 56
    ensures front + (lead + Zeros(56 - |lead|) + LengthField(|c + tail|)) == Pad(c + tail)
  {
    if |tail| < 56 {
      SplitPad(c, tail, 55 - |tail|);
      assert Zeros(56 - |lead|) == Zeros(55 - |tail|);
    } else {
      TwoFinalBlocks(c, tail);
      assert lead + Zeros(56 - |lead|) == Zeros(56);
    }
  }

  /** The padding of c + tail, split after c, given its number of zeros. */
  lemma SplitPad(c: seq<Byte>, tail: seq<Byte>, k: nat)
    requires |c + tail| < MaxMessageBytes && PadZeros(|c + tail|) == k
    ensures Pad(c + tail) == c + (tail + [0x80] + Zeros(k) + LengthField(|c + tail|))
  {
    var m := c + tail;
    assert Pad(m) == m + [0x80] + Zeros(k) + LengthField(|m|);
    RegroupOne(c, tail, [0x80], Zeros(k), LengthField(|m|));
  }

  /** Regrouping a concatenation of five byte strings into the block
      `finalize` builds. */
  lemma RegroupOne(a: seq<Byte>, b: seq<Byte>, c: seq<Byte>, d: seq<Byte>, e: seq<Byte>)
    ensures a + b + c + d + e == a + (b + c + d + e)
  {
  }

  /** Regrouping a concatenation of six byte strings into the two blocks
      `finalize` builds. */
  lemma Regroup(a: seq<Byte>, b: seq<Byte>, c: seq<Byte>, d: seq<Byte>, e: seq<Byte>, f: seq<Byte>)
    ensures a + (b + c + (d + e) + f) == a + (b + c + d) + (e + f)
  {
  }

  /** After whole blocks and r more bytes, the zero run of the padding
      fills the block (r <= 55) or the block and 56 bytes of the next. */
  lemma {:induction false} PadZerosAfterBlocks(n: nat, r: nat, m: nat)
    requires WholeBlocks(n, 64) && r < 64 && m == n + r
    ensures PadZeros(m) == if r < 56 then 55 - r else 119 - r
    decreases n
  {
    if n > 0 {
      PadZerosAfterBlocks(n - 64, r, m - 64);
    }
  }


  /** The three steps of `update` together append data to the stream:
      before ++ mid is the stream after topping up the buffer (mid the
      bytes still buffered, start the input consumed), after is the
      compressed stream once the whole blocks from start to pos are folded,
      and rest what the buffer holds at the end. */
  lemma AbsorbSplit(pending: seq<Byte>, data: seq<Byte>, before: seq<Byte>, mid: seq<Byte>,
                    after: seq<Byte>, rest: seq<Byte>, start: nat, pos: nat)
    requires start <= pos <= |data|
    requires before + mid == pending + data[..start]
    requires after + data[pos..] == before + data[start..]
    requires mid == [] || start == |data|
    requires if pos < |data| then rest == data[pos..] else rest == mid
    ensures after + rest == pending + data
  {
    assert data == data[..start] + data[start..];
    if mid != [] {
      assert data[start..] == [] && data[pos..] == [];
      assert after + data[pos..] == after && before + data[start..] == before;
    } else {
      assert before + mid == before;
      if pos == |data| {
        assert data[pos..] == [] && after + data[pos..] == after && after + rest == after;
      }
    }
  }

  /** The SHA-256 digest of a message of fewer than 2^61 bytes. */
  function Digest(m: seq<Byte>): (d: seq<Byte>)
    requires |m| < MaxMessageBytes
    ensures |d| == 32
  {
    Serialize(HashBlocks(IV, Pad(m)))
  }

  // ---------------------------------------------------------------------
  // The crate's code


  /** `Sha256State::new`: a fresh hash-state array holding the IV. */
  method NewState() returns (state: array<Word>)
    ensures fresh(state) && state[..] == IV
  {
    state := new Word[8];
    state[0], state[1], state[2], state[3] := 0x6a09e667, 0xbb67ae85, 0x3c6ef372, 0xa54ff53a;
    state[4], state[5], state[6], state[7] := 0x510e527f, 0x9b05688c, 0x1f83d9ab, 0x5be0cd19;
  }

  /** The first part of `sha256_transform_generic`: fills the 64-word
      schedule array, W[0..15] from the block and the rest by the sigma
      recurrence. */
  method MessageSchedule(data: Block) returns (w: array<Word>)
    ensures fresh(w) && w[..] == Schedule(data)
  {
    w := new Word[64];
    LoadWords(data, w);
    ExpandWords(data, w);
  }

  /** The first loop of the schedule: W[0..15] are the big-endian words of
      the block. */
  method LoadWords(data: Block, w: array<Word>)
    requires w.Length == 64
    modifies w
    ensures w[..16] == SchedulePrefix(data, 16)
  {
    for i := 0 to 16
      invariant w[..i] == SchedulePrefix(data, i)
    {
      LoadWord(data, w, i);
    }
  }

  /** One step of the first loop: W[i] from bytes 4i..4i+3. */
  method LoadWord(data: Block, w: array<Word>, i: nat)
    requires w.Length == 64 && i < 16 && w[..i] == SchedulePrefix(data, i)
    modifies w
    ensures w[..i + 1] == SchedulePrefix(data, i + 1)
  {
    var word := WordFromBytes([data[i * 4], data[i * 4 + 1], data[i * 4 + 2], data[i * 4 + 3]]);
    LoadedNext(data, i, word);
    SetWord(w, i, word);
  }

  /** The loaded word i extends the schedule prefix of length i. */
  lemma LoadedNext(data: Block, i: nat, word: Word)
    requires i < 16
    requires word == WordFromBytes([data[i * 4], data[i * 4 + 1], data[i * 4 + 2], data[i * 4 + 3]])
    ensures SchedulePrefix(data, i + 1) == SchedulePrefix(data, i) + [word]
  {
    SliceFour(data, 4 * i);
  }

  /** Stores word at index i: the first i + 1 entries are the first i
      followed by word, and the entries after it are unchanged. */
  method SetWord(w: array<Word>, i: nat, word: Word)
    requires i < w.Length
    modifies w
    ensures w[..i + 1] == old(w[..i]) + [word]
    ensures w[i + 1..] == old(w[i + 1..])
  {
    w[i] := word;
    assert w[..i + 1] == w[..i] + [w[i]];
  }

  /** The second loop of the schedule: W[16..63] by the sigma recurrence. */
  method ExpandWords(data: Block, w: array<Word>)
    requires w.Length == 64 && w[..16] == SchedulePrefix(data, 16)
    modifies w
    ensures w[..] == Schedule(data)
  {
    for i := 16 to 64
      invariant w[..i] == SchedulePrefix(data, i)
    {
      ExpandWord(data, w, i);
    }
    assert w[..] == w[..64];
  }

  /** One step of the second loop: W[i] from W[i-16], W[i-15], W[i-7] and
      W[i-2]. */
  method ExpandWord(data: Block, w: array<Word>, i: nat)
    requires w.Length == 64 && 16 <= i < 64 && w[..i] == SchedulePrefix(data, i)
    modifies w
    ensures w[..i + 1] == SchedulePrefix(data, i + 1)
  {
    var s0 := SmallSigma0(w[i - 15]);
    var s1 := SmallSigma1(w[i - 2]);
    w[i] := WrappingAdd(WrappingAdd(WrappingAdd(w[i - 16], s0), w[i - 7]), s1);
    assert w[..i + 1] == w[..i] + [w[i]];
  }


  /** The 64 rounds of `sha256_transform_generic` on the working variables
      loaded from the state. */
  method CompressRounds(state: array<Word>, w: array<Word>) returns (v: Vars)
    requires state.Length == 8 && w.Length == 64
    ensures v == Rounds(Load(state[..]), w[..], 64)
  {
    var a, b, c, d, e, f, g, h := state[0], state[1], state[2], state[3], state[4], state[5], state[6], state[7];
    for i := 0 to 64
      invariant Vars(a, b, c, d, e, f, g, h) == Rounds(Load(state[..]), w[..], i)
    {
      var s1 := BigSigma1(e);
      var ch := Ch(e, f, g);
      var temp1 := WrappingAdd(WrappingAdd(WrappingAdd(WrappingAdd(h, s1), ch), K(i)), w[i]);
      var s0 := BigSigma0(a);
      var maj := Maj(a, b, c);
      var temp2 := WrappingAdd(s0, maj);
      h := g;
      g := f;
      f := e;
      e := WrappingAdd(d, temp1);
      d := c;
      c := b;
      b := a;
      a := WrappingAdd(temp1, temp2);
    }
    v := Vars(a, b, c, d, e, f, g, h);
  }

  /** The last step of `sha256_transform_generic`: each state word gets
      its working variable added, wrapping. */
  method FeedForwardInPlace(state: array<Word>, v: Vars)
    requires state.Length == 8
    modifies state
    ensures state[..] == FeedForward(old(state[..]), v)
  {
    var n0, n1, n2, n3 := WrappingAdd(state[0], v.a), WrappingAdd(state[1], v.b), WrappingAdd(state[2], v.c), WrappingAdd(state[3], v.d);
    var n4, n5, n6, n7 := WrappingAdd(state[4], v.e), WrappingAdd(state[5], v.f), WrappingAdd(state[6], v.g), WrappingAdd(state[7], v.h);
    assert FeedForward(state[..], v) == [n0, n1, n2, n3, n4, n5, n6, n7];
    state[0], state[1], state[2], state[3], state[4], state[5], state[6], state[7] := n0, n1, n2, n3, n4, n5, n6, n7;
  }

  /** `sha256_transform_generic`: compresses one block into the state in
      place: the schedule, the 64 rounds, then the feed-forward. */
  method TransformGeneric(state: array<Word>, data: Block)
    requires state.Length == 8
    modifies state
    ensures state[..] == Transform(old(state[..]), data)
  {
    var w := MessageSchedule(data);
    var v := CompressRounds(state, w);
    FeedForwardInPlace(state, v);
  }

  /** `sha256_transform_arm` outside ARM targets: delegates to the generic
      transform, so it computes exactly the same state. */
  method TransformArm(state: array<Word>, data: Block)
    requires state.Length == 8
    modifies state
    ensures state[..] == Transform(old(state[..]), data)
  {
    TransformGeneric(state, data);
  }

  /** The digest loop of `finalize`: the state words, big-endian, in
      order. */
  method StateBytes(state: array<Word>) returns (result: seq<Byte>)
    requires state.Length == 8
    ensures result == Serialize(state[..])
  {
    var out := new Byte[32];
    for i := 0 to 8
      invariant out[..4 * i] == Serialize(state[..i])
    {
      WriteWord(out, state, i);
    }
    assert state[..8] == state[..];
    result := out[..];
  }

  /** One step of the digest loop: word i goes to bytes 4i..4i+3. */
  method WriteWord(out: array<Byte>, state: array<Word>, i: nat)
    requires out.Length == 32 && state.Length == 8 && i < 8
    requires out[..4 * i] == Serialize(state[..i])
    modifies out
    ensures out[..4 * i + 4] == Serialize(state[..i + 1])
    ensures out[4 * i + 4..] == old(out[4 * i + 4..])
  {
    var bytes := WordToBytes(state[i]);
    CopyInto(out, 4 * i, bytes);
    SerializeSnoc(state[..], i);
  }

  /** The incremental hasher (the crate's `Sha256`). `absorbed` is the
      stream of bytes given to `Update` so far and `compressed` the part of
      it already folded into `state`. */
  class Hasher {
    var state: array<Word>
    var buffer: array<Byte>
    var bufferLen: nat
    var totalLen: nat
    ghost var absorbed: seq<Byte>
    ghost var compressed: seq<Byte>
    /** The compression function the state is folded with: it agrees with
        Transform (see Folded). Folding with this name rather than with
        Transform itself keeps the rounds out of the proofs that only move
        bytes between the input and the buffer. */
    ghost const compress: (HashValue, Block) -> HashValue

    /** The hash state is the hash value of the compressed blocks. */
    ghost predicate Folded()
      reads this`state, this`compressed, state
    {
      && state.Length == 8 && WholeBlocks(|compressed|, 64)
      && (forall h, b {:trigger Transform(h, b)} :: compress(h, b) == Transform(h, b))
      && state[..] == Chain(compress, IV, Blocks(compressed))
    }

    /** Between calls: the buffer holds less than a block; the total counts
        the absorbed bytes and fits a `u64`; the stream is the compressed
        whole blocks followed by the buffered bytes; and `state` is the hash
        value of the compressed blocks. */
    ghost predicate Valid()
      reads this, state, buffer
    {
      && Folded() && buffer.Length == 64
      && bufferLen < 64
      && totalLen == |absorbed| && totalLen < U64Bound
      && absorbed == compressed + buffer[..bufferLen]
    }

    /** `Sha256::new`. */
    constructor ()
      ensures Valid() && fresh(state) && fresh(buffer)
      ensures absorbed == [] && bufferLen == 0 && totalLen == 0
    {
      var h := NewState();
      state := h;
      buffer := new Byte[64](_ => 0);
      bufferLen := 0;
      totalLen := 0;
      absorbed := [];
      compressed := [];
      compress := Transform;
    }

    /** One call of the transform from `update` or `finalize`: folds a
        whole block into the state. */
    method CompressBlock(block: Block)
      requires Folded()
      modifies this`compressed, state
      ensures Folded() && compressed == old(compressed) + block
    {
      TransformGeneric(state, block);
      BlocksSnoc(compressed, block);
      ChainSnoc(compress, IV, Blocks(compressed), block);
      compressed := compressed + block;
    }

    /** The first step of `update` when bytes are buffered: moves the first
        min(64 - bufferLen, |data|) bytes of data into the buffer and
        compresses it once it is full. */
    method TopUp(data: seq<Byte>) returns (pos: nat)
      requires Folded() && buffer.Length == 64 && 0 < bufferLen < 64
      modifies this`compressed, this`bufferLen, state, buffer
      ensures Folded() && bufferLen < 64 && pos <= |data|
      ensures bufferLen == 0 || pos == |data|
      ensures pos == if 64 - old(bufferLen) < |data| then 64 - old(bufferLen) else |data|
      ensures compressed + buffer[..bufferLen] == old(compressed + buffer[..bufferLen]) + data[..pos]
    {
      var toCopy := if 64 - bufferLen < |data| then 64 - bufferLen else |data|;
      ghost var before := buffer[..bufferLen];
      forall k | 0 <= k < toCopy {
        buffer[bufferLen + k] := data[k];
      }
      assert buffer[..bufferLen + toCopy] == before + data[..toCopy];
      bufferLen := bufferLen + toCopy;
      pos := toCopy;
      assert compressed + buffer[..bufferLen] == compressed + before + data[..pos];

      if bufferLen == 64 {
        var full := buffer[..];
        assert full == buffer[..bufferLen];
        CompressBlock(full);
        bufferLen := 0;
        assert compressed + buffer[..bufferLen] == old(compressed) + full;
      }
    }

    /** The last step of `update`: the bytes after the last whole block go
        to the front of the empty buffer. */
    method StoreRest(data: seq<Byte>, pos: nat)
      requires buffer.Length == 64 && pos < |data| < pos + 64
      modifies this`bufferLen, buffer
      ensures bufferLen < 64 && buffer[..bufferLen] == data[pos..]
    {
      var remaining := |data| - pos;
      forall k | 0 <= k < remaining {
        buffer[k] := data[pos + k];
      }
      bufferLen := remaining;
    }

    /** The middle step of `update`: with the buffer empty, compresses the
        whole blocks of data from pos on directly from the input. */
    method CompressDirect(data: seq<Byte>, start: nat) returns (pos: nat)
      requires Folded() && start <= |data|
      modifies this`compressed, state
      ensures Folded() && start <= pos <= |data| < pos + 64
      ensures compressed + data[pos..] == old(compressed) + data[start..]
    {
      pos := start;
      while pos + 64 <= |data|
        invariant Folded() && start <= pos <= |data|
        invariant compressed + data[pos..] == old(compressed) + data[start..]
        decreases |data| - pos
      {
        assert data[pos..] == data[pos..pos + 64] + data[pos + 64..];
        CompressBlock(data[pos..pos + 64]);
        pos := pos + 64;
      }
    }

    /** `update`: appends data to the stream. The `u64` addition to
        `total_len` must not overflow. */
    method Update(data: seq<Byte>)
      requires Valid()
      requires totalLen + |data| < U64Bound
      modifies this, state, buffer
      ensures Valid()
      ensures state == old(state) && buffer == old(buffer)
      ensures absorbed == old(absorbed) + data
      ensures totalLen == old(totalLen) + |data|
    {
      totalLen := totalLen + |data|;
      absorbed := absorbed + data;
      Absorb(data);
    }

    /** The buffer and block handling of `update`: top up the buffer, then
        whole blocks straight from the input, then the rest into the
        buffer. The stream of compressed and buffered bytes grows by data. */
    method Absorb(data: seq<Byte>)
      requires Folded() && buffer.Length == 64 && bufferLen < 64
      modifies this`compressed, this`bufferLen, state, buffer
      ensures Folded() && bufferLen < 64
      ensures compressed + buffer[..bufferLen] == old(compressed + buffer[..bufferLen]) + data
    {
      ghost var pending := compressed + buffer[..bufferLen];
      var pos := 0;
      if bufferLen > 0 {
        pos := TopUp(data);
      }
      ghost var mid, start, before := buffer[..bufferLen], pos, compressed;
      pos := CompressDirect(data, pos);
      if pos < |data| {
        StoreRest(data, pos);
      }
      AbsorbSplit(pending, data, before, mid, compressed, buffer[..bufferLen], start, pos);
    }

    /** The zero-fill loops of `finalize`: zero bytes up to index n. */
    method ZeroFill(n: nat)
      requires buffer.Length == 64 && bufferLen <= n <= 64
      modifies this`bufferLen, buffer
      ensures bufferLen == n
      ensures buffer[..n] == old(buffer[..bufferLen]) + Zeros(n - old(bufferLen))
    {
      ghost var start := bufferLen;
      while bufferLen < n
        invariant start <= bufferLen <= n
        invariant buffer[..bufferLen] == old(buffer[..bufferLen]) + Zeros(bufferLen - start)
      {
        buffer[bufferLen] := 0;
        bufferLen := bufferLen + 1;
      }
    }

    /** The last step of the padding: the length field goes to bytes 56..63. */
    method WriteLength(lenBytes: seq<Byte>)
      requires buffer.Length == 64 && |lenBytes| == 8
      modifies buffer
      ensures buffer[..] == old(buffer[..56]) + lenBytes
    {
      forall k | 0 <= k < 8 {
        buffer[56 + k] := lenBytes[k];
      }
    }

    /** The first steps of `finalize`: the byte 0x80 after the buffered
        bytes and, when the 8-byte length no longer fits behind it, zeros to
        the end of the block and one more transform. */
    method StartPadding()
      requires Folded() && buffer.Length == 64 && bufferLen < 64
      modifies this`bufferLen, this`compressed, state, buffer
      ensures Folded() && bufferLen <= 56
      ensures old(bufferLen) < 56 ==>
        compressed == old(compressed) && buffer[..bufferLen] == old(buffer[..bufferLen]) + [0x80]
      ensures old(bufferLen) >= 56 ==>
        bufferLen == 0 && compressed == old(compressed) + (old(buffer[..bufferLen]) + [0x80] + Zeros(63 - old(bufferLen)))
    {
      buffer[bufferLen] := 0x80;
      bufferLen := bufferLen + 1;

      if bufferLen > 56 {
        ZeroFill(64);
        assert buffer[..] == buffer[..64];
        CompressBlock(buffer[..]);
        bufferLen := 0;
      }
    }

    /** The last steps of `finalize`: zeros up to byte 56, the bit length
        big-endian in bytes 56..63, and the last transform. */
    method FinishPadding(bitLen: nat)
      requires Folded() && buffer.Length == 64 && bufferLen <= 56
      requires bitLen < U64Bound
      modifies this`bufferLen, this`compressed, state, buffer
      ensures Folded()
      ensures compressed == old(compressed) + (old(buffer[..bufferLen]) + Zeros(56 - old(bufferLen)) + U64ToBeBytes(bitLen))
    {
      ghost var lead := buffer[..bufferLen];
      ZeroFill(56);
      var lenBytes := U64ToBeBytes(bitLen);
      WriteLength(lenBytes);
      var block := buffer[..];
      assert block == lead + Zeros(56 - old(bufferLen)) + lenBytes;
      CompressBlock(block);
    }

    /** The padding half of `finalize`: afterwards the whole padded stream
        is compressed. */
    method PadAndCompress()
      requires Valid()
      requires totalLen < MaxMessageBytes
      modifies this`bufferLen, this`compressed, state, buffer
      ensures Folded() && compressed == Pad(absorbed)
    {
      ghost var c, tail := compressed, buffer[..bufferLen];
      var bitLen := totalLen * 8;
      assert bitLen == 8 * |c + tail|;
      assert U64ToBeBytes(bitLen) == LengthField(|c + tail|);
      StartPadding();
      ghost var front, lead := compressed, buffer[..bufferLen];
      assert Zeros(56 - bufferLen) == Zeros(56 - |lead|);
      FinishPadding(bitLen);
      PadZerosAfterBlocks(|c|, |tail|, |c + tail|);
      FinalBlocks(c, tail, front, lead);
      assert absorbed == c + tail;
    }

    /** `finalize`: pads and compresses the stream, then returns the
        big-endian bytes of the state words. The hasher is consumed: its
        state no longer satisfies Valid. */
    method Finalize() returns (digest: seq<Byte>)
      requires Valid()
      requires totalLen < MaxMessageBytes
      modifies this, state, buffer
      ensures digest == Digest(old(absorbed))
    {
      PadAndCompress();
      digest := StateBytes(state);
      ChainAgree(compress, Transform, IV, Blocks(compressed));
    }
  }

  /** Chunking does not matter: a hasher fed a and then b returns the
      digest of a ++ b, the same as one `update` with all the bytes. */
  method HashInTwoUpdates(a: seq<Byte>, b: seq<Byte>) returns (d: seq<Byte>)
    requires |a| + |b| < MaxMessageBytes
    ensures d == Digest(a + b)
  {
    var hasher := new Hasher();
    hasher.Update(a);
    hasher.Update(b);
    assert hasher.absorbed == a + b;
    d := hasher.Finalize();
  }
}
