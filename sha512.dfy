/** The portable SHA-512 crate: the constant tables, the generic compression
    function over one 128-byte block, and the incremental hasher with its
    one-block residual buffer. The specification functions follow FIPS 180-4
    (sections 4.1.3, 4.2.3, 5.1.2, 5.3.5 and 6.4.2); the methods follow the
    crate's loops and in-place updates and are proved against them. */
module Sha512 {
  import opened Bytes

  type Word = bv64

  /** A 128-byte message block (the crate's `&[u8; 128]`). */
  type Block = b: seq<Byte> | |b| == 128 witness Zeros(128)

  /** A hash value H(i): eight words (the crate's `Sha512State::h`). */
  type HashValue = h: seq<Word> | |h| == 8 witness [0, 0, 0, 0, 0, 0, 0, 0]

  /** Largest message, in bytes, whose bit length fits the 128-bit length
      field (and Rust's `u128` product `total_len * 8`). */
  const MaxMessageBytes: nat := 0x2000_0000_0000_0000_0000_0000_0000_0000

  /** Bound of the `u128` total byte counter. */
  const U128Bound: nat := 0x1_0000_0000_0000_0000_0000_0000_0000_0000

  /** Initial hash value H(0) (section 5.3.5), as `Sha512State::new` sets it. */
  const IV: HashValue := [
    0x6a09e667f3bcc908, 0xbb67ae8584caa73b, 0x3c6ef372fe94f82b, 0xa54ff53a5f1d36f1,
    0x510e527fade682d1, 0x9b05688c2b3e6c1f, 0x1f83d9abfb41bd6b, 0x5be0cd19137e2179
  ]

  /** The round constant K[t] (section 4.2.3), t < 80: the crate's table
      `K`, written as a function of the index. */
  function K(t: nat): Word
    requires t < 80
  {
    match t
    case 0 => 0x428a2f98d728ae22
    case 1 => 0x7137449123ef65cd
    case 2 => 0xb5c0fbcfec4d3b2f
    case 3 => 0xe9b5dba58189dbbc
    case 4 => 0x3956c25bf348b538
    case 5 => 0x59f111f1b605d019
    case 6 => 0x923f82a4af194f9b
    case 7 => 0xab1c5ed5da6d8118
    case 8 => 0xd807aa98a3030242
    case 9 => 0x12835b0145706fbe
    case 10 => 0x243185be4ee4b28c
    case 11 => 0x550c7dc3d5ffb4e2
    case 12 => 0x72be5d74f27b896f
    case 13 => 0x80deb1fe3b1696b1
    case 14 => 0x9bdc06a725c71235
    case 15 => 0xc19bf174cf692694
    case 16 => 0xe49b69c19ef14ad2
    case 17 => 0xefbe4786384f25e3
    case 18 => 0x0fc19dc68b8cd5b5
    case 19 => 0x240ca1cc77ac9c65
    case 20 => 0x2de92c6f592b0275
    case 21 => 0x4a7484aa6ea6e483
    case 22 => 0x5cb0a9dcbd41fbd4
    case 23 => 0x76f988da831153b5
    case 24 => 0x983e5152ee66dfab
    case 25 => 0xa831c66d2db43210
    case 26 => 0xb00327c898fb213f
    case 27 => 0xbf597fc7beef0ee4
    case 28 => 0xc6e00bf33da88fc2
    case 29 => 0xd5a79147930aa725
    case 30 => 0x06ca6351e003826f
    case 31 => 0x142929670a0e6e70
    case 32 => 0x27b70a8546d22ffc
    case 33 => 0x2e1b21385c26c926
    case 34 => 0x4d2c6dfc5ac42aed
    case 35 => 0x53380d139d95b3df
    case 36 => 0x650a73548baf63de
    case 37 => 0x766a0abb3c77b2a8
    case 38 => 0x81c2c92e47edaee6
    case 39 => 0x92722c851482353b
    case 40 => 0xa2bfe8a14cf10364
    case 41 => 0xa81a664bbc423001
    case 42 => 0xc24b8b70d0f89791
    case 43 => 0xc76c51a30654be30
    case 44 => 0xd192e819d6ef5218
    case 45 => 0xd69906245565a910
    case 46 => 0xf40e35855771202a
    case 47 => 0x106aa07032bbd1b8
    case 48 => 0x19a4c116b8d2d0c8
    case 49 => 0x1e376c085141ab53
    case 50 => 0x2748774cdf8eeb99
    case 51 => 0x34b0bcb5e19b48a8
    case 52 => 0x391c0cb3c5c95a63
    case 53 => 0x4ed8aa4ae3418acb
    case 54 => 0x5b9cca4f7763e373
    case 55 => 0x682e6ff3d6b2b8a3
    case 56 => 0x748f82ee5defb2fc
    case 57 => 0x78a5636f43172f60
    case 58 => 0x84c87814a1f0ab72
    case 59 => 0x8cc702081a6439ec
    case 60 => 0x90befffa23631e28
    case 61 => 0xa4506cebde82bde9
    case 62 => 0xbef9a3f7b2c67915
    case 63 => 0xc67178f2e372532b
    case 64 => 0xca273eceea26619c
    case 65 => 0xd186b8c721c0c207
    case 66 => 0xeada7dd6cde0eb1e
    case 67 => 0xf57d4f7fee6ed178
    case 68 => 0x06f067aa72176fba
    case 69 => 0x0a637dc5a2c898a6
    case 70 => 0x113f9804bef90dae
    case 71 => 0x1b710b35131c471b
    case 72 => 0x28db77f523047d84
    case 73 => 0x32caab7b40c72493
    case 74 => 0x3c9ebe0a15c9bebc
    case 75 => 0x431d67c49c100d4c
    case 76 => 0x4cc5d4becb3e42b6
    case 77 => 0x597f299cfc657e2a
    case 78 => 0x5fcb6fab3ad6faec
    case _ => 0x6c44198c4a475817
  }

  /** Addition modulo 2^64 (`bv64` addition wraps): Rust's
      `u64::wrapping_add`. */
  function WrappingAdd(x: Word, y: Word): Word
  {
    x + y
  }

  // ---------------------------------------------------------------------
  // The logical functions of section 4.1.3 (`rotate_right` is ROTR, `>>` SHR)

  function Ch(x: Word, y: Word, z: Word): Word { (x & y) ^ (!x & z) }
  function Maj(x: Word, y: Word, z: Word): Word { (x & y) ^ (x & z) ^ (y & z) }
  function BigSigma0(x: Word): Word { x.RotateRight(28) ^ x.RotateRight(34) ^ x.RotateRight(39) }
  function BigSigma1(x: Word): Word { x.RotateRight(14) ^ x.RotateRight(18) ^ x.RotateRight(41) }
  function SmallSigma0(x: Word): Word { x.RotateRight(1) ^ x.RotateRight(8) ^ (x >> 7) }
  function SmallSigma1(x: Word): Word { x.RotateRight(19) ^ x.RotateRight(61) ^ (x >> 6) }

  /** Ch picks, bit by bit, y where x is set and z where it is clear. */
  lemma ChChooses(x: Word, y: Word, z: Word)
    ensures Ch(x, y, z) == (x & y) | (!x & z)
  {
  }

  /** Maj is the bitwise majority of its three arguments. */
  lemma MajIsMajority(x: Word, y: Word, z: Word)
    ensures Maj(x, y, z) == (x & y) | (x & z) | (y & z)
  {
  }

  // ---------------------------------------------------------------------
  // Words and bytes

  /** `u64::from_be_bytes`. */
  function WordFromBytes(b: seq<Byte>): Word
    requires |b| == 8
  {
    ((b[0] as Word) << 56) | ((b[1] as Word) << 48) | ((b[2] as Word) << 40) | ((b[3] as Word) << 32)
    | ((b[4] as Word) << 24) | ((b[5] as Word) << 16) | ((b[6] as Word) << 8) | (b[7] as Word)
  }

  /** `u64::to_be_bytes`; reading the bytes back gives the word. */
  function WordToBytes(x: Word): (r: seq<Byte>)
    ensures |r| == 8
    ensures WordFromBytes(r) == x
  {
    [(x >> 56) as Byte, ((x >> 48) & 0xff) as Byte, ((x >> 40) & 0xff) as Byte, ((x >> 32) & 0xff) as Byte,
     ((x >> 24) & 0xff) as Byte, ((x >> 16) & 0xff) as Byte, ((x >> 8) & 0xff) as Byte, (x & 0xff) as Byte]
  }

  /** The other direction: eight bytes read as a word and written back are
      the same eight bytes. */
  lemma WordBytesRoundTrip(b: seq<Byte>)
    requires |b| == 8
    ensures WordToBytes(WordFromBytes(b)) == b
  {
  }

  /** The first k bytes of b read big-endian into a word, one byte at a
      time. */
  function ReadPrefix(b: seq<Byte>, k: nat): Word
    requires k <= |b|
  {
    if k == 0 then 0 else (ReadPrefix(b, k - 1) << 8) | b[k - 1] as Word
  }

  /** One step of ReadPrefix, with the shorter prefix's word named r and
      the next byte c. */
  lemma ReadPrefixStep(b: seq<Byte>, k: nat, r: Word, c: Byte)
    requires 0 < k <= |b| && r == ReadPrefix(b, k - 1) && c == b[k - 1]
    ensures ReadPrefix(b, k) == (r << 8) | c as Word
  {
  }

  /** Shifting a word below 2^56 left by a byte and or-ing in the
      byte c appends the base-256 digit c. */
  lemma AppendByte(x: Word, c: Byte)
    requires x as nat < 0x100_0000_0000_0000
    ensures ((x << 8) | c as Word) as nat == x as nat * 256 + c as nat
  {
  }

  /** The word read from the first k <= 8 bytes has their big-endian
      value. */
  lemma {:induction false} ReadPrefixValue(b: seq<Byte>, k: nat)
    requires k <= |b| && k <= 8
    ensures ReadPrefix(b, k) as nat == FromBigEndian(b[..k])
  {
    if k > 0 {
      ReadPrefixValue(b, k - 1);
      assert b[..k][..k - 1] == b[..k - 1];
      Pow256Monotone(k - 1, 7);
      assert Pow256(7) == 0x100_0000_0000_0000;
      AppendByte(ReadPrefix(b, k - 1), b[k - 1]);
    }
  }

  /** Shifting in one byte at a time puts each byte in its place. */
  lemma ShiftsCompose(c0: Byte, c1: Byte, c2: Byte, c3: Byte, c4: Byte, c5: Byte, c6: Byte, c7: Byte,
                      r0: Word, r1: Word, r2: Word, r3: Word, r4: Word, r5: Word, r6: Word, r7: Word, r8: Word)
    requires r0 == 0 && r1 == (r0 << 8) | c0 as Word && r2 == (r1 << 8) | c1 as Word
    requires r3 == (r2 << 8) | c2 as Word && r4 == (r3 << 8) | c3 as Word && r5 == (r4 << 8) | c4 as Word
    requires r6 == (r5 << 8) | c5 as Word && r7 == (r6 << 8) | c6 as Word && r8 == (r7 << 8) | c7 as Word
    ensures r8 == ((c0 as Word) << 56) | ((c1 as Word) << 48) | ((c2 as Word) << 40) | ((c3 as Word) << 32)
                  | ((c4 as Word) << 24) | ((c5 as Word) << 16) | ((c6 as Word) << 8) | (c7 as Word)
  {
  }

  /** `from_be_bytes` is 8 steps of ReadPrefix. */
  lemma ReadPrefixWord(b: seq<Byte>)
    requires |b| == 8
    ensures ReadPrefix(b, 8) == WordFromBytes(b)
  {
    var c0, c1, c2, c3, c4, c5, c6, c7 := b[0], b[1], b[2], b[3], b[4], b[5], b[6], b[7];
    var r0, r1, r2, r3, r4, r5, r6, r7 := ReadPrefix(b, 0), ReadPrefix(b, 1), ReadPrefix(b, 2), ReadPrefix(b, 3), ReadPrefix(b, 4), ReadPrefix(b, 5), ReadPrefix(b, 6), ReadPrefix(b, 7);
    ReadPrefixStep(b, 1, r0, c0);
    ReadPrefixStep(b, 2, r1, c1);
    ReadPrefixStep(b, 3, r2, c2);
    ReadPrefixStep(b, 4, r3, c3);
    ReadPrefixStep(b, 5, r4, c4);
    ReadPrefixStep(b, 6, r5, c5);
    ReadPrefixStep(b, 7, r6, c6);
    ReadPrefixStep(b, 8, r7, c7);
    ShiftsCompose(c0, c1, c2, c3, c4, c5, c6, c7, r0, r1, r2, r3, r4, r5, r6, r7, ReadPrefix(b, 8));
  }

  /** The word `from_be_bytes` reads has the big-endian value of its bytes:
      the word view of the schedule and the integer view of the length field
      (Bytes.FromBigEndian) agree. */
  lemma WordFromBytesValue(b: seq<Byte>)
    requires |b| == 8
    ensures WordFromBytes(b) as nat == FromBigEndian(b)
  {
    ReadPrefixValue(b, 8);
    ReadPrefixWord(b);
    assert b[..8] == b;
  }

  // ---------------------------------------------------------------------
  // Message schedule (section 6.4.2, step 1)

  /** The schedule word that follows the prefix w (|w| >= 16). */
  function NextScheduleWord(w: seq<Word>): Word
    requires |w| >= 16
  {
    var i := |w|;
    WrappingAdd(WrappingAdd(WrappingAdd(w[i - 16], SmallSigma0(w[i - 15])), w[i - 7]), SmallSigma1(w[i - 2]))
  }

  /** The next schedule word in terms of the four words it depends on. */
  lemma NextScheduleWordOf(p: seq<Word>, n: nat, w16: Word, w15: Word, w7: Word, w2: Word)
    requires |p| == n >= 16
    requires p[n - 16] == w16 && p[n - 15] == w15 && p[n - 7] == w7 && p[n - 2] == w2
    ensures NextScheduleWord(p) == WrappingAdd(WrappingAdd(WrappingAdd(w16, SmallSigma0(w15)), w7), SmallSigma1(w2))
  {
  }

  /** The first n words of the message schedule of a block, in the order
      the crate's two loops fill the array `w`. */
  function SchedulePrefix(block: Block, n: nat): (w: seq<Word>)
    requires n <= 80
    ensures |w| == n
    decreases n
  {
    if n == 0 then []
    else
      var p := SchedulePrefix(block, n - 1);
      var i := n - 1;
      p + [if i < 16 then WordFromBytes(block[8 * i..8 * i + 8]) else NextScheduleWord(p)]
  }

  /** The 80-word message schedule W of a block. */
  function Schedule(block: Block): (w: seq<Word>)
    ensures |w| == 80
  {
    SchedulePrefix(block, 80)
  }

  /** A word, once computed, is not changed by later schedule steps. */
  lemma {:induction false} SchedulePrefixStable(block: Block, i: nat, n: nat, m: nat)
    requires i < n <= m <= 80
    ensures SchedulePrefix(block, m)[i] == SchedulePrefix(block, n)[i]
    decreases m
  {
    if m > n {
      SchedulePrefixStable(block, i, n, m - 1);
    }
  }

  /** The schedule word by word, as section 6.4.2 defines it: W[t] is the
      big-endian reading of bytes 8t..8t+7 for t < 16, ... */
  lemma ScheduleWordLoaded(block: Block, t: nat)
    requires t < 16
    ensures Schedule(block)[t] == WordFromBytes(block[8 * t..8 * t + 8])
  {
    SchedulePrefixStable(block, t, t + 1, 80);
  }

  /** Eight consecutive bytes as a slice and as a display. */
  lemma SliceEight(s: seq<Byte>, i: nat)
    requires i + 8 <= |s|
    ensures s[i..i + 8] == [s[i], s[i + 1], s[i + 2], s[i + 3], s[i + 4], s[i + 5], s[i + 6], s[i + 7]]
  {
  }

  /** ... and W[t-16] + sigma0(W[t-15]) + W[t-7] + sigma1(W[t-2]) mod 2^64
      for 16 <= t < 80. */
  lemma ScheduleWordRecurrence(block: Block, t: nat)
    requires 16 <= t < 80
    ensures var w := Schedule(block);
      w[t] == WrappingAdd(WrappingAdd(WrappingAdd(w[t - 16], SmallSigma0(w[t - 15])), w[t - 7]), SmallSigma1(w[t - 2]))
  {
    var w, p := Schedule(block), SchedulePrefix(block, t);
    assert w[t] == NextScheduleWord(p) by {
      SchedulePrefixStable(block, t, t + 1, 80);
    }
    assert p[t - 16] == w[t - 16] && p[t - 15] == w[t - 15] && p[t - 7] == w[t - 7] && p[t - 2] == w[t - 2] by {
      SchedulePrefixStable(block, t - 2, t, 80);
      SchedulePrefixStable(block, t - 7, t, 80);
      SchedulePrefixStable(block, t - 15, t, 80);
      SchedulePrefixStable(block, t - 16, t, 80);
    }
    RecurrenceAt(w, p, t);
  }

  /** The recurrence at index t of a sequence whose word t follows the
      prefix p, and p agrees with it at the four words it depends on. */
  lemma RecurrenceAt(w: seq<Word>, p: seq<Word>, t: nat)
    requires 16 <= t < |w| && |p| == t && w[t] == NextScheduleWord(p)
    requires p[t - 16] == w[t - 16] && p[t - 15] == w[t - 15] && p[t - 7] == w[t - 7] && p[t - 2] == w[t - 2]
    ensures w[t] == WrappingAdd(WrappingAdd(WrappingAdd(w[t - 16], SmallSigma0(w[t - 15])), w[t - 7]), SmallSigma1(w[t - 2]))
  {
    NextScheduleWordOf(p, t, w[t - 16], w[t - 15], w[t - 7], w[t - 2]);
  }

  // ---------------------------------------------------------------------
  // Compression (section 6.4.2, steps 2 to 4)

  /** The eight working variables a..h. */
  datatype Vars = Vars(a: Word, b: Word, c: Word, d: Word, e: Word, f: Word, g: Word, h: Word)

  /** Step 2: the working variables start as the hash value. */
  function Load(h: HashValue): Vars
  {
    Vars(h[0], h[1], h[2], h[3], h[4], h[5], h[6], h[7])
  }

  /** One round with constant k and schedule word w (step 3). */
  function Round(v: Vars, k: Word, w: Word): Vars
  {
    var t1 := WrappingAdd(WrappingAdd(WrappingAdd(WrappingAdd(v.h, BigSigma1(v.e)), Ch(v.e, v.f, v.g)), k), w);
    var t2 := WrappingAdd(BigSigma0(v.a), Maj(v.a, v.b, v.c));
    Vars(WrappingAdd(t1, t2), v.a, v.b, v.c, WrappingAdd(v.d, t1), v.e, v.f, v.g)
  }

  /** The working variables after the first n rounds over schedule w. */
  function Rounds(v: Vars, w: seq<Word>, n: nat): Vars
    requires n <= |w| && n <= 80
  {
    if n == 0 then v else Round(Rounds(v, w, n - 1), K(n - 1), w[n - 1])
  }

  /** Each round computes only two new words, a and e: after round n the
      registers b, c, d hold a from rounds n - 1, n - 2, n - 3, and f, g, h
      hold e from those rounds. */
  lemma RoundsWindow(v: Vars, w: seq<Word>, n: nat)
    requires 3 <= n <= |w| && n <= 80
    ensures Rounds(v, w, n).b == Rounds(v, w, n - 1).a && Rounds(v, w, n).f == Rounds(v, w, n - 1).e
    ensures Rounds(v, w, n).c == Rounds(v, w, n - 2).a && Rounds(v, w, n).g == Rounds(v, w, n - 2).e
    ensures Rounds(v, w, n).d == Rounds(v, w, n - 3).a && Rounds(v, w, n).h == Rounds(v, w, n - 3).e
  {
  }

  /** Step 4: the Davies-Meyer feed-forward, word-wise modular addition of
      the working variables onto the hash value. */
  function FeedForward(h: HashValue, v: Vars): HashValue
  {
    [WrappingAdd(h[0], v.a), WrappingAdd(h[1], v.b), WrappingAdd(h[2], v.c), WrappingAdd(h[3], v.d),
     WrappingAdd(h[4], v.e), WrappingAdd(h[5], v.f), WrappingAdd(h[6], v.g), WrappingAdd(h[7], v.h)]
  }

  /** The compression function: the hash value after one more block. */
  function Transform(h: HashValue, block: Block): HashValue
  {
    FeedForward(h, Rounds(Load(h), Schedule(block), 80))
  }

  // ---------------------------------------------------------------------
  // Chaining over the blocks of a message

  /** m is a whole number of 128-byte blocks exactly when 128 divides |m|. */
  lemma {:induction false} WholeBlocksMod(n: nat)
    ensures WholeBlocks(n, 128) <==> n % 128 == 0
    decreases n
  {
    if n >= 128 {
      WholeBlocksMod(n - 128);
      assert (n - 128) % 128 == n % 128;
    }
  }

  /** m cut into its consecutive 128-byte blocks. */
  function Blocks(m: seq<Byte>): (bs: seq<Block>)
    requires WholeBlocks(|m|, 128)
    decreases |m|
  {
    if m == [] then [] else [m[..128]] + Blocks(m[128..])
  }

  /** The blocks of a ++ b are the blocks of a, then those of b. */
  lemma {:induction false} BlocksAppend(a: seq<Byte>, b: seq<Byte>)
    requires WholeBlocks(|a|, 128) && WholeBlocks(|b|, 128)
    ensures WholeBlocks(|a + b|, 128)
    ensures Blocks(a + b) == Blocks(a) + Blocks(b)
    decreases |a|
  {
    WholeBlocksAdd(|a|, |b|, 128);
    assert |a + b| == |a| + |b|;
    if a == [] {
      assert a + b == b;
    } else {
      assert (a + b)[..128] == a[..128];
      assert (a + b)[128..] == a[128..] + b;
      BlocksAppend(a[128..], b);
    }
  }

  /** The hash value after compressing the blocks of m, starting from h. */
  function HashBlocks(h: HashValue, m: seq<Byte>): HashValue
    requires WholeBlocks(|m|, 128)
  {
    Chain(Transform, h, Blocks(m))
  }

  /** One more block at the end of a whole-block stream is one more block
      in its split. */
  lemma BlocksSnoc(a: seq<Byte>, block: Block)
    requires WholeBlocks(|a|, 128)
    ensures WholeBlocks(|a + block|, 128)
    ensures Blocks(a + block) == Blocks(a) + [block]
  {
    assert WholeBlocks(|block|, 128) by {
      assert WholeBlocks(|block| - 128, 128);
    }
    BlocksAppend(a, block);
    assert block[..128] == block && block[128..] == [];
    assert Blocks(block) == [block];
  }

  /** Compressing one more block onto a prefix is one more Transform. */
  lemma HashBlocksExtend(h: HashValue, a: seq<Byte>, block: Block)
    requires WholeBlocks(|a|, 128)
    ensures WholeBlocks(|a + block|, 128)
    ensures HashBlocks(h, a + block) == Transform(HashBlocks(h, a), block)
  {
    BlocksSnoc(a, block);
    ChainSnoc(Transform, h, Blocks(a), block);
  }

  /** A single-block message hashes to one Transform. */
  lemma SingleBlock(h: HashValue, b: Block)
    ensures WholeBlocks(|b|, 128) && HashBlocks(h, b) == Transform(h, b)
  {
    assert WholeBlocks(|b|, 128) by {
      assert WholeBlocks(|b| - 128, 128);
    }
    assert b[..128] == b && b[128..] == [];
    assert Blocks(b) == [b];
    ChainOne(Transform, h, b);
  }

  // ---------------------------------------------------------------------
  // Padding (section 5.1.2) and the digest

  /** The number k of zero bytes between the 0x80 byte and the 16-byte
      length field, counted one block at a time: what is left after the
      whole blocks of n is padded to byte 112 of its block, or of the next
      block when fewer than 17 bytes remain. */
  function PadZeros(n: nat): (k: nat)
    ensures k < 128
    decreases n
  {
    if n >= 128 then PadZeros(n - 128) else if n < 112 then 111 - n else 239 - n
  }

  /** The zeros make up whole blocks together with n, the 0x80 byte and the
      16-byte length field. */
  lemma {:induction false} PadZerosFill(n: nat)
    ensures WholeBlocks(n + 1 + PadZeros(n) + 16, 128)
    decreases n
  {
    var k := PadZeros(n);
    if n >= 128 {
      PadZerosFill(n - 128);
      assert n + 1 + k + 16 - 128 == (n - 128) + 1 + PadZeros(n - 128) + 16;
    } else if n < 112 {
      assert WholeBlocks(n + 1 + k + 16 - 128, 128);
    } else {
      assert WholeBlocks(n + 1 + k + 16 - 256, 128);
      assert WholeBlocks(n + 1 + k + 16 - 128, 128);
    }
  }

  /** Section 5.1.2 in bytes: n + 1 + k = 112 (mod 128) for k = PadZeros(n). */
  lemma {:induction false} PadZerosCongruent(n: nat)
    ensures (n + 1 + PadZeros(n)) % 128 == 112
    decreases n
  {
    if n >= 128 {
      PadZerosCongruent(n - 128);
      assert (n + 1 + PadZeros(n)) % 128 == (n - 128 + 1 + PadZeros(n - 128)) % 128;
    }
  }

  /** ... and k is the least such number. */
  lemma {:induction false} PadZerosLeast(n: nat, j: nat)
    requires j < PadZeros(n)
    ensures (n + 1 + j) % 128 != 112
    decreases n
  {
    if n >= 128 {
      PadZerosLeast(n - 128, j);
      assert (n + 1 + j) % 128 == (n - 128 + 1 + j) % 128;
    }
  }

  /** 2^128 is the number of values a 16-byte field can hold. */
  lemma Pow256Sixteen()
    ensures Pow256(16) == U128Bound
  {
    assert Pow256(4) == 0x1_0000_0000;
    assert Pow256(8) == 0x1_0000_0000_0000_0000;
    assert Pow256(12) == 0x1_0000_0000_0000_0000_0000_0000;
  }

  /** `u128::to_be_bytes`: the sixteen big-endian bytes of x, which read
      back as x. */
  function U128ToBeBytes(x: nat): (r: seq<Byte>)
    requires x < U128Bound
    ensures |r| == 16 && FromBigEndian(r) == x
  {
    Pow256Sixteen();
    BigEndianRoundTrip(x, 16);
    BigEndian(x, 16)
  }

  /** The length field that ends the padding: the bit length 8n of an
      n-byte message as a 128-bit big-endian integer (Rust's
      `(total_len * 8).to_be_bytes()` on a `u128`). */
  function LengthField(n: nat): (r: seq<Byte>)
    requires n < MaxMessageBytes
    ensures |r| == 16 && FromBigEndian(r) == 8 * n
  {
    U128ToBeBytes(8 * n)
  }

  /** The padded message: m, the byte 0x80, k zero bytes and the length
      field. It is a whole number of blocks, begins with m and adds between
      17 and 144 bytes. */
  function Pad(m: seq<Byte>): (p: seq<Byte>)
    requires |m| < MaxMessageBytes
    ensures WholeBlocks(|p|, 128) && |m| + 17 <= |p| <= |m| + 144
  {
    PadZerosFill(|m|);
    m + [0x80] + Zeros(PadZeros(|m|)) + LengthField(|m|)
  }

  /** The shape of the padded message, byte by byte: m, then 0x80, then
      zeros, then the bit length 8 |m| as a big-endian number in the last
      16 bytes. */
  lemma PadShape(m: seq<Byte>)
    requires |m| < MaxMessageBytes
    ensures var p := Pad(m);
      && p[..|m|] == m && p[|m|] == 0x80
      && (forall i :: |m| < i < |p| - 16 ==> p[i] == 0)
      && FromBigEndian(p[|p| - 16..]) == 8 * |m|
  {
    var p := Pad(m);
    assert p[|p| - 16..] == LengthField(|m|);
  }

  /** The padding of a message of fewer than 32 bytes: one block whose
      length field is fifteen zero bytes and the bit length. */
  lemma PadShort(m: seq<Byte>)
    requires |m| < 32
    ensures Pad(m) == m + [0x80] + Zeros(111 - |m|) + (Zeros(15) + [ToByte(8 * |m|)])
  {
    assert PadZeros(|m|) == 111 - |m|;
    Pow256Sixteen();
    BigEndianSmall(8 * |m|, 16);
  }

  /** The big-endian concatenation of the words of h. */
  function Serialize(h: seq<Word>): (r: seq<Byte>)
    ensures |r| == 8 * |h|
  {
    if h == [] then [] else Serialize(h[..|h| - 1]) + WordToBytes(h[|h| - 1])
  }

  /** Bytes 8i..8i+7 of the serialisation are the bytes of word i. */
  lemma {:induction false} SerializeWord(h: seq<Word>, i: nat)
    requires i < |h|
    ensures Serialize(h)[8 * i..8 * i + 8] == WordToBytes(h[i])
    decreases |h|
  {
    var n := |h|;
    var init, last := Serialize(h[..n - 1]), WordToBytes(h[n - 1]);
    assert Serialize(h) == init + last;
    if i < n - 1 {
      SerializeWord(h[..n - 1], i);
      SliceOfFront(init, last, 8 * i, 8 * i + 8);
    } else {
      SliceOfBack(init, last);
    }
  }

  /** The digest read back: bytes 8i..8i+7 of the serialisation are word
      i, big-endian. */
  lemma SerializeReadBack(h: seq<Word>, i: nat)
    requires i < |h|
    ensures WordFromBytes(Serialize(h)[8 * i..8 * i + 8]) == h[i]
  {
    SerializeWord(h, i);
  }

  /** The serialisation of the first i + 1 words is that of the first i
      followed by the bytes of word i. */
  lemma SerializeSnoc(h: seq<Word>, i: nat)
    requires i < |h|
    ensures Serialize(h[..i + 1]) == Serialize(h[..i]) + WordToBytes(h[i])
  {
    assert h[..i + 1][..i] == h[..i];
  }

  /** With 112 to 127 bytes buffered (so that the zero run is 239 - |tail|
      bytes long) the padding of c + tail after c is two blocks: tail, 0x80
      and zeros; then 112 zeros and the length field. */
  lemma TwoFinalBlocks(c: seq<Byte>, tail: seq<Byte>)
    requires |c + tail| < MaxMessageBytes
    requires 112 <= |tail| < 128 && PadZeros(|c + tail|) == 239 - |tail|
    ensures c + (tail + [0x80] + Zeros(127 - |tail|)) + (Zeros(112) + LengthField(|c + tail|)) == Pad(c + tail)
  {
    var k, z, lf := 239 - |tail|, 127 - |tail|, LengthField(|c + tail|);
    calc {
      Pad(c + tail);
    == { SplitPad(c, tail, k); }
      c + (tail + [0x80] + Zeros(k) + lf);
    == { ZerosAppend(z, 112, k); }
      c + (tail + [0x80] + (Zeros(z) + Zeros(112)) + lf);
    == { Regroup(c, tail, [0x80], Zeros(z), Zeros(112), lf); }
      c + (tail + [0x80] + Zeros(z)) + (Zeros(112) + lf);
    }
  }

  /** What `finalize` compresses is the padding of the stream c + tail,
      where c is the whole blocks compressed so far and tail the buffered
      bytes (so that the zero run fills the block of tail, or that block
      and 112 bytes of the next): `front` is the stream compressed before
      the last block and `lead` the bytes in the buffer ahead of the zeros
      of the last block. With at most 111 bytes buffered the last block is
      tail, 0x80, zeros and the length field; with 112 to 127 the block of
      tail, 0x80 and zeros comes first and the last block is 112 zeros and
      the length field. */
  lemma FinalBlocks(c: seq<Byte>, tail: seq<Byte>, front: seq<Byte>, lead: seq<Byte>)
    requires |c + tail| < MaxMessageBytes
    requires |tail| < 128 && PadZeros(|c + tail|) == if |tail| < 112 then 111 - |tail| else 239 - |tail|
    requires |tail| < 112 ==> front == c && lead == tail + [0x80]
    requires |tail| >= 112 ==> front == c + (tail + [0x80] + Zeros(127 - |tail|)) && lead == []
    ensures |lead| <= 112
    ensures front + (lead + Zeros(112 - |lead|) + LengthField(|c + tail|)) == Pad(c + tail)
  {
    if |tail| < 112 {
      SplitPad(c, tail, 111 - |tail|);
      assert Zeros(112 - |lead|) == Zeros(111 - |tail|);
    } else {
      TwoFinalBlocks(c, tail);
      assert lead + Zeros(112 - |lead|) == Zeros(112);
    }
  }

  /** The padding of c + tail, split after c, given its number of zeros. */
  lemma SplitPad(c: seq<Byte>, tail: seq<Byte>, k: nat)
    requires |c + tail| < MaxMessageBytes && PadZeros(|c + tail|) == k
    ensures Pad(c + tail) == c + (tail + [0x80] + Zeros(k) + LengthField(|c + tail|))
  {
    var m := c + tail;
    assert Pad(m) == m + [0x80] + Zeros(k) + LengthField(|m|);
    RegroupOne(c, tail, [0x80], Zeros(k), LengthField(|m|));
  }

  /** Regrouping a concatenation of five byte strings into the block
      `finalize` builds. */
  lemma RegroupOne(a: seq<Byte>, b: seq<Byte>, c: seq<Byte>, d: seq<Byte>, e: seq<Byte>)
    ensures a + b + c + d + e == a + (b + c + d + e)
  {
  }

  /** Regrouping a concatenation of six byte strings into the two blocks
      `finalize` builds. */
  lemma Regroup(a: seq<Byte>, b: seq<Byte>, c: seq<Byte>, d: seq<Byte>, e: seq<Byte>, f: seq<Byte>)
    ensures a + (b + c + (d + e) + f) == a + (b + c + d) + (e + f)
  {
  }

  /** After whole blocks and r more bytes, the zero run of the padding
      fills the block (r <= 111) or the block and 112 bytes of the next. */
  lemma {:induction false} PadZerosAfterBlocks(n: nat, r: nat, m: nat)
    requires WholeBlocks(n, 128) && r < 128 && m == n + r
    ensures PadZeros(m) == if r < 112 then 111 - r else 239 - r
    decreases n
  {
    if n > 0 {
      PadZerosAfterBlocks(n - 128, r, m - 128);
    }
  }

  /** The three steps of `update` together append data to the stream:
      before ++ mid is the stream after topping up the buffer (mid the
      bytes still buffered, start the input consumed), after is the
      compressed stream once the whole blocks from start to pos are folded,
      and rest what the buffer holds at the end. */
  lemma AbsorbSplit(pending: seq<Byte>, data: seq<Byte>, before: seq<Byte>, mid: seq<Byte>,
                    after: seq<Byte>, rest: seq<Byte>, start: nat, pos: nat)
    requires start <= pos <= |data|
    requires before + mid == pending + data[..start]
    requires after + data[pos..] == before + data[start..]
    requires mid == [] || start == |data|
    requires if pos < |data| then rest == data[pos..] else rest == mid
    ensures after + rest == pending + data
  {
    assert data == data[..start] + data[start..];
    if mid != [] {
      assert data[start..] == [] && data[pos..] == [];
      assert after + data[pos..] == after && before + data[start..] == before;
    } else {
      assert before + mid == before;
      if pos == |data| {
        assert data[pos..] == [] && after + data[pos..] == after && after + rest == after;
      }
    }
  }

  /** The SHA-512 digest of a message of fewer than 2^125 bytes. */
  function Digest(m: seq<Byte>): (d: seq<Byte>)
    requires |m| < MaxMessageBytes
    ensures |d| == 64
  {
    Serialize(HashBlocks(IV, Pad(m)))
  }

  // ---------------------------------------------------------------------
  // The crate's code

  /** `Sha512State::new`: a fresh hash-state array holding the IV. */
  method NewState() returns (state: array<Word>)
    ensures fresh(state) && state[..] == IV
  {
    state := new Word[8];
    state[0], state[1], state[2], state[3] := 0x6a09e667f3bcc908, 0xbb67ae8584caa73b, 0x3c6ef372fe94f82b, 0xa54ff53a5f1d36f1;
    state[4], state[5], state[6], state[7] := 0x510e527fade682d1, 0x9b05688c2b3e6c1f, 0x1f83d9abfb41bd6b, 0x5be0cd19137e2179;
  }

  /** The first part of `sha512_transform_generic`: fills the 80-word
      schedule array, W[0..15] from the block and the rest by the sigma
      recurrence. */
  method MessageSchedule(data: Block) returns (w: array<Word>)
    ensures fresh(w) && w[..] == Schedule(data)
  {
    w := new Word[80];
    LoadWords(data, w);
    ExpandWords(data, w);
  }

  /** The first loop of the schedule: W[0..15] are the big-endian words of
      the block. */
  method LoadWords(data: Block, w: array<Word>)
    requires w.Length == 80
    modifies w
    ensures w[..16] == SchedulePrefix(data, 16)
  {
    for i := 0 to 16
      invariant w[..i] == SchedulePrefix(data, i)
    {
      LoadWord(data, w, i);
    }
  }

  /** One step of the first loop: W[i] from bytes 8i..8i+7. */
  method LoadWord(data: Block, w: array<Word>, i: nat)
    requires w.Length == 80 && i < 16 && w[..i] == SchedulePrefix(data, i)
    modifies w
    ensures w[..i + 1] == SchedulePrefix(data, i + 1)
  {
    var word := WordFromBytes([data[i * 8], data[i * 8 + 1], data[i * 8 + 2], data[i * 8 + 3],
                               data[i * 8 + 4], data[i * 8 + 5], data[i * 8 + 6], data[i * 8 + 7]]);
    LoadedNext(data, i, word);
    SetWord(w, i, word);
  }

  /** The loaded word i extends the schedule prefix of length i. */
  lemma LoadedNext(data: Block, i: nat, word: Word)
    requires i < 16
    requires word == WordFromBytes([data[i * 8], data[i * 8 + 1], data[i * 8 + 2], data[i * 8 + 3],
                                    data[i * 8 + 4], data[i * 8 + 5], data[i * 8 + 6], data[i * 8 + 7]])
    ensures SchedulePrefix(data, i + 1) == SchedulePrefix(data, i) + [word]
  {
    SliceEight(data, 8 * i);
  }

  /** Stores word at index i: the first i + 1 entries are the first i
      followed by word, and the entries after it are unchanged. */
  method SetWord(w: array<Word>, i: nat, word: Word)
    requires i < w.Length
    modifies w
    ensures w[..i + 1] == old(w[..i]) + [word]
    ensures w[i + 1..] == old(w[i + 1..])
  {
    w[i] := word;
    assert w[..i + 1] == w[..i] + [w[i]];
  }

  /** The second loop of the schedule: W[16..79] by the sigma recurrence. */
  method ExpandWords(data: Block, w: array<Word>)
    requires w.Length == 80 && w[..16] == SchedulePrefix(data, 16)
    modifies w
    ensures w[..] == Schedule(data)
  {
    for i := 16 to 80
      invariant w[..i] == SchedulePrefix(data, i)
    {
      ExpandWord(data, w, i);
    }
    assert w[..] == w[..80];
  }

  /** One step of the second loop: W[i] from W[i-16], W[i-15], W[i-7] and
      W[i-2]. */
  method ExpandWord(data: Block, w: array<Word>, i: nat)
    requires w.Length == 80 && 16 <= i < 80 && w[..i] == SchedulePrefix(data, i)
    modifies w
    ensures w[..i + 1] == SchedulePrefix(data, i + 1)
  {
    var s0 := SmallSigma0(w[i - 15]);
    var s1 := SmallSigma1(w[i - 2]);
    w[i] := WrappingAdd(WrappingAdd(WrappingAdd(w[i - 16], s0), w[i - 7]), s1);
    assert w[..i + 1] == w[..i] + [w[i]];
  }

  /** The 80 rounds of `sha512_transform_generic` on the working variables
      loaded from the state. */
  method CompressRounds(state: array<Word>, w: array<Word>) returns (v: Vars)
    requires state.Length == 8 && w.Length == 80
    ensures v == Rounds(Load(state[..]), w[..], 80)
  {
    var a, b, c, d, e, f, g, h := state[0], state[1], state[2], state[3], state[4], state[5], state[6], state[7];
    for i := 0 to 80
      invariant Vars(a, b, c, d, e, f, g, h) == Rounds(Load(state[..]), w[..], i)
    {
      var s1 := BigSigma1(e);
      var ch := Ch(e, f, g);
      var temp1 := WrappingAdd(WrappingAdd(WrappingAdd(WrappingAdd(h, s1), ch), K(i)), w[i]);
      var s0 := BigSigma0(a);
      var maj := Maj(a, b, c);
      var temp2 := WrappingAdd(s0, maj);
      h := g;
      g := f;
      f := e;
      e := WrappingAdd(d, temp1);
      d := c;
      c := b;
      b := a;
      a := WrappingAdd(temp1, temp2);
    }
    v := Vars(a, b, c, d, e, f, g, h);
  }

  /** The last step of `sha512_transform_generic`: each state word gets
      its working variable added, wrapping. */
  method FeedForwardInPlace(state: array<Word>, v: Vars)
    requires state.Length == 8
    modifies state
    ensures state[..] == FeedForward(old(state[..]), v)
  {
    var n0, n1, n2, n3 := WrappingAdd(state[0], v.a), WrappingAdd(state[1], v.b), WrappingAdd(state[2], v.c), WrappingAdd(state[3], v.d);
    var n4, n5, n6, n7 := WrappingAdd(state[4], v.e), WrappingAdd(state[5], v.f), WrappingAdd(state[6], v.g), WrappingAdd(state[7], v.h);
    assert FeedForward(state[..], v) == [n0, n1, n2, n3, n4, n5, n6, n7];
    state[0], state[1], state[2], state[3], state[4], state[5], state[6], state[7] := n0, n1, n2, n3, n4, n5, n6, n7;
  }

  /** `sha512_transform_generic`: compresses one block into the state in
      place: the schedule, the 80 rounds, then the feed-forward. */
  method TransformGeneric(state: array<Word>, data: Block)
    requires state.Length == 8
    modifies state
    ensures state[..] == Transform(old(state[..]), data)
  {
    var w := MessageSchedule(data);
    var v := CompressRounds(state, w);
    FeedForwardInPlace(state, v);
  }

  /** `sha512_transform_arm` outside ARM targets: delegates to the generic
      transform, so it computes exactly the same state. */
  method TransformArm(state: array<Word>, data: Block)
    requires state.Length == 8
    modifies state
    ensures state[..] == Transform(old(state[..]), data)
  {
    TransformGeneric(state, data);
  }

  /** The digest loop of `finalize`: the state words, big-endian, in
      order. */
  method StateBytes(state: array<Word>) returns (result: seq<Byte>)
    requires state.Length == 8
    ensures result == Serialize(state[..])
  {
    var out := new Byte[64];
    for i := 0 to 8
      invariant out[..8 * i] == Serialize(state[..i])
    {
      WriteWord(out, state, i);
    }
    assert state[..8] == state[..];
    result := out[..];
  }

  /** One step of the digest loop: word i goes to bytes 8i..8i+7. */
  method WriteWord(out: array<Byte>, state: array<Word>, i: nat)
    requires out.Length == 64 && state.Length == 8 && i < 8
    requires out[..8 * i] == Serialize(state[..i])
    modifies out
    ensures out[..8 * i + 8] == Serialize(state[..i + 1])
    ensures out[8 * i + 8..] == old(out[8 * i + 8..])
  {
    var bytes := WordToBytes(state[i]);
    CopyInto(out, 8 * i, bytes);
    SerializeSnoc(state[..], i);
  }

  /** The incremental hasher (the crate's `Sha512`). `absorbed` is the
      stream of bytes given to `Update` so far and `compressed` the part of
      it already folded into `state`. */
  class Hasher {
    var state: array<Word>
    var buffer: array<Byte>
    var bufferLen: nat
    var totalLen: nat
    ghost var absorbed: seq<Byte>
    ghost var compressed: seq<Byte>
    /** The compression function the state is folded with: it agrees with
        Transform (see Folded). Folding with this name rather than with
        Transform itself keeps the rounds out of the proofs that only move
        bytes between the input and the buffer. */
    ghost const compress: (HashValue, Block) -> HashValue

    /** The hash state is the hash value of the compressed blocks. */
    ghost predicate Folded()
      reads this`state, this`compressed, state
    {
      state.Length == 8 && Agrees() && HashOf(state[..], compressed)
    }

    /** The compression function folded with is Transform. */
    ghost predicate Agrees()
    {
      forall h, b {:trigger Transform(h, b)} :: compress(h, b) == Transform(h, b)
    }

    /** s is the hash value of the whole blocks c. */
    ghost predicate HashOf(s: seq<Word>, c: seq<Byte>)
    {
      WholeBlocks(|c|, 128) && s == Chain(compress, IV, Blocks(c))
    }

    /** Compressing one more block onto the hash value of c gives the hash
        value of c followed by that block. */
    lemma HashOfStep(s: HashValue, c: seq<Byte>, block: Block)
      requires Agrees() && HashOf(s, c)
      ensures HashOf(Transform(s, block), c + block)
    {
      BlocksSnoc(c, block);
      ChainSnoc(compress, IV, Blocks(c), block);
    }

    /** Between calls: the buffer holds less than a block; the total counts
        the absorbed bytes and fits a `u128`; the stream is the compressed
        whole blocks followed by the buffered bytes; and `state` is the hash
        value of the compressed blocks. */
    ghost predicate Valid()
      reads this, state, buffer
    {
      && Folded() && buffer.Length == 128
      && bufferLen < 128
      && totalLen == |absorbed| && totalLen < U128Bound
      && absorbed == compressed + buffer[..bufferLen]
    }

    /** `Sha512::new`. */
    constructor ()
      ensures Valid() && fresh(state) && fresh(buffer)
      ensures absorbed == [] && bufferLen == 0 && totalLen == 0
    {
      var h := NewState();
      state := h;
      buffer := new Byte[128](_ => 0);
      bufferLen := 0;
      totalLen := 0;
      absorbed := [];
      compressed := [];
      compress := Transform;
    }

    /** One call of the transform from `update` or `finalize`: folds a
        whole block into the state. */
    method CompressBlock(block: Block)
      requires Folded()
      modifies this`compressed, state
      ensures Folded() && compressed == old(compressed) + block
    {
      ghost var c, s := compressed, state[..];
      TransformGeneric(state, block);
      HashOfStep(s, c, block);
      compressed := c + block;
    }

    /** The first step of `update` when bytes are buffered: moves the first
        min(128 - bufferLen, |data|) bytes of data into the buffer and
        compresses it once it is full. */
    method TopUp(data: seq<Byte>) returns (pos: nat)
      requires Folded() && buffer.Length == 128 && 0 < bufferLen < 128
      modifies this`compressed, this`bufferLen, state, buffer
      ensures Folded() && bufferLen < 128 && pos <= |data|
      ensures bufferLen == 0 || pos == |data|
      ensures pos == if 128 - old(bufferLen) < |data| then 128 - old(bufferLen) else |data|
      ensures compressed + buffer[..bufferLen] == old(compressed + buffer[..bufferLen]) + data[..pos]
    {
      var toCopy := if 128 - bufferLen < |data| then 128 - bufferLen else |data|;
      ghost var before := buffer[..bufferLen];
      forall k | 0 <= k < toCopy {
        buffer[bufferLen + k] := data[k];
      }
      assert buffer[..bufferLen + toCopy] == before + data[..toCopy];
      bufferLen := bufferLen + toCopy;
      pos := toCopy;
      assert compressed + buffer[..bufferLen] == compressed + before + data[..pos];

      if bufferLen == 128 {
        var full := buffer[..];
        assert full == buffer[..bufferLen];
        CompressBlock(full);
        bufferLen := 0;
        assert compressed + buffer[..bufferLen] == old(compressed) + full;
      }
    }

    /** The last step of `update`: the bytes after the last whole block go
        to the front of the empty buffer. */
    method StoreRest(data: seq<Byte>, pos: nat)
      requires buffer.Length == 128 && pos < |data| < pos + 128
      modifies this`bufferLen, buffer
      ensures bufferLen < 128 && buffer[..bufferLen] == data[pos..]
    {
      var remaining := |data| - pos;
      forall k | 0 <= k < remaining {
        buffer[k] := data[pos + k];
      }
      bufferLen := remaining;
    }

    /** The middle step of `update`: with the buffer empty, compresses the
        whole blocks of data from pos on directly from the input. */
    method CompressDirect(data: seq<Byte>, start: nat) returns (pos: nat)
      requires Folded() && start <= |data|
      modifies this`compressed, state
      ensures Folded() && start <= pos <= |data| < pos + 128
      ensures compressed + data[pos..] == old(compressed) + data[start..]
    {
      pos := start;
      while pos + 128 <= |data|
        invariant Folded() && start <= pos <= |data|
        invariant compressed + data[pos..] == old(compressed) + data[start..]
        decreases |data| - pos
      {
        assert data[pos..] == data[pos..pos + 128] + data[pos + 128..];
        CompressBlock(data[pos..pos + 128]);
        pos := pos + 128;
      }
    }

    /** `update`: appends data to the stream. The `u128` addition to
        `total_len` must not overflow. */
    method Update(data: seq<Byte>)
      requires Valid()
      requires totalLen + |data| < U128Bound
      modifies this, state, buffer
      ensures Valid()
      ensures state == old(state) && buffer == old(buffer)
      ensures absorbed == old(absorbed) + data
      ensures totalLen == old(totalLen) + |data|
    {
      totalLen := totalLen + |data|;
      absorbed := absorbed + data;
      Absorb(data);
    }

    /** The buffer and block handling of `update`: top up the buffer, then
        whole blocks straight from the input, then the rest into the
        buffer. The stream of compressed and buffered bytes grows by data. */
    method Absorb(data: seq<Byte>)
      requires Folded() && buffer.Length == 128 && bufferLen < 128
      modifies this`compressed, this`bufferLen, state, buffer
      ensures Folded() && bufferLen < 128
      ensures compressed + buffer[..bufferLen] == old(compressed + buffer[..bufferLen]) + data
    {
      ghost var pending := compressed + buffer[..bufferLen];
      var pos := 0;
      if bufferLen > 0 {
        pos := TopUp(data);
      }
      ghost var mid, start, before := buffer[..bufferLen], pos, compressed;
      pos := CompressDirect(data, pos);
      if pos < |data| {
        StoreRest(data, pos);
      }
      AbsorbSplit(pending, data, before, mid, compressed, buffer[..bufferLen], start, pos);
    }

    /** The zero-fill loops of `finalize`: zero bytes up to index n. */
    method ZeroFill(n: nat)
      requires buffer.Length == 128 && bufferLen <= n <= 128
      modifies this`bufferLen, buffer
      ensures bufferLen == n
      ensures buffer[..n] == old(buffer[..bufferLen]) + Zeros(n - old(bufferLen))
    {
      ghost var start := bufferLen;
      while bufferLen < n
        invariant start <= bufferLen <= n
        invariant buffer[..bufferLen] == old(buffer[..bufferLen]) + Zeros(bufferLen - start)
      {
        buffer[bufferLen] := 0;
        bufferLen := bufferLen + 1;
      }
    }

    /** The last step of the padding: the length field goes to bytes
        112..127. */
    method WriteLength(lenBytes: seq<Byte>)
      requires buffer.Length == 128 && |lenBytes| == 16
      modifies buffer
      ensures buffer[..] == old(buffer[..112]) + lenBytes
    {
      forall k | 0 <= k < 16 {
        buffer[112 + k] := lenBytes[k];
      }
    }

    /** The first steps of `finalize`: the byte 0x80 after the buffered
        bytes and, when the 16-byte length no longer fits behind it, zeros
        to the end of the block and one more transform. */
    method StartPadding()
      requires Folded() && buffer.Length == 128 && bufferLen < 128
      modifies this`bufferLen, this`compressed, state, buffer
      ensures Folded() && bufferLen <= 112
      ensures old(bufferLen) < 112 ==>
        compressed == old(compressed) && buffer[..bufferLen] == old(buffer[..bufferLen]) + [0x80]
      ensures old(bufferLen) >= 112 ==>
        bufferLen == 0 && compressed == old(compressed) + (old(buffer[..bufferLen]) + [0x80] + Zeros(127 - old(bufferLen)))
    {
      buffer[bufferLen] := 0x80;
      bufferLen := bufferLen + 1;

      if bufferLen > 112 {
        ZeroFill(128);
        assert buffer[..] == buffer[..128];
        CompressBlock(buffer[..]);
        bufferLen := 0;
      }
    }

    /** The last steps of `finalize`: zeros up to byte 112, the bit length
        big-endian in bytes 112..127, and the last transform. */
    method FinishPadding(bitLen: nat)
      requires Folded() && buffer.Length == 128 && bufferLen <= 112
      requires bitLen < U128Bound
      modifies this`bufferLen, this`compressed, state, buffer
      ensures Folded()
      ensures compressed == old(compressed) + (old(buffer[..bufferLen]) + Zeros(112 - old(bufferLen)) + U128ToBeBytes(bitLen))
    {
      ghost var lead := buffer[..bufferLen];
      ZeroFill(112);
      var lenBytes := U128ToBeBytes(bitLen);
      WriteLength(lenBytes);
      var block := buffer[..];
      assert block == lead + Zeros(112 - old(bufferLen)) + lenBytes;
      CompressBlock(block);
    }

    /** The padding half of `finalize`: afterwards the whole padded stream
        is compressed. */
    method PadAndCompress()
      requires Valid()
      requires totalLen < MaxMessageBytes
      modifies this`bufferLen, this`compressed, state, buffer
      ensures Folded() && compressed == Pad(old(absorbed))
    {
      ghost var c, tail := compressed, buffer[..bufferLen];
      assert absorbed == c + tail;
      var bitLen := totalLen * 8;
      assert bitLen == 8 * |c + tail|;
      assert U128ToBeBytes(bitLen) == LengthField(|c + tail|);
      StartPadding();
      ghost var front, lead := compressed, buffer[..bufferLen];
      assert Zeros(112 - bufferLen) == Zeros(112 - |lead|);
      FinishPadding(bitLen);
      PadZerosAfterBlocks(|c|, |tail|, |c + tail|);
      FinalBlocks(c, tail, front, lead);
    }

    /** `finalize`: pads and compresses the stream, then returns the
        big-endian bytes of the state words. The `u128` product
        `total_len * 8` must not overflow. The hasher is consumed: its
        state no longer satisfies Valid. */
    method Finalize() returns (digest: seq<Byte>)
      requires Valid()
      requires totalLen < MaxMessageBytes
      modifies this, state, buffer
      ensures digest == Digest(old(absorbed))
    {
      PadAndCompress();
      digest := StateBytes(state);
      ChainAgree(compress, Transform, IV, Blocks(compressed));
    }
  }

  /** Chunking does not matter: a hasher fed a and then b returns the
      digest of a ++ b, the same as one `update` with all the bytes. */
  method HashInTwoUpdates(a: seq<Byte>, b: seq<Byte>) returns (d: seq<Byte>)
    requires |a| + |b| < MaxMessageBytes
    ensures d == Digest(a + b)
  {
    var hasher := new Hasher();
    hasher.Update(a);
    hasher.Update(b);
    assert hasher.absorbed == a + b;
    d := hasher.Finalize();
  }
}
