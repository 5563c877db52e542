/** Byte-level helpers shared by the SHA-256 and SHA-512 models: the
    big-endian encoding of the message-length field, zero fill, copying a
    run of bytes into an array, whole-block counts and the Merkle-Damgard
    chaining of a compression function over a sequence of blocks. */
module Bytes {

  type Byte = bv8

  /** 256^n: the number of values an n-byte field can hold. */
  function Pow256(n: nat): (p: nat)
    ensures p >= 1
  {
    if n == 0 then 1 else 256 * Pow256(n - 1)
  }

  /** A wider field holds at least as many values. */
  lemma {:induction false} Pow256Monotone(i: nat, j: nat)
    requires i <= j
    ensures Pow256(i) <= Pow256(j)
    decreases j
  {
    if i < j {
      Pow256Monotone(i, j - 1);
    }
  }

  /** n zero bytes. */
  function Zeros(n: nat): (z: seq<Byte>)
    ensures |z| == n
  {
    seq(n, _ => 0)
  }

  /** Zero runs concatenate to a zero run. */
  lemma ZerosAppend(a: nat, b: nat, n: nat)
    requires a + b == n
    ensures Zeros(a) + Zeros(b) == Zeros(n)
  {
  }

  /** A prefix of s followed by the next run of its bytes is a longer
      prefix of s. */
  lemma PrefixExtend(s: seq<Byte>, n: nat, before: seq<Byte>, run: seq<Byte>)
    requires n + |run| <= |s| && s[..n] == before && s[n..n + |run|] == run
    ensures s[..n + |run|] == before + run
  {
    assert s[..n + |run|] == s[..n] + s[n..n + |run|];
  }

  /** Rust's `copy_from_slice` into out at offset n: the bytes follow the first n
      bytes of out, and the bytes after them are left as they were. */
  method CopyInto(out: array<Byte>, n: nat, bytes: seq<Byte>)
    requires n + |bytes| <= out.Length
    modifies out
    ensures out[..n + |bytes|] == old(out[..n]) + bytes
    ensures out[n + |bytes|..] == old(out[n + |bytes|..])
  {
    forall k | 0 <= k < |bytes| {
      out[n + k] := bytes[k];
    }
    ghost var now := out[..];
    assert now[..n] == old(out[..n]);
    assert now[n..n + |bytes|] == bytes;
    PrefixExtend(now, n, old(out[..n]), bytes);
    assert out[..n + |bytes|] == now[..n + |bytes|];
  }

  /** A slice of a ++ b that lies within a is a slice of a. */
  lemma SliceOfFront(a: seq<Byte>, b: seq<Byte>, i: nat, j: nat)
    requires i <= j <= |a|
    ensures (a + b)[i..j] == a[i..j]
  {
  }

  /** The slice of a ++ b after a is b. */
  lemma SliceOfBack(a: seq<Byte>, b: seq<Byte>)
    ensures (a + b)[|a|..|a| + |b|] == b
  {
  }

  /** The big-endian encoding of x in exactly `width` bytes, as Rust's
      `to_be_bytes` produces it for an unsigned integer of that width. */
  function BigEndian(x: nat, width: nat): (r: seq<Byte>)
    requires x < Pow256(width)
    ensures |r| == width
    decreases width
  {
    if width == 0 then []
    else BigEndian(x / 256, width - 1) + [ToByte(x % 256)]
  }

  /** The unsigned integer a big-endian byte string denotes. */
  function FromBigEndian(s: seq<Byte>): (x: nat)
    ensures x < Pow256(|s|)
  {
    if s == [] then 0
    else
      var hi := FromBigEndian(s[..|s| - 1]);
      assert hi * 256 + 255 < Pow256(|s|) by {
        assert hi + 1 <= Pow256(|s| - 1);
      }
      hi * 256 + s[|s| - 1] as nat
  }

  /** The byte holding the number v, built by counting up from zero so
      that no integer-to-bit-vector conversion is needed. */
  function ToByte(v: nat): (b: Byte)
    requires v < 256
    decreases v
  {
    if v == 0 then 0 else ToByte(v - 1) + 1
  }

  /** A byte holds exactly the numbers below 256. */
  lemma {:induction false} ToByteValue(v: nat)
    requires v < 256
    ensures ToByte(v) as nat == v
    decreases v
  {
    if v > 0 {
      ToByteValue(v - 1);
      ByteSucc(ToByte(v - 1));
    }
  }

  /** A byte converted to a number and back is the same byte. */
  lemma {:induction false} ToByteOfByte(b: Byte)
    ensures ToByte(b as nat) == b
    decreases b as nat
  {
    if b != 0 {
      BytePred(b);
      ToByteOfByte(b - 1);
    }
  }

  /** Incrementing a byte below 255 increments its value. */
  lemma ByteSucc(b: Byte)
    requires b as nat < 255
    ensures (b + 1) as nat == b as nat + 1
  {
  }

  /** Decrementing a nonzero byte decrements its value. */
  lemma BytePred(b: Byte)
    requires b != 0
    ensures (b - 1) as nat == b as nat - 1
  {
  }

  /** Zero encodes as zero bytes. */
  lemma {:induction false} BigEndianZero(width: nat)
    ensures BigEndian(0, width) == Zeros(width)
    decreases width
  {
    if width > 0 {
      BigEndianZero(width - 1);
      assert Zeros(width - 1) + [0] == Zeros(width);
    }
  }

  /** A number below 256 encodes as zeros and one last byte. */
  lemma BigEndianSmall(x: nat, width: nat)
    requires x < 256 && width > 0
    ensures BigEndian(x, width) == Zeros(width - 1) + [ToByte(x)]
  {
    BigEndianZero(width - 1);
  }

  /** Decoding an encoded length gives the length back. */
  lemma {:induction false} BigEndianRoundTrip(x: nat, width: nat)
    requires x < Pow256(width)
    ensures FromBigEndian(BigEndian(x, width)) == x
    decreases width
  {
    if width > 0 {
      var r := BigEndian(x, width);
      DivBelow(x, Pow256(width - 1));
      var init, last := BigEndian(x / 256, width - 1), ToByte(x % 256);
      assert r == init + [last];
      assert r[..width - 1] == init && r[width - 1] == last;
      BigEndianRoundTrip(x / 256, width - 1);
      ToByteValue(x % 256);
      calc {
        FromBigEndian(r);
        FromBigEndian(init) * 256 + last as nat;
        (x / 256) * 256 + x % 256;
      }
    }
  }

  /** Encoding the value of a byte string gives the string back: the
      encoding is onto, so together with BigEndianRoundTrip it is a bijection
      between [0, 256^width) and the byte strings of that length. */
  lemma {:induction false} FromBigEndianRoundTrip(s: seq<Byte>)
    ensures BigEndian(FromBigEndian(s), |s|) == s
  {
    if s != [] {
      var n := |s|;
      var init, last := s[..n - 1], s[n - 1];
      var hi := FromBigEndian(init);
      assert s == init + [last];
      assert FromBigEndian(s) == hi * 256 + last as nat;
      FromBigEndianRoundTrip(init);
      assert |init| == n - 1;
      BigEndianStep(hi, last, n);
      calc {
        BigEndian(FromBigEndian(s), n);
        BigEndian(hi * 256 + last as nat, n);
        BigEndian(hi, n - 1) + [last];
        init + [last];
      }
    }
  }

  /** Encoding hi * 256 + lo is encoding hi and appending the byte lo. */
  lemma BigEndianStep(hi: nat, lo: Byte, n: nat)
    requires n > 0 && hi < Pow256(n - 1)
    ensures hi * 256 + lo as nat < Pow256(n)
    ensures BigEndian(hi * 256 + lo as nat, n) == BigEndian(hi, n - 1) + [lo]
  {
    var x := hi * 256 + lo as nat;
    DivMod256(hi, lo as nat);
    ToByteOfByte(lo);
    assert BigEndian(x, n) == BigEndian(x / 256, n - 1) + [ToByte(x % 256)];
  }

  /** A number below 256 * p has its quotient by 256 below p, and the
      quotient and remainder put back together give the number. */
  lemma DivBelow(x: nat, p: nat)
    requires x < 256 * p
    ensures x / 256 < p && (x / 256) * 256 + x % 256 == x
  {
  }

  /** Splitting hi * 256 + lo back into its digits. */
  lemma DivMod256(hi: nat, lo: nat)
    requires lo < 256
    ensures (hi * 256 + lo) / 256 == hi && (hi * 256 + lo) % 256 == lo
  {
  }

  /** n bytes are a whole number of blocks of the given size. Stated by
      recursion rather than with `%`, so that it unfolds one block at a
      time. */
  predicate WholeBlocks(n: nat, size: nat)
    requires size > 0
    decreases n
  {
    n == 0 || (n >= size && WholeBlocks(n - size, size))
  }

  /** Whole blocks followed by whole blocks are whole blocks. */
  lemma {:induction false} WholeBlocksAdd(a: nat, b: nat, size: nat)
    requires size > 0 && WholeBlocks(a, size) && WholeBlocks(b, size)
    ensures WholeBlocks(a + b, size)
    decreases a
  {
    if a > 0 {
      WholeBlocksAdd(a - size, b, size);
    }
  }

  /** The Merkle-Damgard chaining of a compression function f: the value
      reached from s by feeding it the blocks bs in order. */
  function Chain<S, B>(f: (S, B) -> S, s: S, bs: seq<B>): S
    decreases |bs|
  {
    if bs == [] then s else Chain(f, f(s, bs[0]), bs[1..])
  }

  /** Chaining over xs ++ ys chains over xs, then over ys from there. */
  lemma {:induction false} ChainAppend<S, B>(f: (S, B) -> S, s: S, xs: seq<B>, ys: seq<B>)
    ensures Chain(f, s, xs + ys) == Chain(f, Chain(f, s, xs), ys)
    decreases |xs|
  {
    if xs == [] {
      assert xs + ys == ys;
    } else {
      assert (xs + ys)[0] == xs[0];
      assert (xs + ys)[1..] == xs[1..] + ys;
      ChainAppend(f, f(s, xs[0]), xs[1..], ys);
    }
  }

  /** A single block is a single application of f. */
  lemma ChainOne<S, B>(f: (S, B) -> S, s: S, y: B)
    ensures Chain(f, s, [y]) == f(s, y)
  {
    assert [y][0] == y && [y][1..] == [];
  }

  /** One more block is one more application of f. */
  lemma ChainSnoc<S, B>(f: (S, B) -> S, s: S, xs: seq<B>, y: B)
    ensures Chain(f, s, xs + [y]) == f(Chain(f, s, xs), y)
  {
    ChainAppend(f, s, xs, [y]);
    assert [y][1..] == [];
  }

  /** Chaining depends only on the values of the compression function. */
  lemma {:induction false} ChainAgree<S, B>(f: (S, B) -> S, g: (S, B) -> S, s: S, bs: seq<B>)
    requires forall x, y :: f(x, y) == g(x, y)
    ensures Chain(f, s, bs) == Chain(g, s, bs)
    decreases |bs|
  {
    if bs != [] {
      ChainAgree(f, g, f(s, bs[0]), bs[1..]);
    }
  }
}
