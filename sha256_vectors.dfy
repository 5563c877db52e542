/** The known-answer vectors of the SHA-256 crate's tests, proved about
    the specification: SHA-256("") and SHA-256("abc") as FIPS 180-4 gives
    them. Each message pads to one block; the proof follows the block
    through its schedule and the 64 rounds a few steps at a time, with the
    arithmetic on constants kept in lemmas of their own. */
module Sha256Vectors {
  import opened Bytes
  import opened Sha256

  // ---------------------------------------------------------------------
  // Steps shared by both vectors

  /** A loaded schedule word, given the four bytes it is read from and
      their value as a word. */
  lemma LoadedWord(b: Block, t: nat, x0: Byte, x1: Byte, x2: Byte, x3: Byte, r: Word)
    requires t < 16
    requires b[4 * t] == x0 && b[4 * t + 1] == x1 && b[4 * t + 2] == x2 && b[4 * t + 3] == x3
    requires WordFromBytes([x0, x1, x2, x3]) == r
    ensures Schedule(b)[t] == r
  {
    ScheduleWordLoaded(b, t);
    SliceFour(b, 4 * t);
  }

  /** One more round, given the working variables before it, its constant,
      its schedule word and its result. */
  lemma RoundsStep(v: Vars, w: seq<Word>, n: nat, x: Vars, k: Word, wn: Word, y: Vars)
    requires n < |w| && n < 64
    requires Rounds(v, w, n) == x && K(n) == k && w[n] == wn && Round(x, k, wn) == y
    ensures Rounds(v, w, n + 1) == y
  {
  }

  /** The working variables loaded from the initial hash value. */
  lemma LoadInitial()
    ensures Load(IV) == Vars(0x6a09e667, 0xbb67ae85, 0x3c6ef372, 0xa54ff53a, 0x510e527f, 0x9b05688c, 0x1f83d9ab, 0x5be0cd19)
  {
  }

  /** Round constant 0. */
  lemma RoundConstant0()
    ensures K(0) == 0x428a2f98
  {
  }

  /** Round constant 1. */
  lemma RoundConstant1()
    ensures K(1) == 0x71374491
  {
  }

  /** Round constant 2. */
  lemma RoundConstant2()
    ensures K(2) == 0xb5c0fbcf
  {
  }

  /** Round constant 3. */
  lemma RoundConstant3()
    ensures K(3) == 0xe9b5dba5
  {
  }

  /** Round constant 4. */
  lemma RoundConstant4()
    ensures K(4) == 0x3956c25b
  {
  }

  /** Round constant 5. */
  lemma RoundConstant5()
    ensures K(5) == 0x59f111f1
  {
  }

  /** Round constant 6. */
  lemma RoundConstant6()
    ensures K(6) == 0x923f82a4
  {
  }

  /** Round constant 7. */
  lemma RoundConstant7()
    ensures K(7) == 0xab1c5ed5
  {
  }

  /** Round constant 8. */
  lemma RoundConstant8()
    ensures K(8) == 0xd807aa98
  {
  }

  /** Round constant 9. */
  lemma RoundConstant9()
    ensures K(9) == 0x12835b01
  {
  }

  /** Round constant 10. */
  lemma RoundConstant10()
    ensures K(10) == 0x243185be
  {
  }

  /** Round constant 11. */
  lemma RoundConstant11()
    ensures K(11) == 0x550c7dc3
  {
  }

  /** Round constant 12. */
  lemma RoundConstant12()
    ensures K(12) == 0x72be5d74
  {
  }

  /** Round constant 13. */
  lemma RoundConstant13()
    ensures K(13) == 0x80deb1fe
  {
  }

  /** Round constant 14. */
  lemma RoundConstant14()
    ensures K(14) == 0x9bdc06a7
  {
  }

  /** Round constant 15. */
  lemma RoundConstant15()
    ensures K(15) == 0xc19bf174
  {
  }

  /** Round constant 16. */
  lemma RoundConstant16()
    ensures K(16) == 0xe49b69c1
  {
  }

  /** Round constant 17. */
  lemma RoundConstant17()
    ensures K(17) == 0xefbe4786
  {
  }

  /** Round constant 18. */
  lemma RoundConstant18()
    ensures K(18) == 0x0fc19dc6
  {
  }

  /** Round constant 19. */
  lemma RoundConstant19()
    ensures K(19) == 0x240ca1cc
  {
  }

  /** Round constant 20. */
  lemma RoundConstant20()
    ensures K(20) == 0x2de92c6f
  {
  }

  /** Round constant 21. */
  lemma RoundConstant21()
    ensures K(21) == 0x4a7484aa
  {
  }

  /** Round constant 22. */
  lemma RoundConstant22()
    ensures K(22) == 0x5cb0a9dc
  {
  }

  /** Round constant 23. */
  lemma RoundConstant23()
    ensures K(23) == 0x76f988da
  {
  }

  /** Round constant 24. */
  lemma RoundConstant24()
    ensures K(24) == 0x983e5152
  {
  }

  /** Round constant 25. */
  lemma RoundConstant25()
    ensures K(25) == 0xa831c66d
  {
  }

  /** Round constant 26. */
  lemma RoundConstant26()
    ensures K(26) == 0xb00327c8
  {
  }

  /** Round constant 27. */
  lemma RoundConstant27()
    ensures K(27) == 0xbf597fc7
  {
  }

  /** Round constant 28. */
  lemma RoundConstant28()
    ensures K(28) == 0xc6e00bf3
  {
  }

  /** Round constant 29. */
  lemma RoundConstant29()
    ensures K(29) == 0xd5a79147
  {
  }

  /** Round constant 30. */
  lemma RoundConstant30()
    ensures K(30) == 0x06ca6351
  {
  }

  /** Round constant 31. */
  lemma RoundConstant31()
    ensures K(31) == 0x14292967
  {
  }

  /** Round constant 32. */
  lemma RoundConstant32()
    ensures K(32) == 0x27b70a85
  {
  }

  /** Round constant 33. */
  lemma RoundConstant33()
    ensures K(33) == 0x2e1b2138
  {
  }

  /** Round constant 34. */
  lemma RoundConstant34()
    ensures K(34) == 0x4d2c6dfc
  {
  }

  /** Round constant 35. */
  lemma RoundConstant35()
    ensures K(35) == 0x53380d13
  {
  }

  /** Round constant 36. */
  lemma RoundConstant36()
    ensures K(36) == 0x650a7354
  {
  }

  /** Round constant 37. */
  lemma RoundConstant37()
    ensures K(37) == 0x766a0abb
  {
  }

  /** Round constant 38. */
  lemma RoundConstant38()
    ensures K(38) == 0x81c2c92e
  {
  }

  /** Round constant 39. */
  lemma RoundConstant39()
    ensures K(39) == 0x92722c85
  {
  }

  /** Round constant 40. */
  lemma RoundConstant40()
    ensures K(40) == 0xa2bfe8a1
  {
  }

  /** Round constant 41. */
  lemma RoundConstant41()
    ensures K(41) == 0xa81a664b
  {
  }

  /** Round constant 42. */
  lemma RoundConstant42()
    ensures K(42) == 0xc24b8b70
  {
  }

  /** Round constant 43. */
  lemma RoundConstant43()
    ensures K(43) == 0xc76c51a3
  {
  }

  /** Round constant 44. */
  lemma RoundConstant44()
    ensures K(44) == 0xd192e819
  {
  }

  /** Round constant 45. */
  lemma RoundConstant45()
    ensures K(45) == 0xd6990624
  {
  }

  /** Round constant 46. */
  lemma RoundConstant46()
    ensures K(46) == 0xf40e3585
  {
  }

  /** Round constant 47. */
  lemma RoundConstant47()
    ensures K(47) == 0x106aa070
  {
  }

  /** Round constant 48. */
  lemma RoundConstant48()
    ensures K(48) == 0x19a4c116
  {
  }

  /** Round constant 49. */
  lemma RoundConstant49()
    ensures K(49) == 0x1e376c08
  {
  }

  /** Round constant 50. */
  lemma RoundConstant50()
    ensures K(50) == 0x2748774c
  {
  }

  /** Round constant 51. */
  lemma RoundConstant51()
    ensures K(51) == 0x34b0bcb5
  {
  }

  /** Round constant 52. */
  lemma RoundConstant52()
    ensures K(52) == 0x391c0cb3
  {
  }

  /** Round constant 53. */
  lemma RoundConstant53()
    ensures K(53) == 0x4ed8aa4a
  {
  }

  /** Round constant 54. */
  lemma RoundConstant54()
    ensures K(54) == 0x5b9cca4f
  {
  }

  /** Round constant 55. */
  lemma RoundConstant55()
    ensures K(55) == 0x682e6ff3
  {
  }

  /** Round constant 56. */
  lemma RoundConstant56()
    ensures K(56) == 0x748f82ee
  {
  }

  /** Round constant 57. */
  lemma RoundConstant57()
    ensures K(57) == 0x78a5636f
  {
  }

  /** Round constant 58. */
  lemma RoundConstant58()
    ensures K(58) == 0x84c87814
  {
  }

  /** Round constant 59. */
  lemma RoundConstant59()
    ensures K(59) == 0x8cc70208
  {
  }

  /** Round constant 60. */
  lemma RoundConstant60()
    ensures K(60) == 0x90befffa
  {
  }

  /** Round constant 61. */
  lemma RoundConstant61()
    ensures K(61) == 0xa4506ceb
  {
  }

  /** Round constant 62. */
  lemma RoundConstant62()
    ensures K(62) == 0xbef9a3f7
  {
  }

  /** Round constant 63. */
  lemma RoundConstant63()
    ensures K(63) == 0xc67178f2
  {
  }

  /** Bytes 4i..4i+3 of a serialisation, given word i and its bytes. */
  lemma SerializedWord(h: seq<Word>, i: nat, x: Word, bytes: seq<Byte>)
    requires i < |h| && h[i] == x && WordToBytes(x) == bytes
    ensures Serialize(h)[4 * i..4 * i + 4] == bytes
  {
    SerializeWord(h, i);
  }


  // ---------------------------------------------------------------------
  // The empty message

  /** The padded block of the empty message, byte by byte. */
  lemma EmptyPadded(m: seq<Byte>)
    requires m == []
    ensures var b := Pad(m);
      && |b| == 64
      && b[0] == 0x80 && b[1] == 0x00 && b[2] == 0x00 && b[3] == 0x00
      && b[4] == 0x00 && b[5] == 0x00 && b[6] == 0x00 && b[7] == 0x00
      && b[8] == 0x00 && b[9] == 0x00 && b[10] == 0x00 && b[11] == 0x00
      && b[12] == 0x00 && b[13] == 0x00 && b[14] == 0x00 && b[15] == 0x00
      && b[16] == 0x00 && b[17] == 0x00 && b[18] == 0x00 && b[19] == 0x00
      && b[20] == 0x00 && b[21] == 0x00 && b[22] == 0x00 && b[23] == 0x00
      && b[24] == 0x00 && b[25] == 0x00 && b[26] == 0x00 && b[27] == 0x00
      && b[28] == 0x00 && b[29] == 0x00 && b[30] == 0x00 && b[31] == 0x00
      && b[32] == 0x00 && b[33] == 0x00 && b[34] == 0x00 && b[35] == 0x00
      && b[36] == 0x00 && b[37] == 0x00 && b[38] == 0x00 && b[39] == 0x00
      && b[40] == 0x00 && b[41] == 0x00 && b[42] == 0x00 && b[43] == 0x00
      && b[44] == 0x00 && b[45] == 0x00 && b[46] == 0x00 && b[47] == 0x00
      && b[48] == 0x00 && b[49] == 0x00 && b[50] == 0x00 && b[51] == 0x00
      && b[52] == 0x00 && b[53] == 0x00 && b[54] == 0x00 && b[55] == 0x00
      && b[56] == 0x00 && b[57] == 0x00 && b[58] == 0x00 && b[59] == 0x00
      && b[60] == 0x00 && b[61] == 0x00 && b[62] == 0x00 && b[63] == 0x00
  {
    PadShort(m);
    ToByteOfByte(0x00);
    var b := Pad(m);
    EmptyBytes(m, b);
  }

  /** The bytes of that block read off its four parts. */
  lemma EmptyBytes(m: seq<Byte>, b: seq<Byte>)
    requires m == []
    requires b == m + [0x80] + Zeros(55) + (Zeros(7) + [0x00])
    ensures |b| == 64
      && b[0] == 0x80 && b[1] == 0x00 && b[2] == 0x00 && b[3] == 0x00
      && b[4] == 0x00 && b[5] == 0x00 && b[6] == 0x00 && b[7] == 0x00
      && b[8] == 0x00 && b[9] == 0x00 && b[10] == 0x00 && b[11] == 0x00
      && b[12] == 0x00 && b[13] == 0x00 && b[14] == 0x00 && b[15] == 0x00
      && b[16] == 0x00 && b[17] == 0x00 && b[18] == 0x00 && b[19] == 0x00
      && b[20] == 0x00 && b[21] == 0x00 && b[22] == 0x00 && b[23] == 0x00
      && b[24] == 0x00 && b[25] == 0x00 && b[26] == 0x00 && b[27] == 0x00
      && b[28] == 0x00 && b[29] == 0x00 && b[30] == 0x00 && b[31] == 0x00
      && b[32] == 0x00 && b[33] == 0x00 && b[34] == 0x00 && b[35] == 0x00
      && b[36] == 0x00 && b[37] == 0x00 && b[38] == 0x00 && b[39] == 0x00
      && b[40] == 0x00 && b[41] == 0x00 && b[42] == 0x00 && b[43] == 0x00
      && b[44] == 0x00 && b[45] == 0x00 && b[46] == 0x00 && b[47] == 0x00
      && b[48] == 0x00 && b[49] == 0x00 && b[50] == 0x00 && b[51] == 0x00
      && b[52] == 0x00 && b[53] == 0x00 && b[54] == 0x00 && b[55] == 0x00
      && b[56] == 0x00 && b[57] == 0x00 && b[58] == 0x00 && b[59] == 0x00
      && b[60] == 0x00 && b[61] == 0x00 && b[62] == 0x00 && b[63] == 0x00
  {
  }

  /** The sixteen words of that block, big-endian. */
  lemma EmptyWords()
    ensures WordFromBytes([0x80, 0x00, 0x00, 0x00]) == 0x80000000
      && WordFromBytes([0x00, 0x00, 0x00, 0x00]) == 0x00000000
      && WordFromBytes([0x00, 0x00, 0x00, 0x00]) == 0x00000000
      && WordFromBytes([0x00, 0x00, 0x00, 0x00]) == 0x00000000
     
      && WordFromBytes([0x00, 0x00, 0x00, 0x00]) == 0x00000000
      && WordFromBytes([0x00, 0x00, 0x00, 0x00]) == 0x00000000
      && WordFromBytes([0x00, 0x00, 0x00, 0x00]) == 0x00000000
      && WordFromBytes([0x00, 0x00, 0x00, 0x00]) == 0x00000000
     
      && WordFromBytes([0x00, 0x00, 0x00, 0x00]) == 0x00000000
      && WordFromBytes([0x00, 0x00, 0x00, 0x00]) == 0x00000000
      && WordFromBytes([0x00, 0x00, 0x00, 0x00]) == 0x00000000
      && WordFromBytes([0x00, 0x00, 0x00, 0x00]) == 0x00000000
     
      && WordFromBytes([0x00, 0x00, 0x00, 0x00]) == 0x00000000
      && WordFromBytes([0x00, 0x00, 0x00, 0x00]) == 0x00000000
      && WordFromBytes([0x00, 0x00, 0x00, 0x00]) == 0x00000000
      && WordFromBytes([0x00, 0x00, 0x00, 0x00]) == 0x00000000
  {
  }

  /** W[0..15] of that block. */
  lemma EmptyLoaded(b: Block)
    requires b[0] == 0x80 && b[1] == 0x00 && b[2] == 0x00 && b[3] == 0x00
      && b[4] == 0x00 && b[5] == 0x00 && b[6] == 0x00 && b[7] == 0x00
      && b[8] == 0x00 && b[9] == 0x00 && b[10] == 0x00 && b[11] == 0x00
      && b[12] == 0x00 && b[13] == 0x00 && b[14] == 0x00 && b[15] == 0x00
      && b[16] == 0x00 && b[17] == 0x00 && b[18] == 0x00 && b[19] == 0x00
      && b[20] == 0x00 && b[21] == 0x00 && b[22] == 0x00 && b[23] == 0x00
      && b[24] == 0x00 && b[25] == 0x00 && b[26] == 0x00 && b[27] == 0x00
      && b[28] == 0x00 && b[29] == 0x00 && b[30] == 0x00 && b[31] == 0x00
      && b[32] == 0x00 && b[33] == 0x00 && b[34] == 0x00 && b[35] == 0x00
      && b[36] == 0x00 && b[37] == 0x00 && b[38] == 0x00 && b[39] == 0x00
      && b[40] == 0x00 && b[41] == 0x00 && b[42] == 0x00 && b[43] == 0x00
      && b[44] == 0x00 && b[45] == 0x00 && b[46] == 0x00 && b[47] == 0x00
      && b[48] == 0x00 && b[49] == 0x00 && b[50] == 0x00 && b[51] == 0x00
      && b[52] == 0x00 && b[53] == 0x00 && b[54] == 0x00 && b[55] == 0x00
      && b[56] == 0x00 && b[57] == 0x00 && b[58] == 0x00 && b[59] == 0x00
      && b[60] == 0x00 && b[61] == 0x00 && b[62] == 0x00 && b[63] == 0x00
    ensures var w := Schedule(b);
      && w[0] == 0x80000000 && w[1] == 0x00000000 && w[2] == 0x00000000 && w[3] == 0x00000000
      && w[4] == 0x00000000 && w[5] == 0x00000000 && w[6] == 0x00000000 && w[7] == 0x00000000
      && w[8] == 0x00000000 && w[9] == 0x00000000 && w[10] == 0x00000000 && w[11] == 0x00000000
      && w[12] == 0x00000000 && w[13] == 0x00000000 && w[14] == 0x00000000 && w[15] == 0x00000000
  {
    EmptyWords();
    LoadedWord(b, 0, 0x80, 0x00, 0x00, 0x00, 0x80000000);
    LoadedWord(b, 1, 0x00, 0x00, 0x00, 0x00, 0x00000000);
    LoadedWord(b, 2, 0x00, 0x00, 0x00, 0x00, 0x00000000);
    LoadedWord(b, 3, 0x00, 0x00, 0x00, 0x00, 0x00000000);
    LoadedWord(b, 4, 0x00, 0x00, 0x00, 0x00, 0x00000000);
    LoadedWord(b, 5, 0x00, 0x00, 0x00, 0x00, 0x00000000);
    LoadedWord(b, 6, 0x00, 0x00, 0x00, 0x00, 0x00000000);
    LoadedWord(b, 7, 0x00, 0x00, 0x00, 0x00, 0x00000000);
    LoadedWord(b, 8, 0x00, 0x00, 0x00, 0x00, 0x00000000);
    LoadedWord(b, 9, 0x00, 0x00, 0x00, 0x00, 0x00000000);
    LoadedWord(b, 10, 0x00, 0x00, 0x00, 0x00, 0x00000000);
    LoadedWord(b, 11, 0x00, 0x00, 0x00, 0x00, 0x00000000);
    LoadedWord(b, 12, 0x00, 0x00, 0x00, 0x00, 0x00000000);
    LoadedWord(b, 13, 0x00, 0x00, 0x00, 0x00, 0x00000000);
    LoadedWord(b, 14, 0x00, 0x00, 0x00, 0x00, 0x00000000);
    LoadedWord(b, 15, 0x00, 0x00, 0x00, 0x00, 0x00000000);
  }

  /** W[16..31] from W[0..15]. */
  lemma EmptyExpanded1(b: Block)
    requires var w := Schedule(b);
      && w[0] == 0x80000000 && w[1] == 0x00000000 && w[2] == 0x00000000 && w[3] == 0x00000000
      && w[4] == 0x00000000 && w[5] == 0x00000000 && w[6] == 0x00000000 && w[7] == 0x00000000
      && w[8] == 0x00000000 && w[9] == 0x00000000 && w[10] == 0x00000000 && w[11] == 0x00000000
      && w[12] == 0x00000000 && w[13] == 0x00000000 && w[14] == 0x00000000 && w[15] == 0x00000000
    ensures var w := Schedule(b);
      && w[16] == 0x80000000 && w[17] == 0x00000000 && w[18] == 0x00205000 && w[19] == 0x00000000
      && w[20] == 0x22000800 && w[21] == 0x00000000 && w[22] == 0x05089542 && w[23] == 0x80000000
      && w[24] == 0x58080000 && w[25] == 0x0040a000 && w[26] == 0x00162505 && w[27] == 0x66001800
      && w[28] == 0xd6222580 && w[29] == 0x14225508 && w[30] == 0xd645f95c && w[31] == 0xc9282000
  {
    ScheduleWordRecurrence(b, 16);
    ScheduleWordRecurrence(b, 17);
    ScheduleWordRecurrence(b, 18);
    ScheduleWordRecurrence(b, 19);
    ScheduleWordRecurrence(b, 20);
    ScheduleWordRecurrence(b, 21);
    ScheduleWordRecurrence(b, 22);
    ScheduleWordRecurrence(b, 23);
    ScheduleWordRecurrence(b, 24);
    ScheduleWordRecurrence(b, 25);
    ScheduleWordRecurrence(b, 26);
    ScheduleWordRecurrence(b, 27);
    ScheduleWordRecurrence(b, 28);
    ScheduleWordRecurrence(b, 29);
    ScheduleWordRecurrence(b, 30);
    ScheduleWordRecurrence(b, 31);
  }

  /** W[32..47] from W[16..31]. */
  lemma EmptyExpanded2(b: Block)
    requires var w := Schedule(b);
      && w[16] == 0x80000000 && w[17] == 0x00000000 && w[18] == 0x00205000 && w[19] == 0x00000000
      && w[20] == 0x22000800 && w[21] == 0x00000000 && w[22] == 0x05089542 && w[23] == 0x80000000
      && w[24] == 0x58080000 && w[25] == 0x0040a000 && w[26] == 0x00162505 && w[27] == 0x66001800
      && w[28] == 0xd6222580 && w[29] == 0x14225508 && w[30] == 0xd645f95c && w[31] == 0xc9282000
    ensures var w := Schedule(b);
      && w[32] == 0xc3f10094 && w[33] == 0x284ca766 && w[34] == 0x06886dc6 && w[35] == 0xa37bf116
      && w[36] == 0x717cbe96 && w[37] == 0xfec2d74a && w[38] == 0xa7b67f00 && w[39] == 0x811596a2
      && w[40] == 0x98a6e768 && w[41] == 0x03b20c82 && w[42] == 0x5d1da7c9 && w[43] == 0xb156b935
      && w[44] == 0xc3ddca11 && w[45] == 0x249c107f && w[46] == 0xc48d24ef && w[47] == 0x5de54c30
  {
    ScheduleWordRecurrence(b, 32);
    ScheduleWordRecurrence(b, 33);
    ScheduleWordRecurrence(b, 34);
    ScheduleWordRecurrence(b, 35);
    ScheduleWordRecurrence(b, 36);
    ScheduleWordRecurrence(b, 37);
    ScheduleWordRecurrence(b, 38);
    ScheduleWordRecurrence(b, 39);
    ScheduleWordRecurrence(b, 40);
    ScheduleWordRecurrence(b, 41);
    ScheduleWordRecurrence(b, 42);
    ScheduleWordRecurrence(b, 43);
    ScheduleWordRecurrence(b, 44);
    ScheduleWordRecurrence(b, 45);
    ScheduleWordRecurrence(b, 46);
    ScheduleWordRecurrence(b, 47);
  }

  /** W[48..63] from W[32..47]. */
  lemma EmptyExpanded3(b: Block)
    requires var w := Schedule(b);
      && w[32] == 0xc3f10094 && w[33] == 0x284ca766 && w[34] == 0x06886dc6 && w[35] == 0xa37bf116
      && w[36] == 0x717cbe96 && w[37] == 0xfec2d74a && w[38] == 0xa7b67f00 && w[39] == 0x811596a2
      && w[40] == 0x98a6e768 && w[41] == 0x03b20c82 && w[42] == 0x5d1da7c9 && w[43] == 0xb156b935
      && w[44] == 0xc3ddca11 && w[45] == 0x249c107f && w[46] == 0xc48d24ef && w[47] == 0x5de54c30
    ensures var w := Schedule(b);
      && w[48] == 0xdefece65 && w[49] == 0x2ca1480d && w[50] == 0x3c15332c && w[51] == 0x01cec9ad
      && w[52] == 0x160cccd0 && w[53] == 0x0bacda98 && w[54] == 0x361b8fe0 && w[55] == 0xd2320ba6
      && w[56] == 0x029b7007 && w[57] == 0x7546587c && w[58] == 0x07f54f39 && w[59] == 0xf808ddc3
      && w[60] == 0xdcca7608 && w[61] == 0x5e427188 && w[62] == 0x44bcec5d && w[63] == 0x3b5ec49b
  {
    ScheduleWordRecurrence(b, 48);
    ScheduleWordRecurrence(b, 49);
    ScheduleWordRecurrence(b, 50);
    ScheduleWordRecurrence(b, 51);
    ScheduleWordRecurrence(b, 52);
    ScheduleWordRecurrence(b, 53);
    ScheduleWordRecurrence(b, 54);
    ScheduleWordRecurrence(b, 55);
    ScheduleWordRecurrence(b, 56);
    ScheduleWordRecurrence(b, 57);
    ScheduleWordRecurrence(b, 58);
    ScheduleWordRecurrence(b, 59);
    ScheduleWordRecurrence(b, 60);
    ScheduleWordRecurrence(b, 61);
    ScheduleWordRecurrence(b, 62);
    ScheduleWordRecurrence(b, 63);
  }

  /** The whole schedule of that block. */
  lemma EmptySchedule(b: Block)
    requires b[0] == 0x80 && b[1] == 0x00 && b[2] == 0x00 && b[3] == 0x00
      && b[4] == 0x00 && b[5] == 0x00 && b[6] == 0x00 && b[7] == 0x00
      && b[8] == 0x00 && b[9] == 0x00 && b[10] == 0x00 && b[11] == 0x00
      && b[12] == 0x00 && b[13] == 0x00 && b[14] == 0x00 && b[15] == 0x00
      && b[16] == 0x00 && b[17] == 0x00 && b[18] == 0x00 && b[19] == 0x00
      && b[20] == 0x00 && b[21] == 0x00 && b[22] == 0x00 && b[23] == 0x00
      && b[24] == 0x00 && b[25] == 0x00 && b[26] == 0x00 && b[27] == 0x00
      && b[28] == 0x00 && b[29] == 0x00 && b[30] == 0x00 && b[31] == 0x00
      && b[32] == 0x00 && b[33] == 0x00 && b[34] == 0x00 && b[35] == 0x00
      && b[36] == 0x00 && b[37] == 0x00 && b[38] == 0x00 && b[39] == 0x00
      && b[40] == 0x00 && b[41] == 0x00 && b[42] == 0x00 && b[43] == 0x00
      && b[44] == 0x00 && b[45] == 0x00 && b[46] == 0x00 && b[47] == 0x00
      && b[48] == 0x00 && b[49] == 0x00 && b[50] == 0x00 && b[51] == 0x00
      && b[52] == 0x00 && b[53] == 0x00 && b[54] == 0x00 && b[55] == 0x00
      && b[56] == 0x00 && b[57] == 0x00 && b[58] == 0x00 && b[59] == 0x00
      && b[60] == 0x00 && b[61] == 0x00 && b[62] == 0x00 && b[63] == 0x00
    ensures var w := Schedule(b);
      && w[0] == 0x80000000 && w[1] == 0x00000000 && w[2] == 0x00000000 && w[3] == 0x00000000
      && w[4] == 0x00000000 && w[5] == 0x00000000 && w[6] == 0x00000000 && w[7] == 0x00000000
      && w[8] == 0x00000000 && w[9] == 0x00000000 && w[10] == 0x00000000 && w[11] == 0x00000000
      && w[12] == 0x00000000 && w[13] == 0x00000000 && w[14] == 0x00000000 && w[15] == 0x00000000
      && w[16] == 0x80000000 && w[17] == 0x00000000 && w[18] == 0x00205000 && w[19] == 0x00000000
      && w[20] == 0x22000800 && w[21] == 0x00000000 && w[22] == 0x05089542 && w[23] == 0x80000000
      && w[24] == 0x58080000 && w[25] == 0x0040a000 && w[26] == 0x00162505 && w[27] == 0x66001800
      && w[28] == 0xd6222580 && w[29] == 0x14225508 && w[30] == 0xd645f95c && w[31] == 0xc9282000
      && w[32] == 0xc3f10094 && w[33] == 0x284ca766 && w[34] == 0x06886dc6 && w[35] == 0xa37bf116
      && w[36] == 0x717cbe96 && w[37] == 0xfec2d74a && w[38] == 0xa7b67f00 && w[39] == 0x811596a2
      && w[40] == 0x98a6e768 && w[41] == 0x03b20c82 && w[42] == 0x5d1da7c9 && w[43] == 0xb156b935
      && w[44] == 0xc3ddca11 && w[45] == 0x249c107f && w[46] == 0xc48d24ef && w[47] == 0x5de54c30
      && w[48] == 0xdefece65 && w[49] == 0x2ca1480d && w[50] == 0x3c15332c && w[51] == 0x01cec9ad
      && w[52] == 0x160cccd0 && w[53] == 0x0bacda98 && w[54] == 0x361b8fe0 && w[55] == 0xd2320ba6
      && w[56] == 0x029b7007 && w[57] == 0x7546587c && w[58] == 0x07f54f39 && w[59] == 0xf808ddc3
      && w[60] == 0xdcca7608 && w[61] == 0x5e427188 && w[62] == 0x44bcec5d && w[63] == 0x3b5ec49b
  {
    EmptyLoaded(b);
    EmptyExpanded1(b);
    EmptyExpanded2(b);
    EmptyExpanded3(b);
  }

  /** The results of rounds 0..3 on their working variables. */
  lemma EmptyRoundValues0()
    ensures Round(Vars(0x6a09e667, 0xbb67ae85, 0x3c6ef372, 0xa54ff53a, 0x510e527f, 0x9b05688c, 0x1f83d9ab, 0x5be0cd19), 0x428a2f98, 0x80000000) == Vars(0x7c08884d, 0x6a09e667, 0xbb67ae85, 0x3c6ef372, 0x18c7e2a2, 0x510e527f, 0x9b05688c, 0x1f83d9ab)
      && Round(Vars(0x7c08884d, 0x6a09e667, 0xbb67ae85, 0x3c6ef372, 0x18c7e2a2, 0x510e527f, 0x9b05688c, 0x1f83d9ab), 0x71374491, 0x00000000) == Vars(0x9ce564d0, 0x7c08884d, 0x6a09e667, 0xbb67ae85, 0x2001b256, 0x18c7e2a2, 0x510e527f, 0x9b05688c)
      && Round(Vars(0x9ce564d0, 0x7c08884d, 0x6a09e667, 0xbb67ae85, 0x2001b256, 0x18c7e2a2, 0x510e527f, 0x9b05688c), 0xb5c0fbcf, 0x00000000) == Vars(0xc4ac5526, 0x9ce564d0, 0x7c08884d, 0x6a09e667, 0x6fdb22fa, 0x2001b256, 0x18c7e2a2, 0x510e527f)
      && Round(Vars(0xc4ac5526, 0x9ce564d0, 0x7c08884d, 0x6a09e667, 0x6fdb22fa, 0x2001b256, 0x18c7e2a2, 0x510e527f), 0xe9b5dba5, 0x00000000) == Vars(0x4c23eacb, 0xc4ac5526, 0x9ce564d0, 0x7c08884d, 0x3037e1b5, 0x6fdb22fa, 0x2001b256, 0x18c7e2a2)
  {
  }

  /** Rounds 0..3. */
  lemma EmptyRounds0(v: Vars, w: seq<Word>)
    requires |w| == 64 && Rounds(v, w, 0) == Vars(0x6a09e667, 0xbb67ae85, 0x3c6ef372, 0xa54ff53a, 0x510e527f, 0x9b05688c, 0x1f83d9ab, 0x5be0cd19)
    requires w[0] == 0x80000000 && w[1] == 0x00000000 && w[2] == 0x00000000 && w[3] == 0x00000000
    ensures Rounds(v, w, 4) == Vars(0x4c23eacb, 0xc4ac5526, 0x9ce564d0, 0x7c08884d, 0x3037e1b5, 0x6fdb22fa, 0x2001b256, 0x18c7e2a2)
  {
    RoundConstant0();
    RoundConstant1();
    RoundConstant2();
    RoundConstant3();
    EmptyRoundValues0();
    RoundsStep(v, w, 0, Vars(0x6a09e667, 0xbb67ae85, 0x3c6ef372, 0xa54ff53a, 0x510e527f, 0x9b05688c, 0x1f83d9ab, 0x5be0cd19), 0x428a2f98, 0x80000000, Vars(0x7c08884d, 0x6a09e667, 0xbb67ae85, 0x3c6ef372, 0x18c7e2a2, 0x510e527f, 0x9b05688c, 0x1f83d9ab));
    RoundsStep(v, w, 1, Vars(0x7c08884d, 0x6a09e667, 0xbb67ae85, 0x3c6ef372, 0x18c7e2a2, 0x510e527f, 0x9b05688c, 0x1f83d9ab), 0x71374491, 0x00000000, Vars(0x9ce564d0, 0x7c08884d, 0x6a09e667, 0xbb67ae85, 0x2001b256, 0x18c7e2a2, 0x510e527f, 0x9b05688c));
    RoundsStep(v, w, 2, Vars(0x9ce564d0, 0x7c08884d, 0x6a09e667, 0xbb67ae85, 0x2001b256, 0x18c7e2a2, 0x510e527f, 0x9b05688c), 0xb5c0fbcf, 0x00000000, Vars(0xc4ac5526, 0x9ce564d0, 0x7c08884d, 0x6a09e667, 0x6fdb22fa, 0x2001b256, 0x18c7e2a2, 0x510e527f));
    RoundsStep(v, w, 3, Vars(0xc4ac5526, 0x9ce564d0, 0x7c08884d, 0x6a09e667, 0x6fdb22fa, 0x2001b256, 0x18c7e2a2, 0x510e527f), 0xe9b5dba5, 0x00000000, Vars(0x4c23eacb, 0xc4ac5526, 0x9ce564d0, 0x7c08884d, 0x3037e1b5, 0x6fdb22fa, 0x2001b256, 0x18c7e2a2));
  }

  /** The results of rounds 4..7 on their working variables. */
  lemma EmptyRoundValues1()
    ensures Round(Vars(0x4c23eacb, 0xc4ac5526, 0x9ce564d0, 0x7c08884d, 0x3037e1b5, 0x6fdb22fa, 0x2001b256, 0x18c7e2a2), 0x3956c25b, 0x00000000) == Vars(0x4366f730, 0x4c23eacb, 0xc4ac5526, 0x9ce564d0, 0xe7d0641e, 0x3037e1b5, 0x6fdb22fa, 0x2001b256)
      && Round(Vars(0x4366f730, 0x4c23eacb, 0xc4ac5526, 0x9ce564d0, 0xe7d0641e, 0x3037e1b5, 0x6fdb22fa, 0x2001b256), 0x59f111f1, 0x00000000) == Vars(0x292e3b42, 0x4366f730, 0x4c23eacb, 0xc4ac5526, 0x4f6540fa, 0xe7d0641e, 0x3037e1b5, 0x6fdb22fa)
      && Round(Vars(0x292e3b42, 0x4366f730, 0x4c23eacb, 0xc4ac5526, 0x4f6540fa, 0xe7d0641e, 0x3037e1b5, 0x6fdb22fa), 0x923f82a4, 0x00000000) == Vars(0xf0205590, 0x292e3b42, 0x4366f730, 0x4c23eacb, 0x82ede06f, 0x4f6540fa, 0xe7d0641e, 0x3037e1b5)
      && Round(Vars(0xf0205590, 0x292e3b42, 0x4366f730, 0x4c23eacb, 0x82ede06f, 0x4f6540fa, 0xe7d0641e, 0x3037e1b5), 0xab1c5ed5, 0x00000000) == Vars(0x7ad5b1b6, 0xf0205590, 0x292e3b42, 0x4366f730, 0x53f94dcb, 0x82ede06f, 0x4f6540fa, 0xe7d0641e)
  {
  }

  /** Rounds 4..7. */
  lemma EmptyRounds1(v: Vars, w: seq<Word>)
    requires |w| == 64 && Rounds(v, w, 4) == Vars(0x4c23eacb, 0xc4ac5526, 0x9ce564d0, 0x7c08884d, 0x3037e1b5, 0x6fdb22fa, 0x2001b256, 0x18c7e2a2)
    requires w[4] == 0x00000000 && w[5] == 0x00000000 && w[6] == 0x00000000 && w[7] == 0x00000000
    ensures Rounds(v, w, 8) == Vars(0x7ad5b1b6, 0xf0205590, 0x292e3b42, 0x4366f730, 0x53f94dcb, 0x82ede06f, 0x4f6540fa, 0xe7d0641e)
  {
    RoundConstant4();
    RoundConstant5();
    RoundConstant6();
    RoundConstant7();
    EmptyRoundValues1();
    RoundsStep(v, w, 4, Vars(0x4c23eacb, 0xc4ac5526, 0x9ce564d0, 0x7c08884d, 0x3037e1b5, 0x6fdb22fa, 0x2001b256, 0x18c7e2a2), 0x3956c25b, 0x00000000, Vars(0x4366f730, 0x4c23eacb, 0xc4ac5526, 0x9ce564d0, 0xe7d0641e, 0x3037e1b5, 0x6fdb22fa, 0x2001b256));
    RoundsStep(v, w, 5, Vars(0x4366f730, 0x4c23eacb, 0xc4ac5526, 0x9ce564d0, 0xe7d0641e, 0x3037e1b5, 0x6fdb22fa, 0x2001b256), 0x59f111f1, 0x00000000, Vars(0x292e3b42, 0x4366f730, 0x4c23eacb, 0xc4ac5526, 0x4f6540fa, 0xe7d0641e, 0x3037e1b5, 0x6fdb22fa));
    RoundsStep(v, w, 6, Vars(0x292e3b42, 0x4366f730, 0x4c23eacb, 0xc4ac5526, 0x4f6540fa, 0xe7d0641e, 0x3037e1b5, 0x6fdb22fa), 0x923f82a4, 0x00000000, Vars(0xf0205590, 0x292e3b42, 0x4366f730, 0x4c23eacb, 0x82ede06f, 0x4f6540fa, 0xe7d0641e, 0x3037e1b5));
    RoundsStep(v, w, 7, Vars(0xf0205590, 0x292e3b42, 0x4366f730, 0x4c23eacb, 0x82ede06f, 0x4f6540fa, 0xe7d0641e, 0x3037e1b5), 0xab1c5ed5, 0x00000000, Vars(0x7ad5b1b6, 0xf0205590, 0x292e3b42, 0x4366f730, 0x53f94dcb, 0x82ede06f, 0x4f6540fa, 0xe7d0641e));
  }

  /** The results of rounds 8..11 on their working variables. */
  lemma EmptyRoundValues2()
    ensures Round(Vars(0x7ad5b1b6, 0xf0205590, 0x292e3b42, 0x4366f730, 0x53f94dcb, 0x82ede06f, 0x4f6540fa, 0xe7d0641e), 0xd807aa98, 0x00000000) == Vars(0xf52d63a5, 0x7ad5b1b6, 0xf0205590, 0x292e3b42, 0x7aafc618, 0x53f94dcb, 0x82ede06f, 0x4f6540fa)
      && Round(Vars(0xf52d63a5, 0x7ad5b1b6, 0xf0205590, 0x292e3b42, 0x7aafc618, 0x53f94dcb, 0x82ede06f, 0x4f6540fa), 0x12835b01, 0x00000000) == Vars(0xefe8bf51, 0xf52d63a5, 0x7ad5b1b6, 0xf0205590, 0x53072289, 0x7aafc618, 0x53f94dcb, 0x82ede06f)
      && Round(Vars(0xefe8bf51, 0xf52d63a5, 0x7ad5b1b6, 0xf0205590, 0x53072289, 0x7aafc618, 0x53f94dcb, 0x82ede06f), 0x243185be, 0x00000000) == Vars(0x158bb921, 0xefe8bf51, 0xf52d63a5, 0x7ad5b1b6, 0xe23643ce, 0x53072289, 0x7aafc618, 0x53f94dcb)
      && Round(Vars(0x158bb921, 0xefe8bf51, 0xf52d63a5, 0x7ad5b1b6, 0xe23643ce, 0x53072289, 0x7aafc618, 0x53f94dcb), 0x550c7dc3, 0x00000000) == Vars(0xf5434c40, 0x158bb921, 0xefe8bf51, 0xf52d63a5, 0xd7e07c92, 0xe23643ce, 0x53072289, 0x7aafc618)
  {
  }

  /** Rounds 8..11. */
  lemma EmptyRounds2(v: Vars, w: seq<Word>)
    requires |w| == 64 && Rounds(v, w, 8) == Vars(0x7ad5b1b6, 0xf0205590, 0x292e3b42, 0x4366f730, 0x53f94dcb, 0x82ede06f, 0x4f6540fa, 0xe7d0641e)
    requires w[8] == 0x00000000 && w[9] == 0x00000000 && w[10] == 0x00000000 && w[11] == 0x00000000
    ensures Rounds(v, w, 12) == Vars(0xf5434c40, 0x158bb921, 0xefe8bf51, 0xf52d63a5, 0xd7e07c92, 0xe23643ce, 0x53072289, 0x7aafc618)
  {
    RoundConstant8();
    RoundConstant9();
    RoundConstant10();
    RoundConstant11();
    EmptyRoundValues2();
    RoundsStep(v, w, 8, Vars(0x7ad5b1b6, 0xf0205590, 0x292e3b42, 0x4366f730, 0x53f94dcb, 0x82ede06f, 0x4f6540fa, 0xe7d0641e), 0xd807aa98, 0x00000000, Vars(0xf52d63a5, 0x7ad5b1b6, 0xf0205590, 0x292e3b42, 0x7aafc618, 0x53f94dcb, 0x82ede06f, 0x4f6540fa));
    RoundsStep(v, w, 9, Vars(0xf52d63a5, 0x7ad5b1b6, 0xf0205590, 0x292e3b42, 0x7aafc618, 0x53f94dcb, 0x82ede06f, 0x4f6540fa), 0x12835b01, 0x00000000, Vars(0xefe8bf51, 0xf52d63a5, 0x7ad5b1b6, 0xf0205590, 0x53072289, 0x7aafc618, 0x53f94dcb, 0x82ede06f));
    RoundsStep(v, w, 10, Vars(0xefe8bf51, 0xf52d63a5, 0x7ad5b1b6, 0xf0205590, 0x53072289, 0x7aafc618, 0x53f94dcb, 0x82ede06f), 0x243185be, 0x00000000, Vars(0x158bb921, 0xefe8bf51, 0xf52d63a5, 0x7ad5b1b6, 0xe23643ce, 0x53072289, 0x7aafc618, 0x53f94dcb));
    RoundsStep(v, w, 11, Vars(0x158bb921, 0xefe8bf51, 0xf52d63a5, 0x7ad5b1b6, 0xe23643ce, 0x53072289, 0x7aafc618, 0x53f94dcb), 0x550c7dc3, 0x00000000, Vars(0xf5434c40, 0x158bb921, 0xefe8bf51, 0xf52d63a5, 0xd7e07c92, 0xe23643ce, 0x53072289, 0x7aafc618));
  }

  /** The results of rounds 12..15 on their working variables. */
  lemma EmptyRoundValues3()
    ensures Round(Vars(0xf5434c40, 0x158bb921, 0xefe8bf51, 0xf52d63a5, 0xd7e07c92, 0xe23643ce, 0x53072289, 0x7aafc618), 0x72be5d74, 0x00000000) == Vars(0x2102d2cd, 0xf5434c40, 0x158bb921, 0xefe8bf51, 0xcdfdfe52, 0xd7e07c92, 0xe23643ce, 0x53072289)
      && Round(Vars(0x2102d2cd, 0xf5434c40, 0x158bb921, 0xefe8bf51, 0xcdfdfe52, 0xd7e07c92, 0xe23643ce, 0x53072289), 0x80deb1fe, 0x00000000) == Vars(0x45c013a7, 0x2102d2cd, 0xf5434c40, 0x158bb921, 0x2b427296, 0xcdfdfe52, 0xd7e07c92, 0xe23643ce)
      && Round(Vars(0x45c013a7, 0x2102d2cd, 0xf5434c40, 0x158bb921, 0x2b427296, 0xcdfdfe52, 0xd7e07c92, 0xe23643ce), 0x9bdc06a7, 0x00000000) == Vars(0xb88afddb, 0x45c013a7, 0x2102d2cd, 0xf5434c40, 0x1ccfac39, 0x2b427296, 0xcdfdfe52, 0xd7e07c92)
      && Round(Vars(0xb88afddb, 0x45c013a7, 0x2102d2cd, 0xf5434c40, 0x1ccfac39, 0x2b427296, 0xcdfdfe52, 0xd7e07c92), 0xc19bf174, 0x00000000) == Vars(0xb40085b5, 0xb88afddb, 0x45c013a7, 0x2102d2cd, 0x5cb8e863, 0x1ccfac39, 0x2b427296, 0xcdfdfe52)
  {
  }

  /** Rounds 12..15. */
  lemma EmptyRounds3(v: Vars, w: seq<Word>)
    requires |w| == 64 && Rounds(v, w, 12) == Vars(0xf5434c40, 0x158bb921, 0xefe8bf51, 0xf52d63a5, 0xd7e07c92, 0xe23643ce, 0x53072289, 0x7aafc618)
    requires w[12] == 0x00000000 && w[13] == 0x00000000 && w[14] == 0x00000000 && w[15] == 0x00000000
    ensures Rounds(v, w, 16) == Vars(0xb40085b5, 0xb88afddb, 0x45c013a7, 0x2102d2cd, 0x5cb8e863, 0x1ccfac39, 0x2b427296, 0xcdfdfe52)
  {
    RoundConstant12();
    RoundConstant13();
    RoundConstant14();
    RoundConstant15();
    EmptyRoundValues3();
    RoundsStep(v, w, 12, Vars(0xf5434c40, 0x158bb921, 0xefe8bf51, 0xf52d63a5, 0xd7e07c92, 0xe23643ce, 0x53072289, 0x7aafc618), 0x72be5d74, 0x00000000, Vars(0x2102d2cd, 0xf5434c40, 0x158bb921, 0xefe8bf51, 0xcdfdfe52, 0xd7e07c92, 0xe23643ce, 0x53072289));
    RoundsStep(v, w, 13, Vars(0x2102d2cd, 0xf5434c40, 0x158bb921, 0xefe8bf51, 0xcdfdfe52, 0xd7e07c92, 0xe23643ce, 0x53072289), 0x80deb1fe, 0x00000000, Vars(0x45c013a7, 0x2102d2cd, 0xf5434c40, 0x158bb921, 0x2b427296, 0xcdfdfe52, 0xd7e07c92, 0xe23643ce));
    RoundsStep(v, w, 14, Vars(0x45c013a7, 0x2102d2cd, 0xf5434c40, 0x158bb921, 0x2b427296, 0xcdfdfe52, 0xd7e07c92, 0xe23643ce), 0x9bdc06a7, 0x00000000, Vars(0xb88afddb, 0x45c013a7, 0x2102d2cd, 0xf5434c40, 0x1ccfac39, 0x2b427296, 0xcdfdfe52, 0xd7e07c92));
    RoundsStep(v, w, 15, Vars(0xb88afddb, 0x45c013a7, 0x2102d2cd, 0xf5434c40, 0x1ccfac39, 0x2b427296, 0xcdfdfe52, 0xd7e07c92), 0xc19bf174, 0x00000000, Vars(0xb40085b5, 0xb88afddb, 0x45c013a7, 0x2102d2cd, 0x5cb8e863, 0x1ccfac39, 0x2b427296, 0xcdfdfe52));
  }

  /** The results of rounds 16..19 on their working variables. */
  lemma EmptyRoundValues4()
    ensures Round(Vars(0xb40085b5, 0xb88afddb, 0x45c013a7, 0x2102d2cd, 0x5cb8e863, 0x1ccfac39, 0x2b427296, 0xcdfdfe52), 0xe49b69c1, 0x80000000) == Vars(0x470d554a, 0xb40085b5, 0xb88afddb, 0x45c013a7, 0x70d43aa7, 0x5cb8e863, 0x1ccfac39, 0x2b427296)
      && Round(Vars(0x470d554a, 0xb40085b5, 0xb88afddb, 0x45c013a7, 0x70d43aa7, 0x5cb8e863, 0x1ccfac39, 0x2b427296), 0xefbe4786, 0x00000000) == Vars(0xdd999a2b, 0x470d554a, 0xb40085b5, 0xb88afddb, 0x608c93d3, 0x70d43aa7, 0x5cb8e863, 0x1ccfac39)
      && Round(Vars(0xdd999a2b, 0x470d554a, 0xb40085b5, 0xb88afddb, 0x608c93d3, 0x70d43aa7, 0x5cb8e863, 0x1ccfac39), 0x0fc19dc6, 0x00205000) == Vars(0x3067996a, 0xdd999a2b, 0x470d554a, 0xb40085b5, 0xd398dcea, 0x608c93d3, 0x70d43aa7, 0x5cb8e863)
      && Round(Vars(0x3067996a, 0xdd999a2b, 0x470d554a, 0xb40085b5, 0xd398dcea, 0x608c93d3, 0x70d43aa7, 0x5cb8e863), 0x240ca1cc, 0x00000000) == Vars(0x0a480908, 0x3067996a, 0xdd999a2b, 0x470d554a, 0x900d27ac, 0xd398dcea, 0x608c93d3, 0x70d43aa7)
  {
  }

  /** Rounds 16..19. */
  lemma EmptyRounds4(v: Vars, w: seq<Word>)
    requires |w| == 64 && Rounds(v, w, 16) == Vars(0xb40085b5, 0xb88afddb, 0x45c013a7, 0x2102d2cd, 0x5cb8e863, 0x1ccfac39, 0x2b427296, 0xcdfdfe52)
    requires w[16] == 0x80000000 && w[17] == 0x00000000 && w[18] == 0x00205000 && w[19] == 0x00000000
    ensures Rounds(v, w, 20) == Vars(0x0a480908, 0x3067996a, 0xdd999a2b, 0x470d554a, 0x900d27ac, 0xd398dcea, 0x608c93d3, 0x70d43aa7)
  {
    RoundConstant16();
    RoundConstant17();
    RoundConstant18();
    RoundConstant19();
    EmptyRoundValues4();
    RoundsStep(v, w, 16, Vars(0xb40085b5, 0xb88afddb, 0x45c013a7, 0x2102d2cd, 0x5cb8e863, 0x1ccfac39, 0x2b427296, 0xcdfdfe52), 0xe49b69c1, 0x80000000, Vars(0x470d554a, 0xb40085b5, 0xb88afddb, 0x45c013a7, 0x70d43aa7, 0x5cb8e863, 0x1ccfac39, 0x2b427296));
    RoundsStep(v, w, 17, Vars(0x470d554a, 0xb40085b5, 0xb88afddb, 0x45c013a7, 0x70d43aa7, 0x5cb8e863, 0x1ccfac39, 0x2b427296), 0xefbe4786, 0x00000000, Vars(0xdd999a2b, 0x470d554a, 0xb40085b5, 0xb88afddb, 0x608c93d3, 0x70d43aa7, 0x5cb8e863, 0x1ccfac39));
    RoundsStep(v, w, 18, Vars(0xdd999a2b, 0x470d554a, 0xb40085b5, 0xb88afddb, 0x608c93d3, 0x70d43aa7, 0x5cb8e863, 0x1ccfac39), 0x0fc19dc6, 0x00205000, Vars(0x3067996a, 0xdd999a2b, 0x470d554a, 0xb40085b5, 0xd398dcea, 0x608c93d3, 0x70d43aa7, 0x5cb8e863));
    RoundsStep(v, w, 19, Vars(0x3067996a, 0xdd999a2b, 0x470d554a, 0xb40085b5, 0xd398dcea, 0x608c93d3, 0x70d43aa7, 0x5cb8e863), 0x240ca1cc, 0x00000000, Vars(0x0a480908, 0x3067996a, 0xdd999a2b, 0x470d554a, 0x900d27ac, 0xd398dcea, 0x608c93d3, 0x70d43aa7));
  }

  /** The results of rounds 20..23 on their working variables. */
  lemma EmptyRoundValues5()
    ensures Round(Vars(0x0a480908, 0x3067996a, 0xdd999a2b, 0x470d554a, 0x900d27ac, 0xd398dcea, 0x608c93d3, 0x70d43aa7), 0x2de92c6f, 0x22000800) == Vars(0x75c7f0d8, 0x0a480908, 0x3067996a, 0xdd999a2b, 0x39953ccd, 0x900d27ac, 0xd398dcea, 0x608c93d3)
      && Round(Vars(0x75c7f0d8, 0x0a480908, 0x3067996a, 0xdd999a2b, 0x39953ccd, 0x900d27ac, 0xd398dcea, 0x608c93d3), 0x4a7484aa, 0x00000000) == Vars(0x99a6cb19, 0x75c7f0d8, 0x0a480908, 0x3067996a, 0xc287981e, 0x39953ccd, 0x900d27ac, 0xd398dcea)
      && Round(Vars(0x99a6cb19, 0x75c7f0d8, 0x0a480908, 0x3067996a, 0xc287981e, 0x39953ccd, 0x900d27ac, 0xd398dcea), 0x5cb0a9dc, 0x05089542) == Vars(0x404d8054, 0x99a6cb19, 0x75c7f0d8, 0x0a480908, 0xb1653710, 0xc287981e, 0x39953ccd, 0x900d27ac)
      && Round(Vars(0x404d8054, 0x99a6cb19, 0x75c7f0d8, 0x0a480908, 0xb1653710, 0xc287981e, 0x39953ccd, 0x900d27ac), 0x76f988da, 0x80000000) == Vars(0x985bed55, 0x404d8054, 0x99a6cb19, 0x75c7f0d8, 0x2c2c028d, 0xb1653710, 0xc287981e, 0x39953ccd)
  {
  }

  /** Rounds 20..23. */
  lemma EmptyRounds5(v: Vars, w: seq<Word>)
    requires |w| == 64 && Rounds(v, w, 20) == Vars(0x0a480908, 0x3067996a, 0xdd999a2b, 0x470d554a, 0x900d27ac, 0xd398dcea, 0x608c93d3, 0x70d43aa7)
    requires w[20] == 0x22000800 && w[21] == 0x00000000 && w[22] == 0x05089542 && w[23] == 0x80000000
    ensures Rounds(v, w, 24) == Vars(0x985bed55, 0x404d8054, 0x99a6cb19, 0x75c7f0d8, 0x2c2c028d, 0xb1653710, 0xc287981e, 0x39953ccd)
  {
    RoundConstant20();
    RoundConstant21();
    RoundConstant22();
    RoundConstant23();
    EmptyRoundValues5();
    RoundsStep(v, w, 20, Vars(0x0a480908, 0x3067996a, 0xdd999a2b, 0x470d554a, 0x900d27ac, 0xd398dcea, 0x608c93d3, 0x70d43aa7), 0x2de92c6f, 0x22000800, Vars(0x75c7f0d8, 0x0a480908, 0x3067996a, 0xdd999a2b, 0x39953ccd, 0x900d27ac, 0xd398dcea, 0x608c93d3));
    RoundsStep(v, w, 21, Vars(0x75c7f0d8, 0x0a480908, 0x3067996a, 0xdd999a2b, 0x39953ccd, 0x900d27ac, 0xd398dcea, 0x608c93d3), 0x4a7484aa, 0x00000000, Vars(0x99a6cb19, 0x75c7f0d8, 0x0a480908, 0x3067996a, 0xc287981e, 0x39953ccd, 0x900d27ac, 0xd398dcea));
    RoundsStep(v, w, 22, Vars(0x99a6cb19, 0x75c7f0d8, 0x0a480908, 0x3067996a, 0xc287981e, 0x39953ccd, 0x900d27ac, 0xd398dcea), 0x5cb0a9dc, 0x05089542, Vars(0x404d8054, 0x99a6cb19, 0x75c7f0d8, 0x0a480908, 0xb1653710, 0xc287981e, 0x39953ccd, 0x900d27ac));
    RoundsStep(v, w, 23, Vars(0x404d8054, 0x99a6cb19, 0x75c7f0d8, 0x0a480908, 0xb1653710, 0xc287981e, 0x39953ccd, 0x900d27ac), 0x76f988da, 0x80000000, Vars(0x985bed55, 0x404d8054, 0x99a6cb19, 0x75c7f0d8, 0x2c2c028d, 0xb1653710, 0xc287981e, 0x39953ccd));
  }

  /** The results of rounds 24..27 on their working variables. */
  lemma EmptyRoundValues6()
    ensures Round(Vars(0x985bed55, 0x404d8054, 0x99a6cb19, 0x75c7f0d8, 0x2c2c028d, 0xb1653710, 0xc287981e, 0x39953ccd), 0x983e5152, 0x58080000) == Vars(0x7af6d48d, 0x985bed55, 0x404d8054, 0x99a6cb19, 0xf55f8c25, 0x2c2c028d, 0xb1653710, 0xc287981e)
      && Round(Vars(0x7af6d48d, 0x985bed55, 0x404d8054, 0x99a6cb19, 0xf55f8c25, 0x2c2c028d, 0xb1653710, 0xc287981e), 0xa831c66d, 0x0040a000) == Vars(0xc5b814ae, 0x7af6d48d, 0x985bed55, 0x404d8054, 0xe57ac3f4, 0xf55f8c25, 0x2c2c028d, 0xb1653710)
      && Round(Vars(0xc5b814ae, 0x7af6d48d, 0x985bed55, 0x404d8054, 0xe57ac3f4, 0xf55f8c25, 0x2c2c028d, 0xb1653710), 0xb00327c8, 0x00162505) == Vars(0x2c8b2ab9, 0xc5b814ae, 0x7af6d48d, 0x985bed55, 0x9f934283, 0xe57ac3f4, 0xf55f8c25, 0x2c2c028d)
      && Round(Vars(0x2c8b2ab9, 0xc5b814ae, 0x7af6d48d, 0x985bed55, 0x9f934283, 0xe57ac3f4, 0xf55f8c25, 0x2c2c028d), 0xbf597fc7, 0x66001800) == Vars(0x6d8cc697, 0x2c8b2ab9, 0xc5b814ae, 0x7af6d48d, 0x66ed54fa, 0x9f934283, 0xe57ac3f4, 0xf55f8c25)
  {
  }

  /** Rounds 24..27. */
  lemma EmptyRounds6(v: Vars, w: seq<Word>)
    requires |w| == 64 && Rounds(v, w, 24) == Vars(0x985bed55, 0x404d8054, 0x99a6cb19, 0x75c7f0d8, 0x2c2c028d, 0xb1653710, 0xc287981e, 0x39953ccd)
    requires w[24] == 0x58080000 && w[25] == 0x0040a000 && w[26] == 0x00162505 && w[27] == 0x66001800
    ensures Rounds(v, w, 28) == Vars(0x6d8cc697, 0x2c8b2ab9, 0xc5b814ae, 0x7af6d48d, 0x66ed54fa, 0x9f934283, 0xe57ac3f4, 0xf55f8c25)
  {
    RoundConstant24();
    RoundConstant25();
    RoundConstant26();
    RoundConstant27();
    EmptyRoundValues6();
    RoundsStep(v, w, 24, Vars(0x985bed55, 0x404d8054, 0x99a6cb19, 0x75c7f0d8, 0x2c2c028d, 0xb1653710, 0xc287981e, 0x39953ccd), 0x983e5152, 0x58080000, Vars(0x7af6d48d, 0x985bed55, 0x404d8054, 0x99a6cb19, 0xf55f8c25, 0x2c2c028d, 0xb1653710, 0xc287981e));
    RoundsStep(v, w, 25, Vars(0x7af6d48d, 0x985bed55, 0x404d8054, 0x99a6cb19, 0xf55f8c25, 0x2c2c028d, 0xb1653710, 0xc287981e), 0xa831c66d, 0x0040a000, Vars(0xc5b814ae, 0x7af6d48d, 0x985bed55, 0x404d8054, 0xe57ac3f4, 0xf55f8c25, 0x2c2c028d, 0xb1653710));
    RoundsStep(v, w, 26, Vars(0xc5b814ae, 0x7af6d48d, 0x985bed55, 0x404d8054, 0xe57ac3f4, 0xf55f8c25, 0x2c2c028d, 0xb1653710), 0xb00327c8, 0x00162505, Vars(0x2c8b2ab9, 0xc5b814ae, 0x7af6d48d, 0x985bed55, 0x9f934283, 0xe57ac3f4, 0xf55f8c25, 0x2c2c028d));
    RoundsStep(v, w, 27, Vars(0x2c8b2ab9, 0xc5b814ae, 0x7af6d48d, 0x985bed55, 0x9f934283, 0xe57ac3f4, 0xf55f8c25, 0x2c2c028d), 0xbf597fc7, 0x66001800, Vars(0x6d8cc697, 0x2c8b2ab9, 0xc5b814ae, 0x7af6d48d, 0x66ed54fa, 0x9f934283, 0xe57ac3f4, 0xf55f8c25));
  }

  /** The results of rounds 28..31 on their working variables. */
  lemma EmptyRoundValues7()
    ensures Round(Vars(0x6d8cc697, 0x2c8b2ab9, 0xc5b814ae, 0x7af6d48d, 0x66ed54fa, 0x9f934283, 0xe57ac3f4, 0xf55f8c25), 0xc6e00bf3, 0xd6222580) == Vars(0x64bc9e1c, 0x6d8cc697, 0x2c8b2ab9, 0xc5b814ae, 0x95696b75, 0x66ed54fa, 0x9f934283, 0xe57ac3f4)
      && Round(Vars(0x64bc9e1c, 0x6d8cc697, 0x2c8b2ab9, 0xc5b814ae, 0x95696b75, 0x66ed54fa, 0x9f934283, 0xe57ac3f4), 0xd5a79147, 0x14225508) == Vars(0x72d3a00d, 0x64bc9e1c, 0x6d8cc697, 0x2c8b2ab9, 0xb04ab22d, 0x95696b75, 0x66ed54fa, 0x9f934283)
      && Round(Vars(0x72d3a00d, 0x64bc9e1c, 0x6d8cc697, 0x2c8b2ab9, 0xb04ab22d, 0x95696b75, 0x66ed54fa, 0x9f934283), 0x06ca6351, 0xd645f95c) == Vars(0xa0bb0cdf, 0x72d3a00d, 0x64bc9e1c, 0x6d8cc697, 0x564a6626, 0xb04ab22d, 0x95696b75, 0x66ed54fa)
      && Round(Vars(0xa0bb0cdf, 0x72d3a00d, 0x64bc9e1c, 0x6d8cc697, 0x564a6626, 0xb04ab22d, 0x95696b75, 0x66ed54fa), 0x14292967, 0xc9282000) == Vars(0x11e7025f, 0xa0bb0cdf, 0x72d3a00d, 0x64bc9e1c, 0xbbd7846c, 0x564a6626, 0xb04ab22d, 0x95696b75)
  {
  }

  /** Rounds 28..31. */
  lemma EmptyRounds7(v: Vars, w: seq<Word>)
    requires |w| == 64 && Rounds(v, w, 28) == Vars(0x6d8cc697, 0x2c8b2ab9, 0xc5b814ae, 0x7af6d48d, 0x66ed54fa, 0x9f934283, 0xe57ac3f4, 0xf55f8c25)
    requires w[28] == 0xd6222580 && w[29] == 0x14225508 && w[30] == 0xd645f95c && w[31] == 0xc9282000
    ensures Rounds(v, w, 32) == Vars(0x11e7025f, 0xa0bb0cdf, 0x72d3a00d, 0x64bc9e1c, 0xbbd7846c, 0x564a6626, 0xb04ab22d, 0x95696b75)
  {
    RoundConstant28();
    RoundConstant29();
    RoundConstant30();
    RoundConstant31();
    EmptyRoundValues7();
    RoundsStep(v, w, 28, Vars(0x6d8cc697, 0x2c8b2ab9, 0xc5b814ae, 0x7af6d48d, 0x66ed54fa, 0x9f934283, 0xe57ac3f4, 0xf55f8c25), 0xc6e00bf3, 0xd6222580, Vars(0x64bc9e1c, 0x6d8cc697, 0x2c8b2ab9, 0xc5b814ae, 0x95696b75, 0x66ed54fa, 0x9f934283, 0xe57ac3f4));
    RoundsStep(v, w, 29, Vars(0x64bc9e1c, 0x6d8cc697, 0x2c8b2ab9, 0xc5b814ae, 0x95696b75, 0x66ed54fa, 0x9f934283, 0xe57ac3f4), 0xd5a79147, 0x14225508, Vars(0x72d3a00d, 0x64bc9e1c, 0x6d8cc697, 0x2c8b2ab9, 0xb04ab22d, 0x95696b75, 0x66ed54fa, 0x9f934283));
    RoundsStep(v, w, 30, Vars(0x72d3a00d, 0x64bc9e1c, 0x6d8cc697, 0x2c8b2ab9, 0xb04ab22d, 0x95696b75, 0x66ed54fa, 0x9f934283), 0x06ca6351, 0xd645f95c, Vars(0xa0bb0cdf, 0x72d3a00d, 0x64bc9e1c, 0x6d8cc697, 0x564a6626, 0xb04ab22d, 0x95696b75, 0x66ed54fa));
    RoundsStep(v, w, 31, Vars(0xa0bb0cdf, 0x72d3a00d, 0x64bc9e1c, 0x6d8cc697, 0x564a6626, 0xb04ab22d, 0x95696b75, 0x66ed54fa), 0x14292967, 0xc9282000, Vars(0x11e7025f, 0xa0bb0cdf, 0x72d3a00d, 0x64bc9e1c, 0xbbd7846c, 0x564a6626, 0xb04ab22d, 0x95696b75));
  }

  /** The results of rounds 32..35 on their working variables. */
  lemma EmptyRoundValues8()
    ensures Round(Vars(0x11e7025f, 0xa0bb0cdf, 0x72d3a00d, 0x64bc9e1c, 0xbbd7846c, 0x564a6626, 0xb04ab22d, 0x95696b75), 0x27b70a85, 0xc3f10094) == Vars(0xe390f3b6, 0x11e7025f, 0xa0bb0cdf, 0x72d3a00d, 0xccd25d8b, 0xbbd7846c, 0x564a6626, 0xb04ab22d)
      && Round(Vars(0xe390f3b6, 0x11e7025f, 0xa0bb0cdf, 0x72d3a00d, 0xccd25d8b, 0xbbd7846c, 0x564a6626, 0xb04ab22d), 0x2e1b2138, 0x284ca766) == Vars(0xa141b695, 0xe390f3b6, 0x11e7025f, 0xa0bb0cdf, 0x0bc457df, 0xccd25d8b, 0xbbd7846c, 0x564a6626)
      && Round(Vars(0xa141b695, 0xe390f3b6, 0x11e7025f, 0xa0bb0cdf, 0x0bc457df, 0xccd25d8b, 0xbbd7846c, 0x564a6626), 0x4d2c6dfc, 0x06886dc6) == Vars(0x44a181a7, 0xa141b695, 0xe390f3b6, 0x11e7025f, 0x6973aac2, 0x0bc457df, 0xccd25d8b, 0xbbd7846c)
      && Round(Vars(0x44a181a7, 0xa141b695, 0xe390f3b6, 0x11e7025f, 0x6973aac2, 0x0bc457df, 0xccd25d8b, 0xbbd7846c), 0x53380d13, 0xa37bf116) == Vars(0x641fe878, 0x44a181a7, 0xa141b695, 0xe390f3b6, 0x3a705ea9, 0x6973aac2, 0x0bc457df, 0xccd25d8b)
  {
  }

  /** Rounds 32..35. */
  lemma EmptyRounds8(v: Vars, w: seq<Word>)
    requires |w| == 64 && Rounds(v, w, 32) == Vars(0x11e7025f, 0xa0bb0cdf, 0x72d3a00d, 0x64bc9e1c, 0xbbd7846c, 0x564a6626, 0xb04ab22d, 0x95696b75)
    requires w[32] == 0xc3f10094 && w[33] == 0x284ca766 && w[34] == 0x06886dc6 && w[35] == 0xa37bf116
    ensures Rounds(v, w, 36) == Vars(0x641fe878, 0x44a181a7, 0xa141b695, 0xe390f3b6, 0x3a705ea9, 0x6973aac2, 0x0bc457df, 0xccd25d8b)
  {
    RoundConstant32();
    RoundConstant33();
    RoundConstant34();
    RoundConstant35();
    EmptyRoundValues8();
    RoundsStep(v, w, 32, Vars(0x11e7025f, 0xa0bb0cdf, 0x72d3a00d, 0x64bc9e1c, 0xbbd7846c, 0x564a6626, 0xb04ab22d, 0x95696b75), 0x27b70a85, 0xc3f10094, Vars(0xe390f3b6, 0x11e7025f, 0xa0bb0cdf, 0x72d3a00d, 0xccd25d8b, 0xbbd7846c, 0x564a6626, 0xb04ab22d));
    RoundsStep(v, w, 33, Vars(0xe390f3b6, 0x11e7025f, 0xa0bb0cdf, 0x72d3a00d, 0xccd25d8b, 0xbbd7846c, 0x564a6626, 0xb04ab22d), 0x2e1b2138, 0x284ca766, Vars(0xa141b695, 0xe390f3b6, 0x11e7025f, 0xa0bb0cdf, 0x0bc457df, 0xccd25d8b, 0xbbd7846c, 0x564a6626));
    RoundsStep(v, w, 34, Vars(0xa141b695, 0xe390f3b6, 0x11e7025f, 0xa0bb0cdf, 0x0bc457df, 0xccd25d8b, 0xbbd7846c, 0x564a6626), 0x4d2c6dfc, 0x06886dc6, Vars(0x44a181a7, 0xa141b695, 0xe390f3b6, 0x11e7025f, 0x6973aac2, 0x0bc457df, 0xccd25d8b, 0xbbd7846c));
    RoundsStep(v, w, 35, Vars(0x44a181a7, 0xa141b695, 0xe390f3b6, 0x11e7025f, 0x6973aac2, 0x0bc457df, 0xccd25d8b, 0xbbd7846c), 0x53380d13, 0xa37bf116, Vars(0x641fe878, 0x44a181a7, 0xa141b695, 0xe390f3b6, 0x3a705ea9, 0x6973aac2, 0x0bc457df, 0xccd25d8b));
  }

  /** The results of rounds 36..39 on their working variables. */
  lemma EmptyRoundValues9()
    ensures Round(Vars(0x641fe878, 0x44a181a7, 0xa141b695, 0xe390f3b6, 0x3a705ea9, 0x6973aac2, 0x0bc457df, 0xccd25d8b), 0x650a7354, 0x717cbe96) == Vars(0xa096535d, 0x641fe878, 0x44a181a7, 0xa141b695, 0xfac06aed, 0x3a705ea9, 0x6973aac2, 0x0bc457df)
      && Round(Vars(0xa096535d, 0x641fe878, 0x44a181a7, 0xa141b695, 0xfac06aed, 0x3a705ea9, 0x6973aac2, 0x0bc457df), 0x766a0abb, 0xfec2d74a) == Vars(0x56e3dc4e, 0xa096535d, 0x641fe878, 0x44a181a7, 0xe807ea7f, 0xfac06aed, 0x3a705ea9, 0x6973aac2)
      && Round(Vars(0x56e3dc4e, 0xa096535d, 0x641fe878, 0x44a181a7, 0xe807ea7f, 0xfac06aed, 0x3a705ea9, 0x6973aac2), 0x81c2c92e, 0xa7b67f00) == Vars(0x9e58e42f, 0x56e3dc4e, 0xa096535d, 0x641fe878, 0x85a71424, 0xe807ea7f, 0xfac06aed, 0x3a705ea9)
      && Round(Vars(0x9e58e42f, 0x56e3dc4e, 0xa096535d, 0x641fe878, 0x85a71424, 0xe807ea7f, 0xfac06aed, 0x3a705ea9), 0x92722c85, 0x811596a2) == Vars(0x499911b1, 0x9e58e42f, 0x56e3dc4e, 0xa096535d, 0x716bb025, 0x85a71424, 0xe807ea7f, 0xfac06aed)
  {
  }

  /** Rounds 36..39. */
  lemma EmptyRounds9(v: Vars, w: seq<Word>)
    requires |w| == 64 && Rounds(v, w, 36) == Vars(0x641fe878, 0x44a181a7, 0xa141b695, 0xe390f3b6, 0x3a705ea9, 0x6973aac2, 0x0bc457df, 0xccd25d8b)
    requires w[36] == 0x717cbe96 && w[37] == 0xfec2d74a && w[38] == 0xa7b67f00 && w[39] == 0x811596a2
    ensures Rounds(v, w, 40) == Vars(0x499911b1, 0x9e58e42f, 0x56e3dc4e, 0xa096535d, 0x716bb025, 0x85a71424, 0xe807ea7f, 0xfac06aed)
  {
    RoundConstant36();
    RoundConstant37();
    RoundConstant38();
    RoundConstant39();
    EmptyRoundValues9();
    RoundsStep(v, w, 36, Vars(0x641fe878, 0x44a181a7, 0xa141b695, 0xe390f3b6, 0x3a705ea9, 0x6973aac2, 0x0bc457df, 0xccd25d8b), 0x650a7354, 0x717cbe96, Vars(0xa096535d, 0x641fe878, 0x44a181a7, 0xa141b695, 0xfac06aed, 0x3a705ea9, 0x6973aac2, 0x0bc457df));
    RoundsStep(v, w, 37, Vars(0xa096535d, 0x641fe878, 0x44a181a7, 0xa141b695, 0xfac06aed, 0x3a705ea9, 0x6973aac2, 0x0bc457df), 0x766a0abb, 0xfec2d74a, Vars(0x56e3dc4e, 0xa096535d, 0x641fe878, 0x44a181a7, 0xe807ea7f, 0xfac06aed, 0x3a705ea9, 0x6973aac2));
    RoundsStep(v, w, 38, Vars(0x56e3dc4e, 0xa096535d, 0x641fe878, 0x44a181a7, 0xe807ea7f, 0xfac06aed, 0x3a705ea9, 0x6973aac2), 0x81c2c92e, 0xa7b67f00, Vars(0x9e58e42f, 0x56e3dc4e, 0xa096535d, 0x641fe878, 0x85a71424, 0xe807ea7f, 0xfac06aed, 0x3a705ea9));
    RoundsStep(v, w, 39, Vars(0x9e58e42f, 0x56e3dc4e, 0xa096535d, 0x641fe878, 0x85a71424, 0xe807ea7f, 0xfac06aed, 0x3a705ea9), 0x92722c85, 0x811596a2, Vars(0x499911b1, 0x9e58e42f, 0x56e3dc4e, 0xa096535d, 0x716bb025, 0x85a71424, 0xe807ea7f, 0xfac06aed));
  }

  /** The results of rounds 40..43 on their working variables. */
  lemma EmptyRoundValues10()
    ensures Round(Vars(0x499911b1, 0x9e58e42f, 0x56e3dc4e, 0xa096535d, 0x716bb025, 0x85a71424, 0xe807ea7f, 0xfac06aed), 0xa2bfe8a1, 0x98a6e768) == Vars(0xfe86c833, 0x499911b1, 0x9e58e42f, 0x56e3dc4e, 0x849879df, 0x716bb025, 0x85a71424, 0xe807ea7f)
      && Round(Vars(0xfe86c833, 0x499911b1, 0x9e58e42f, 0x56e3dc4e, 0x849879df, 0x716bb025, 0x85a71424, 0xe807ea7f), 0xa81a664b, 0x03b20c82) == Vars(0x2298f88e, 0xfe86c833, 0x499911b1, 0x9e58e42f, 0xf5c58ae9, 0x849879df, 0x716bb025, 0x85a71424)
      && Round(Vars(0x2298f88e, 0xfe86c833, 0x499911b1, 0x9e58e42f, 0xf5c58ae9, 0x849879df, 0x716bb025, 0x85a71424), 0xc24b8b70, 0x5d1da7c9) == Vars(0xdbb545ab, 0x2298f88e, 0xfe86c833, 0x499911b1, 0xe0403eb9, 0xf5c58ae9, 0x849879df, 0x716bb025)
      && Round(Vars(0xdbb545ab, 0x2298f88e, 0xfe86c833, 0x499911b1, 0xe0403eb9, 0xf5c58ae9, 0x849879df, 0x716bb025), 0xc76c51a3, 0xb156b935) == Vars(0xe8e34752, 0xdbb545ab, 0x2298f88e, 0xfe86c833, 0x29426caa, 0xe0403eb9, 0xf5c58ae9, 0x849879df)
  {
  }

  /** Rounds 40..43. */
  lemma EmptyRounds10(v: Vars, w: seq<Word>)
    requires |w| == 64 && Rounds(v, w, 40) == Vars(0x499911b1, 0x9e58e42f, 0x56e3dc4e, 0xa096535d, 0x716bb025, 0x85a71424, 0xe807ea7f, 0xfac06aed)
    requires w[40] == 0x98a6e768 && w[41] == 0x03b20c82 && w[42] == 0x5d1da7c9 && w[43] == 0xb156b935
    ensures Rounds(v, w, 44) == Vars(0xe8e34752, 0xdbb545ab, 0x2298f88e, 0xfe86c833, 0x29426caa, 0xe0403eb9, 0xf5c58ae9, 0x849879df)
  {
    RoundConstant40();
    RoundConstant41();
    RoundConstant42();
    RoundConstant43();
    EmptyRoundValues10();
    RoundsStep(v, w, 40, Vars(0x499911b1, 0x9e58e42f, 0x56e3dc4e, 0xa096535d, 0x716bb025, 0x85a71424, 0xe807ea7f, 0xfac06aed), 0xa2bfe8a1, 0x98a6e768, Vars(0xfe86c833, 0x499911b1, 0x9e58e42f, 0x56e3dc4e, 0x849879df, 0x716bb025, 0x85a71424, 0xe807ea7f));
    RoundsStep(v, w, 41, Vars(0xfe86c833, 0x499911b1, 0x9e58e42f, 0x56e3dc4e, 0x849879df, 0x716bb025, 0x85a71424, 0xe807ea7f), 0xa81a664b, 0x03b20c82, Vars(0x2298f88e, 0xfe86c833, 0x499911b1, 0x9e58e42f, 0xf5c58ae9, 0x849879df, 0x716bb025, 0x85a71424));
    RoundsStep(v, w, 42, Vars(0x2298f88e, 0xfe86c833, 0x499911b1, 0x9e58e42f, 0xf5c58ae9, 0x849879df, 0x716bb025, 0x85a71424), 0xc24b8b70, 0x5d1da7c9, Vars(0xdbb545ab, 0x2298f88e, 0xfe86c833, 0x499911b1, 0xe0403eb9, 0xf5c58ae9, 0x849879df, 0x716bb025));
    RoundsStep(v, w, 43, Vars(0xdbb545ab, 0x2298f88e, 0xfe86c833, 0x499911b1, 0xe0403eb9, 0xf5c58ae9, 0x849879df, 0x716bb025), 0xc76c51a3, 0xb156b935, Vars(0xe8e34752, 0xdbb545ab, 0x2298f88e, 0xfe86c833, 0x29426caa, 0xe0403eb9, 0xf5c58ae9, 0x849879df));
  }

  /** The results of rounds 44..47 on their working variables. */
  lemma EmptyRoundValues11()
    ensures Round(Vars(0xe8e34752, 0xdbb545ab, 0x2298f88e, 0xfe86c833, 0x29426caa, 0xe0403eb9, 0xf5c58ae9, 0x849879df), 0xd192e819, 0xc3ddca11) == Vars(0xa40972d4, 0xe8e34752, 0xdbb545ab, 0x2298f88e, 0xaa2c1810, 0x29426caa, 0xe0403eb9, 0xf5c58ae9)
      && Round(Vars(0xa40972d4, 0xe8e34752, 0xdbb545ab, 0x2298f88e, 0xaa2c1810, 0x29426caa, 0xe0403eb9, 0xf5c58ae9), 0xd6990624, 0x249c107f) == Vars(0x32fa442b, 0xa40972d4, 0xe8e34752, 0xdbb545ab, 0xd285c679, 0xaa2c1810, 0x29426caa, 0xe0403eb9)
      && Round(Vars(0x32fa442b, 0xa40972d4, 0xe8e34752, 0xdbb545ab, 0xd285c679, 0xaa2c1810, 0x29426caa, 0xe0403eb9), 0xf40e3585, 0xc48d24ef) == Vars(0x54982d6c, 0x32fa442b, 0xa40972d4, 0xe8e34752, 0x8a6a82b2, 0xd285c679, 0xaa2c1810, 0x29426caa)
      && Round(Vars(0x54982d6c, 0x32fa442b, 0xa40972d4, 0xe8e34752, 0x8a6a82b2, 0xd285c679, 0xaa2c1810, 0x29426caa), 0x106aa070, 0x5de54c30) == Vars(0x365a34cd, 0x54982d6c, 0x32fa442b, 0xa40972d4, 0xcbb3f8eb, 0x8a6a82b2, 0xd285c679, 0xaa2c1810)
  {
  }

  /** Rounds 44..47. */
  lemma EmptyRounds11(v: Vars, w: seq<Word>)
    requires |w| == 64 && Rounds(v, w, 44) == Vars(0xe8e34752, 0xdbb545ab, 0x2298f88e, 0xfe86c833, 0x29426caa, 0xe0403eb9, 0xf5c58ae9, 0x849879df)
    requires w[44] == 0xc3ddca11 && w[45] == 0x249c107f && w[46] == 0xc48d24ef && w[47] == 0x5de54c30
    ensures Rounds(v, w, 48) == Vars(0x365a34cd, 0x54982d6c, 0x32fa442b, 0xa40972d4, 0xcbb3f8eb, 0x8a6a82b2, 0xd285c679, 0xaa2c1810)
  {
    RoundConstant44();
    RoundConstant45();
    RoundConstant46();
    RoundConstant47();
    EmptyRoundValues11();
    RoundsStep(v, w, 44, Vars(0xe8e34752, 0xdbb545ab, 0x2298f88e, 0xfe86c833, 0x29426caa, 0xe0403eb9, 0xf5c58ae9, 0x849879df), 0xd192e819, 0xc3ddca11, Vars(0xa40972d4, 0xe8e34752, 0xdbb545ab, 0x2298f88e, 0xaa2c1810, 0x29426caa, 0xe0403eb9, 0xf5c58ae9));
    RoundsStep(v, w, 45, Vars(0xa40972d4, 0xe8e34752, 0xdbb545ab, 0x2298f88e, 0xaa2c1810, 0x29426caa, 0xe0403eb9, 0xf5c58ae9), 0xd6990624, 0x249c107f, Vars(0x32fa442b, 0xa40972d4, 0xe8e34752, 0xdbb545ab, 0xd285c679, 0xaa2c1810, 0x29426caa, 0xe0403eb9));
    RoundsStep(v, w, 46, Vars(0x32fa442b, 0xa40972d4, 0xe8e34752, 0xdbb545ab, 0xd285c679, 0xaa2c1810, 0x29426caa, 0xe0403eb9), 0xf40e3585, 0xc48d24ef, Vars(0x54982d6c, 0x32fa442b, 0xa40972d4, 0xe8e34752, 0x8a6a82b2, 0xd285c679, 0xaa2c1810, 0x29426caa));
    RoundsStep(v, w, 47, Vars(0x54982d6c, 0x32fa442b, 0xa40972d4, 0xe8e34752, 0x8a6a82b2, 0xd285c679, 0xaa2c1810, 0x29426caa), 0x106aa070, 0x5de54c30, Vars(0x365a34cd, 0x54982d6c, 0x32fa442b, 0xa40972d4, 0xcbb3f8eb, 0x8a6a82b2, 0xd285c679, 0xaa2c1810));
  }

  /** The results of rounds 48..51 on their working variables. */
  lemma EmptyRoundValues12()
    ensures Round(Vars(0x365a34cd, 0x54982d6c, 0x32fa442b, 0xa40972d4, 0xcbb3f8eb, 0x8a6a82b2, 0xd285c679, 0xaa2c1810), 0x19a4c116, 0xdefece65) == Vars(0x62a82a5e, 0x365a34cd, 0x54982d6c, 0x32fa442b, 0x4cab6d8a, 0xcbb3f8eb, 0x8a6a82b2, 0xd285c679)
      && Round(Vars(0x62a82a5e, 0x365a34cd, 0x54982d6c, 0x32fa442b, 0x4cab6d8a, 0xcbb3f8eb, 0x8a6a82b2, 0xd285c679), 0x1e376c08, 0x2ca1480d) == Vars(0x9798f5ed, 0x62a82a5e, 0x365a34cd, 0x54982d6c, 0xe90aa770, 0x4cab6d8a, 0xcbb3f8eb, 0x8a6a82b2)
      && Round(Vars(0x9798f5ed, 0x62a82a5e, 0x365a34cd, 0x54982d6c, 0xe90aa770, 0x4cab6d8a, 0xcbb3f8eb, 0x8a6a82b2), 0x2748774c, 0x3c15332c) == Vars(0xc163cb21, 0x9798f5ed, 0x62a82a5e, 0x365a34cd, 0x36068bde, 0xe90aa770, 0x4cab6d8a, 0xcbb3f8eb)
      && Round(Vars(0xc163cb21, 0x9798f5ed, 0x62a82a5e, 0x365a34cd, 0x36068bde, 0xe90aa770, 0x4cab6d8a, 0xcbb3f8eb), 0x34b0bcb5, 0x01cec9ad) == Vars(0xd55e06c2, 0xc163cb21, 0x9798f5ed, 0x62a82a5e, 0xa194d14f, 0x36068bde, 0xe90aa770, 0x4cab6d8a)
  {
  }

  /** Rounds 48..51. */
  lemma EmptyRounds12(v: Vars, w: seq<Word>)
    requires |w| == 64 && Rounds(v, w, 48) == Vars(0x365a34cd, 0x54982d6c, 0x32fa442b, 0xa40972d4, 0xcbb3f8eb, 0x8a6a82b2, 0xd285c679, 0xaa2c1810)
    requires w[48] == 0xdefece65 && w[49] == 0x2ca1480d && w[50] == 0x3c15332c && w[51] == 0x01cec9ad
    ensures Rounds(v, w, 52) == Vars(0xd55e06c2, 0xc163cb21, 0x9798f5ed, 0x62a82a5e, 0xa194d14f, 0x36068bde, 0xe90aa770, 0x4cab6d8a)
  {
    RoundConstant48();
    RoundConstant49();
    RoundConstant50();
    RoundConstant51();
    EmptyRoundValues12();
    RoundsStep(v, w, 48, Vars(0x365a34cd, 0x54982d6c, 0x32fa442b, 0xa40972d4, 0xcbb3f8eb, 0x8a6a82b2, 0xd285c679, 0xaa2c1810), 0x19a4c116, 0xdefece65, Vars(0x62a82a5e, 0x365a34cd, 0x54982d6c, 0x32fa442b, 0x4cab6d8a, 0xcbb3f8eb, 0x8a6a82b2, 0xd285c679));
    RoundsStep(v, w, 49, Vars(0x62a82a5e, 0x365a34cd, 0x54982d6c, 0x32fa442b, 0x4cab6d8a, 0xcbb3f8eb, 0x8a6a82b2, 0xd285c679), 0x1e376c08, 0x2ca1480d, Vars(0x9798f5ed, 0x62a82a5e, 0x365a34cd, 0x54982d6c, 0xe90aa770, 0x4cab6d8a, 0xcbb3f8eb, 0x8a6a82b2));
    RoundsStep(v, w, 50, Vars(0x9798f5ed, 0x62a82a5e, 0x365a34cd, 0x54982d6c, 0xe90aa770, 0x4cab6d8a, 0xcbb3f8eb, 0x8a6a82b2), 0x2748774c, 0x3c15332c, Vars(0xc163cb21, 0x9798f5ed, 0x62a82a5e, 0x365a34cd, 0x36068bde, 0xe90aa770, 0x4cab6d8a, 0xcbb3f8eb));
    RoundsStep(v, w, 51, Vars(0xc163cb21, 0x9798f5ed, 0x62a82a5e, 0x365a34cd, 0x36068bde, 0xe90aa770, 0x4cab6d8a, 0xcbb3f8eb), 0x34b0bcb5, 0x01cec9ad, Vars(0xd55e06c2, 0xc163cb21, 0x9798f5ed, 0x62a82a5e, 0xa194d14f, 0x36068bde, 0xe90aa770, 0x4cab6d8a));
  }

  /** The results of rounds 52..55 on their working variables. */
  lemma EmptyRoundValues13()
    ensures Round(Vars(0xd55e06c2, 0xc163cb21, 0x9798f5ed, 0x62a82a5e, 0xa194d14f, 0x36068bde, 0xe90aa770, 0x4cab6d8a), 0x391c0cb3, 0x160cccd0) == Vars(0xb1b29c90, 0xd55e06c2, 0xc163cb21, 0x9798f5ed, 0x43a5def8, 0xa194d14f, 0x36068bde, 0xe90aa770)
      && Round(Vars(0xb1b29c90, 0xd55e06c2, 0xc163cb21, 0x9798f5ed, 0x43a5def8, 0xa194d14f, 0x36068bde, 0xe90aa770), 0x4ed8aa4a, 0x0bacda98) == Vars(0x3a0e9477, 0xb1b29c90, 0xd55e06c2, 0xc163cb21, 0xfd99936e, 0x43a5def8, 0xa194d14f, 0x36068bde)
      && Round(Vars(0x3a0e9477, 0xb1b29c90, 0xd55e06c2, 0xc163cb21, 0xfd99936e, 0x43a5def8, 0xa194d14f, 0x36068bde), 0x5b9cca4f, 0x361b8fe0) == Vars(0x2caf58ca, 0x3a0e9477, 0xb1b29c90, 0xd55e06c2, 0xe588e598, 0xfd99936e, 0x43a5def8, 0xa194d14f)
      && Round(Vars(0x2caf58ca, 0x3a0e9477, 0xb1b29c90, 0xd55e06c2, 0xe588e598, 0xfd99936e, 0x43a5def8, 0xa194d14f), 0x682e6ff3, 0xd2320ba6) == Vars(0x01638014, 0x2caf58ca, 0x3a0e9477, 0xb1b29c90, 0xadf94e0a, 0xe588e598, 0xfd99936e, 0x43a5def8)
  {
  }

  /** Rounds 52..55. */
  lemma EmptyRounds13(v: Vars, w: seq<Word>)
    requires |w| == 64 && Rounds(v, w, 52) == Vars(0xd55e06c2, 0xc163cb21, 0x9798f5ed, 0x62a82a5e, 0xa194d14f, 0x36068bde, 0xe90aa770, 0x4cab6d8a)
    requires w[52] == 0x160cccd0 && w[53] == 0x0bacda98 && w[54] == 0x361b8fe0 && w[55] == 0xd2320ba6
    ensures Rounds(v, w, 56) == Vars(0x01638014, 0x2caf58ca, 0x3a0e9477, 0xb1b29c90, 0xadf94e0a, 0xe588e598, 0xfd99936e, 0x43a5def8)
  {
    RoundConstant52();
    RoundConstant53();
    RoundConstant54();
    RoundConstant55();
    EmptyRoundValues13();
    RoundsStep(v, w, 52, Vars(0xd55e06c2, 0xc163cb21, 0x9798f5ed, 0x62a82a5e, 0xa194d14f, 0x36068bde, 0xe90aa770, 0x4cab6d8a), 0x391c0cb3, 0x160cccd0, Vars(0xb1b29c90, 0xd55e06c2, 0xc163cb21, 0x9798f5ed, 0x43a5def8, 0xa194d14f, 0x36068bde, 0xe90aa770));
    RoundsStep(v, w, 53, Vars(0xb1b29c90, 0xd55e06c2, 0xc163cb21, 0x9798f5ed, 0x43a5def8, 0xa194d14f, 0x36068bde, 0xe90aa770), 0x4ed8aa4a, 0x0bacda98, Vars(0x3a0e9477, 0xb1b29c90, 0xd55e06c2, 0xc163cb21, 0xfd99936e, 0x43a5def8, 0xa194d14f, 0x36068bde));
    RoundsStep(v, w, 54, Vars(0x3a0e9477, 0xb1b29c90, 0xd55e06c2, 0xc163cb21, 0xfd99936e, 0x43a5def8, 0xa194d14f, 0x36068bde), 0x5b9cca4f, 0x361b8fe0, Vars(0x2caf58ca, 0x3a0e9477, 0xb1b29c90, 0xd55e06c2, 0xe588e598, 0xfd99936e, 0x43a5def8, 0xa194d14f));
    RoundsStep(v, w, 55, Vars(0x2caf58ca, 0x3a0e9477, 0xb1b29c90, 0xd55e06c2, 0xe588e598, 0xfd99936e, 0x43a5def8, 0xa194d14f), 0x682e6ff3, 0xd2320ba6, Vars(0x01638014, 0x2caf58ca, 0x3a0e9477, 0xb1b29c90, 0xadf94e0a, 0xe588e598, 0xfd99936e, 0x43a5def8));
  }

  /** The results of rounds 56..59 on their working variables. */
  lemma EmptyRoundValues14()
    ensures Round(Vars(0x01638014, 0x2caf58ca, 0x3a0e9477, 0xb1b29c90, 0xadf94e0a, 0xe588e598, 0xfd99936e, 0x43a5def8), 0x748f82ee, 0x029b7007) == Vars(0x7ec75212, 0x01638014, 0x2caf58ca, 0x3a0e9477, 0x7951a330, 0xadf94e0a, 0xe588e598, 0xfd99936e)
      && Round(Vars(0x7ec75212, 0x01638014, 0x2caf58ca, 0x3a0e9477, 0x7951a330, 0xadf94e0a, 0xe588e598, 0xfd99936e), 0x78a5636f, 0x7546587c) == Vars(0xe7ec45bc, 0x7ec75212, 0x01638014, 0x2caf58ca, 0xe2a91edc, 0x7951a330, 0xadf94e0a, 0xe588e598)
      && Round(Vars(0xe7ec45bc, 0x7ec75212, 0x01638014, 0x2caf58ca, 0xe2a91edc, 0x7951a330, 0xadf94e0a, 0xe588e598), 0x84c87814, 0x07f54f39) == Vars(0xe923abc6, 0xe7ec45bc, 0x7ec75212, 0x01638014, 0x08e0e6ea, 0xe2a91edc, 0x7951a330, 0xadf94e0a)
      && Round(Vars(0xe923abc6, 0xe7ec45bc, 0x7ec75212, 0x01638014, 0x08e0e6ea, 0xe2a91edc, 0x7951a330, 0xadf94e0a), 0x8cc70208, 0xf808ddc3) == Vars(0x04441c0e, 0xe923abc6, 0xe7ec45bc, 0x7ec75212, 0xaaefa044, 0x08e0e6ea, 0xe2a91edc, 0x7951a330)
  {
  }

  /** Rounds 56..59. */
  lemma EmptyRounds14(v: Vars, w: seq<Word>)
    requires |w| == 64 && Rounds(v, w, 56) == Vars(0x01638014, 0x2caf58ca, 0x3a0e9477, 0xb1b29c90, 0xadf94e0a, 0xe588e598, 0xfd99936e, 0x43a5def8)
    requires w[56] == 0x029b7007 && w[57] == 0x7546587c && w[58] == 0x07f54f39 && w[59] == 0xf808ddc3
    ensures Rounds(v, w, 60) == Vars(0x04441c0e, 0xe923abc6, 0xe7ec45bc, 0x7ec75212, 0xaaefa044, 0x08e0e6ea, 0xe2a91edc, 0x7951a330)
  {
    RoundConstant56();
    RoundConstant57();
    RoundConstant58();
    RoundConstant59();
    EmptyRoundValues14();
    RoundsStep(v, w, 56, Vars(0x01638014, 0x2caf58ca, 0x3a0e9477, 0xb1b29c90, 0xadf94e0a, 0xe588e598, 0xfd99936e, 0x43a5def8), 0x748f82ee, 0x029b7007, Vars(0x7ec75212, 0x01638014, 0x2caf58ca, 0x3a0e9477, 0x7951a330, 0xadf94e0a, 0xe588e598, 0xfd99936e));
    RoundsStep(v, w, 57, Vars(0x7ec75212, 0x01638014, 0x2caf58ca, 0x3a0e9477, 0x7951a330, 0xadf94e0a, 0xe588e598, 0xfd99936e), 0x78a5636f, 0x7546587c, Vars(0xe7ec45bc, 0x7ec75212, 0x01638014, 0x2caf58ca, 0xe2a91edc, 0x7951a330, 0xadf94e0a, 0xe588e598));
    RoundsStep(v, w, 58, Vars(0xe7ec45bc, 0x7ec75212, 0x01638014, 0x2caf58ca, 0xe2a91edc, 0x7951a330, 0xadf94e0a, 0xe588e598), 0x84c87814, 0x07f54f39, Vars(0xe923abc6, 0xe7ec45bc, 0x7ec75212, 0x01638014, 0x08e0e6ea, 0xe2a91edc, 0x7951a330, 0xadf94e0a));
    RoundsStep(v, w, 59, Vars(0xe923abc6, 0xe7ec45bc, 0x7ec75212, 0x01638014, 0x08e0e6ea, 0xe2a91edc, 0x7951a330, 0xadf94e0a), 0x8cc70208, 0xf808ddc3, Vars(0x04441c0e, 0xe923abc6, 0xe7ec45bc, 0x7ec75212, 0xaaefa044, 0x08e0e6ea, 0xe2a91edc, 0x7951a330));
  }

  /** The results of rounds 60..63 on their working variables. */
  lemma EmptyRoundValues15()
    ensures Round(Vars(0x04441c0e, 0xe923abc6, 0xe7ec45bc, 0x7ec75212, 0xaaefa044, 0x08e0e6ea, 0xe2a91edc, 0x7951a330), 0x90befffa, 0xdcca7608) == Vars(0xf41fc3ea, 0x04441c0e, 0xe923abc6, 0xe7ec45bc, 0x1c71eb3c, 0xaaefa044, 0x08e0e6ea, 0xe2a91edc)
      && Round(Vars(0xf41fc3ea, 0x04441c0e, 0xe923abc6, 0xe7ec45bc, 0x1c71eb3c, 0xaaefa044, 0x08e0e6ea, 0xe2a91edc), 0xa4506ceb, 0x5e427188) == Vars(0x5e8d0156, 0xf41fc3ea, 0x04441c0e, 0xe923abc6, 0x8511bf70, 0x1c71eb3c, 0xaaefa044, 0x08e0e6ea)
      && Round(Vars(0x5e8d0156, 0xf41fc3ea, 0x04441c0e, 0xe923abc6, 0x8511bf70, 0x1c71eb3c, 0xaaefa044, 0x08e0e6ea), 0xbef9a3f7, 0x44bcec5d) == Vars(0xdd946d8f, 0x5e8d0156, 0xf41fc3ea, 0x04441c0e, 0xc9962ac0, 0x8511bf70, 0x1c71eb3c, 0xaaefa044)
      && Round(Vars(0xdd946d8f, 0x5e8d0156, 0xf41fc3ea, 0x04441c0e, 0xc9962ac0, 0x8511bf70, 0x1c71eb3c, 0xaaefa044), 0xc67178f2, 0x3b5ec49b) == Vars(0x79a6dddb, 0xdd946d8f, 0x5e8d0156, 0xf41fc3ea, 0xd69fef65, 0xc9962ac0, 0x8511bf70, 0x1c71eb3c)
  {
  }

  /** Rounds 60..63. */
  lemma EmptyRounds15(v: Vars, w: seq<Word>)
    requires |w| == 64 && Rounds(v, w, 60) == Vars(0x04441c0e, 0xe923abc6, 0xe7ec45bc, 0x7ec75212, 0xaaefa044, 0x08e0e6ea, 0xe2a91edc, 0x7951a330)
    requires w[60] == 0xdcca7608 && w[61] == 0x5e427188 && w[62] == 0x44bcec5d && w[63] == 0x3b5ec49b
    ensures Rounds(v, w, 64) == Vars(0x79a6dddb, 0xdd946d8f, 0x5e8d0156, 0xf41fc3ea, 0xd69fef65, 0xc9962ac0, 0x8511bf70, 0x1c71eb3c)
  {
    RoundConstant60();
    RoundConstant61();
    RoundConstant62();
    RoundConstant63();
    EmptyRoundValues15();
    RoundsStep(v, w, 60, Vars(0x04441c0e, 0xe923abc6, 0xe7ec45bc, 0x7ec75212, 0xaaefa044, 0x08e0e6ea, 0xe2a91edc, 0x7951a330), 0x90befffa, 0xdcca7608, Vars(0xf41fc3ea, 0x04441c0e, 0xe923abc6, 0xe7ec45bc, 0x1c71eb3c, 0xaaefa044, 0x08e0e6ea, 0xe2a91edc));
    RoundsStep(v, w, 61, Vars(0xf41fc3ea, 0x04441c0e, 0xe923abc6, 0xe7ec45bc, 0x1c71eb3c, 0xaaefa044, 0x08e0e6ea, 0xe2a91edc), 0xa4506ceb, 0x5e427188, Vars(0x5e8d0156, 0xf41fc3ea, 0x04441c0e, 0xe923abc6, 0x8511bf70, 0x1c71eb3c, 0xaaefa044, 0x08e0e6ea));
    RoundsStep(v, w, 62, Vars(0x5e8d0156, 0xf41fc3ea, 0x04441c0e, 0xe923abc6, 0x8511bf70, 0x1c71eb3c, 0xaaefa044, 0x08e0e6ea), 0xbef9a3f7, 0x44bcec5d, Vars(0xdd946d8f, 0x5e8d0156, 0xf41fc3ea, 0x04441c0e, 0xc9962ac0, 0x8511bf70, 0x1c71eb3c, 0xaaefa044));
    RoundsStep(v, w, 63, Vars(0xdd946d8f, 0x5e8d0156, 0xf41fc3ea, 0x04441c0e, 0xc9962ac0, 0x8511bf70, 0x1c71eb3c, 0xaaefa044), 0xc67178f2, 0x3b5ec49b, Vars(0x79a6dddb, 0xdd946d8f, 0x5e8d0156, 0xf41fc3ea, 0xd69fef65, 0xc9962ac0, 0x8511bf70, 0x1c71eb3c));
  }

  /** The feed-forward onto the initial hash value. */
  lemma EmptyFeedForward()
    ensures FeedForward(IV, Vars(0x79a6dddb, 0xdd946d8f, 0x5e8d0156, 0xf41fc3ea, 0xd69fef65, 0xc9962ac0, 0x8511bf70, 0x1c71eb3c)) == [0xe3b0c442, 0x98fc1c14, 0x9afbf4c8, 0x996fb924, 0x27ae41e4, 0x649b934c, 0xa495991b, 0x7852b855]
  {
  }

  /** The compression of that block from the initial hash value. */
  lemma EmptyTransform(b: Block)
    requires b[0] == 0x80 && b[1] == 0x00 && b[2] == 0x00 && b[3] == 0x00
      && b[4] == 0x00 && b[5] == 0x00 && b[6] == 0x00 && b[7] == 0x00
      && b[8] == 0x00 && b[9] == 0x00 && b[10] == 0x00 && b[11] == 0x00
      && b[12] == 0x00 && b[13] == 0x00 && b[14] == 0x00 && b[15] == 0x00
      && b[16] == 0x00 && b[17] == 0x00 && b[18] == 0x00 && b[19] == 0x00
      && b[20] == 0x00 && b[21] == 0x00 && b[22] == 0x00 && b[23] == 0x00
      && b[24] == 0x00 && b[25] == 0x00 && b[26] == 0x00 && b[27] == 0x00
      && b[28] == 0x00 && b[29] == 0x00 && b[30] == 0x00 && b[31] == 0x00
      && b[32] == 0x00 && b[33] == 0x00 && b[34] == 0x00 && b[35] == 0x00
      && b[36] == 0x00 && b[37] == 0x00 && b[38] == 0x00 && b[39] == 0x00
      && b[40] == 0x00 && b[41] == 0x00 && b[42] == 0x00 && b[43] == 0x00
      && b[44] == 0x00 && b[45] == 0x00 && b[46] == 0x00 && b[47] == 0x00
      && b[48] == 0x00 && b[49] == 0x00 && b[50] == 0x00 && b[51] == 0x00
      && b[52] == 0x00 && b[53] == 0x00 && b[54] == 0x00 && b[55] == 0x00
      && b[56] == 0x00 && b[57] == 0x00 && b[58] == 0x00 && b[59] == 0x00
      && b[60] == 0x00 && b[61] == 0x00 && b[62] == 0x00 && b[63] == 0x00
    ensures Transform(IV, b) == [0xe3b0c442, 0x98fc1c14, 0x9afbf4c8, 0x996fb924, 0x27ae41e4, 0x649b934c, 0xa495991b, 0x7852b855]
  {
    EmptySchedule(b);
    var v, w := Load(IV), Schedule(b);
    LoadInitial();
    EmptyRounds0(v, w);
    EmptyRounds1(v, w);
    EmptyRounds2(v, w);
    EmptyRounds3(v, w);
    EmptyRounds4(v, w);
    EmptyRounds5(v, w);
    EmptyRounds6(v, w);
    EmptyRounds7(v, w);
    EmptyRounds8(v, w);
    EmptyRounds9(v, w);
    EmptyRounds10(v, w);
    EmptyRounds11(v, w);
    EmptyRounds12(v, w);
    EmptyRounds13(v, w);
    EmptyRounds14(v, w);
    EmptyRounds15(v, w);
    EmptyFeedForward();
  }

  /** The digest of the empty message: its eight words, big-endian, are
      e3b0c44298fc1c149afbf4c8996fb924
      27ae41e4649b934ca495991b7852b855. */
  lemma EmptyDigest(m: seq<Byte>)
    requires m == []
    ensures Digest(m) == Serialize([0xe3b0c442, 0x98fc1c14, 0x9afbf4c8, 0x996fb924, 0x27ae41e4, 0x649b934c, 0xa495991b, 0x7852b855])
  {
    var b := Pad(m);
    EmptyPadded(m);
    EmptyTransform(b);
    SingleBlock(IV, b);
  }

  /** The words of that digest as bytes. */
  lemma EmptyDigestWordBytes()
    ensures WordToBytes(0xe3b0c442) == [0xe3, 0xb0, 0xc4, 0x42]
      && WordToBytes(0x98fc1c14) == [0x98, 0xfc, 0x1c, 0x14]
      && WordToBytes(0x9afbf4c8) == [0x9a, 0xfb, 0xf4, 0xc8]
      && WordToBytes(0x996fb924) == [0x99, 0x6f, 0xb9, 0x24]
      && WordToBytes(0x27ae41e4) == [0x27, 0xae, 0x41, 0xe4]
      && WordToBytes(0x649b934c) == [0x64, 0x9b, 0x93, 0x4c]
      && WordToBytes(0xa495991b) == [0xa4, 0x95, 0x99, 0x1b]
      && WordToBytes(0x7852b855) == [0x78, 0x52, 0xb8, 0x55]
  {
  }

  /** That digest as the 32-byte array the crate's test expects, 4 bytes
      at a time. */
  lemma EmptyExpected(r: seq<Byte>)
    requires r == Serialize([0xe3b0c442, 0x98fc1c14, 0x9afbf4c8, 0x996fb924, 0x27ae41e4, 0x649b934c, 0xa495991b, 0x7852b855])
    ensures |r| == 32
      && r[0..4] == [0xe3, 0xb0, 0xc4, 0x42]
      && r[4..8] == [0x98, 0xfc, 0x1c, 0x14]
      && r[8..12] == [0x9a, 0xfb, 0xf4, 0xc8]
      && r[12..16] == [0x99, 0x6f, 0xb9, 0x24]
      && r[16..20] == [0x27, 0xae, 0x41, 0xe4]
      && r[20..24] == [0x64, 0x9b, 0x93, 0x4c]
      && r[24..28] == [0xa4, 0x95, 0x99, 0x1b]
      && r[28..32] == [0x78, 0x52, 0xb8, 0x55]
  {
    var h: seq<Word> := [0xe3b0c442, 0x98fc1c14, 0x9afbf4c8, 0x996fb924, 0x27ae41e4, 0x649b934c, 0xa495991b, 0x7852b855];
    EmptyDigestWordBytes();
    SerializedWord(h, 0, 0xe3b0c442, [0xe3, 0xb0, 0xc4, 0x42]);
    SerializedWord(h, 1, 0x98fc1c14, [0x98, 0xfc, 0x1c, 0x14]);
    SerializedWord(h, 2, 0x9afbf4c8, [0x9a, 0xfb, 0xf4, 0xc8]);
    SerializedWord(h, 3, 0x996fb924, [0x99, 0x6f, 0xb9, 0x24]);
    SerializedWord(h, 4, 0x27ae41e4, [0x27, 0xae, 0x41, 0xe4]);
    SerializedWord(h, 5, 0x649b934c, [0x64, 0x9b, 0x93, 0x4c]);
    SerializedWord(h, 6, 0xa495991b, [0xa4, 0x95, 0x99, 0x1b]);
    SerializedWord(h, 7, 0x7852b855, [0x78, 0x52, 0xb8, 0x55]);
  }

  /** `test_sha256_empty`: a fresh hasher fed [] finalizes to the expected
      digest. */
  method TestSha256Empty() returns (r: seq<Byte>)
    ensures |r| == 32
      && r[0..4] == [0xe3, 0xb0, 0xc4, 0x42]
      && r[4..8] == [0x98, 0xfc, 0x1c, 0x14]
      && r[8..12] == [0x9a, 0xfb, 0xf4, 0xc8]
      && r[12..16] == [0x99, 0x6f, 0xb9, 0x24]
      && r[16..20] == [0x27, 0xae, 0x41, 0xe4]
      && r[20..24] == [0x64, 0x9b, 0x93, 0x4c]
      && r[24..28] == [0xa4, 0x95, 0x99, 0x1b]
      && r[28..32] == [0x78, 0x52, 0xb8, 0x55]
  {
    var msg: seq<Byte> := [];
    var hasher := new Hasher();
    hasher.Update(msg);
    assert hasher.absorbed == msg;
    r := hasher.Finalize();
    EmptyDigest(msg);
    EmptyExpected(r);
  }


  // ---------------------------------------------------------------------
  // The message "abc"

  /** The padded block of the message "abc", byte by byte. */
  lemma AbcPadded(m: seq<Byte>)
    requires m == [0x61, 0x62, 0x63]
    ensures var b := Pad(m);
      && |b| == 64
      && b[0] == 0x61 && b[1] == 0x62 && b[2] == 0x63 && b[3] == 0x80
      && b[4] == 0x00 && b[5] == 0x00 && b[6] == 0x00 && b[7] == 0x00
      && b[8] == 0x00 && b[9] == 0x00 && b[10] == 0x00 && b[11] == 0x00
      && b[12] == 0x00 && b[13] == 0x00 && b[14] == 0x00 && b[15] == 0x00
      && b[16] == 0x00 && b[17] == 0x00 && b[18] == 0x00 && b[19] == 0x00
      && b[20] == 0x00 && b[21] == 0x00 && b[22] == 0x00 && b[23] == 0x00
      && b[24] == 0x00 && b[25] == 0x00 && b[26] == 0x00 && b[27] == 0x00
      && b[28] == 0x00 && b[29] == 0x00 && b[30] == 0x00 && b[31] == 0x00
      && b[32] == 0x00 && b[33] == 0x00 && b[34] == 0x00 && b[35] == 0x00
      && b[36] == 0x00 && b[37] == 0x00 && b[38] == 0x00 && b[39] == 0x00
      && b[40] == 0x00 && b[41] == 0x00 && b[42] == 0x00 && b[43] == 0x00
      && b[44] == 0x00 && b[45] == 0x00 && b[46] == 0x00 && b[47] == 0x00
      && b[48] == 0x00 && b[49] == 0x00 && b[50] == 0x00 && b[51] == 0x00
      && b[52] == 0x00 && b[53] == 0x00 && b[54] == 0x00 && b[55] == 0x00
      && b[56] == 0x00 && b[57] == 0x00 && b[58] == 0x00 && b[59] == 0x00
      && b[60] == 0x00 && b[61] == 0x00 && b[62] == 0x00 && b[63] == 0x18
  {
    PadShort(m);
    ToByteOfByte(0x18);
    var b := Pad(m);
    AbcBytes(m, b);
  }

  /** The bytes of that block read off its four parts. */
  lemma AbcBytes(m: seq<Byte>, b: seq<Byte>)
    requires m == [0x61, 0x62, 0x63]
    requires b == m + [0x80] + Zeros(52) + (Zeros(7) + [0x18])
    ensures |b| == 64
      && b[0] == 0x61 && b[1] == 0x62 && b[2] == 0x63 && b[3] == 0x80
      && b[4] == 0x00 && b[5] == 0x00 && b[6] == 0x00 && b[7] == 0x00
      && b[8] == 0x00 && b[9] == 0x00 && b[10] == 0x00 && b[11] == 0x00
      && b[12] == 0x00 && b[13] == 0x00 && b[14] == 0x00 && b[15] == 0x00
      && b[16] == 0x00 && b[17] == 0x00 && b[18] == 0x00 && b[19] == 0x00
      && b[20] == 0x00 && b[21] == 0x00 && b[22] == 0x00 && b[23] == 0x00
      && b[24] == 0x00 && b[25] == 0x00 && b[26] == 0x00 && b[27] == 0x00
      && b[28] == 0x00 && b[29] == 0x00 && b[30] == 0x00 && b[31] == 0x00
      && b[32] == 0x00 && b[33] == 0x00 && b[34] == 0x00 && b[35] == 0x00
      && b[36] == 0x00 && b[37] == 0x00 && b[38] == 0x00 && b[39] == 0x00
      && b[40] == 0x00 && b[41] == 0x00 && b[42] == 0x00 && b[43] == 0x00
      && b[44] == 0x00 && b[45] == 0x00 && b[46] == 0x00 && b[47] == 0x00
      && b[48] == 0x00 && b[49] == 0x00 && b[50] == 0x00 && b[51] == 0x00
      && b[52] == 0x00 && b[53] == 0x00 && b[54] == 0x00 && b[55] == 0x00
      && b[56] == 0x00 && b[57] == 0x00 && b[58] == 0x00 && b[59] == 0x00
      && b[60] == 0x00 && b[61] == 0x00 && b[62] == 0x00 && b[63] == 0x18
  {
  }

  /** The sixteen words of that block, big-endian. */
  lemma AbcWords()
    ensures WordFromBytes([0x61, 0x62, 0x63, 0x80]) == 0x61626380
      && WordFromBytes([0x00, 0x00, 0x00, 0x00]) == 0x00000000
      && WordFromBytes([0x00, 0x00, 0x00, 0x00]) == 0x00000000
      && WordFromBytes([0x00, 0x00, 0x00, 0x00]) == 0x00000000
     
      && WordFromBytes([0x00, 0x00, 0x00, 0x00]) == 0x00000000
      && WordFromBytes([0x00, 0x00, 0x00, 0x00]) == 0x00000000
      && WordFromBytes([0x00, 0x00, 0x00, 0x00]) == 0x00000000
      && WordFromBytes([0x00, 0x00, 0x00, 0x00]) == 0x00000000
     
      && WordFromBytes([0x00, 0x00, 0x00, 0x00]) == 0x00000000
      && WordFromBytes([0x00, 0x00, 0x00, 0x00]) == 0x00000000
      && WordFromBytes([0x00, 0x00, 0x00, 0x00]) == 0x00000000
      && WordFromBytes([0x00, 0x00, 0x00, 0x00]) == 0x00000000
     
      && WordFromBytes([0x00, 0x00, 0x00, 0x00]) == 0x00000000
      && WordFromBytes([0x00, 0x00, 0x00, 0x00]) == 0x00000000
      && WordFromBytes([0x00, 0x00, 0x00, 0x00]) == 0x00000000
      && WordFromBytes([0x00, 0x00, 0x00, 0x18]) == 0x00000018
  {
  }

  /** W[0..15] of that block. */
  lemma AbcLoaded(b: Block)
    requires b[0] == 0x61 && b[1] == 0x62 && b[2] == 0x63 && b[3] == 0x80
      && b[4] == 0x00 && b[5] == 0x00 && b[6] == 0x00 && b[7] == 0x00
      && b[8] == 0x00 && b[9] == 0x00 && b[10] == 0x00 && b[11] == 0x00
      && b[12] == 0x00 && b[13] == 0x00 && b[14] == 0x00 && b[15] == 0x00
      && b[16] == 0x00 && b[17] == 0x00 && b[18] == 0x00 && b[19] == 0x00
      && b[20] == 0x00 && b[21] == 0x00 && b[22] == 0x00 && b[23] == 0x00
      && b[24] == 0x00 && b[25] == 0x00 && b[26] == 0x00 && b[27] == 0x00
      && b[28] == 0x00 && b[29] == 0x00 && b[30] == 0x00 && b[31] == 0x00
      && b[32] == 0x00 && b[33] == 0x00 && b[34] == 0x00 && b[35] == 0x00
      && b[36] == 0x00 && b[37] == 0x00 && b[38] == 0x00 && b[39] == 0x00
      && b[40] == 0x00 && b[41] == 0x00 && b[42] == 0x00 && b[43] == 0x00
      && b[44] == 0x00 && b[45] == 0x00 && b[46] == 0x00 && b[47] == 0x00
      && b[48] == 0x00 && b[49] == 0x00 && b[50] == 0x00 && b[51] == 0x00
      && b[52] == 0x00 && b[53] == 0x00 && b[54] == 0x00 && b[55] == 0x00
      && b[56] == 0x00 && b[57] == 0x00 && b[58] == 0x00 && b[59] == 0x00
      && b[60] == 0x00 && b[61] == 0x00 && b[62] == 0x00 && b[63] == 0x18
    ensures var w := Schedule(b);
      && w[0] == 0x61626380 && w[1] == 0x00000000 && w[2] == 0x00000000 && w[3] == 0x00000000
      && w[4] == 0x00000000 && w[5] == 0x00000000 && w[6] == 0x00000000 && w[7] == 0x00000000
      && w[8] == 0x00000000 && w[9] == 0x00000000 && w[10] == 0x00000000 && w[11] == 0x00000000
      && w[12] == 0x00000000 && w[13] == 0x00000000 && w[14] == 0x00000000 && w[15] == 0x00000018
  {
    AbcWords();
    LoadedWord(b, 0, 0x61, 0x62, 0x63, 0x80, 0x61626380);
    LoadedWord(b, 1, 0x00, 0x00, 0x00, 0x00, 0x00000000);
    LoadedWord(b, 2, 0x00, 0x00, 0x00, 0x00, 0x00000000);
    LoadedWord(b, 3, 0x00, 0x00, 0x00, 0x00, 0x00000000);
    LoadedWord(b, 4, 0x00, 0x00, 0x00, 0x00, 0x00000000);
    LoadedWord(b, 5, 0x00, 0x00, 0x00, 0x00, 0x00000000);
    LoadedWord(b, 6, 0x00, 0x00, 0x00, 0x00, 0x00000000);
    LoadedWord(b, 7, 0x00, 0x00, 0x00, 0x00, 0x00000000);
    LoadedWord(b, 8, 0x00, 0x00, 0x00, 0x00, 0x00000000);
    LoadedWord(b, 9, 0x00, 0x00, 0x00, 0x00, 0x00000000);
    LoadedWord(b, 10, 0x00, 0x00, 0x00, 0x00, 0x00000000);
    LoadedWord(b, 11, 0x00, 0x00, 0x00, 0x00, 0x00000000);
    LoadedWord(b, 12, 0x00, 0x00, 0x00, 0x00, 0x00000000);
    LoadedWord(b, 13, 0x00, 0x00, 0x00, 0x00, 0x00000000);
    LoadedWord(b, 14, 0x00, 0x00, 0x00, 0x00, 0x00000000);
    LoadedWord(b, 15, 0x00, 0x00, 0x00, 0x18, 0x00000018);
  }

  /** W[16..31] from W[0..15]. */
  lemma AbcExpanded1(b: Block)
    requires var w := Schedule(b);
      && w[0] == 0x61626380 && w[1] == 0x00000000 && w[2] == 0x00000000 && w[3] == 0x00000000
      && w[4] == 0x00000000 && w[5] == 0x00000000 && w[6] == 0x00000000 && w[7] == 0x00000000
      && w[8] == 0x00000000 && w[9] == 0x00000000 && w[10] == 0x00000000 && w[11] == 0x00000000
      && w[12] == 0x00000000 && w[13] == 0x00000000 && w[14] == 0x00000000 && w[15] == 0x00000018
    ensures var w := Schedule(b);
      && w[16] == 0x61626380 && w[17] == 0x000f0000 && w[18] == 0x7da86405 && w[19] == 0x600003c6
      && w[20] == 0x3e9d7b78 && w[21] == 0x0183fc00 && w[22] == 0x12dcbfdb && w[23] == 0xe2e2c38e
      && w[24] == 0xc8215c1a && w[25] == 0xb73679a2 && w[26] == 0xe5bc3909 && w[27] == 0x32663c5b
      && w[28] == 0x9d209d67 && w[29] == 0xec8726cb && w[30] == 0x702138a4 && w[31] == 0xd3b7973b
  {
    ScheduleWordRecurrence(b, 16);
    ScheduleWordRecurrence(b, 17);
    ScheduleWordRecurrence(b, 18);
    ScheduleWordRecurrence(b, 19);
    ScheduleWordRecurrence(b, 20);
    ScheduleWordRecurrence(b, 21);
    ScheduleWordRecurrence(b, 22);
    ScheduleWordRecurrence(b, 23);
    ScheduleWordRecurrence(b, 24);
    ScheduleWordRecurrence(b, 25);
    ScheduleWordRecurrence(b, 26);
    ScheduleWordRecurrence(b, 27);
    ScheduleWordRecurrence(b, 28);
    ScheduleWordRecurrence(b, 29);
    ScheduleWordRecurrence(b, 30);
    ScheduleWordRecurrence(b, 31);
  }

  /** W[32..47] from W[16..31]. */
  lemma AbcExpanded2(b: Block)
    requires var w := Schedule(b);
      && w[16] == 0x61626380 && w[17] == 0x000f0000 && w[18] == 0x7da86405 && w[19] == 0x600003c6
      && w[20] == 0x3e9d7b78 && w[21] == 0x0183fc00 && w[22] == 0x12dcbfdb && w[23] == 0xe2e2c38e
      && w[24] == 0xc8215c1a && w[25] == 0xb73679a2 && w[26] == 0xe5bc3909 && w[27] == 0x32663c5b
      && w[28] == 0x9d209d67 && w[29] == 0xec8726cb && w[30] == 0x702138a4 && w[31] == 0xd3b7973b
    ensures var w := Schedule(b);
      && w[32] == 0x93f5997f && w[33] == 0x3b68ba73 && w[34] == 0xaff4ffc1 && w[35] == 0xf10a5c62
      && w[36] == 0x0a8b3996 && w[37] == 0x72af830a && w[38] == 0x9409e33e && w[39] == 0x24641522
      && w[40] == 0x9f47bf94 && w[41] == 0xf0a64f5a && w[42] == 0x3e246a79 && w[43] == 0x27333ba3
      && w[44] == 0x0c4763f2 && w[45] == 0x840abf27 && w[46] == 0x7a290d5d && w[47] == 0x065c43da
  {
    ScheduleWordRecurrence(b, 32);
    ScheduleWordRecurrence(b, 33);
    ScheduleWordRecurrence(b, 34);
    ScheduleWordRecurrence(b, 35);
    ScheduleWordRecurrence(b, 36);
    ScheduleWordRecurrence(b, 37);
    ScheduleWordRecurrence(b, 38);
    ScheduleWordRecurrence(b, 39);
    ScheduleWordRecurrence(b, 40);
    ScheduleWordRecurrence(b, 41);
    ScheduleWordRecurrence(b, 42);
    ScheduleWordRecurrence(b, 43);
    ScheduleWordRecurrence(b, 44);
    ScheduleWordRecurrence(b, 45);
    ScheduleWordRecurrence(b, 46);
    ScheduleWordRecurrence(b, 47);
  }

  /** W[48..63] from W[32..47]. */
  lemma AbcExpanded3(b: Block)
    requires var w := Schedule(b);
      && w[32] == 0x93f5997f && w[33] == 0x3b68ba73 && w[34] == 0xaff4ffc1 && w[35] == 0xf10a5c62
      && w[36] == 0x0a8b3996 && w[37] == 0x72af830a && w[38] == 0x9409e33e && w[39] == 0x24641522
      && w[40] == 0x9f47bf94 && w[41] == 0xf0a64f5a && w[42] == 0x3e246a79 && w[43] == 0x27333ba3
      && w[44] == 0x0c4763f2 && w[45] == 0x840abf27 && w[46] == 0x7a290d5d && w[47] == 0x065c43da
    ensures var w := Schedule(b);
      && w[48] == 0xfb3e89cb && w[49] == 0xcc7617db && w[50] == 0xb9e66c34 && w[51] == 0xa9993667
      && w[52] == 0x84badedd && w[53] == 0xc21462bc && w[54] == 0x1487472c && w[55] == 0xb20f7a99
      && w[56] == 0xef57b9cd && w[57] == 0xebe6b238 && w[58] == 0x9fe3095e && w[59] == 0x78bc8d4b
      && w[60] == 0xa43fcf15 && w[61] == 0x668b2ff8 && w[62] == 0xeeaba2cc && w[63] == 0x12b1edeb
  {
    ScheduleWordRecurrence(b, 48);
    ScheduleWordRecurrence(b, 49);
    ScheduleWordRecurrence(b, 50);
    ScheduleWordRecurrence(b, 51);
    ScheduleWordRecurrence(b, 52);
    ScheduleWordRecurrence(b, 53);
    ScheduleWordRecurrence(b, 54);
    ScheduleWordRecurrence(b, 55);
    ScheduleWordRecurrence(b, 56);
    ScheduleWordRecurrence(b, 57);
    ScheduleWordRecurrence(b, 58);
    ScheduleWordRecurrence(b, 59);
    ScheduleWordRecurrence(b, 60);
    ScheduleWordRecurrence(b, 61);
    ScheduleWordRecurrence(b, 62);
    ScheduleWordRecurrence(b, 63);
  }

  /** The whole schedule of that block. */
  lemma AbcSchedule(b: Block)
    requires b[0] == 0x61 && b[1] == 0x62 && b[2] == 0x63 && b[3] == 0x80
      && b[4] == 0x00 && b[5] == 0x00 && b[6] == 0x00 && b[7] == 0x00
      && b[8] == 0x00 && b[9] == 0x00 && b[10] == 0x00 && b[11] == 0x00
      && b[12] == 0x00 && b[13] == 0x00 && b[14] == 0x00 && b[15] == 0x00
      && b[16] == 0x00 && b[17] == 0x00 && b[18] == 0x00 && b[19] == 0x00
      && b[20] == 0x00 && b[21] == 0x00 && b[22] == 0x00 && b[23] == 0x00
      && b[24] == 0x00 && b[25] == 0x00 && b[26] == 0x00 && b[27] == 0x00
      && b[28] == 0x00 && b[29] == 0x00 && b[30] == 0x00 && b[31] == 0x00
      && b[32] == 0x00 && b[33] == 0x00 && b[34] == 0x00 && b[35] == 0x00
      && b[36] == 0x00 && b[37] == 0x00 && b[38] == 0x00 && b[39] == 0x00
      && b[40] == 0x00 && b[41] == 0x00 && b[42] == 0x00 && b[43] == 0x00
      && b[44] == 0x00 && b[45] == 0x00 && b[46] == 0x00 && b[47] == 0x00
      && b[48] == 0x00 && b[49] == 0x00 && b[50] == 0x00 && b[51] == 0x00
      && b[52] == 0x00 && b[53] == 0x00 && b[54] == 0x00 && b[55] == 0x00
      && b[56] == 0x00 && b[57] == 0x00 && b[58] == 0x00 && b[59] == 0x00
      && b[60] == 0x00 && b[61] == 0x00 && b[62] == 0x00 && b[63] == 0x18
    ensures var w := Schedule(b);
      && w[0] == 0x61626380 && w[1] == 0x00000000 && w[2] == 0x00000000 && w[3] == 0x00000000
      && w[4] == 0x00000000 && w[5] == 0x00000000 && w[6] == 0x00000000 && w[7] == 0x00000000
      && w[8] == 0x00000000 && w[9] == 0x00000000 && w[10] == 0x00000000 && w[11] == 0x00000000
      && w[12] == 0x00000000 && w[13] == 0x00000000 && w[14] == 0x00000000 && w[15] == 0x00000018
      && w[16] == 0x61626380 && w[17] == 0x000f0000 && w[18] == 0x7da86405 && w[19] == 0x600003c6
      && w[20] == 0x3e9d7b78 && w[21] == 0x0183fc00 && w[22] == 0x12dcbfdb && w[23] == 0xe2e2c38e
      && w[24] == 0xc8215c1a && w[25] == 0xb73679a2 && w[26] == 0xe5bc3909 && w[27] == 0x32663c5b
      && w[28] == 0x9d209d67 && w[29] == 0xec8726cb && w[30] == 0x702138a4 && w[31] == 0xd3b7973b
      && w[32] == 0x93f5997f && w[33] == 0x3b68ba73 && w[34] == 0xaff4ffc1 && w[35] == 0xf10a5c62
      && w[36] == 0x0a8b3996 && w[37] == 0x72af830a && w[38] == 0x9409e33e && w[39] == 0x24641522
      && w[40] == 0x9f47bf94 && w[41] == 0xf0a64f5a && w[42] == 0x3e246a79 && w[43] == 0x27333ba3
      && w[44] == 0x0c4763f2 && w[45] == 0x840abf27 && w[46] == 0x7a290d5d && w[47] == 0x065c43da
      && w[48] == 0xfb3e89cb && w[49] == 0xcc7617db && w[50] == 0xb9e66c34 && w[51] == 0xa9993667
      && w[52] == 0x84badedd && w[53] == 0xc21462bc && w[54] == 0x1487472c && w[55] == 0xb20f7a99
      && w[56] == 0xef57b9cd && w[57] == 0xebe6b238 && w[58] == 0x9fe3095e && w[59] == 0x78bc8d4b
      && w[60] == 0xa43fcf15 && w[61] == 0x668b2ff8 && w[62] == 0xeeaba2cc && w[63] == 0x12b1edeb
  {
    AbcLoaded(b);
    AbcExpanded1(b);
    AbcExpanded2(b);
    AbcExpanded3(b);
  }

  /** The results of rounds 0..3 on their working variables. */
  lemma AbcRoundValues0()
    ensures Round(Vars(0x6a09e667, 0xbb67ae85, 0x3c6ef372, 0xa54ff53a, 0x510e527f, 0x9b05688c, 0x1f83d9ab, 0x5be0cd19), 0x428a2f98, 0x61626380) == Vars(0x5d6aebcd, 0x6a09e667, 0xbb67ae85, 0x3c6ef372, 0xfa2a4622, 0x510e527f, 0x9b05688c, 0x1f83d9ab)
      && Round(Vars(0x5d6aebcd, 0x6a09e667, 0xbb67ae85, 0x3c6ef372, 0xfa2a4622, 0x510e527f, 0x9b05688c, 0x1f83d9ab), 0x71374491, 0x00000000) == Vars(0x5a6ad9ad, 0x5d6aebcd, 0x6a09e667, 0xbb67ae85, 0x78ce7989, 0xfa2a4622, 0x510e527f, 0x9b05688c)
      && Round(Vars(0x5a6ad9ad, 0x5d6aebcd, 0x6a09e667, 0xbb67ae85, 0x78ce7989, 0xfa2a4622, 0x510e527f, 0x9b05688c), 0xb5c0fbcf, 0x00000000) == Vars(0xc8c347a7, 0x5a6ad9ad, 0x5d6aebcd, 0x6a09e667, 0xf92939eb, 0x78ce7989, 0xfa2a4622, 0x510e527f)
      && Round(Vars(0xc8c347a7, 0x5a6ad9ad, 0x5d6aebcd, 0x6a09e667, 0xf92939eb, 0x78ce7989, 0xfa2a4622, 0x510e527f), 0xe9b5dba5, 0x00000000) == Vars(0xd550f666, 0xc8c347a7, 0x5a6ad9ad, 0x5d6aebcd, 0x24e00850, 0xf92939eb, 0x78ce7989, 0xfa2a4622)
  {
  }

  /** Rounds 0..3. */
  lemma AbcRounds0(v: Vars, w: seq<Word>)
    requires |w| == 64 && Rounds(v, w, 0) == Vars(0x6a09e667, 0xbb67ae85, 0x3c6ef372, 0xa54ff53a, 0x510e527f, 0x9b05688c, 0x1f83d9ab, 0x5be0cd19)
    requires w[0] == 0x61626380 && w[1] == 0x00000000 && w[2] == 0x00000000 && w[3] == 0x00000000
    ensures Rounds(v, w, 4) == Vars(0xd550f666, 0xc8c347a7, 0x5a6ad9ad, 0x5d6aebcd, 0x24e00850, 0xf92939eb, 0x78ce7989, 0xfa2a4622)
  {
    RoundConstant0();
    RoundConstant1();
    RoundConstant2();
    RoundConstant3();
    AbcRoundValues0();
    RoundsStep(v, w, 0, Vars(0x6a09e667, 0xbb67ae85, 0x3c6ef372, 0xa54ff53a, 0x510e527f, 0x9b05688c, 0x1f83d9ab, 0x5be0cd19), 0x428a2f98, 0x61626380, Vars(0x5d6aebcd, 0x6a09e667, 0xbb67ae85, 0x3c6ef372, 0xfa2a4622, 0x510e527f, 0x9b05688c, 0x1f83d9ab));
    RoundsStep(v, w, 1, Vars(0x5d6aebcd, 0x6a09e667, 0xbb67ae85, 0x3c6ef372, 0xfa2a4622, 0x510e527f, 0x9b05688c, 0x1f83d9ab), 0x71374491, 0x00000000, Vars(0x5a6ad9ad, 0x5d6aebcd, 0x6a09e667, 0xbb67ae85, 0x78ce7989, 0xfa2a4622, 0x510e527f, 0x9b05688c));
    RoundsStep(v, w, 2, Vars(0x5a6ad9ad, 0x5d6aebcd, 0x6a09e667, 0xbb67ae85, 0x78ce7989, 0xfa2a4622, 0x510e527f, 0x9b05688c), 0xb5c0fbcf, 0x00000000, Vars(0xc8c347a7, 0x5a6ad9ad, 0x5d6aebcd, 0x6a09e667, 0xf92939eb, 0x78ce7989, 0xfa2a4622, 0x510e527f));
    RoundsStep(v, w, 3, Vars(0xc8c347a7, 0x5a6ad9ad, 0x5d6aebcd, 0x6a09e667, 0xf92939eb, 0x78ce7989, 0xfa2a4622, 0x510e527f), 0xe9b5dba5, 0x00000000, Vars(0xd550f666, 0xc8c347a7, 0x5a6ad9ad, 0x5d6aebcd, 0x24e00850, 0xf92939eb, 0x78ce7989, 0xfa2a4622));
  }

  /** The results of rounds 4..7 on their working variables. */
  lemma AbcRoundValues1()
    ensures Round(Vars(0xd550f666, 0xc8c347a7, 0x5a6ad9ad, 0x5d6aebcd, 0x24e00850, 0xf92939eb, 0x78ce7989, 0xfa2a4622), 0x3956c25b, 0x00000000) == Vars(0x04409a6a, 0xd550f666, 0xc8c347a7, 0x5a6ad9ad, 0x43ada245, 0x24e00850, 0xf92939eb, 0x78ce7989)
      && Round(Vars(0x04409a6a, 0xd550f666, 0xc8c347a7, 0x5a6ad9ad, 0x43ada245, 0x24e00850, 0xf92939eb, 0x78ce7989), 0x59f111f1, 0x00000000) == Vars(0x2b4209f5, 0x04409a6a, 0xd550f666, 0xc8c347a7, 0x714260ad, 0x43ada245, 0x24e00850, 0xf92939eb)
      && Round(Vars(0x2b4209f5, 0x04409a6a, 0xd550f666, 0xc8c347a7, 0x714260ad, 0x43ada245, 0x24e00850, 0xf92939eb), 0x923f82a4, 0x00000000) == Vars(0xe5030380, 0x2b4209f5, 0x04409a6a, 0xd550f666, 0x9b27a401, 0x714260ad, 0x43ada245, 0x24e00850)
      && Round(Vars(0xe5030380, 0x2b4209f5, 0x04409a6a, 0xd550f666, 0x9b27a401, 0x714260ad, 0x43ada245, 0x24e00850), 0xab1c5ed5, 0x00000000) == Vars(0x85a07b5f, 0xe5030380, 0x2b4209f5, 0x04409a6a, 0x0c657a79, 0x9b27a401, 0x714260ad, 0x43ada245)
  {
  }

  /** Rounds 4..7. */
  lemma AbcRounds1(v: Vars, w: seq<Word>)
    requires |w| == 64 && Rounds(v, w, 4) == Vars(0xd550f666, 0xc8c347a7, 0x5a6ad9ad, 0x5d6aebcd, 0x24e00850, 0xf92939eb, 0x78ce7989, 0xfa2a4622)
    requires w[4] == 0x00000000 && w[5] == 0x00000000 && w[6] == 0x00000000 && w[7] == 0x00000000
    ensures Rounds(v, w, 8) == Vars(0x85a07b5f, 0xe5030380, 0x2b4209f5, 0x04409a6a, 0x0c657a79, 0x9b27a401, 0x714260ad, 0x43ada245)
  {
    RoundConstant4();
    RoundConstant5();
    RoundConstant6();
    RoundConstant7();
    AbcRoundValues1();
    RoundsStep(v, w, 4, Vars(0xd550f666, 0xc8c347a7, 0x5a6ad9ad, 0x5d6aebcd, 0x24e00850, 0xf92939eb, 0x78ce7989, 0xfa2a4622), 0x3956c25b, 0x00000000, Vars(0x04409a6a, 0xd550f666, 0xc8c347a7, 0x5a6ad9ad, 0x43ada245, 0x24e00850, 0xf92939eb, 0x78ce7989));
    RoundsStep(v, w, 5, Vars(0x04409a6a, 0xd550f666, 0xc8c347a7, 0x5a6ad9ad, 0x43ada245, 0x24e00850, 0xf92939eb, 0x78ce7989), 0x59f111f1, 0x00000000, Vars(0x2b4209f5, 0x04409a6a, 0xd550f666, 0xc8c347a7, 0x714260ad, 0x43ada245, 0x24e00850, 0xf92939eb));
    RoundsStep(v, w, 6, Vars(0x2b4209f5, 0x04409a6a, 0xd550f666, 0xc8c347a7, 0x714260ad, 0x43ada245, 0x24e00850, 0xf92939eb), 0x923f82a4, 0x00000000, Vars(0xe5030380, 0x2b4209f5, 0x04409a6a, 0xd550f666, 0x9b27a401, 0x714260ad, 0x43ada245, 0x24e00850));
    RoundsStep(v, w, 7, Vars(0xe5030380, 0x2b4209f5, 0x04409a6a, 0xd550f666, 0x9b27a401, 0x714260ad, 0x43ada245, 0x24e00850), 0xab1c5ed5, 0x00000000, Vars(0x85a07b5f, 0xe5030380, 0x2b4209f5, 0x04409a6a, 0x0c657a79, 0x9b27a401, 0x714260ad, 0x43ada245));
  }

  /** The results of rounds 8..11 on their working variables. */
  lemma AbcRoundValues2()
    ensures Round(Vars(0x85a07b5f, 0xe5030380, 0x2b4209f5, 0x04409a6a, 0x0c657a79, 0x9b27a401, 0x714260ad, 0x43ada245), 0xd807aa98, 0x00000000) == Vars(0x8e04ecb9, 0x85a07b5f, 0xe5030380, 0x2b4209f5, 0x32ca2d8c, 0x0c657a79, 0x9b27a401, 0x714260ad)
      && Round(Vars(0x8e04ecb9, 0x85a07b5f, 0xe5030380, 0x2b4209f5, 0x32ca2d8c, 0x0c657a79, 0x9b27a401, 0x714260ad), 0x12835b01, 0x00000000) == Vars(0x8c87346b, 0x8e04ecb9, 0x85a07b5f, 0xe5030380, 0x1cc92596, 0x32ca2d8c, 0x0c657a79, 0x9b27a401)
      && Round(Vars(0x8c87346b, 0x8e04ecb9, 0x85a07b5f, 0xe5030380, 0x1cc92596, 0x32ca2d8c, 0x0c657a79, 0x9b27a401), 0x243185be, 0x00000000) == Vars(0x4798a3f4, 0x8c87346b, 0x8e04ecb9, 0x85a07b5f, 0x436b23e8, 0x1cc92596, 0x32ca2d8c, 0x0c657a79)
      && Round(Vars(0x4798a3f4, 0x8c87346b, 0x8e04ecb9, 0x85a07b5f, 0x436b23e8, 0x1cc92596, 0x32ca2d8c, 0x0c657a79), 0x550c7dc3, 0x00000000) == Vars(0xf71fc5a9, 0x4798a3f4, 0x8c87346b, 0x8e04ecb9, 0x816fd6e9, 0x436b23e8, 0x1cc92596, 0x32ca2d8c)
  {
  }

  /** Rounds 8..11. */
  lemma AbcRounds2(v: Vars, w: seq<Word>)
    requires |w| == 64 && Rounds(v, w, 8) == Vars(0x85a07b5f, 0xe5030380, 0x2b4209f5, 0x04409a6a, 0x0c657a79, 0x9b27a401, 0x714260ad, 0x43ada245)
    requires w[8] == 0x00000000 && w[9] == 0x00000000 && w[10] == 0x00000000 && w[11] == 0x00000000
    ensures Rounds(v, w, 12) == Vars(0xf71fc5a9, 0x4798a3f4, 0x8c87346b, 0x8e04ecb9, 0x816fd6e9, 0x436b23e8, 0x1cc92596, 0x32ca2d8c)
  {
    RoundConstant8();
    RoundConstant9();
    RoundConstant10();
    RoundConstant11();
    AbcRoundValues2();
    RoundsStep(v, w, 8, Vars(0x85a07b5f, 0xe5030380, 0x2b4209f5, 0x04409a6a, 0x0c657a79, 0x9b27a401, 0x714260ad, 0x43ada245), 0xd807aa98, 0x00000000, Vars(0x8e04ecb9, 0x85a07b5f, 0xe5030380, 0x2b4209f5, 0x32ca2d8c, 0x0c657a79, 0x9b27a401, 0x714260ad));
    RoundsStep(v, w, 9, Vars(0x8e04ecb9, 0x85a07b5f, 0xe5030380, 0x2b4209f5, 0x32ca2d8c, 0x0c657a79, 0x9b27a401, 0x714260ad), 0x12835b01, 0x00000000, Vars(0x8c87346b, 0x8e04ecb9, 0x85a07b5f, 0xe5030380, 0x1cc92596, 0x32ca2d8c, 0x0c657a79, 0x9b27a401));
    RoundsStep(v, w, 10, Vars(0x8c87346b, 0x8e04ecb9, 0x85a07b5f, 0xe5030380, 0x1cc92596, 0x32ca2d8c, 0x0c657a79, 0x9b27a401), 0x243185be, 0x00000000, Vars(0x4798a3f4, 0x8c87346b, 0x8e04ecb9, 0x85a07b5f, 0x436b23e8, 0x1cc92596, 0x32ca2d8c, 0x0c657a79));
    RoundsStep(v, w, 11, Vars(0x4798a3f4, 0x8c87346b, 0x8e04ecb9, 0x85a07b5f, 0x436b23e8, 0x1cc92596, 0x32ca2d8c, 0x0c657a79), 0x550c7dc3, 0x00000000, Vars(0xf71fc5a9, 0x4798a3f4, 0x8c87346b, 0x8e04ecb9, 0x816fd6e9, 0x436b23e8, 0x1cc92596, 0x32ca2d8c));
  }

  /** The results of rounds 12..15 on their working variables. */
  lemma AbcRoundValues3()
    ensures Round(Vars(0xf71fc5a9, 0x4798a3f4, 0x8c87346b, 0x8e04ecb9, 0x816fd6e9, 0x436b23e8, 0x1cc92596, 0x32ca2d8c), 0x72be5d74, 0x00000000) == Vars(0x87912990, 0xf71fc5a9, 0x4798a3f4, 0x8c87346b, 0x1e578218, 0x816fd6e9, 0x436b23e8, 0x1cc92596)
      && Round(Vars(0x87912990, 0xf71fc5a9, 0x4798a3f4, 0x8c87346b, 0x1e578218, 0x816fd6e9, 0x436b23e8, 0x1cc92596), 0x80deb1fe, 0x00000000) == Vars(0xd932eb16, 0x87912990, 0xf71fc5a9, 0x4798a3f4, 0x745a48de, 0x1e578218, 0x816fd6e9, 0x436b23e8)
      && Round(Vars(0xd932eb16, 0x87912990, 0xf71fc5a9, 0x4798a3f4, 0x745a48de, 0x1e578218, 0x816fd6e9, 0x436b23e8), 0x9bdc06a7, 0x00000000) == Vars(0xc0645fde, 0xd932eb16, 0x87912990, 0xf71fc5a9, 0x0b92f20c, 0x745a48de, 0x1e578218, 0x816fd6e9)
      && Round(Vars(0xc0645fde, 0xd932eb16, 0x87912990, 0xf71fc5a9, 0x0b92f20c, 0x745a48de, 0x1e578218, 0x816fd6e9), 0xc19bf174, 0x00000018) == Vars(0xb0fa238e, 0xc0645fde, 0xd932eb16, 0x87912990, 0x07590dcd, 0x0b92f20c, 0x745a48de, 0x1e578218)
  {
  }

  /** Rounds 12..15. */
  lemma AbcRounds3(v: Vars, w: seq<Word>)
    requires |w| == 64 && Rounds(v, w, 12) == Vars(0xf71fc5a9, 0x4798a3f4, 0x8c87346b, 0x8e04ecb9, 0x816fd6e9, 0x436b23e8, 0x1cc92596, 0x32ca2d8c)
    requires w[12] == 0x00000000 && w[13] == 0x00000000 && w[14] == 0x00000000 && w[15] == 0x00000018
    ensures Rounds(v, w, 16) == Vars(0xb0fa238e, 0xc0645fde, 0xd932eb16, 0x87912990, 0x07590dcd, 0x0b92f20c, 0x745a48de, 0x1e578218)
  {
    RoundConstant12();
    RoundConstant13();
    RoundConstant14();
    RoundConstant15();
    AbcRoundValues3();
    RoundsStep(v, w, 12, Vars(0xf71fc5a9, 0x4798a3f4, 0x8c87346b, 0x8e04ecb9, 0x816fd6e9, 0x436b23e8, 0x1cc92596, 0x32ca2d8c), 0x72be5d74, 0x00000000, Vars(0x87912990, 0xf71fc5a9, 0x4798a3f4, 0x8c87346b, 0x1e578218, 0x816fd6e9, 0x436b23e8, 0x1cc92596));
    RoundsStep(v, w, 13, Vars(0x87912990, 0xf71fc5a9, 0x4798a3f4, 0x8c87346b, 0x1e578218, 0x816fd6e9, 0x436b23e8, 0x1cc92596), 0x80deb1fe, 0x00000000, Vars(0xd932eb16, 0x87912990, 0xf71fc5a9, 0x4798a3f4, 0x745a48de, 0x1e578218, 0x816fd6e9, 0x436b23e8));
    RoundsStep(v, w, 14, Vars(0xd932eb16, 0x87912990, 0xf71fc5a9, 0x4798a3f4, 0x745a48de, 0x1e578218, 0x816fd6e9, 0x436b23e8), 0x9bdc06a7, 0x00000000, Vars(0xc0645fde, 0xd932eb16, 0x87912990, 0xf71fc5a9, 0x0b92f20c, 0x745a48de, 0x1e578218, 0x816fd6e9));
    RoundsStep(v, w, 15, Vars(0xc0645fde, 0xd932eb16, 0x87912990, 0xf71fc5a9, 0x0b92f20c, 0x745a48de, 0x1e578218, 0x816fd6e9), 0xc19bf174, 0x00000018, Vars(0xb0fa238e, 0xc0645fde, 0xd932eb16, 0x87912990, 0x07590dcd, 0x0b92f20c, 0x745a48de, 0x1e578218));
  }

  /** The results of rounds 16..19 on their working variables. */
  lemma AbcRoundValues4()
    ensures Round(Vars(0xb0fa238e, 0xc0645fde, 0xd932eb16, 0x87912990, 0x07590dcd, 0x0b92f20c, 0x745a48de, 0x1e578218), 0xe49b69c1, 0x61626380) == Vars(0x21da9a9b, 0xb0fa238e, 0xc0645fde, 0xd932eb16, 0x8034229c, 0x07590dcd, 0x0b92f20c, 0x745a48de)
      && Round(Vars(0x21da9a9b, 0xb0fa238e, 0xc0645fde, 0xd932eb16, 0x8034229c, 0x07590dcd, 0x0b92f20c, 0x745a48de), 0xefbe4786, 0x000f0000) == Vars(0xc2fbd9d1, 0x21da9a9b, 0xb0fa238e, 0xc0645fde, 0x846ee454, 0x8034229c, 0x07590dcd, 0x0b92f20c)
      && Round(Vars(0xc2fbd9d1, 0x21da9a9b, 0xb0fa238e, 0xc0645fde, 0x846ee454, 0x8034229c, 0x07590dcd, 0x0b92f20c), 0x0fc19dc6, 0x7da86405) == Vars(0xfe777bbf, 0xc2fbd9d1, 0x21da9a9b, 0xb0fa238e, 0xcc899961, 0x846ee454, 0x8034229c, 0x07590dcd)
      && Round(Vars(0xfe777bbf, 0xc2fbd9d1, 0x21da9a9b, 0xb0fa238e, 0xcc899961, 0x846ee454, 0x8034229c, 0x07590dcd), 0x240ca1cc, 0x600003c6) == Vars(0xe1f20c33, 0xfe777bbf, 0xc2fbd9d1, 0x21da9a9b, 0xb0638179, 0xcc899961, 0x846ee454, 0x8034229c)
  {
  }

  /** Rounds 16..19. */
  lemma AbcRounds4(v: Vars, w: seq<Word>)
    requires |w| == 64 && Rounds(v, w, 16) == Vars(0xb0fa238e, 0xc0645fde, 0xd932eb16, 0x87912990, 0x07590dcd, 0x0b92f20c, 0x745a48de, 0x1e578218)
    requires w[16] == 0x61626380 && w[17] == 0x000f0000 && w[18] == 0x7da86405 && w[19] == 0x600003c6
    ensures Rounds(v, w, 20) == Vars(0xe1f20c33, 0xfe777bbf, 0xc2fbd9d1, 0x21da9a9b, 0xb0638179, 0xcc899961, 0x846ee454, 0x8034229c)
  {
    RoundConstant16();
    RoundConstant17();
    RoundConstant18();
    RoundConstant19();
    AbcRoundValues4();
    RoundsStep(v, w, 16, Vars(0xb0fa238e, 0xc0645fde, 0xd932eb16, 0x87912990, 0x07590dcd, 0x0b92f20c, 0x745a48de, 0x1e578218), 0xe49b69c1, 0x61626380, Vars(0x21da9a9b, 0xb0fa238e, 0xc0645fde, 0xd932eb16, 0x8034229c, 0x07590dcd, 0x0b92f20c, 0x745a48de));
    RoundsStep(v, w, 17, Vars(0x21da9a9b, 0xb0fa238e, 0xc0645fde, 0xd932eb16, 0x8034229c, 0x07590dcd, 0x0b92f20c, 0x745a48de), 0xefbe4786, 0x000f0000, Vars(0xc2fbd9d1, 0x21da9a9b, 0xb0fa238e, 0xc0645fde, 0x846ee454, 0x8034229c, 0x07590dcd, 0x0b92f20c));
    RoundsStep(v, w, 18, Vars(0xc2fbd9d1, 0x21da9a9b, 0xb0fa238e, 0xc0645fde, 0x846ee454, 0x8034229c, 0x07590dcd, 0x0b92f20c), 0x0fc19dc6, 0x7da86405, Vars(0xfe777bbf, 0xc2fbd9d1, 0x21da9a9b, 0xb0fa238e, 0xcc899961, 0x846ee454, 0x8034229c, 0x07590dcd));
    RoundsStep(v, w, 19, Vars(0xfe777bbf, 0xc2fbd9d1, 0x21da9a9b, 0xb0fa238e, 0xcc899961, 0x846ee454, 0x8034229c, 0x07590dcd), 0x240ca1cc, 0x600003c6, Vars(0xe1f20c33, 0xfe777bbf, 0xc2fbd9d1, 0x21da9a9b, 0xb0638179, 0xcc899961, 0x846ee454, 0x8034229c));
  }

  /** The results of rounds 20..23 on their working variables. */
  lemma AbcRoundValues5()
    ensures Round(Vars(0xe1f20c33, 0xfe777bbf, 0xc2fbd9d1, 0x21da9a9b, 0xb0638179, 0xcc899961, 0x846ee454, 0x8034229c), 0x2de92c6f, 0x3e9d7b78) == Vars(0x9dc68b63, 0xe1f20c33, 0xfe777bbf, 0xc2fbd9d1, 0x8ada8930, 0xb0638179, 0xcc899961, 0x846ee454)
      && Round(Vars(0x9dc68b63, 0xe1f20c33, 0xfe777bbf, 0xc2fbd9d1, 0x8ada8930, 0xb0638179, 0xcc899961, 0x846ee454), 0x4a7484aa, 0x0183fc00) == Vars(0xc2606d6d, 0x9dc68b63, 0xe1f20c33, 0xfe777bbf, 0xe1257970, 0x8ada8930, 0xb0638179, 0xcc899961)
      && Round(Vars(0xc2606d6d, 0x9dc68b63, 0xe1f20c33, 0xfe777bbf, 0xe1257970, 0x8ada8930, 0xb0638179, 0xcc899961), 0x5cb0a9dc, 0x12dcbfdb) == Vars(0xa7a3623f, 0xc2606d6d, 0x9dc68b63, 0xe1f20c33, 0x49f5114a, 0xe1257970, 0x8ada8930, 0xb0638179)
      && Round(Vars(0xa7a3623f, 0xc2606d6d, 0x9dc68b63, 0xe1f20c33, 0x49f5114a, 0xe1257970, 0x8ada8930, 0xb0638179), 0x76f988da, 0xe2e2c38e) == Vars(0xc5d53d8d, 0xa7a3623f, 0xc2606d6d, 0x9dc68b63, 0xaa47c347, 0x49f5114a, 0xe1257970, 0x8ada8930)
  {
  }

  /** Rounds 20..23. */
  lemma AbcRounds5(v: Vars, w: seq<Word>)
    requires |w| == 64 && Rounds(v, w, 20) == Vars(0xe1f20c33, 0xfe777bbf, 0xc2fbd9d1, 0x21da9a9b, 0xb0638179, 0xcc899961, 0x846ee454, 0x8034229c)
    requires w[20] == 0x3e9d7b78 && w[21] == 0x0183fc00 && w[22] == 0x12dcbfdb && w[23] == 0xe2e2c38e
    ensures Rounds(v, w, 24) == Vars(0xc5d53d8d, 0xa7a3623f, 0xc2606d6d, 0x9dc68b63, 0xaa47c347, 0x49f5114a, 0xe1257970, 0x8ada8930)
  {
    RoundConstant20();
    RoundConstant21();
    RoundConstant22();
    RoundConstant23();
    AbcRoundValues5();
    RoundsStep(v, w, 20, Vars(0xe1f20c33, 0xfe777bbf, 0xc2fbd9d1, 0x21da9a9b, 0xb0638179, 0xcc899961, 0x846ee454, 0x8034229c), 0x2de92c6f, 0x3e9d7b78, Vars(0x9dc68b63, 0xe1f20c33, 0xfe777bbf, 0xc2fbd9d1, 0x8ada8930, 0xb0638179, 0xcc899961, 0x846ee454));
    RoundsStep(v, w, 21, Vars(0x9dc68b63, 0xe1f20c33, 0xfe777bbf, 0xc2fbd9d1, 0x8ada8930, 0xb0638179, 0xcc899961, 0x846ee454), 0x4a7484aa, 0x0183fc00, Vars(0xc2606d6d, 0x9dc68b63, 0xe1f20c33, 0xfe777bbf, 0xe1257970, 0x8ada8930, 0xb0638179, 0xcc899961));
    RoundsStep(v, w, 22, Vars(0xc2606d6d, 0x9dc68b63, 0xe1f20c33, 0xfe777bbf, 0xe1257970, 0x8ada8930, 0xb0638179, 0xcc899961), 0x5cb0a9dc, 0x12dcbfdb, Vars(0xa7a3623f, 0xc2606d6d, 0x9dc68b63, 0xe1f20c33, 0x49f5114a, 0xe1257970, 0x8ada8930, 0xb0638179));
    RoundsStep(v, w, 23, Vars(0xa7a3623f, 0xc2606d6d, 0x9dc68b63, 0xe1f20c33, 0x49f5114a, 0xe1257970, 0x8ada8930, 0xb0638179), 0x76f988da, 0xe2e2c38e, Vars(0xc5d53d8d, 0xa7a3623f, 0xc2606d6d, 0x9dc68b63, 0xaa47c347, 0x49f5114a, 0xe1257970, 0x8ada8930));
  }

  /** The results of rounds 24..27 on their working variables. */
  lemma AbcRoundValues6()
    ensures Round(Vars(0xc5d53d8d, 0xa7a3623f, 0xc2606d6d, 0x9dc68b63, 0xaa47c347, 0x49f5114a, 0xe1257970, 0x8ada8930), 0x983e5152, 0xc8215c1a) == Vars(0x1c2c2838, 0xc5d53d8d, 0xa7a3623f, 0xc2606d6d, 0x2823ef91, 0xaa47c347, 0x49f5114a, 0xe1257970)
      && Round(Vars(0x1c2c2838, 0xc5d53d8d, 0xa7a3623f, 0xc2606d6d, 0x2823ef91, 0xaa47c347, 0x49f5114a, 0xe1257970), 0xa831c66d, 0xb73679a2) == Vars(0xcde8037d, 0x1c2c2838, 0xc5d53d8d, 0xa7a3623f, 0x14383d8e, 0x2823ef91, 0xaa47c347, 0x49f5114a)
      && Round(Vars(0xcde8037d, 0x1c2c2838, 0xc5d53d8d, 0xa7a3623f, 0x14383d8e, 0x2823ef91, 0xaa47c347, 0x49f5114a), 0xb00327c8, 0xe5bc3909) == Vars(0xb62ec4bc, 0xcde8037d, 0x1c2c2838, 0xc5d53d8d, 0xc74c6516, 0x14383d8e, 0x2823ef91, 0xaa47c347)
      && Round(Vars(0xb62ec4bc, 0xcde8037d, 0x1c2c2838, 0xc5d53d8d, 0xc74c6516, 0x14383d8e, 0x2823ef91, 0xaa47c347), 0xbf597fc7, 0x32663c5b) == Vars(0x77d37528, 0xb62ec4bc, 0xcde8037d, 0x1c2c2838, 0xedffbff8, 0xc74c6516, 0x14383d8e, 0x2823ef91)
  {
  }

  /** Rounds 24..27. */
  lemma AbcRounds6(v: Vars, w: seq<Word>)
    requires |w| == 64 && Rounds(v, w, 24) == Vars(0xc5d53d8d, 0xa7a3623f, 0xc2606d6d, 0x9dc68b63, 0xaa47c347, 0x49f5114a, 0xe1257970, 0x8ada8930)
    requires w[24] == 0xc8215c1a && w[25] == 0xb73679a2 && w[26] == 0xe5bc3909 && w[27] == 0x32663c5b
    ensures Rounds(v, w, 28) == Vars(0x77d37528, 0xb62ec4bc, 0xcde8037d, 0x1c2c2838, 0xedffbff8, 0xc74c6516, 0x14383d8e, 0x2823ef91)
  {
    RoundConstant24();
    RoundConstant25();
    RoundConstant26();
    RoundConstant27();
    AbcRoundValues6();
    RoundsStep(v, w, 24, Vars(0xc5d53d8d, 0xa7a3623f, 0xc2606d6d, 0x9dc68b63, 0xaa47c347, 0x49f5114a, 0xe1257970, 0x8ada8930), 0x983e5152, 0xc8215c1a, Vars(0x1c2c2838, 0xc5d53d8d, 0xa7a3623f, 0xc2606d6d, 0x2823ef91, 0xaa47c347, 0x49f5114a, 0xe1257970));
    RoundsStep(v, w, 25, Vars(0x1c2c2838, 0xc5d53d8d, 0xa7a3623f, 0xc2606d6d, 0x2823ef91, 0xaa47c347, 0x49f5114a, 0xe1257970), 0xa831c66d, 0xb73679a2, Vars(0xcde8037d, 0x1c2c2838, 0xc5d53d8d, 0xa7a3623f, 0x14383d8e, 0x2823ef91, 0xaa47c347, 0x49f5114a));
    RoundsStep(v, w, 26, Vars(0xcde8037d, 0x1c2c2838, 0xc5d53d8d, 0xa7a3623f, 0x14383d8e, 0x2823ef91, 0xaa47c347, 0x49f5114a), 0xb00327c8, 0xe5bc3909, Vars(0xb62ec4bc, 0xcde8037d, 0x1c2c2838, 0xc5d53d8d, 0xc74c6516, 0x14383d8e, 0x2823ef91, 0xaa47c347));
    RoundsStep(v, w, 27, Vars(0xb62ec4bc, 0xcde8037d, 0x1c2c2838, 0xc5d53d8d, 0xc74c6516, 0x14383d8e, 0x2823ef91, 0xaa47c347), 0xbf597fc7, 0x32663c5b, Vars(0x77d37528, 0xb62ec4bc, 0xcde8037d, 0x1c2c2838, 0xedffbff8, 0xc74c6516, 0x14383d8e, 0x2823ef91));
  }

  /** The results of rounds 28..31 on their working variables. */
  lemma AbcRoundValues7()
    ensures Round(Vars(0x77d37528, 0xb62ec4bc, 0xcde8037d, 0x1c2c2838, 0xedffbff8, 0xc74c6516, 0x14383d8e, 0x2823ef91), 0xc6e00bf3, 0x9d209d67) == Vars(0x363482c9, 0x77d37528, 0xb62ec4bc, 0xcde8037d, 0x6112a3b7, 0xedffbff8, 0xc74c6516, 0x14383d8e)
      && Round(Vars(0x363482c9, 0x77d37528, 0xb62ec4bc, 0xcde8037d, 0x6112a3b7, 0xedffbff8, 0xc74c6516, 0x14383d8e), 0xd5a79147, 0xec8726cb) == Vars(0xa0060b30, 0x363482c9, 0x77d37528, 0xb62ec4bc, 0xade79437, 0x6112a3b7, 0xedffbff8, 0xc74c6516)
      && Round(Vars(0xa0060b30, 0x363482c9, 0x77d37528, 0xb62ec4bc, 0xade79437, 0x6112a3b7, 0xedffbff8, 0xc74c6516), 0x06ca6351, 0x702138a4) == Vars(0xea992a22, 0xa0060b30, 0x363482c9, 0x77d37528, 0x0109ab3a, 0xade79437, 0x6112a3b7, 0xedffbff8)
      && Round(Vars(0xea992a22, 0xa0060b30, 0x363482c9, 0x77d37528, 0x0109ab3a, 0xade79437, 0x6112a3b7, 0xedffbff8), 0x14292967, 0xd3b7973b) == Vars(0x73b33bf5, 0xea992a22, 0xa0060b30, 0x363482c9, 0xba591112, 0x0109ab3a, 0xade79437, 0x6112a3b7)
  {
  }

  /** Rounds 28..31. */
  lemma AbcRounds7(v: Vars, w: seq<Word>)
    requires |w| == 64 && Rounds(v, w, 28) == Vars(0x77d37528, 0xb62ec4bc, 0xcde8037d, 0x1c2c2838, 0xedffbff8, 0xc74c6516, 0x14383d8e, 0x2823ef91)
    requires w[28] == 0x9d209d67 && w[29] == 0xec8726cb && w[30] == 0x702138a4 && w[31] == 0xd3b7973b
    ensures Rounds(v, w, 32) == Vars(0x73b33bf5, 0xea992a22, 0xa0060b30, 0x363482c9, 0xba591112, 0x0109ab3a, 0xade79437, 0x6112a3b7)
  {
    RoundConstant28();
    RoundConstant29();
    RoundConstant30();
    RoundConstant31();
    AbcRoundValues7();
    RoundsStep(v, w, 28, Vars(0x77d37528, 0xb62ec4bc, 0xcde8037d, 0x1c2c2838, 0xedffbff8, 0xc74c6516, 0x14383d8e, 0x2823ef91), 0xc6e00bf3, 0x9d209d67, Vars(0x363482c9, 0x77d37528, 0xb62ec4bc, 0xcde8037d, 0x6112a3b7, 0xedffbff8, 0xc74c6516, 0x14383d8e));
    RoundsStep(v, w, 29, Vars(0x363482c9, 0x77d37528, 0xb62ec4bc, 0xcde8037d, 0x6112a3b7, 0xedffbff8, 0xc74c6516, 0x14383d8e), 0xd5a79147, 0xec8726cb, Vars(0xa0060b30, 0x363482c9, 0x77d37528, 0xb62ec4bc, 0xade79437, 0x6112a3b7, 0xedffbff8, 0xc74c6516));
    RoundsStep(v, w, 30, Vars(0xa0060b30, 0x363482c9, 0x77d37528, 0xb62ec4bc, 0xade79437, 0x6112a3b7, 0xedffbff8, 0xc74c6516), 0x06ca6351, 0x702138a4, Vars(0xea992a22, 0xa0060b30, 0x363482c9, 0x77d37528, 0x0109ab3a, 0xade79437, 0x6112a3b7, 0xedffbff8));
    RoundsStep(v, w, 31, Vars(0xea992a22, 0xa0060b30, 0x363482c9, 0x77d37528, 0x0109ab3a, 0xade79437, 0x6112a3b7, 0xedffbff8), 0x14292967, 0xd3b7973b, Vars(0x73b33bf5, 0xea992a22, 0xa0060b30, 0x363482c9, 0xba591112, 0x0109ab3a, 0xade79437, 0x6112a3b7));
  }

  /** The results of rounds 32..35 on their working variables. */
  lemma AbcRoundValues8()
    ensures Round(Vars(0x73b33bf5, 0xea992a22, 0xa0060b30, 0x363482c9, 0xba591112, 0x0109ab3a, 0xade79437, 0x6112a3b7), 0x27b70a85, 0x93f5997f) == Vars(0x98e12507, 0x73b33bf5, 0xea992a22, 0xa0060b30, 0x9cd9f5f6, 0xba591112, 0x0109ab3a, 0xade79437)
      && Round(Vars(0x98e12507, 0x73b33bf5, 0xea992a22, 0xa0060b30, 0x9cd9f5f6, 0xba591112, 0x0109ab3a, 0xade79437), 0x2e1b2138, 0x3b68ba73) == Vars(0xfe604df5, 0x98e12507, 0x73b33bf5, 0xea992a22, 0x59249dd3, 0x9cd9f5f6, 0xba591112, 0x0109ab3a)
      && Round(Vars(0xfe604df5, 0x98e12507, 0x73b33bf5, 0xea992a22, 0x59249dd3, 0x9cd9f5f6, 0xba591112, 0x0109ab3a), 0x4d2c6dfc, 0xaff4ffc1) == Vars(0xa9a7738c, 0xfe604df5, 0x98e12507, 0x73b33bf5, 0x085f3833, 0x59249dd3, 0x9cd9f5f6, 0xba591112)
      && Round(Vars(0xa9a7738c, 0xfe604df5, 0x98e12507, 0x73b33bf5, 0x085f3833, 0x59249dd3, 0x9cd9f5f6, 0xba591112), 0x53380d13, 0xf10a5c62) == Vars(0x65a0cfe4, 0xa9a7738c, 0xfe604df5, 0x98e12507, 0xf4b002d6, 0x085f3833, 0x59249dd3, 0x9cd9f5f6)
  {
  }

  /** Rounds 32..35. */
  lemma AbcRounds8(v: Vars, w: seq<Word>)
    requires |w| == 64 && Rounds(v, w, 32) == Vars(0x73b33bf5, 0xea992a22, 0xa0060b30, 0x363482c9, 0xba591112, 0x0109ab3a, 0xade79437, 0x6112a3b7)
    requires w[32] == 0x93f5997f && w[33] == 0x3b68ba73 && w[34] == 0xaff4ffc1 && w[35] == 0xf10a5c62
    ensures Rounds(v, w, 36) == Vars(0x65a0cfe4, 0xa9a7738c, 0xfe604df5, 0x98e12507, 0xf4b002d6, 0x085f3833, 0x59249dd3, 0x9cd9f5f6)
  {
    RoundConstant32();
    RoundConstant33();
    RoundConstant34();
    RoundConstant35();
    AbcRoundValues8();
    RoundsStep(v, w, 32, Vars(0x73b33bf5, 0xea992a22, 0xa0060b30, 0x363482c9, 0xba591112, 0x0109ab3a, 0xade79437, 0x6112a3b7), 0x27b70a85, 0x93f5997f, Vars(0x98e12507, 0x73b33bf5, 0xea992a22, 0xa0060b30, 0x9cd9f5f6, 0xba591112, 0x0109ab3a, 0xade79437));
    RoundsStep(v, w, 33, Vars(0x98e12507, 0x73b33bf5, 0xea992a22, 0xa0060b30, 0x9cd9f5f6, 0xba591112, 0x0109ab3a, 0xade79437), 0x2e1b2138, 0x3b68ba73, Vars(0xfe604df5, 0x98e12507, 0x73b33bf5, 0xea992a22, 0x59249dd3, 0x9cd9f5f6, 0xba591112, 0x0109ab3a));
    RoundsStep(v, w, 34, Vars(0xfe604df5, 0x98e12507, 0x73b33bf5, 0xea992a22, 0x59249dd3, 0x9cd9f5f6, 0xba591112, 0x0109ab3a), 0x4d2c6dfc, 0xaff4ffc1, Vars(0xa9a7738c, 0xfe604df5, 0x98e12507, 0x73b33bf5, 0x085f3833, 0x59249dd3, 0x9cd9f5f6, 0xba591112));
    RoundsStep(v, w, 35, Vars(0xa9a7738c, 0xfe604df5, 0x98e12507, 0x73b33bf5, 0x085f3833, 0x59249dd3, 0x9cd9f5f6, 0xba591112), 0x53380d13, 0xf10a5c62, Vars(0x65a0cfe4, 0xa9a7738c, 0xfe604df5, 0x98e12507, 0xf4b002d6, 0x085f3833, 0x59249dd3, 0x9cd9f5f6));
  }

  /** The results of rounds 36..39 on their working variables. */
  lemma AbcRoundValues9()
    ensures Round(Vars(0x65a0cfe4, 0xa9a7738c, 0xfe604df5, 0x98e12507, 0xf4b002d6, 0x085f3833, 0x59249dd3, 0x9cd9f5f6), 0x650a7354, 0x0a8b3996) == Vars(0x41a65cb1, 0x65a0cfe4, 0xa9a7738c, 0xfe604df5, 0x0772a26b, 0xf4b002d6, 0x085f3833, 0x59249dd3)
      && Round(Vars(0x41a65cb1, 0x65a0cfe4, 0xa9a7738c, 0xfe604df5, 0x0772a26b, 0xf4b002d6, 0x085f3833, 0x59249dd3), 0x766a0abb, 0x72af830a) == Vars(0x34df1604, 0x41a65cb1, 0x65a0cfe4, 0xa9a7738c, 0xa507a53d, 0x0772a26b, 0xf4b002d6, 0x085f3833)
      && Round(Vars(0x34df1604, 0x41a65cb1, 0x65a0cfe4, 0xa9a7738c, 0xa507a53d, 0x0772a26b, 0xf4b002d6, 0x085f3833), 0x81c2c92e, 0x9409e33e) == Vars(0x6dc57a8a, 0x34df1604, 0x41a65cb1, 0x65a0cfe4, 0xf0781bc8, 0xa507a53d, 0x0772a26b, 0xf4b002d6)
      && Round(Vars(0x6dc57a8a, 0x34df1604, 0x41a65cb1, 0x65a0cfe4, 0xf0781bc8, 0xa507a53d, 0x0772a26b, 0xf4b002d6), 0x92722c85, 0x24641522) == Vars(0x79ea687a, 0x6dc57a8a, 0x34df1604, 0x41a65cb1, 0x1efbc0a0, 0xf0781bc8, 0xa507a53d, 0x0772a26b)
  {
  }

  /** Rounds 36..39. */
  lemma AbcRounds9(v: Vars, w: seq<Word>)
    requires |w| == 64 && Rounds(v, w, 36) == Vars(0x65a0cfe4, 0xa9a7738c, 0xfe604df5, 0x98e12507, 0xf4b002d6, 0x085f3833, 0x59249dd3, 0x9cd9f5f6)
    requires w[36] == 0x0a8b3996 && w[37] == 0x72af830a && w[38] == 0x9409e33e && w[39] == 0x24641522
    ensures Rounds(v, w, 40) == Vars(0x79ea687a, 0x6dc57a8a, 0x34df1604, 0x41a65cb1, 0x1efbc0a0, 0xf0781bc8, 0xa507a53d, 0x0772a26b)
  {
    RoundConstant36();
    RoundConstant37();
    RoundConstant38();
    RoundConstant39();
    AbcRoundValues9();
    RoundsStep(v, w, 36, Vars(0x65a0cfe4, 0xa9a7738c, 0xfe604df5, 0x98e12507, 0xf4b002d6, 0x085f3833, 0x59249dd3, 0x9cd9f5f6), 0x650a7354, 0x0a8b3996, Vars(0x41a65cb1, 0x65a0cfe4, 0xa9a7738c, 0xfe604df5, 0x0772a26b, 0xf4b002d6, 0x085f3833, 0x59249dd3));
    RoundsStep(v, w, 37, Vars(0x41a65cb1, 0x65a0cfe4, 0xa9a7738c, 0xfe604df5, 0x0772a26b, 0xf4b002d6, 0x085f3833, 0x59249dd3), 0x766a0abb, 0x72af830a, Vars(0x34df1604, 0x41a65cb1, 0x65a0cfe4, 0xa9a7738c, 0xa507a53d, 0x0772a26b, 0xf4b002d6, 0x085f3833));
    RoundsStep(v, w, 38, Vars(0x34df1604, 0x41a65cb1, 0x65a0cfe4, 0xa9a7738c, 0xa507a53d, 0x0772a26b, 0xf4b002d6, 0x085f3833), 0x81c2c92e, 0x9409e33e, Vars(0x6dc57a8a, 0x34df1604, 0x41a65cb1, 0x65a0cfe4, 0xf0781bc8, 0xa507a53d, 0x0772a26b, 0xf4b002d6));
    RoundsStep(v, w, 39, Vars(0x6dc57a8a, 0x34df1604, 0x41a65cb1, 0x65a0cfe4, 0xf0781bc8, 0xa507a53d, 0x0772a26b, 0xf4b002d6), 0x92722c85, 0x24641522, Vars(0x79ea687a, 0x6dc57a8a, 0x34df1604, 0x41a65cb1, 0x1efbc0a0, 0xf0781bc8, 0xa507a53d, 0x0772a26b));
  }

  /** The results of rounds 40..43 on their working variables. */
  lemma AbcRoundValues10()
    ensures Round(Vars(0x79ea687a, 0x6dc57a8a, 0x34df1604, 0x41a65cb1, 0x1efbc0a0, 0xf0781bc8, 0xa507a53d, 0x0772a26b), 0xa2bfe8a1, 0x9f47bf94) == Vars(0xd6670766, 0x79ea687a, 0x6dc57a8a, 0x34df1604, 0x26352d63, 0x1efbc0a0, 0xf0781bc8, 0xa507a53d)
      && Round(Vars(0xd6670766, 0x79ea687a, 0x6dc57a8a, 0x34df1604, 0x26352d63, 0x1efbc0a0, 0xf0781bc8, 0xa507a53d), 0xa81a664b, 0xf0a64f5a) == Vars(0xdf46652f, 0xd6670766, 0x79ea687a, 0x6dc57a8a, 0x838b2711, 0x26352d63, 0x1efbc0a0, 0xf0781bc8)
      && Round(Vars(0xdf46652f, 0xd6670766, 0x79ea687a, 0x6dc57a8a, 0x838b2711, 0x26352d63, 0x1efbc0a0, 0xf0781bc8), 0xc24b8b70, 0x3e246a79) == Vars(0x17aa0dfe, 0xdf46652f, 0xd6670766, 0x79ea687a, 0xdecd4715, 0x838b2711, 0x26352d63, 0x1efbc0a0)
      && Round(Vars(0x17aa0dfe, 0xdf46652f, 0xd6670766, 0x79ea687a, 0xdecd4715, 0x838b2711, 0x26352d63, 0x1efbc0a0), 0xc76c51a3, 0x27333ba3) == Vars(0x9d4baf93, 0x17aa0dfe, 0xdf46652f, 0xd6670766, 0xfda24c2e, 0xdecd4715, 0x838b2711, 0x26352d63)
  {
  }

  /** Rounds 40..43. */
  lemma AbcRounds10(v: Vars, w: seq<Word>)
    requires |w| == 64 && Rounds(v, w, 40) == Vars(0x79ea687a, 0x6dc57a8a, 0x34df1604, 0x41a65cb1, 0x1efbc0a0, 0xf0781bc8, 0xa507a53d, 0x0772a26b)
    requires w[40] == 0x9f47bf94 && w[41] == 0xf0a64f5a && w[42] == 0x3e246a79 && w[43] == 0x27333ba3
    ensures Rounds(v, w, 44) == Vars(0x9d4baf93, 0x17aa0dfe, 0xdf46652f, 0xd6670766, 0xfda24c2e, 0xdecd4715, 0x838b2711, 0x26352d63)
  {
    RoundConstant40();
    RoundConstant41();
    RoundConstant42();
    RoundConstant43();
    AbcRoundValues10();
    RoundsStep(v, w, 40, Vars(0x79ea687a, 0x6dc57a8a, 0x34df1604, 0x41a65cb1, 0x1efbc0a0, 0xf0781bc8, 0xa507a53d, 0x0772a26b), 0xa2bfe8a1, 0x9f47bf94, Vars(0xd6670766, 0x79ea687a, 0x6dc57a8a, 0x34df1604, 0x26352d63, 0x1efbc0a0, 0xf0781bc8, 0xa507a53d));
    RoundsStep(v, w, 41, Vars(0xd6670766, 0x79ea687a, 0x6dc57a8a, 0x34df1604, 0x26352d63, 0x1efbc0a0, 0xf0781bc8, 0xa507a53d), 0xa81a664b, 0xf0a64f5a, Vars(0xdf46652f, 0xd6670766, 0x79ea687a, 0x6dc57a8a, 0x838b2711, 0x26352d63, 0x1efbc0a0, 0xf0781bc8));
    RoundsStep(v, w, 42, Vars(0xdf46652f, 0xd6670766, 0x79ea687a, 0x6dc57a8a, 0x838b2711, 0x26352d63, 0x1efbc0a0, 0xf0781bc8), 0xc24b8b70, 0x3e246a79, Vars(0x17aa0dfe, 0xdf46652f, 0xd6670766, 0x79ea687a, 0xdecd4715, 0x838b2711, 0x26352d63, 0x1efbc0a0));
    RoundsStep(v, w, 43, Vars(0x17aa0dfe, 0xdf46652f, 0xd6670766, 0x79ea687a, 0xdecd4715, 0x838b2711, 0x26352d63, 0x1efbc0a0), 0xc76c51a3, 0x27333ba3, Vars(0x9d4baf93, 0x17aa0dfe, 0xdf46652f, 0xd6670766, 0xfda24c2e, 0xdecd4715, 0x838b2711, 0x26352d63));
  }

  /** The results of rounds 44..47 on their working variables. */
  lemma AbcRoundValues11()
    ensures Round(Vars(0x9d4baf93, 0x17aa0dfe, 0xdf46652f, 0xd6670766, 0xfda24c2e, 0xdecd4715, 0x838b2711, 0x26352d63), 0xd192e819, 0x0c4763f2) == Vars(0x26628815, 0x9d4baf93, 0x17aa0dfe, 0xdf46652f, 0xa80f11f0, 0xfda24c2e, 0xdecd4715, 0x838b2711)
      && Round(Vars(0x26628815, 0x9d4baf93, 0x17aa0dfe, 0xdf46652f, 0xa80f11f0, 0xfda24c2e, 0xdecd4715, 0x838b2711), 0xd6990624, 0x840abf27) == Vars(0x72ab4b91, 0x26628815, 0x9d4baf93, 0x17aa0dfe, 0xb7755da1, 0xa80f11f0, 0xfda24c2e, 0xdecd4715)
      && Round(Vars(0x72ab4b91, 0x26628815, 0x9d4baf93, 0x17aa0dfe, 0xb7755da1, 0xa80f11f0, 0xfda24c2e, 0xdecd4715), 0xf40e3585, 0x7a290d5d) == Vars(0xa14c14b0, 0x72ab4b91, 0x26628815, 0x9d4baf93, 0xd57b94a9, 0xb7755da1, 0xa80f11f0, 0xfda24c2e)
      && Round(Vars(0xa14c14b0, 0x72ab4b91, 0x26628815, 0x9d4baf93, 0xd57b94a9, 0xb7755da1, 0xa80f11f0, 0xfda24c2e), 0x106aa070, 0x065c43da) == Vars(0x4172328d, 0xa14c14b0, 0x72ab4b91, 0x26628815, 0xfecf0bc6, 0xd57b94a9, 0xb7755da1, 0xa80f11f0)
  {
  }

  /** Rounds 44..47. */
  lemma AbcRounds11(v: Vars, w: seq<Word>)
    requires |w| == 64 && Rounds(v, w, 44) == Vars(0x9d4baf93, 0x17aa0dfe, 0xdf46652f, 0xd6670766, 0xfda24c2e, 0xdecd4715, 0x838b2711, 0x26352d63)
    requires w[44] == 0x0c4763f2 && w[45] == 0x840abf27 && w[46] == 0x7a290d5d && w[47] == 0x065c43da
    ensures Rounds(v, w, 48) == Vars(0x4172328d, 0xa14c14b0, 0x72ab4b91, 0x26628815, 0xfecf0bc6, 0xd57b94a9, 0xb7755da1, 0xa80f11f0)
  {
    RoundConstant44();
    RoundConstant45();
    RoundConstant46();
    RoundConstant47();
    AbcRoundValues11();
    RoundsStep(v, w, 44, Vars(0x9d4baf93, 0x17aa0dfe, 0xdf46652f, 0xd6670766, 0xfda24c2e, 0xdecd4715, 0x838b2711, 0x26352d63), 0xd192e819, 0x0c4763f2, Vars(0x26628815, 0x9d4baf93, 0x17aa0dfe, 0xdf46652f, 0xa80f11f0, 0xfda24c2e, 0xdecd4715, 0x838b2711));
    RoundsStep(v, w, 45, Vars(0x26628815, 0x9d4baf93, 0x17aa0dfe, 0xdf46652f, 0xa80f11f0, 0xfda24c2e, 0xdecd4715, 0x838b2711), 0xd6990624, 0x840abf27, Vars(0x72ab4b91, 0x26628815, 0x9d4baf93, 0x17aa0dfe, 0xb7755da1, 0xa80f11f0, 0xfda24c2e, 0xdecd4715));
    RoundsStep(v, w, 46, Vars(0x72ab4b91, 0x26628815, 0x9d4baf93, 0x17aa0dfe, 0xb7755da1, 0xa80f11f0, 0xfda24c2e, 0xdecd4715), 0xf40e3585, 0x7a290d5d, Vars(0xa14c14b0, 0x72ab4b91, 0x26628815, 0x9d4baf93, 0xd57b94a9, 0xb7755da1, 0xa80f11f0, 0xfda24c2e));
    RoundsStep(v, w, 47, Vars(0xa14c14b0, 0x72ab4b91, 0x26628815, 0x9d4baf93, 0xd57b94a9, 0xb7755da1, 0xa80f11f0, 0xfda24c2e), 0x106aa070, 0x065c43da, Vars(0x4172328d, 0xa14c14b0, 0x72ab4b91, 0x26628815, 0xfecf0bc6, 0xd57b94a9, 0xb7755da1, 0xa80f11f0));
  }

  /** The results of rounds 48..51 on their working variables. */
  lemma AbcRoundValues12()
    ensures Round(Vars(0x4172328d, 0xa14c14b0, 0x72ab4b91, 0x26628815, 0xfecf0bc6, 0xd57b94a9, 0xb7755da1, 0xa80f11f0), 0x19a4c116, 0xfb3e89cb) == Vars(0x05757ceb, 0x4172328d, 0xa14c14b0, 0x72ab4b91, 0xbd714038, 0xfecf0bc6, 0xd57b94a9, 0xb7755da1)
      && Round(Vars(0x05757ceb, 0x4172328d, 0xa14c14b0, 0x72ab4b91, 0xbd714038, 0xfecf0bc6, 0xd57b94a9, 0xb7755da1), 0x1e376c08, 0xcc7617db) == Vars(0xf11bfaa8, 0x05757ceb, 0x4172328d, 0xa14c14b0, 0x6e5c390c, 0xbd714038, 0xfecf0bc6, 0xd57b94a9)
      && Round(Vars(0xf11bfaa8, 0x05757ceb, 0x4172328d, 0xa14c14b0, 0x6e5c390c, 0xbd714038, 0xfecf0bc6, 0xd57b94a9), 0x2748774c, 0xb9e66c34) == Vars(0x7a0508a1, 0xf11bfaa8, 0x05757ceb, 0x4172328d, 0x52f1ccf7, 0x6e5c390c, 0xbd714038, 0xfecf0bc6)
      && Round(Vars(0x7a0508a1, 0xf11bfaa8, 0x05757ceb, 0x4172328d, 0x52f1ccf7, 0x6e5c390c, 0xbd714038, 0xfecf0bc6), 0x34b0bcb5, 0xa9993667) == Vars(0x886e7a22, 0x7a0508a1, 0xf11bfaa8, 0x05757ceb, 0x49231c1e, 0x52f1ccf7, 0x6e5c390c, 0xbd714038)
  {
  }

  /** Rounds 48..51. */
  lemma AbcRounds12(v: Vars, w: seq<Word>)
    requires |w| == 64 && Rounds(v, w, 48) == Vars(0x4172328d, 0xa14c14b0, 0x72ab4b91, 0x26628815, 0xfecf0bc6, 0xd57b94a9, 0xb7755da1, 0xa80f11f0)
    requires w[48] == 0xfb3e89cb && w[49] == 0xcc7617db && w[50] == 0xb9e66c34 && w[51] == 0xa9993667
    ensures Rounds(v, w, 52) == Vars(0x886e7a22, 0x7a0508a1, 0xf11bfaa8, 0x05757ceb, 0x49231c1e, 0x52f1ccf7, 0x6e5c390c, 0xbd714038)
  {
    RoundConstant48();
    RoundConstant49();
    RoundConstant50();
    RoundConstant51();
    AbcRoundValues12();
    RoundsStep(v, w, 48, Vars(0x4172328d, 0xa14c14b0, 0x72ab4b91, 0x26628815, 0xfecf0bc6, 0xd57b94a9, 0xb7755da1, 0xa80f11f0), 0x19a4c116, 0xfb3e89cb, Vars(0x05757ceb, 0x4172328d, 0xa14c14b0, 0x72ab4b91, 0xbd714038, 0xfecf0bc6, 0xd57b94a9, 0xb7755da1));
    RoundsStep(v, w, 49, Vars(0x05757ceb, 0x4172328d, 0xa14c14b0, 0x72ab4b91, 0xbd714038, 0xfecf0bc6, 0xd57b94a9, 0xb7755da1), 0x1e376c08, 0xcc7617db, Vars(0xf11bfaa8, 0x05757ceb, 0x4172328d, 0xa14c14b0, 0x6e5c390c, 0xbd714038, 0xfecf0bc6, 0xd57b94a9));
    RoundsStep(v, w, 50, Vars(0xf11bfaa8, 0x05757ceb, 0x4172328d, 0xa14c14b0, 0x6e5c390c, 0xbd714038, 0xfecf0bc6, 0xd57b94a9), 0x2748774c, 0xb9e66c34, Vars(0x7a0508a1, 0xf11bfaa8, 0x05757ceb, 0x4172328d, 0x52f1ccf7, 0x6e5c390c, 0xbd714038, 0xfecf0bc6));
    RoundsStep(v, w, 51, Vars(0x7a0508a1, 0xf11bfaa8, 0x05757ceb, 0x4172328d, 0x52f1ccf7, 0x6e5c390c, 0xbd714038, 0xfecf0bc6), 0x34b0bcb5, 0xa9993667, Vars(0x886e7a22, 0x7a0508a1, 0xf11bfaa8, 0x05757ceb, 0x49231c1e, 0x52f1ccf7, 0x6e5c390c, 0xbd714038));
  }

  /** The results of rounds 52..55 on their working variables. */
  lemma AbcRoundValues13()
    ensures Round(Vars(0x886e7a22, 0x7a0508a1, 0xf11bfaa8, 0x05757ceb, 0x49231c1e, 0x52f1ccf7, 0x6e5c390c, 0xbd714038), 0x391c0cb3, 0x84badedd) == Vars(0x101fd28f, 0x886e7a22, 0x7a0508a1, 0xf11bfaa8, 0x529e7d00, 0x49231c1e, 0x52f1ccf7, 0x6e5c390c)
      && Round(Vars(0x101fd28f, 0x886e7a22, 0x7a0508a1, 0xf11bfaa8, 0x529e7d00, 0x49231c1e, 0x52f1ccf7, 0x6e5c390c), 0x4ed8aa4a, 0xc21462bc) == Vars(0xf5702fdb, 0x101fd28f, 0x886e7a22, 0x7a0508a1, 0x9f4787c3, 0x529e7d00, 0x49231c1e, 0x52f1ccf7)
      && Round(Vars(0xf5702fdb, 0x101fd28f, 0x886e7a22, 0x7a0508a1, 0x9f4787c3, 0x529e7d00, 0x49231c1e, 0x52f1ccf7), 0x5b9cca4f, 0x1487472c) == Vars(0x3ec45cdb, 0xf5702fdb, 0x101fd28f, 0x886e7a22, 0xe50e1b4f, 0x9f4787c3, 0x529e7d00, 0x49231c1e)
      && Round(Vars(0x3ec45cdb, 0xf5702fdb, 0x101fd28f, 0x886e7a22, 0xe50e1b4f, 0x9f4787c3, 0x529e7d00, 0x49231c1e), 0x682e6ff3, 0xb20f7a99) == Vars(0x38cc9913, 0x3ec45cdb, 0xf5702fdb, 0x101fd28f, 0x54cb266b, 0xe50e1b4f, 0x9f4787c3, 0x529e7d00)
  {
  }

  /** Rounds 52..55. */
  lemma AbcRounds13(v: Vars, w: seq<Word>)
    requires |w| == 64 && Rounds(v, w, 52) == Vars(0x886e7a22, 0x7a0508a1, 0xf11bfaa8, 0x05757ceb, 0x49231c1e, 0x52f1ccf7, 0x6e5c390c, 0xbd714038)
    requires w[52] == 0x84badedd && w[53] == 0xc21462bc && w[54] == 0x1487472c && w[55] == 0xb20f7a99
    ensures Rounds(v, w, 56) == Vars(0x38cc9913, 0x3ec45cdb, 0xf5702fdb, 0x101fd28f, 0x54cb266b, 0xe50e1b4f, 0x9f4787c3, 0x529e7d00)
  {
    RoundConstant52();
    RoundConstant53();
    RoundConstant54();
    RoundConstant55();
    AbcRoundValues13();
    RoundsStep(v, w, 52, Vars(0x886e7a22, 0x7a0508a1, 0xf11bfaa8, 0x05757ceb, 0x49231c1e, 0x52f1ccf7, 0x6e5c390c, 0xbd714038), 0x391c0cb3, 0x84badedd, Vars(0x101fd28f, 0x886e7a22, 0x7a0508a1, 0xf11bfaa8, 0x529e7d00, 0x49231c1e, 0x52f1ccf7, 0x6e5c390c));
    RoundsStep(v, w, 53, Vars(0x101fd28f, 0x886e7a22, 0x7a0508a1, 0xf11bfaa8, 0x529e7d00, 0x49231c1e, 0x52f1ccf7, 0x6e5c390c), 0x4ed8aa4a, 0xc21462bc, Vars(0xf5702fdb, 0x101fd28f, 0x886e7a22, 0x7a0508a1, 0x9f4787c3, 0x529e7d00, 0x49231c1e, 0x52f1ccf7));
    RoundsStep(v, w, 54, Vars(0xf5702fdb, 0x101fd28f, 0x886e7a22, 0x7a0508a1, 0x9f4787c3, 0x529e7d00, 0x49231c1e, 0x52f1ccf7), 0x5b9cca4f, 0x1487472c, Vars(0x3ec45cdb, 0xf5702fdb, 0x101fd28f, 0x886e7a22, 0xe50e1b4f, 0x9f4787c3, 0x529e7d00, 0x49231c1e));
    RoundsStep(v, w, 55, Vars(0x3ec45cdb, 0xf5702fdb, 0x101fd28f, 0x886e7a22, 0xe50e1b4f, 0x9f4787c3, 0x529e7d00, 0x49231c1e), 0x682e6ff3, 0xb20f7a99, Vars(0x38cc9913, 0x3ec45cdb, 0xf5702fdb, 0x101fd28f, 0x54cb266b, 0xe50e1b4f, 0x9f4787c3, 0x529e7d00));
  }

  /** The results of rounds 56..59 on their working variables. */
  lemma AbcRoundValues14()
    ensures Round(Vars(0x38cc9913, 0x3ec45cdb, 0xf5702fdb, 0x101fd28f, 0x54cb266b, 0xe50e1b4f, 0x9f4787c3, 0x529e7d00), 0x748f82ee, 0xef57b9cd) == Vars(0xfcd1887b, 0x38cc9913, 0x3ec45cdb, 0xf5702fdb, 0x9b5e906c, 0x54cb266b, 0xe50e1b4f, 0x9f4787c3)
      && Round(Vars(0xfcd1887b, 0x38cc9913, 0x3ec45cdb, 0xf5702fdb, 0x9b5e906c, 0x54cb266b, 0xe50e1b4f, 0x9f4787c3), 0x78a5636f, 0xebe6b238) == Vars(0xc062d46f, 0xfcd1887b, 0x38cc9913, 0x3ec45cdb, 0x7e44008e, 0x9b5e906c, 0x54cb266b, 0xe50e1b4f)
      && Round(Vars(0xc062d46f, 0xfcd1887b, 0x38cc9913, 0x3ec45cdb, 0x7e44008e, 0x9b5e906c, 0x54cb266b, 0xe50e1b4f), 0x84c87814, 0x9fe3095e) == Vars(0xffb70472, 0xc062d46f, 0xfcd1887b, 0x38cc9913, 0x6d83bfc6, 0x7e44008e, 0x9b5e906c, 0x54cb266b)
      && Round(Vars(0xffb70472, 0xc062d46f, 0xfcd1887b, 0x38cc9913, 0x6d83bfc6, 0x7e44008e, 0x9b5e906c, 0x54cb266b), 0x8cc70208, 0x78bc8d4b) == Vars(0xb6ae8fff, 0xffb70472, 0xc062d46f, 0xfcd1887b, 0xb21bad3d, 0x6d83bfc6, 0x7e44008e, 0x9b5e906c)
  {
  }

  /** Rounds 56..59. */
  lemma AbcRounds14(v: Vars, w: seq<Word>)
    requires |w| == 64 && Rounds(v, w, 56) == Vars(0x38cc9913, 0x3ec45cdb, 0xf5702fdb, 0x101fd28f, 0x54cb266b, 0xe50e1b4f, 0x9f4787c3, 0x529e7d00)
    requires w[56] == 0xef57b9cd && w[57] == 0xebe6b238 && w[58] == 0x9fe3095e && w[59] == 0x78bc8d4b
    ensures Rounds(v, w, 60) == Vars(0xb6ae8fff, 0xffb70472, 0xc062d46f, 0xfcd1887b, 0xb21bad3d, 0x6d83bfc6, 0x7e44008e, 0x9b5e906c)
  {
    RoundConstant56();
    RoundConstant57();
    RoundConstant58();
    RoundConstant59();
    AbcRoundValues14();
    RoundsStep(v, w, 56, Vars(0x38cc9913, 0x3ec45cdb, 0xf5702fdb, 0x101fd28f, 0x54cb266b, 0xe50e1b4f, 0x9f4787c3, 0x529e7d00), 0x748f82ee, 0xef57b9cd, Vars(0xfcd1887b, 0x38cc9913, 0x3ec45cdb, 0xf5702fdb, 0x9b5e906c, 0x54cb266b, 0xe50e1b4f, 0x9f4787c3));
    RoundsStep(v, w, 57, Vars(0xfcd1887b, 0x38cc9913, 0x3ec45cdb, 0xf5702fdb, 0x9b5e906c, 0x54cb266b, 0xe50e1b4f, 0x9f4787c3), 0x78a5636f, 0xebe6b238, Vars(0xc062d46f, 0xfcd1887b, 0x38cc9913, 0x3ec45cdb, 0x7e44008e, 0x9b5e906c, 0x54cb266b, 0xe50e1b4f));
    RoundsStep(v, w, 58, Vars(0xc062d46f, 0xfcd1887b, 0x38cc9913, 0x3ec45cdb, 0x7e44008e, 0x9b5e906c, 0x54cb266b, 0xe50e1b4f), 0x84c87814, 0x9fe3095e, Vars(0xffb70472, 0xc062d46f, 0xfcd1887b, 0x38cc9913, 0x6d83bfc6, 0x7e44008e, 0x9b5e906c, 0x54cb266b));
    RoundsStep(v, w, 59, Vars(0xffb70472, 0xc062d46f, 0xfcd1887b, 0x38cc9913, 0x6d83bfc6, 0x7e44008e, 0x9b5e906c, 0x54cb266b), 0x8cc70208, 0x78bc8d4b, Vars(0xb6ae8fff, 0xffb70472, 0xc062d46f, 0xfcd1887b, 0xb21bad3d, 0x6d83bfc6, 0x7e44008e, 0x9b5e906c));
  }

  /** The results of rounds 60..63 on their working variables. */
  lemma AbcRoundValues15()
    ensures Round(Vars(0xb6ae8fff, 0xffb70472, 0xc062d46f, 0xfcd1887b, 0xb21bad3d, 0x6d83bfc6, 0x7e44008e, 0x9b5e906c), 0x90befffa, 0xa43fcf15) == Vars(0xb85e2ce9, 0xb6ae8fff, 0xffb70472, 0xc062d46f, 0x961f4894, 0xb21bad3d, 0x6d83bfc6, 0x7e44008e)
      && Round(Vars(0xb85e2ce9, 0xb6ae8fff, 0xffb70472, 0xc062d46f, 0x961f4894, 0xb21bad3d, 0x6d83bfc6, 0x7e44008e), 0xa4506ceb, 0x668b2ff8) == Vars(0x04d24d6c, 0xb85e2ce9, 0xb6ae8fff, 0xffb70472, 0x948d25b6, 0x961f4894, 0xb21bad3d, 0x6d83bfc6)
      && Round(Vars(0x04d24d6c, 0xb85e2ce9, 0xb6ae8fff, 0xffb70472, 0x948d25b6, 0x961f4894, 0xb21bad3d, 0x6d83bfc6), 0xbef9a3f7, 0xeeaba2cc) == Vars(0xd39a2165, 0x04d24d6c, 0xb85e2ce9, 0xb6ae8fff, 0xfb121210, 0x948d25b6, 0x961f4894, 0xb21bad3d)
      && Round(Vars(0xd39a2165, 0x04d24d6c, 0xb85e2ce9, 0xb6ae8fff, 0xfb121210, 0x948d25b6, 0x961f4894, 0xb21bad3d), 0xc67178f2, 0x12b1edeb) == Vars(0x506e3058, 0xd39a2165, 0x04d24d6c, 0xb85e2ce9, 0x5ef50f24, 0xfb121210, 0x948d25b6, 0x961f4894)
  {
  }

  /** Rounds 60..63. */
  lemma AbcRounds15(v: Vars, w: seq<Word>)
    requires |w| == 64 && Rounds(v, w, 60) == Vars(0xb6ae8fff, 0xffb70472, 0xc062d46f, 0xfcd1887b, 0xb21bad3d, 0x6d83bfc6, 0x7e44008e, 0x9b5e906c)
    requires w[60] == 0xa43fcf15 && w[61] == 0x668b2ff8 && w[62] == 0xeeaba2cc && w[63] == 0x12b1edeb
    ensures Rounds(v, w, 64) == Vars(0x506e3058, 0xd39a2165, 0x04d24d6c, 0xb85e2ce9, 0x5ef50f24, 0xfb121210, 0x948d25b6, 0x961f4894)
  {
    RoundConstant60();
    RoundConstant61();
    RoundConstant62();
    RoundConstant63();
    AbcRoundValues15();
    RoundsStep(v, w, 60, Vars(0xb6ae8fff, 0xffb70472, 0xc062d46f, 0xfcd1887b, 0xb21bad3d, 0x6d83bfc6, 0x7e44008e, 0x9b5e906c), 0x90befffa, 0xa43fcf15, Vars(0xb85e2ce9, 0xb6ae8fff, 0xffb70472, 0xc062d46f, 0x961f4894, 0xb21bad3d, 0x6d83bfc6, 0x7e44008e));
    RoundsStep(v, w, 61, Vars(0xb85e2ce9, 0xb6ae8fff, 0xffb70472, 0xc062d46f, 0x961f4894, 0xb21bad3d, 0x6d83bfc6, 0x7e44008e), 0xa4506ceb, 0x668b2ff8, Vars(0x04d24d6c, 0xb85e2ce9, 0xb6ae8fff, 0xffb70472, 0x948d25b6, 0x961f4894, 0xb21bad3d, 0x6d83bfc6));
    RoundsStep(v, w, 62, Vars(0x04d24d6c, 0xb85e2ce9, 0xb6ae8fff, 0xffb70472, 0x948d25b6, 0x961f4894, 0xb21bad3d, 0x6d83bfc6), 0xbef9a3f7, 0xeeaba2cc, Vars(0xd39a2165, 0x04d24d6c, 0xb85e2ce9, 0xb6ae8fff, 0xfb121210, 0x948d25b6, 0x961f4894, 0xb21bad3d));
    RoundsStep(v, w, 63, Vars(0xd39a2165, 0x04d24d6c, 0xb85e2ce9, 0xb6ae8fff, 0xfb121210, 0x948d25b6, 0x961f4894, 0xb21bad3d), 0xc67178f2, 0x12b1edeb, Vars(0x506e3058, 0xd39a2165, 0x04d24d6c, 0xb85e2ce9, 0x5ef50f24, 0xfb121210, 0x948d25b6, 0x961f4894));
  }

  /** The feed-forward onto the initial hash value. */
  lemma AbcFeedForward()
    ensures FeedForward(IV, Vars(0x506e3058, 0xd39a2165, 0x04d24d6c, 0xb85e2ce9, 0x5ef50f24, 0xfb121210, 0x948d25b6, 0x961f4894)) == [0xba7816bf, 0x8f01cfea, 0x414140de, 0x5dae2223, 0xb00361a3, 0x96177a9c, 0xb410ff61, 0xf20015ad]
  {
  }

  /** The compression of that block from the initial hash value. */
  lemma AbcTransform(b: Block)
    requires b[0] == 0x61 && b[1] == 0x62 && b[2] == 0x63 && b[3] == 0x80
      && b[4] == 0x00 && b[5] == 0x00 && b[6] == 0x00 && b[7] == 0x00
      && b[8] == 0x00 && b[9] == 0x00 && b[10] == 0x00 && b[11] == 0x00
      && b[12] == 0x00 && b[13] == 0x00 && b[14] == 0x00 && b[15] == 0x00
      && b[16] == 0x00 && b[17] == 0x00 && b[18] == 0x00 && b[19] == 0x00
      && b[20] == 0x00 && b[21] == 0x00 && b[22] == 0x00 && b[23] == 0x00
      && b[24] == 0x00 && b[25] == 0x00 && b[26] == 0x00 && b[27] == 0x00
      && b[28] == 0x00 && b[29] == 0x00 && b[30] == 0x00 && b[31] == 0x00
      && b[32] == 0x00 && b[33] == 0x00 && b[34] == 0x00 && b[35] == 0x00
      && b[36] == 0x00 && b[37] == 0x00 && b[38] == 0x00 && b[39] == 0x00
      && b[40] == 0x00 && b[41] == 0x00 && b[42] == 0x00 && b[43] == 0x00
      && b[44] == 0x00 && b[45] == 0x00 && b[46] == 0x00 && b[47] == 0x00
      && b[48] == 0x00 && b[49] == 0x00 && b[50] == 0x00 && b[51] == 0x00
      && b[52] == 0x00 && b[53] == 0x00 && b[54] == 0x00 && b[55] == 0x00
      && b[56] == 0x00 && b[57] == 0x00 && b[58] == 0x00 && b[59] == 0x00
      && b[60] == 0x00 && b[61] == 0x00 && b[62] == 0x00 && b[63] == 0x18
    ensures Transform(IV, b) == [0xba7816bf, 0x8f01cfea, 0x414140de, 0x5dae2223, 0xb00361a3, 0x96177a9c, 0xb410ff61, 0xf20015ad]
  {
    AbcSchedule(b);
    var v, w := Load(IV), Schedule(b);
    LoadInitial();
    AbcRounds0(v, w);
    AbcRounds1(v, w);
    AbcRounds2(v, w);
    AbcRounds3(v, w);
    AbcRounds4(v, w);
    AbcRounds5(v, w);
    AbcRounds6(v, w);
    AbcRounds7(v, w);
    AbcRounds8(v, w);
    AbcRounds9(v, w);
    AbcRounds10(v, w);
    AbcRounds11(v, w);
    AbcRounds12(v, w);
    AbcRounds13(v, w);
    AbcRounds14(v, w);
    AbcRounds15(v, w);
    AbcFeedForward();
  }

  /** The digest of the message "abc": its eight words, big-endian, are
      ba7816bf8f01cfea414140de5dae2223
      b00361a396177a9cb410ff61f20015ad. */
  lemma AbcDigest(m: seq<Byte>)
    requires m == [0x61, 0x62, 0x63]
    ensures Digest(m) == Serialize([0xba7816bf, 0x8f01cfea, 0x414140de, 0x5dae2223, 0xb00361a3, 0x96177a9c, 0xb410ff61, 0xf20015ad])
  {
    var b := Pad(m);
    AbcPadded(m);
    AbcTransform(b);
    SingleBlock(IV, b);
  }

  /** The words of that digest as bytes. */
  lemma AbcDigestWordBytes()
    ensures WordToBytes(0xba7816bf) == [0xba, 0x78, 0x16, 0xbf]
      && WordToBytes(0x8f01cfea) == [0x8f, 0x01, 0xcf, 0xea]
      && WordToBytes(0x414140de) == [0x41, 0x41, 0x40, 0xde]
      && WordToBytes(0x5dae2223) == [0x5d, 0xae, 0x22, 0x23]
      && WordToBytes(0xb00361a3) == [0xb0, 0x03, 0x61, 0xa3]
      && WordToBytes(0x96177a9c) == [0x96, 0x17, 0x7a, 0x9c]
      && WordToBytes(0xb410ff61) == [0xb4, 0x10, 0xff, 0x61]
      && WordToBytes(0xf20015ad) == [0xf2, 0x00, 0x15, 0xad]
  {
  }

  /** That digest as the 32-byte array the crate's test expects, 4 bytes
      at a time. */
  lemma AbcExpected(r: seq<Byte>)
    requires r == Serialize([0xba7816bf, 0x8f01cfea, 0x414140de, 0x5dae2223, 0xb00361a3, 0x96177a9c, 0xb410ff61, 0xf20015ad])
    ensures |r| == 32
      && r[0..4] == [0xba, 0x78, 0x16, 0xbf]
      && r[4..8] == [0x8f, 0x01, 0xcf, 0xea]
      && r[8..12] == [0x41, 0x41, 0x40, 0xde]
      && r[12..16] == [0x5d, 0xae, 0x22, 0x23]
      && r[16..20] == [0xb0, 0x03, 0x61, 0xa3]
      && r[20..24] == [0x96, 0x17, 0x7a, 0x9c]
      && r[24..28] == [0xb4, 0x10, 0xff, 0x61]
      && r[28..32] == [0xf2, 0x00, 0x15, 0xad]
  {
    var h: seq<Word> := [0xba7816bf, 0x8f01cfea, 0x414140de, 0x5dae2223, 0xb00361a3, 0x96177a9c, 0xb410ff61, 0xf20015ad];
    AbcDigestWordBytes();
    SerializedWord(h, 0, 0xba7816bf, [0xba, 0x78, 0x16, 0xbf]);
    SerializedWord(h, 1, 0x8f01cfea, [0x8f, 0x01, 0xcf, 0xea]);
    SerializedWord(h, 2, 0x414140de, [0x41, 0x41, 0x40, 0xde]);
    SerializedWord(h, 3, 0x5dae2223, [0x5d, 0xae, 0x22, 0x23]);
    SerializedWord(h, 4, 0xb00361a3, [0xb0, 0x03, 0x61, 0xa3]);
    SerializedWord(h, 5, 0x96177a9c, [0x96, 0x17, 0x7a, 0x9c]);
    SerializedWord(h, 6, 0xb410ff61, [0xb4, 0x10, 0xff, 0x61]);
    SerializedWord(h, 7, 0xf20015ad, [0xf2, 0x00, 0x15, 0xad]);
  }

  /** `test_sha256_abc`: a fresh hasher fed [0x61, 0x62, 0x63] finalizes to the expected
      digest. */
  method TestSha256Abc() returns (r: seq<Byte>)
    ensures |r| == 32
      && r[0..4] == [0xba, 0x78, 0x16, 0xbf]
      && r[4..8] == [0x8f, 0x01, 0xcf, 0xea]
      && r[8..12] == [0x41, 0x41, 0x40, 0xde]
      && r[12..16] == [0x5d, 0xae, 0x22, 0x23]
      && r[16..20] == [0xb0, 0x03, 0x61, 0xa3]
      && r[20..24] == [0x96, 0x17, 0x7a, 0x9c]
      && r[24..28] == [0xb4, 0x10, 0xff, 0x61]
      && r[28..32] == [0xf2, 0x00, 0x15, 0xad]
  {
    var msg: seq<Byte> := [0x61, 0x62, 0x63];
    var hasher := new Hasher();
    hasher.Update(msg);
    assert hasher.absorbed == msg;
    r := hasher.Finalize();
    AbcDigest(msg);
    AbcExpected(r);
  }

}
