/** The known-answer vectors of the SHA-512 crate's tests, proved about
    the specification: SHA-512("") and SHA-512("abc") as FIPS 180-4 gives
    them. Each message pads to one block; the proof follows the block
    through its schedule and the 80 rounds a few steps at a time, with the
    arithmetic on constants kept in lemmas of their own. */
module Sha512Vectors {
  import opened Bytes
  import opened Sha512

  // ---------------------------------------------------------------------
  // Steps shared by both vectors

  /** A loaded schedule word, given the eight bytes it is read from and
      their value as a word. */
  lemma LoadedWord(b: Block, t: nat, x0: Byte, x1: Byte, x2: Byte, x3: Byte,
                   x4: Byte, x5: Byte, x6: Byte, x7: Byte, r: Word)
    requires t < 16
    requires b[8 * t..8 * t + 8] == [x0, x1, x2, x3, x4, x5, x6, x7]
    requires WordFromBytes([x0, x1, x2, x3, x4, x5, x6, x7]) == r
    ensures Schedule(b)[t] == r
  {
    ScheduleWordLoaded(b, t);
  }

  /** One more round, given the working variables before it, its constant,
      its schedule word and its result. */
  lemma RoundsStep(v: Vars, w: seq<Word>, n: nat, x: Vars, k: Word, wn: Word, y: Vars)
    requires n < |w| && n < 80
    requires Rounds(v, w, n) == x && K(n) == k && w[n] == wn && Round(x, k, wn) == y
    ensures Rounds(v, w, n + 1) == y
  {
  }

  /** The working variables loaded from the initial hash value. */
  lemma LoadInitial()
    ensures Load(IV) == Vars(0x6a09e667f3bcc908, 0xbb67ae8584caa73b, 0x3c6ef372fe94f82b, 0xa54ff53a5f1d36f1, 0x510e527fade682d1, 0x9b05688c2b3e6c1f, 0x1f83d9abfb41bd6b, 0x5be0cd19137e2179)
  {
  }

  /** Round constant 0. */
  lemma RoundConstant0()
    ensures K(0) == 0x428a2f98d728ae22
  {
  }

  /** Round constant 1. */
  lemma RoundConstant1()
    ensures K(1) == 0x7137449123ef65cd
  {
  }

  /** Round constant 2. */
  lemma RoundConstant2()
    ensures K(2) == 0xb5c0fbcfec4d3b2f
  {
  }

  /** Round constant 3. */
  lemma RoundConstant3()
    ensures K(3) == 0xe9b5dba58189dbbc
  {
  }

  /** Round constant 4. */
  lemma RoundConstant4()
    ensures K(4) == 0x3956c25bf348b538
  {
  }

  /** Round constant 5. */
  lemma RoundConstant5()
    ensures K(5) == 0x59f111f1b605d019
  {
  }

  /** Round constant 6. */
  lemma RoundConstant6()
    ensures K(6) == 0x923f82a4af194f9b
  {
  }

  /** Round constant 7. */
  lemma RoundConstant7()
    ensures K(7) == 0xab1c5ed5da6d8118
  {
  }

  /** Round constant 8. */
  lemma RoundConstant8()
    ensures K(8) == 0xd807aa98a3030242
  {
  }

  /** Round constant 9. */
  lemma RoundConstant9()
    ensures K(9) == 0x12835b0145706fbe
  {
  }

  /** Round constant 10. */
  lemma RoundConstant10()
    ensures K(10) == 0x243185be4ee4b28c
  {
  }

  /** Round constant 11. */
  lemma RoundConstant11()
    ensures K(11) == 0x550c7dc3d5ffb4e2
  {
  }

  /** Round constant 12. */
  lemma RoundConstant12()
    ensures K(12) == 0x72be5d74f27b896f
  {
  }

  /** Round constant 13. */
  lemma RoundConstant13()
    ensures K(13) == 0x80deb1fe3b1696b1
  {
  }

  /** Round constant 14. */
  lemma RoundConstant14()
    ensures K(14) == 0x9bdc06a725c71235
  {
  }

  /** Round constant 15. */
  lemma RoundConstant15()
    ensures K(15) == 0xc19bf174cf692694
  {
  }

  /** Round constant 16. */
  lemma RoundConstant16()
    ensures K(16) == 0xe49b69c19ef14ad2
  {
  }

  /** Round constant 17. */
  lemma RoundConstant17()
    ensures K(17) == 0xefbe4786384f25e3
  {
  }

  /** Round constant 18. */
  lemma RoundConstant18()
    ensures K(18) == 0x0fc19dc68b8cd5b5
  {
  }

  /** Round constant 19. */
  lemma RoundConstant19()
    ensures K(19) == 0x240ca1cc77ac9c65
  {
  }

  /** Round constant 20. */
  lemma RoundConstant20()
    ensures K(20) == 0x2de92c6f592b0275
  {
  }

  /** Round constant 21. */
  lemma RoundConstant21()
    ensures K(21) == 0x4a7484aa6ea6e483
  {
  }

  /** Round constant 22. */
  lemma RoundConstant22()
    ensures K(22) == 0x5cb0a9dcbd41fbd4
  {
  }

  /** Round constant 23. */
  lemma RoundConstant23()
    ensures K(23) == 0x76f988da831153b5
  {
  }

  /** Round constant 24. */
  lemma RoundConstant24()
    ensures K(24) == 0x983e5152ee66dfab
  {
  }

  /** Round constant 25. */
  lemma RoundConstant25()
    ensures K(25) == 0xa831c66d2db43210
  {
  }

  /** Round constant 26. */
  lemma RoundConstant26()
    ensures K(26) == 0xb00327c898fb213f
  {
  }

  /** Round constant 27. */
  lemma RoundConstant27()
    ensures K(27) == 0xbf597fc7beef0ee4
  {
  }

  /** Round constant 28. */
  lemma RoundConstant28()
    ensures K(28) == 0xc6e00bf33da88fc2
  {
  }

  /** Round constant 29. */
  lemma RoundConstant29()
    ensures K(29) == 0xd5a79147930aa725
  {
  }

  /** Round constant 30. */
  lemma RoundConstant30()
    ensures K(30) == 0x06ca6351e003826f
  {
  }

  /** Round constant 31. */
  lemma RoundConstant31()
    ensures K(31) == 0x142929670a0e6e70
  {
  }

  /** Round constant 32. */
  lemma RoundConstant32()
    ensures K(32) == 0x27b70a8546d22ffc
  {
  }

  /** Round constant 33. */
  lemma RoundConstant33()
    ensures K(33) == 0x2e1b21385c26c926
  {
  }

  /** Round constant 34. */
  lemma RoundConstant34()
    ensures K(34) == 0x4d2c6dfc5ac42aed
  {
  }

  /** Round constant 35. */
  lemma RoundConstant35()
    ensures K(35) == 0x53380d139d95b3df
  {
  }

  /** Round constant 36. */
  lemma RoundConstant36()
    ensures K(36) == 0x650a73548baf63de
  {
  }

  /** Round constant 37. */
  lemma RoundConstant37()
    ensures K(37) == 0x766a0abb3c77b2a8
  {
  }

  /** Round constant 38. */
  lemma RoundConstant38()
    ensures K(38) == 0x81c2c92e47edaee6
  {
  }

  /** Round constant 39. */
  lemma RoundConstant39()
    ensures K(39) == 0x92722c851482353b
  {
  }

  /** Round constant 40. */
  lemma RoundConstant40()
    ensures K(40) == 0xa2bfe8a14cf10364
  {
  }

  /** Round constant 41. */
  lemma RoundConstant41()
    ensures K(41) == 0xa81a664bbc423001
  {
  }

  /** Round constant 42. */
  lemma RoundConstant42()
    ensures K(42) == 0xc24b8b70d0f89791
  {
  }

  /** Round constant 43. */
  lemma RoundConstant43()
    ensures K(43) == 0xc76c51a30654be30
  {
  }

  /** Round constant 44. */
  lemma RoundConstant44()
    ensures K(44) == 0xd192e819d6ef5218
  {
  }

  /** Round constant 45. */
  lemma RoundConstant45()
    ensures K(45) == 0xd69906245565a910
  {
  }

  /** Round constant 46. */
  lemma RoundConstant46()
    ensures K(46) == 0xf40e35855771202a
  {
  }

  /** Round constant 47. */
  lemma RoundConstant47()
    ensures K(47) == 0x106aa07032bbd1b8
  {
  }

  /** Round constant 48. */
  lemma RoundConstant48()
    ensures K(48) == 0x19a4c116b8d2d0c8
  {
  }

  /** Round constant 49. */
  lemma RoundConstant49()
    ensures K(49) == 0x1e376c085141ab53
  {
  }

  /** Round constant 50. */
  lemma RoundConstant50()
    ensures K(50) == 0x2748774cdf8eeb99
  {
  }

  /** Round constant 51. */
  lemma RoundConstant51()
    ensures K(51) == 0x34b0bcb5e19b48a8
  {
  }

  /** Round constant 52. */
  lemma RoundConstant52()
    ensures K(52) == 0x391c0cb3c5c95a63
  {
  }

  /** Round constant 53. */
  lemma RoundConstant53()
    ensures K(53) == 0x4ed8aa4ae3418acb
  {
  }

  /** Round constant 54. */
  lemma RoundConstant54()
    ensures K(54) == 0x5b9cca4f7763e373
  {
  }

  /** Round constant 55. */
  lemma RoundConstant55()
    ensures K(55) == 0x682e6ff3d6b2b8a3
  {
  }

  /** Round constant 56. */
  lemma RoundConstant56()
    ensures K(56) == 0x748f82ee5defb2fc
  {
  }

  /** Round constant 57. */
  lemma RoundConstant57()
    ensures K(57) == 0x78a5636f43172f60
  {
  }

  /** Round constant 58. */
  lemma RoundConstant58()
    ensures K(58) == 0x84c87814a1f0ab72
  {
  }

  /** Round constant 59. */
  lemma RoundConstant59()
    ensures K(59) == 0x8cc702081a6439ec
  {
  }

  /** Round constant 60. */
  lemma RoundConstant60()
    ensures K(60) == 0x90befffa23631e28
  {
  }

  /** Round constant 61. */
  lemma RoundConstant61()
    ensures K(61) == 0xa4506cebde82bde9
  {
  }

  /** Round constant 62. */
  lemma RoundConstant62()
    ensures K(62) == 0xbef9a3f7b2c67915
  {
  }

  /** Round constant 63. */
  lemma RoundConstant63()
    ensures K(63) == 0xc67178f2e372532b
  {
  }

  /** Round constant 64. */
  lemma RoundConstant64()
    ensures K(64) == 0xca273eceea26619c
  {
  }

  /** Round constant 65. */
  lemma RoundConstant65()
    ensures K(65) == 0xd186b8c721c0c207
  {
  }

  /** Round constant 66. */
  lemma RoundConstant66()
    ensures K(66) == 0xeada7dd6cde0eb1e
  {
  }

  /** Round constant 67. */
  lemma RoundConstant67()
    ensures K(67) == 0xf57d4f7fee6ed178
  {
  }

  /** Round constant 68. */
  lemma RoundConstant68()
    ensures K(68) == 0x06f067aa72176fba
  {
  }

  /** Round constant 69. */
  lemma RoundConstant69()
    ensures K(69) == 0x0a637dc5a2c898a6
  {
  }

  /** Round constant 70. */
  lemma RoundConstant70()
    ensures K(70) == 0x113f9804bef90dae
  {
  }

  /** Round constant 71. */
  lemma RoundConstant71()
    ensures K(71) == 0x1b710b35131c471b
  {
  }

  /** Round constant 72. */
  lemma RoundConstant72()
    ensures K(72) == 0x28db77f523047d84
  {
  }

  /** Round constant 73. */
  lemma RoundConstant73()
    ensures K(73) == 0x32caab7b40c72493
  {
  }

  /** Round constant 74. */
  lemma RoundConstant74()
    ensures K(74) == 0x3c9ebe0a15c9bebc
  {
  }

  /** Round constant 75. */
  lemma RoundConstant75()
    ensures K(75) == 0x431d67c49c100d4c
  {
  }

  /** Round constant 76. */
  lemma RoundConstant76()
    ensures K(76) == 0x4cc5d4becb3e42b6
  {
  }

  /** Round constant 77. */
  lemma RoundConstant77()
    ensures K(77) == 0x597f299cfc657e2a
  {
  }

  /** Round constant 78. */
  lemma RoundConstant78()
    ensures K(78) == 0x5fcb6fab3ad6faec
  {
  }

  /** Round constant 79. */
  lemma RoundConstant79()
    ensures K(79) == 0x6c44198c4a475817
  {
  }

  /** Bytes 8i..8i+7 of a serialisation, given word i and its bytes. */
  lemma SerializedWord(h: seq<Word>, i: nat, x: Word, bytes: seq<Byte>)
    requires i < |h| && h[i] == x && WordToBytes(x) == bytes
    ensures Serialize(h)[8 * i..8 * i + 8] == bytes
  {
    SerializeWord(h, i);
  }


  // ---------------------------------------------------------------------
  // The empty message

  /** The padded block of the empty message, byte by byte. */
  lemma EmptyPadded(m: seq<Byte>)
    requires m == []
    ensures var b := Pad(m);
      && |b| == 128
      && b[0..8] == [0x80, 0x00, 0x00, 0x00, 0x00, 0x00, 0x00, 0x00]
      && b[8..16] == [0x00, 0x00, 0x00, 0x00, 0x00, 0x00, 0x00, 0x00]
      && b[16..24] == [0x00, 0x00, 0x00, 0x00, 0x00, 0x00, 0x00, 0x00]
      && b[24..32] == [0x00, 0x00, 0x00, 0x00, 0x00, 0x00, 0x00, 0x00]
      && b[32..40] == [0x00, 0x00, 0x00, 0x00, 0x00, 0x00, 0x00, 0x00]
      && b[40..48] == [0x00, 0x00, 0x00, 0x00, 0x00, 0x00, 0x00, 0x00]
      && b[48..56] == [0x00, 0x00, 0x00, 0x00, 0x00, 0x00, 0x00, 0x00]
      && b[56..64] == [0x00, 0x00, 0x00, 0x00, 0x00, 0x00, 0x00, 0x00]
      && b[64..72] == [0x00, 0x00, 0x00, 0x00, 0x00, 0x00, 0x00, 0x00]
      && b[72..80] == [0x00, 0x00, 0x00, 0x00, 0x00, 0x00, 0x00, 0x00]
      && b[80..88] == [0x00, 0x00, 0x00, 0x00, 0x00, 0x00, 0x00, 0x00]
      && b[88..96] == [0x00, 0x00, 0x00, 0x00, 0x00, 0x00, 0x00, 0x00]
      && b[96..104] == [0x00, 0x00, 0x00, 0x00, 0x00, 0x00, 0x00, 0x00]
      && b[104..112] == [0x00, 0x00, 0x00, 0x00, 0x00, 0x00, 0x00, 0x00]
      && b[112..120] == [0x00, 0x00, 0x00, 0x00, 0x00, 0x00, 0x00, 0x00]
      && b[120..128] == [0x00, 0x00, 0x00, 0x00, 0x00, 0x00, 0x00, 0x00]
  {
    PadShort(m);
    ToByteOfByte(0x00);
    var b := Pad(m);
    EmptyBytes(m, b);
    EmptySlices(b);
  }

  /** The sixteen eight-byte slices of that block. */
  lemma EmptySlices(b: seq<Byte>)
    requires |b| == 128
      && b[0] == 0x80 && b[1] == 0x00 && b[2] == 0x00 && b[3] == 0x00 && b[4] == 0x00 && b[5] == 0x00 && b[6] == 0x00 && b[7] == 0x00
      && b[8] == 0x00 && b[9] == 0x00 && b[10] == 0x00 && b[11] == 0x00 && b[12] == 0x00 && b[13] == 0x00 && b[14] == 0x00 && b[15] == 0x00
      && b[16] == 0x00 && b[17] == 0x00 && b[18] == 0x00 && b[19] == 0x00 && b[20] == 0x00 && b[21] == 0x00 && b[22] == 0x00 && b[23] == 0x00
      && b[24] == 0x00 && b[25] == 0x00 && b[26] == 0x00 && b[27] == 0x00 && b[28] == 0x00 && b[29] == 0x00 && b[30] == 0x00 && b[31] == 0x00
      && b[32] == 0x00 && b[33] == 0x00 && b[34] == 0x00 && b[35] == 0x00 && b[36] == 0x00 && b[37] == 0x00 && b[38] == 0x00 && b[39] == 0x00
      && b[40] == 0x00 && b[41] == 0x00 && b[42] == 0x00 && b[43] == 0x00 && b[44] == 0x00 && b[45] == 0x00 && b[46] == 0x00 && b[47] == 0x00
      && b[48] == 0x00 && b[49] == 0x00 && b[50] == 0x00 && b[51] == 0x00 && b[52] == 0x00 && b[53] == 0x00 && b[54] == 0x00 && b[55] == 0x00
      && b[56] == 0x00 && b[57] == 0x00 && b[58] == 0x00 && b[59] == 0x00 && b[60] == 0x00 && b[61] == 0x00 && b[62] == 0x00 && b[63] == 0x00
      && b[64] == 0x00 && b[65] == 0x00 && b[66] == 0x00 && b[67] == 0x00 && b[68] == 0x00 && b[69] == 0x00 && b[70] == 0x00 && b[71] == 0x00
      && b[72] == 0x00 && b[73] == 0x00 && b[74] == 0x00 && b[75] == 0x00 && b[76] == 0x00 && b[77] == 0x00 && b[78] == 0x00 && b[79] == 0x00
      && b[80] == 0x00 && b[81] == 0x00 && b[82] == 0x00 && b[83] == 0x00 && b[84] == 0x00 && b[85] == 0x00 && b[86] == 0x00 && b[87] == 0x00
      && b[88] == 0x00 && b[89] == 0x00 && b[90] == 0x00 && b[91] == 0x00 && b[92] == 0x00 && b[93] == 0x00 && b[94] == 0x00 && b[95] == 0x00
      && b[96] == 0x00 && b[97] == 0x00 && b[98] == 0x00 && b[99] == 0x00 && b[100] == 0x00 && b[101] == 0x00 && b[102] == 0x00 && b[103] == 0x00
      && b[104] == 0x00 && b[105] == 0x00 && b[106] == 0x00 && b[107] == 0x00 && b[108] == 0x00 && b[109] == 0x00 && b[110] == 0x00 && b[111] == 0x00
      && b[112] == 0x00 && b[113] == 0x00 && b[114] == 0x00 && b[115] == 0x00 && b[116] == 0x00 && b[117] == 0x00 && b[118] == 0x00 && b[119] == 0x00
      && b[120] == 0x00 && b[121] == 0x00 && b[122] == 0x00 && b[123] == 0x00 && b[124] == 0x00 && b[125] == 0x00 && b[126] == 0x00 && b[127] == 0x00
    ensures b[0..8] == [0x80, 0x00, 0x00, 0x00, 0x00, 0x00, 0x00, 0x00]
      && b[8..16] == [0x00, 0x00, 0x00, 0x00, 0x00, 0x00, 0x00, 0x00]
      && b[16..24] == [0x00, 0x00, 0x00, 0x00, 0x00, 0x00, 0x00, 0x00]
      && b[24..32] == [0x00, 0x00, 0x00, 0x00, 0x00, 0x00, 0x00, 0x00]
      && b[32..40] == [0x00, 0x00, 0x00, 0x00, 0x00, 0x00, 0x00, 0x00]
      && b[40..48] == [0x00, 0x00, 0x00, 0x00, 0x00, 0x00, 0x00, 0x00]
      && b[48..56] == [0x00, 0x00, 0x00, 0x00, 0x00, 0x00, 0x00, 0x00]
      && b[56..64] == [0x00, 0x00, 0x00, 0x00, 0x00, 0x00, 0x00, 0x00]
      && b[64..72] == [0x00, 0x00, 0x00, 0x00, 0x00, 0x00, 0x00, 0x00]
      && b[72..80] == [0x00, 0x00, 0x00, 0x00, 0x00, 0x00, 0x00, 0x00]
      && b[80..88] == [0x00, 0x00, 0x00, 0x00, 0x00, 0x00, 0x00, 0x00]
      && b[88..96] == [0x00, 0x00, 0x00, 0x00, 0x00, 0x00, 0x00, 0x00]
      && b[96..104] == [0x00, 0x00, 0x00, 0x00, 0x00, 0x00, 0x00, 0x00]
      && b[104..112] == [0x00, 0x00, 0x00, 0x00, 0x00, 0x00, 0x00, 0x00]
      && b[112..120] == [0x00, 0x00, 0x00, 0x00, 0x00, 0x00, 0x00, 0x00]
      && b[120..128] == [0x00, 0x00, 0x00, 0x00, 0x00, 0x00, 0x00, 0x00]
  {
    SliceEight(b, 0);
    SliceEight(b, 8);
    SliceEight(b, 16);
    SliceEight(b, 24);
    SliceEight(b, 32);
    SliceEight(b, 40);
    SliceEight(b, 48);
    SliceEight(b, 56);
    SliceEight(b, 64);
    SliceEight(b, 72);
    SliceEight(b, 80);
    SliceEight(b, 88);
    SliceEight(b, 96);
    SliceEight(b, 104);
    SliceEight(b, 112);
    SliceEight(b, 120);
  }

  /** The bytes of that block read off its four parts. */
  lemma EmptyBytes(m: seq<Byte>, b: seq<Byte>)
    requires m == []
    requires b == m + [0x80] + Zeros(111) + (Zeros(15) + [0x00])
    ensures |b| == 128
      && b[0] == 0x80 && b[1] == 0x00 && b[2] == 0x00 && b[3] == 0x00 && b[4] == 0x00 && b[5] == 0x00 && b[6] == 0x00 && b[7] == 0x00
      && b[8] == 0x00 && b[9] == 0x00 && b[10] == 0x00 && b[11] == 0x00 && b[12] == 0x00 && b[13] == 0x00 && b[14] == 0x00 && b[15] == 0x00
      && b[16] == 0x00 && b[17] == 0x00 && b[18] == 0x00 && b[19] == 0x00 && b[20] == 0x00 && b[21] == 0x00 && b[22] == 0x00 && b[23] == 0x00
      && b[24] == 0x00 && b[25] == 0x00 && b[26] == 0x00 && b[27] == 0x00 && b[28] == 0x00 && b[29] == 0x00 && b[30] == 0x00 && b[31] == 0x00
      && b[32] == 0x00 && b[33] == 0x00 && b[34] == 0x00 && b[35] == 0x00 && b[36] == 0x00 && b[37] == 0x00 && b[38] == 0x00 && b[39] == 0x00
      && b[40] == 0x00 && b[41] == 0x00 && b[42] == 0x00 && b[43] == 0x00 && b[44] == 0x00 && b[45] == 0x00 && b[46] == 0x00 && b[47] == 0x00
      && b[48] == 0x00 && b[49] == 0x00 && b[50] == 0x00 && b[51] == 0x00 && b[52] == 0x00 && b[53] == 0x00 && b[54] == 0x00 && b[55] == 0x00
      && b[56] == 0x00 && b[57] == 0x00 && b[58] == 0x00 && b[59] == 0x00 && b[60] == 0x00 && b[61] == 0x00 && b[62] == 0x00 && b[63] == 0x00
      && b[64] == 0x00 && b[65] == 0x00 && b[66] == 0x00 && b[67] == 0x00 && b[68] == 0x00 && b[69] == 0x00 && b[70] == 0x00 && b[71] == 0x00
      && b[72] == 0x00 && b[73] == 0x00 && b[74] == 0x00 && b[75] == 0x00 && b[76] == 0x00 && b[77] == 0x00 && b[78] == 0x00 && b[79] == 0x00
      && b[80] == 0x00 && b[81] == 0x00 && b[82] == 0x00 && b[83] == 0x00 && b[84] == 0x00 && b[85] == 0x00 && b[86] == 0x00 && b[87] == 0x00
      && b[88] == 0x00 && b[89] == 0x00 && b[90] == 0x00 && b[91] == 0x00 && b[92] == 0x00 && b[93] == 0x00 && b[94] == 0x00 && b[95] == 0x00
      && b[96] == 0x00 && b[97] == 0x00 && b[98] == 0x00 && b[99] == 0x00 && b[100] == 0x00 && b[101] == 0x00 && b[102] == 0x00 && b[103] == 0x00
      && b[104] == 0x00 && b[105] == 0x00 && b[106] == 0x00 && b[107] == 0x00 && b[108] == 0x00 && b[109] == 0x00 && b[110] == 0x00 && b[111] == 0x00
      && b[112] == 0x00 && b[113] == 0x00 && b[114] == 0x00 && b[115] == 0x00 && b[116] == 0x00 && b[117] == 0x00 && b[118] == 0x00 && b[119] == 0x00
      && b[120] == 0x00 && b[121] == 0x00 && b[122] == 0x00 && b[123] == 0x00 && b[124] == 0x00 && b[125] == 0x00 && b[126] == 0x00 && b[127] == 0x00
  {
  }

  /** The sixteen words of that block, big-endian. */
  lemma EmptyWords()
    ensures WordFromBytes([0x80, 0x00, 0x00, 0x00, 0x00, 0x00, 0x00, 0x00]) == 0x8000000000000000
      && WordFromBytes([0x00, 0x00, 0x00, 0x00, 0x00, 0x00, 0x00, 0x00]) == 0x0000000000000000
      && WordFromBytes([0x00, 0x00, 0x00, 0x00, 0x00, 0x00, 0x00, 0x00]) == 0x0000000000000000
      && WordFromBytes([0x00, 0x00, 0x00, 0x00, 0x00, 0x00, 0x00, 0x00]) == 0x0000000000000000
      && WordFromBytes([0x00, 0x00, 0x00, 0x00, 0x00, 0x00, 0x00, 0x00]) == 0x0000000000000000
      && WordFromBytes([0x00, 0x00, 0x00, 0x00, 0x00, 0x00, 0x00, 0x00]) == 0x0000000000000000
      && WordFromBytes([0x00, 0x00, 0x00, 0x00, 0x00, 0x00, 0x00, 0x00]) == 0x0000000000000000
      && WordFromBytes([0x00, 0x00, 0x00, 0x00, 0x00, 0x00, 0x00, 0x00]) == 0x0000000000000000
      && WordFromBytes([0x00, 0x00, 0x00, 0x00, 0x00, 0x00, 0x00, 0x00]) == 0x0000000000000000
      && WordFromBytes([0x00, 0x00, 0x00, 0x00, 0x00, 0x00, 0x00, 0x00]) == 0x0000000000000000
      && WordFromBytes([0x00, 0x00, 0x00, 0x00, 0x00, 0x00, 0x00, 0x00]) == 0x0000000000000000
      && WordFromBytes([0x00, 0x00, 0x00, 0x00, 0x00, 0x00, 0x00, 0x00]) == 0x0000000000000000
      && WordFromBytes([0x00, 0x00, 0x00, 0x00, 0x00, 0x00, 0x00, 0x00]) == 0x0000000000000000
      && WordFromBytes([0x00, 0x00, 0x00, 0x00, 0x00, 0x00, 0x00, 0x00]) == 0x0000000000000000
      && WordFromBytes([0x00, 0x00, 0x00, 0x00, 0x00, 0x00, 0x00, 0x00]) == 0x0000000000000000
      && WordFromBytes([0x00, 0x00, 0x00, 0x00, 0x00, 0x00, 0x00, 0x00]) == 0x0000000000000000
  {
  }

  /** W[0..15] of that block. */
  lemma EmptyLoaded(b: Block)
    requires b[0..8] == [0x80, 0x00, 0x00, 0x00, 0x00, 0x00, 0x00, 0x00]
      && b[8..16] == [0x00, 0x00, 0x00, 0x00, 0x00, 0x00, 0x00, 0x00]
      && b[16..24] == [0x00, 0x00, 0x00, 0x00, 0x00, 0x00, 0x00, 0x00]
      && b[24..32] == [0x00, 0x00, 0x00, 0x00, 0x00, 0x00, 0x00, 0x00]
      && b[32..40] == [0x00, 0x00, 0x00, 0x00, 0x00, 0x00, 0x00, 0x00]
      && b[40..48] == [0x00, 0x00, 0x00, 0x00, 0x00, 0x00, 0x00, 0x00]
      && b[48..56] == [0x00, 0x00, 0x00, 0x00, 0x00, 0x00, 0x00, 0x00]
      && b[56..64] == [0x00, 0x00, 0x00, 0x00, 0x00, 0x00, 0x00, 0x00]
      && b[64..72] == [0x00, 0x00, 0x00, 0x00, 0x00, 0x00, 0x00, 0x00]
      && b[72..80] == [0x00, 0x00, 0x00, 0x00, 0x00, 0x00, 0x00, 0x00]
      && b[80..88] == [0x00, 0x00, 0x00, 0x00, 0x00, 0x00, 0x00, 0x00]
      && b[88..96] == [0x00, 0x00, 0x00, 0x00, 0x00, 0x00, 0x00, 0x00]
      && b[96..104] == [0x00, 0x00, 0x00, 0x00, 0x00, 0x00, 0x00, 0x00]
      && b[104..112] == [0x00, 0x00, 0x00, 0x00, 0x00, 0x00, 0x00, 0x00]
      && b[112..120] == [0x00, 0x00, 0x00, 0x00, 0x00, 0x00, 0x00, 0x00]
      && b[120..128] == [0x00, 0x00, 0x00, 0x00, 0x00, 0x00, 0x00, 0x00]
    ensures var w := Schedule(b);
      && w[0] == 0x8000000000000000 && w[1] == 0x0000000000000000
      && w[2] == 0x0000000000000000 && w[3] == 0x0000000000000000
      && w[4] == 0x0000000000000000 && w[5] == 0x0000000000000000
      && w[6] == 0x0000000000000000 && w[7] == 0x0000000000000000
      && w[8] == 0x0000000000000000 && w[9] == 0x0000000000000000
      && w[10] == 0x0000000000000000 && w[11] == 0x0000000000000000
      && w[12] == 0x0000000000000000 && w[13] == 0x0000000000000000
      && w[14] == 0x0000000000000000 && w[15] == 0x0000000000000000
  {
    EmptyWords();
    LoadedWord(b, 0, 0x80, 0x00, 0x00, 0x00, 0x00, 0x00, 0x00, 0x00, 0x8000000000000000);
    LoadedWord(b, 1, 0x00, 0x00, 0x00, 0x00, 0x00, 0x00, 0x00, 0x00, 0x0000000000000000);
    LoadedWord(b, 2, 0x00, 0x00, 0x00, 0x00, 0x00, 0x00, 0x00, 0x00, 0x0000000000000000);
    LoadedWord(b, 3, 0x00, 0x00, 0x00, 0x00, 0x00, 0x00, 0x00, 0x00, 0x0000000000000000);
    LoadedWord(b, 4, 0x00, 0x00, 0x00, 0x00, 0x00, 0x00, 0x00, 0x00, 0x0000000000000000);
    LoadedWord(b, 5, 0x00, 0x00, 0x00, 0x00, 0x00, 0x00, 0x00, 0x00, 0x0000000000000000);
    LoadedWord(b, 6, 0x00, 0x00, 0x00, 0x00, 0x00, 0x00, 0x00, 0x00, 0x0000000000000000);
    LoadedWord(b, 7, 0x00, 0x00, 0x00, 0x00, 0x00, 0x00, 0x00, 0x00, 0x0000000000000000);
    LoadedWord(b, 8, 0x00, 0x00, 0x00, 0x00, 0x00, 0x00, 0x00, 0x00, 0x0000000000000000);
    LoadedWord(b, 9, 0x00, 0x00, 0x00, 0x00, 0x00, 0x00, 0x00, 0x00, 0x0000000000000000);
    LoadedWord(b, 10, 0x00, 0x00, 0x00, 0x00, 0x00, 0x00, 0x00, 0x00, 0x0000000000000000);
    LoadedWord(b, 11, 0x00, 0x00, 0x00, 0x00, 0x00, 0x00, 0x00, 0x00, 0x0000000000000000);
    LoadedWord(b, 12, 0x00, 0x00, 0x00, 0x00, 0x00, 0x00, 0x00, 0x00, 0x0000000000000000);
    LoadedWord(b, 13, 0x00, 0x00, 0x00, 0x00, 0x00, 0x00, 0x00, 0x00, 0x0000000000000000);
    LoadedWord(b, 14, 0x00, 0x00, 0x00, 0x00, 0x00, 0x00, 0x00, 0x00, 0x0000000000000000);
    LoadedWord(b, 15, 0x00, 0x00, 0x00, 0x00, 0x00, 0x00, 0x00, 0x00, 0x0000000000000000);
  }

  /** W[16..23] from W[0..15]. */
  lemma EmptyExpanded1(b: Block)
    requires var w := Schedule(b);
      && w[0] == 0x8000000000000000 && w[1] == 0x0000000000000000
      && w[2] == 0x0000000000000000 && w[3] == 0x0000000000000000
      && w[4] == 0x0000000000000000 && w[5] == 0x0000000000000000
      && w[6] == 0x0000000000000000 && w[7] == 0x0000000000000000
      && w[8] == 0x0000000000000000 && w[9] == 0x0000000000000000
      && w[10] == 0x0000000000000000 && w[11] == 0x0000000000000000
      && w[12] == 0x0000000000000000 && w[13] == 0x0000000000000000
      && w[14] == 0x0000000000000000 && w[15] == 0x0000000000000000
    ensures var w := Schedule(b);
      && w[16] == 0x8000000000000000 && w[17] == 0x0000000000000000
      && w[18] == 0x0200100000000004 && w[19] == 0x0000000000000000
      && w[20] == 0x1008000002000020 && w[21] == 0x0000000000000000
      && w[22] == 0x8004220110080140 && w[23] == 0x8000000000000000
  {
    ScheduleWordRecurrence(b, 16);
    ScheduleWordRecurrence(b, 17);
    ScheduleWordRecurrence(b, 18);
    ScheduleWordRecurrence(b, 19);
    ScheduleWordRecurrence(b, 20);
    ScheduleWordRecurrence(b, 21);
    ScheduleWordRecurrence(b, 22);
    ScheduleWordRecurrence(b, 23);
  }

  /** W[24..31] from W[8..23]. */
  lemma EmptyExpanded2(b: Block)
    requires var w := Schedule(b);
      && w[8] == 0x0000000000000000 && w[9] == 0x0000000000000000
      && w[10] == 0x0000000000000000 && w[11] == 0x0000000000000000
      && w[12] == 0x0000000000000000 && w[13] == 0x0000000000000000
      && w[14] == 0x0000000000000000 && w[15] == 0x0000000000000000
      && w[16] == 0x8000000000000000 && w[17] == 0x0000000000000000
      && w[18] == 0x0200100000000004 && w[19] == 0x0000000000000000
      && w[20] == 0x1008000002000020 && w[21] == 0x0000000000000000
      && w[22] == 0x8004220110080140 && w[23] == 0x8000000000000000
    ensures var w := Schedule(b);
      && w[24] == 0x0209108000400800 && w[25] == 0x0400200000000008
      && w[26] == 0x1140a00320114028 && w[27] == 0x3018000006000060
      && w[28] == 0xa24500b1180a2042 && w[29] == 0x0010880440200500
      && w[30] == 0xd4a945c2a4270995 && w[31] == 0x43ad128001402810
  {
    ScheduleWordRecurrence(b, 24);
    ScheduleWordRecurrence(b, 25);
    ScheduleWordRecurrence(b, 26);
    ScheduleWordRecurrence(b, 27);
    ScheduleWordRecurrence(b, 28);
    ScheduleWordRecurrence(b, 29);
    ScheduleWordRecurrence(b, 30);
    ScheduleWordRecurrence(b, 31);
  }

  /** W[32..39] from W[16..31]. */
  lemma EmptyExpanded3(b: Block)
    requires var w := Schedule(b);
      && w[16] == 0x8000000000000000 && w[17] == 0x0000000000000000
      && w[18] == 0x0200100000000004 && w[19] == 0x0000000000000000
      && w[20] == 0x1008000002000020 && w[21] == 0x0000000000000000
      && w[22] == 0x8004220110080140 && w[23] == 0x8000000000000000
      && w[24] == 0x0209108000400800 && w[25] == 0x0400200000000008
      && w[26] == 0x1140a00320114028 && w[27] == 0x3018000006000060
      && w[28] == 0xa24500b1180a2042 && w[29] == 0x0010880440200500
      && w[30] == 0xd4a945c2a4270995 && w[31] == 0x43ad128001402810
    ensures var w := Schedule(b);
      && w[32] == 0xcb2a519703108414 && w[33] == 0x2faad072c8658034
      && w[34] == 0x7d14cc9b14ba8338 && w[35] == 0x9867c5d3eb13eeff
      && w[36] == 0xc94dc04c92359678 && w[37] == 0x92aba5ae1ee4675d
      && w[38] == 0x00b560cd2d362129 && w[39] == 0x682916bbbf1eb0d9
  {
    ScheduleWordRecurrence(b, 32);
    ScheduleWordRecurrence(b, 33);
    ScheduleWordRecurrence(b, 34);
    ScheduleWordRecurrence(b, 35);
    ScheduleWordRecurrence(b, 36);
    ScheduleWordRecurrence(b, 37);
    ScheduleWordRecurrence(b, 38);
    ScheduleWordRecurrence(b, 39);
  }

  /** W[40..47] from W[24..39]. */
  lemma EmptyExpanded4(b: Block)
    requires var w := Schedule(b);
      && w[24] == 0x0209108000400800 && w[25] == 0x0400200000000008
      && w[26] == 0x1140a00320114028 && w[27] == 0x3018000006000060
      && w[28] == 0xa24500b1180a2042 && w[29] == 0x0010880440200500
      && w[30] == 0xd4a945c2a4270995 && w[31] == 0x43ad128001402810
      && w[32] == 0xcb2a519703108414 && w[33] == 0x2faad072c8658034
      && w[34] == 0x7d14cc9b14ba8338 && w[35] == 0x9867c5d3eb13eeff
      && w[36] == 0xc94dc04c92359678 && w[37] == 0x92aba5ae1ee4675d
      && w[38] == 0x00b560cd2d362129 && w[39] == 0x682916bbbf1eb0d9
    ensures var w := Schedule(b);
      && w[40] == 0xfd4ce54fb9c1fca2 && w[41] == 0x389bbafedf01a2ff
      && w[42] == 0xf80ad4187a704534 && w[43] == 0xfc8a6db46b916fab
      && w[44] == 0x0009308c4ca7d22b && w[45] == 0x49437d8543e9c98c
      && w[46] == 0x67f19b9756071662 && w[47] == 0x23d1b6fd5980db71
  {
    ScheduleWordRecurrence(b, 40);
    ScheduleWordRecurrence(b, 41);
    ScheduleWordRecurrence(b, 42);
    ScheduleWordRecurrence(b, 43);
    ScheduleWordRecurrence(b, 44);
    ScheduleWordRecurrence(b, 45);
    ScheduleWordRecurrence(b, 46);
    ScheduleWordRecurrence(b, 47);
  }

  /** W[48..55] from W[32..47]. */
  lemma EmptyExpanded5(b: Block)
    requires var w := Schedule(b);
      && w[32] == 0xcb2a519703108414 && w[33] == 0x2faad072c8658034
      && w[34] == 0x7d14cc9b14ba8338 && w[35] == 0x9867c5d3eb13eeff
      && w[36] == 0xc94dc04c92359678 && w[37] == 0x92aba5ae1ee4675d
      && w[38] == 0x00b560cd2d362129 && w[39] == 0x682916bbbf1eb0d9
      && w[40] == 0xfd4ce54fb9c1fca2 && w[41] == 0x389bbafedf01a2ff
      && w[42] == 0xf80ad4187a704534 && w[43] == 0xfc8a6db46b916fab
      && w[44] == 0x0009308c4ca7d22b && w[45] == 0x49437d8543e9c98c
      && w[46] == 0x67f19b9756071662 && w[47] == 0x23d1b6fd5980db71
    ensures var w := Schedule(b);
      && w[48] == 0x044afa0ab38edb37 && w[49] == 0x332fd4ee79f5c755
      && w[50] == 0xa55aa02bebfa6ad4 && w[51] == 0xd7c6eb0c613c793a
      && w[52] == 0x0d8e6b8077ea417c && w[53] == 0xd647ca451bde7ccb
      && w[54] == 0xb69eec4d0e03246f && w[55] == 0xc913f017b2ac853a
  {
    ScheduleWordRecurrence(b, 48);
    ScheduleWordRecurrence(b, 49);
    ScheduleWordRecurrence(b, 50);
    ScheduleWordRecurrence(b, 51);
    ScheduleWordRecurrence(b, 52);
    ScheduleWordRecurrence(b, 53);
    ScheduleWordRecurrence(b, 54);
    ScheduleWordRecurrence(b, 55);
  }

  /** W[56..63] from W[40..55]. */
  lemma EmptyExpanded6(b: Block)
    requires var w := Schedule(b);
      && w[40] == 0xfd4ce54fb9c1fca2 && w[41] == 0x389bbafedf01a2ff
      && w[42] == 0xf80ad4187a704534 && w[43] == 0xfc8a6db46b916fab
      && w[44] == 0x0009308c4ca7d22b && w[45] == 0x49437d8543e9c98c
      && w[46] == 0x67f19b9756071662 && w[47] == 0x23d1b6fd5980db71
      && w[48] == 0x044afa0ab38edb37 && w[49] == 0x332fd4ee79f5c755
      && w[50] == 0xa55aa02bebfa6ad4 && w[51] == 0xd7c6eb0c613c793a
      && w[52] == 0x0d8e6b8077ea417c && w[53] == 0xd647ca451bde7ccb
      && w[54] == 0xb69eec4d0e03246f && w[55] == 0xc913f017b2ac853a
    ensures var w := Schedule(b);
      && w[56] == 0x66221af93a4225bb && w[57] == 0x022066fa965f2dbf
      && w[58] == 0x98519af83ac7c4d8 && w[59] == 0xa9d9b257ea80f60f
      && w[60] == 0xb741f8b59c416c21 && w[61] == 0xa3de4a86a2cdbefb
      && w[62] == 0xa6e929fabf4b5fa6 && w[63] == 0xeabfcd669f8d15a1
  {
    ScheduleWordRecurrence(b, 56);
    ScheduleWordRecurrence(b, 57);
    ScheduleWordRecurrence(b, 58);
    ScheduleWordRecurrence(b, 59);
    ScheduleWordRecurrence(b, 60);
    ScheduleWordRecurrence(b, 61);
    ScheduleWordRecurrence(b, 62);
    ScheduleWordRecurrence(b, 63);
  }

  /** W[64..71] from W[48..63]. */
  lemma EmptyExpanded7(b: Block)
    requires var w := Schedule(b);
      && w[48] == 0x044afa0ab38edb37 && w[49] == 0x332fd4ee79f5c755
      && w[50] == 0xa55aa02bebfa6ad4 && w[51] == 0xd7c6eb0c613c793a
      && w[52] == 0x0d8e6b8077ea417c && w[53] == 0xd647ca451bde7ccb
      && w[54] == 0xb69eec4d0e03246f && w[55] == 0xc913f017b2ac853a
      && w[56] == 0x66221af93a4225bb && w[57] == 0x022066fa965f2dbf
      && w[58] == 0x98519af83ac7c4d8 && w[59] == 0xa9d9b257ea80f60f
      && w[60] == 0xb741f8b59c416c21 && w[61] == 0xa3de4a86a2cdbefb
      && w[62] == 0xa6e929fabf4b5fa6 && w[63] == 0xeabfcd669f8d15a1
    ensures var w := Schedule(b);
      && w[64] == 0x31543abe8df78e7b && w[65] == 0x47a4d932de3912aa
      && w[66] == 0x1b7b74730d955557 && w[67] == 0x28479d455a812eb7
      && w[68] == 0x43e290aa2b8dfbb6 && w[69] == 0x9a10daa95e094e1f
      && w[70] == 0xa29f4d3f35e6a04f && w[71] == 0xfe50fb8c257b666d
  {
    ScheduleWordRecurrence(b, 64);
    ScheduleWordRecurrence(b, 65);
    ScheduleWordRecurrence(b, 66);
    ScheduleWordRecurrence(b, 67);
    ScheduleWordRecurrence(b, 68);
    ScheduleWordRecurrence(b, 69);
    ScheduleWordRecurrence(b, 70);
    ScheduleWordRecurrence(b, 71);
  }

  /** W[72..79] from W[56..71]. */
  lemma EmptyExpanded8(b: Block)
    requires var w := Schedule(b);
      && w[56] == 0x66221af93a4225bb && w[57] == 0x022066fa965f2dbf
      && w[58] == 0x98519af83ac7c4d8 && w[59] == 0xa9d9b257ea80f60f
      && w[60] == 0xb741f8b59c416c21 && w[61] == 0xa3de4a86a2cdbefb
      && w[62] == 0xa6e929fabf4b5fa6 && w[63] == 0xeabfcd669f8d15a1
      && w[64] == 0x31543abe8df78e7b && w[65] == 0x47a4d932de3912aa
      && w[66] == 0x1b7b74730d955557 && w[67] == 0x28479d455a812eb7
      && w[68] == 0x43e290aa2b8dfbb6 && w[69] == 0x9a10daa95e094e1f
      && w[70] == 0xa29f4d3f35e6a04f && w[71] == 0xfe50fb8c257b666d
    ensures var w := Schedule(b);
      && w[72] == 0xae5728a117562e4e && w[73] == 0x50cf3b85bd608790
      && w[74] == 0x5079b89b7ec0f5d2 && w[75] == 0x80fe6c2f41147099
      && w[76] == 0x1894833281bc069b && w[77] == 0xc700f022a13b0ea9
      && w[78] == 0x3eaf74f620ad78f6 && w[79] == 0xd7df914dd9a9f0f1
  {
    ScheduleWordRecurrence(b, 72);
    ScheduleWordRecurrence(b, 73);
    ScheduleWordRecurrence(b, 74);
    ScheduleWordRecurrence(b, 75);
    ScheduleWordRecurrence(b, 76);
    ScheduleWordRecurrence(b, 77);
    ScheduleWordRecurrence(b, 78);
    ScheduleWordRecurrence(b, 79);
  }

  /** The whole schedule of that block. */
  lemma EmptySchedule(b: Block)
    requires b[0..8] == [0x80, 0x00, 0x00, 0x00, 0x00, 0x00, 0x00, 0x00]
      && b[8..16] == [0x00, 0x00, 0x00, 0x00, 0x00, 0x00, 0x00, 0x00]
      && b[16..24] == [0x00, 0x00, 0x00, 0x00, 0x00, 0x00, 0x00, 0x00]
      && b[24..32] == [0x00, 0x00, 0x00, 0x00, 0x00, 0x00, 0x00, 0x00]
      && b[32..40] == [0x00, 0x00, 0x00, 0x00, 0x00, 0x00, 0x00, 0x00]
      && b[40..48] == [0x00, 0x00, 0x00, 0x00, 0x00, 0x00, 0x00, 0x00]
      && b[48..56] == [0x00, 0x00, 0x00, 0x00, 0x00, 0x00, 0x00, 0x00]
      && b[56..64] == [0x00, 0x00, 0x00, 0x00, 0x00, 0x00, 0x00, 0x00]
      && b[64..72] == [0x00, 0x00, 0x00, 0x00, 0x00, 0x00, 0x00, 0x00]
      && b[72..80] == [0x00, 0x00, 0x00, 0x00, 0x00, 0x00, 0x00, 0x00]
      && b[80..88] == [0x00, 0x00, 0x00, 0x00, 0x00, 0x00, 0x00, 0x00]
      && b[88..96] == [0x00, 0x00, 0x00, 0x00, 0x00, 0x00, 0x00, 0x00]
      && b[96..104] == [0x00, 0x00, 0x00, 0x00, 0x00, 0x00, 0x00, 0x00]
      && b[104..112] == [0x00, 0x00, 0x00, 0x00, 0x00, 0x00, 0x00, 0x00]
      && b[112..120] == [0x00, 0x00, 0x00, 0x00, 0x00, 0x00, 0x00, 0x00]
      && b[120..128] == [0x00, 0x00, 0x00, 0x00, 0x00, 0x00, 0x00, 0x00]
    ensures var w := Schedule(b);
      && w[0] == 0x8000000000000000 && w[1] == 0x0000000000000000
      && w[2] == 0x0000000000000000 && w[3] == 0x0000000000000000
      && w[4] == 0x0000000000000000 && w[5] == 0x0000000000000000
      && w[6] == 0x0000000000000000 && w[7] == 0x0000000000000000
      && w[8] == 0x0000000000000000 && w[9] == 0x0000000000000000
      && w[10] == 0x0000000000000000 && w[11] == 0x0000000000000000
      && w[12] == 0x0000000000000000 && w[13] == 0x0000000000000000
      && w[14] == 0x0000000000000000 && w[15] == 0x0000000000000000
      && w[16] == 0x8000000000000000 && w[17] == 0x0000000000000000
      && w[18] == 0x0200100000000004 && w[19] == 0x0000000000000000
      && w[20] == 0x1008000002000020 && w[21] == 0x0000000000000000
      && w[22] == 0x8004220110080140 && w[23] == 0x8000000000000000
      && w[24] == 0x0209108000400800 && w[25] == 0x0400200000000008
      && w[26] == 0x1140a00320114028 && w[27] == 0x3018000006000060
      && w[28] == 0xa24500b1180a2042 && w[29] == 0x0010880440200500
      && w[30] == 0xd4a945c2a4270995 && w[31] == 0x43ad128001402810
      && w[32] == 0xcb2a519703108414 && w[33] == 0x2faad072c8658034
      && w[34] == 0x7d14cc9b14ba8338 && w[35] == 0x9867c5d3eb13eeff
      && w[36] == 0xc94dc04c92359678 && w[37] == 0x92aba5ae1ee4675d
      && w[38] == 0x00b560cd2d362129 && w[39] == 0x682916bbbf1eb0d9
      && w[40] == 0xfd4ce54fb9c1fca2 && w[41] == 0x389bbafedf01a2ff
      && w[42] == 0xf80ad4187a704534 && w[43] == 0xfc8a6db46b916fab
      && w[44] == 0x0009308c4ca7d22b && w[45] == 0x49437d8543e9c98c
      && w[46] == 0x67f19b9756071662 && w[47] == 0x23d1b6fd5980db71
      && w[48] == 0x044afa0ab38edb37 && w[49] == 0x332fd4ee79f5c755
      && w[50] == 0xa55aa02bebfa6ad4 && w[51] == 0xd7c6eb0c613c793a
      && w[52] == 0x0d8e6b8077ea417c && w[53] == 0xd647ca451bde7ccb
      && w[54] == 0xb69eec4d0e03246f && w[55] == 0xc913f017b2ac853a
      && w[56] == 0x66221af93a4225bb && w[57] == 0x022066fa965f2dbf
      && w[58] == 0x98519af83ac7c4d8 && w[59] == 0xa9d9b257ea80f60f
      && w[60] == 0xb741f8b59c416c21 && w[61] == 0xa3de4a86a2cdbefb
      && w[62] == 0xa6e929fabf4b5fa6 && w[63] == 0xeabfcd669f8d15a1
      && w[64] == 0x31543abe8df78e7b && w[65] == 0x47a4d932de3912aa
      && w[66] == 0x1b7b74730d955557 && w[67] == 0x28479d455a812eb7
      && w[68] == 0x43e290aa2b8dfbb6 && w[69] == 0x9a10daa95e094e1f
      && w[70] == 0xa29f4d3f35e6a04f && w[71] == 0xfe50fb8c257b666d
      && w[72] == 0xae5728a117562e4e && w[73] == 0x50cf3b85bd608790
      && w[74] == 0x5079b89b7ec0f5d2 && w[75] == 0x80fe6c2f41147099
      && w[76] == 0x1894833281bc069b && w[77] == 0xc700f022a13b0ea9
      && w[78] == 0x3eaf74f620ad78f6 && w[79] == 0xd7df914dd9a9f0f1
  {
    EmptyLoaded(b);
    EmptyExpanded1(b);
    EmptyExpanded2(b);
    EmptyExpanded3(b);
    EmptyExpanded4(b);
    EmptyExpanded5(b);
    EmptyExpanded6(b);
    EmptyExpanded7(b);
    EmptyExpanded8(b);
  }

  /** The results of rounds 0..3 on their working variables. */
  lemma EmptyRoundValues0()
    ensures Round(Vars(0x6a09e667f3bcc908, 0xbb67ae8584caa73b, 0x3c6ef372fe94f82b, 0xa54ff53a5f1d36f1, 0x510e527fade682d1, 0x9b05688c2b3e6c1f, 0x1f83d9abfb41bd6b, 0x5be0cd19137e2179),
              0x428a2f98d728ae22, 0x8000000000000000)
        == Vars(0x154d6b38bcfcddf5, 0x6a09e667f3bcc908, 0xbb67ae8584caa73b, 0x3c6ef372fe94f82b, 0x77689eb47ab51f91, 0x510e527fade682d1, 0x9b05688c2b3e6c1f, 0x1f83d9abfb41bd6b)
      && Round(Vars(0x154d6b38bcfcddf5, 0x6a09e667f3bcc908, 0xbb67ae8584caa73b, 0x3c6ef372fe94f82b, 0x77689eb47ab51f91, 0x510e527fade682d1, 0x9b05688c2b3e6c1f, 0x1f83d9abfb41bd6b),
              0x7137449123ef65cd, 0x0000000000000000)
        == Vars(0x9a3e6b2e8f5306d9, 0x154d6b38bcfcddf5, 0x6a09e667f3bcc908, 0xbb67ae8584caa73b, 0x09d45ee3dd3bbe38, 0x77689eb47ab51f91, 0x510e527fade682d1, 0x9b05688c2b3e6c1f)
      && Round(Vars(0x9a3e6b2e8f5306d9, 0x154d6b38bcfcddf5, 0x6a09e667f3bcc908, 0xbb67ae8584caa73b, 0x09d45ee3dd3bbe38, 0x77689eb47ab51f91, 0x510e527fade682d1, 0x9b05688c2b3e6c1f),
              0xb5c0fbcfec4d3b2f, 0x0000000000000000)
        == Vars(0x2e98b165370e527c, 0x9a3e6b2e8f5306d9, 0x154d6b38bcfcddf5, 0x6a09e667f3bcc908, 0xc3f8ea99857ed6e9, 0x09d45ee3dd3bbe38, 0x77689eb47ab51f91, 0x510e527fade682d1)
      && Round(Vars(0x2e98b165370e527c, 0x9a3e6b2e8f5306d9, 0x154d6b38bcfcddf5, 0x6a09e667f3bcc908, 0xc3f8ea99857ed6e9, 0x09d45ee3dd3bbe38, 0x77689eb47ab51f91, 0x510e527fade682d1),
              0xe9b5dba58189dbbc, 0x0000000000000000)
        == Vars(0x28d96867ed1be8fb, 0x2e98b165370e527c, 0x9a3e6b2e8f5306d9, 0x154d6b38bcfcddf5, 0x7d7e33aa070a4f9e, 0xc3f8ea99857ed6e9, 0x09d45ee3dd3bbe38, 0x77689eb47ab51f91)
  {
  }

  /** Rounds 0..3. */
  lemma EmptyRounds0(v: Vars, w: seq<Word>)
    requires |w| == 80 && Rounds(v, w, 0) == Vars(0x6a09e667f3bcc908, 0xbb67ae8584caa73b, 0x3c6ef372fe94f82b, 0xa54ff53a5f1d36f1, 0x510e527fade682d1, 0x9b05688c2b3e6c1f, 0x1f83d9abfb41bd6b, 0x5be0cd19137e2179)
    requires w[0] == 0x8000000000000000 && w[1] == 0x0000000000000000
      && w[2] == 0x0000000000000000 && w[3] == 0x0000000000000000
    ensures Rounds(v, w, 4) == Vars(0x28d96867ed1be8fb, 0x2e98b165370e527c, 0x9a3e6b2e8f5306d9, 0x154d6b38bcfcddf5, 0x7d7e33aa070a4f9e, 0xc3f8ea99857ed6e9, 0x09d45ee3dd3bbe38, 0x77689eb47ab51f91)
  {
    RoundConstant0();
    RoundConstant1();
    RoundConstant2();
    RoundConstant3();
    EmptyRoundValues0();
    RoundsStep(v, w, 0, Vars(0x6a09e667f3bcc908, 0xbb67ae8584caa73b, 0x3c6ef372fe94f82b, 0xa54ff53a5f1d36f1, 0x510e527fade682d1, 0x9b05688c2b3e6c1f, 0x1f83d9abfb41bd6b, 0x5be0cd19137e2179),
               0x428a2f98d728ae22, 0x8000000000000000,
               Vars(0x154d6b38bcfcddf5, 0x6a09e667f3bcc908, 0xbb67ae8584caa73b, 0x3c6ef372fe94f82b, 0x77689eb47ab51f91, 0x510e527fade682d1, 0x9b05688c2b3e6c1f, 0x1f83d9abfb41bd6b));
    RoundsStep(v, w, 1, Vars(0x154d6b38bcfcddf5, 0x6a09e667f3bcc908, 0xbb67ae8584caa73b, 0x3c6ef372fe94f82b, 0x77689eb47ab51f91, 0x510e527fade682d1, 0x9b05688c2b3e6c1f, 0x1f83d9abfb41bd6b),
               0x7137449123ef65cd, 0x0000000000000000,
               Vars(0x9a3e6b2e8f5306d9, 0x154d6b38bcfcddf5, 0x6a09e667f3bcc908, 0xbb67ae8584caa73b, 0x09d45ee3dd3bbe38, 0x77689eb47ab51f91, 0x510e527fade682d1, 0x9b05688c2b3e6c1f));
    RoundsStep(v, w, 2, Vars(0x9a3e6b2e8f5306d9, 0x154d6b38bcfcddf5, 0x6a09e667f3bcc908, 0xbb67ae8584caa73b, 0x09d45ee3dd3bbe38, 0x77689eb47ab51f91, 0x510e527fade682d1, 0x9b05688c2b3e6c1f),
               0xb5c0fbcfec4d3b2f, 0x0000000000000000,
               Vars(0x2e98b165370e527c, 0x9a3e6b2e8f5306d9, 0x154d6b38bcfcddf5, 0x6a09e667f3bcc908, 0xc3f8ea99857ed6e9, 0x09d45ee3dd3bbe38, 0x77689eb47ab51f91, 0x510e527fade682d1));
    RoundsStep(v, w, 3, Vars(0x2e98b165370e527c, 0x9a3e6b2e8f5306d9, 0x154d6b38bcfcddf5, 0x6a09e667f3bcc908, 0xc3f8ea99857ed6e9, 0x09d45ee3dd3bbe38, 0x77689eb47ab51f91, 0x510e527fade682d1),
               0xe9b5dba58189dbbc, 0x0000000000000000,
               Vars(0x28d96867ed1be8fb, 0x2e98b165370e527c, 0x9a3e6b2e8f5306d9, 0x154d6b38bcfcddf5, 0x7d7e33aa070a4f9e, 0xc3f8ea99857ed6e9, 0x09d45ee3dd3bbe38, 0x77689eb47ab51f91));
  }

  /** The results of rounds 4..7 on their working variables. */
  lemma EmptyRoundValues1()
    ensures Round(Vars(0x28d96867ed1be8fb, 0x2e98b165370e527c, 0x9a3e6b2e8f5306d9, 0x154d6b38bcfcddf5, 0x7d7e33aa070a4f9e, 0xc3f8ea99857ed6e9, 0x09d45ee3dd3bbe38, 0x77689eb47ab51f91),
              0x3956c25bf348b538, 0x0000000000000000)
        == Vars(0x7b106b2039c2a013, 0x28d96867ed1be8fb, 0x2e98b165370e527c, 0x9a3e6b2e8f5306d9, 0x80a32a9395b2cc58, 0x7d7e33aa070a4f9e, 0xc3f8ea99857ed6e9, 0x09d45ee3dd3bbe38)
      && Round(Vars(0x7b106b2039c2a013, 0x28d96867ed1be8fb, 0x2e98b165370e527c, 0x9a3e6b2e8f5306d9, 0x80a32a9395b2cc58, 0x7d7e33aa070a4f9e, 0xc3f8ea99857ed6e9, 0x09d45ee3dd3bbe38),
              0x59f111f1b605d019, 0x0000000000000000)
        == Vars(0x6fc0e4fa6b7a37d4, 0x7b106b2039c2a013, 0x28d96867ed1be8fb, 0x2e98b165370e527c, 0x0d3dba50748dd615, 0x80a32a9395b2cc58, 0x7d7e33aa070a4f9e, 0xc3f8ea99857ed6e9)
      && Round(Vars(0x6fc0e4fa6b7a37d4, 0x7b106b2039c2a013, 0x28d96867ed1be8fb, 0x2e98b165370e527c, 0x0d3dba50748dd615, 0x80a32a9395b2cc58, 0x7d7e33aa070a4f9e, 0xc3f8ea99857ed6e9),
              0x923f82a4af194f9b, 0x0000000000000000)
        == Vars(0x1202378991eade0b, 0x6fc0e4fa6b7a37d4, 0x7b106b2039c2a013, 0x28d96867ed1be8fb, 0xfb1f7bb0107c9863, 0x0d3dba50748dd615, 0x80a32a9395b2cc58, 0x7d7e33aa070a4f9e)
      && Round(Vars(0x1202378991eade0b, 0x6fc0e4fa6b7a37d4, 0x7b106b2039c2a013, 0x28d96867ed1be8fb, 0xfb1f7bb0107c9863, 0x0d3dba50748dd615, 0x80a32a9395b2cc58, 0x7d7e33aa070a4f9e),
              0xab1c5ed5da6d8118, 0x0000000000000000)
        == Vars(0xb6ebe3c1a54b1646, 0x1202378991eade0b, 0x6fc0e4fa6b7a37d4, 0x7b106b2039c2a013, 0xfad061f165f4581a, 0xfb1f7bb0107c9863, 0x0d3dba50748dd615, 0x80a32a9395b2cc58)
  {
  }

  /** Rounds 4..7. */
  lemma EmptyRounds1(v: Vars, w: seq<Word>)
    requires |w| == 80 && Rounds(v, w, 4) == Vars(0x28d96867ed1be8fb, 0x2e98b165370e527c, 0x9a3e6b2e8f5306d9, 0x154d6b38bcfcddf5, 0x7d7e33aa070a4f9e, 0xc3f8ea99857ed6e9, 0x09d45ee3dd3bbe38, 0x77689eb47ab51f91)
    requires w[4] == 0x0000000000000000 && w[5] == 0x0000000000000000
      && w[6] == 0x0000000000000000 && w[7] == 0x0000000000000000
    ensures Rounds(v, w, 8) == Vars(0xb6ebe3c1a54b1646, 0x1202378991eade0b, 0x6fc0e4fa6b7a37d4, 0x7b106b2039c2a013, 0xfad061f165f4581a, 0xfb1f7bb0107c9863, 0x0d3dba50748dd615, 0x80a32a9395b2cc58)
  {
    RoundConstant4();
    RoundConstant5();
    RoundConstant6();
    RoundConstant7();
    EmptyRoundValues1();
    RoundsStep(v, w, 4, Vars(0x28d96867ed1be8fb, 0x2e98b165370e527c, 0x9a3e6b2e8f5306d9, 0x154d6b38bcfcddf5, 0x7d7e33aa070a4f9e, 0xc3f8ea99857ed6e9, 0x09d45ee3dd3bbe38, 0x77689eb47ab51f91),
               0x3956c25bf348b538, 0x0000000000000000,
               Vars(0x7b106b2039c2a013, 0x28d96867ed1be8fb, 0x2e98b165370e527c, 0x9a3e6b2e8f5306d9, 0x80a32a9395b2cc58, 0x7d7e33aa070a4f9e, 0xc3f8ea99857ed6e9, 0x09d45ee3dd3bbe38));
    RoundsStep(v, w, 5, Vars(0x7b106b2039c2a013, 0x28d96867ed1be8fb, 0x2e98b165370e527c, 0x9a3e6b2e8f5306d9, 0x80a32a9395b2cc58, 0x7d7e33aa070a4f9e, 0xc3f8ea99857ed6e9, 0x09d45ee3dd3bbe38),
               0x59f111f1b605d019, 0x0000000000000000,
               Vars(0x6fc0e4fa6b7a37d4, 0x7b106b2039c2a013, 0x28d96867ed1be8fb, 0x2e98b165370e527c, 0x0d3dba50748dd615, 0x80a32a9395b2cc58, 0x7d7e33aa070a4f9e, 0xc3f8ea99857ed6e9));
    RoundsStep(v, w, 6, Vars(0x6fc0e4fa6b7a37d4, 0x7b106b2039c2a013, 0x28d96867ed1be8fb, 0x2e98b165370e527c, 0x0d3dba50748dd615, 0x80a32a9395b2cc58, 0x7d7e33aa070a4f9e, 0xc3f8ea99857ed6e9),
               0x923f82a4af194f9b, 0x0000000000000000,
               Vars(0x1202378991eade0b, 0x6fc0e4fa6b7a37d4, 0x7b106b2039c2a013, 0x28d96867ed1be8fb, 0xfb1f7bb0107c9863, 0x0d3dba50748dd615, 0x80a32a9395b2cc58, 0x7d7e33aa070a4f9e));
    RoundsStep(v, w, 7, Vars(0x1202378991eade0b, 0x6fc0e4fa6b7a37d4, 0x7b106b2039c2a013, 0x28d96867ed1be8fb, 0xfb1f7bb0107c9863, 0x0d3dba50748dd615, 0x80a32a9395b2cc58, 0x7d7e33aa070a4f9e),
               0xab1c5ed5da6d8118, 0x0000000000000000,
               Vars(0xb6ebe3c1a54b1646, 0x1202378991eade0b, 0x6fc0e4fa6b7a37d4, 0x7b106b2039c2a013, 0xfad061f165f4581a, 0xfb1f7bb0107c9863, 0x0d3dba50748dd615, 0x80a32a9395b2cc58));
  }

  /** The results of rounds 8..11 on their working variables. */
  lemma EmptyRoundValues2()
    ensures Round(Vars(0xb6ebe3c1a54b1646, 0x1202378991eade0b, 0x6fc0e4fa6b7a37d4, 0x7b106b2039c2a013, 0xfad061f165f4581a, 0xfb1f7bb0107c9863, 0x0d3dba50748dd615, 0x80a32a9395b2cc58),
              0xd807aa98a3030242, 0x0000000000000000)
        == Vars(0xdc34a055cbcb3cb0, 0xb6ebe3c1a54b1646, 0x1202378991eade0b, 0x6fc0e4fa6b7a37d4, 0x61d8ebd615bab350, 0xfad061f165f4581a, 0xfb1f7bb0107c9863, 0x0d3dba50748dd615)
      && Round(Vars(0xdc34a055cbcb3cb0, 0xb6ebe3c1a54b1646, 0x1202378991eade0b, 0x6fc0e4fa6b7a37d4, 0x61d8ebd615bab350, 0xfad061f165f4581a, 0xfb1f7bb0107c9863, 0x0d3dba50748dd615),
              0x12835b0145706fbe, 0x0000000000000000)
        == Vars(0xa130ffa8155a0002, 0xdc34a055cbcb3cb0, 0xb6ebe3c1a54b1646, 0x1202378991eade0b, 0x14f8ae886909d5cb, 0x61d8ebd615bab350, 0xfad061f165f4581a, 0xfb1f7bb0107c9863)
      && Round(Vars(0xa130ffa8155a0002, 0xdc34a055cbcb3cb0, 0xb6ebe3c1a54b1646, 0x1202378991eade0b, 0x14f8ae886909d5cb, 0x61d8ebd615bab350, 0xfad061f165f4581a, 0xfb1f7bb0107c9863),
              0x243185be4ee4b28c, 0x0000000000000000)
        == Vars(0x25a117821cb45f07, 0xa130ffa8155a0002, 0xdc34a055cbcb3cb0, 0xb6ebe3c1a54b1646, 0x8296371f6b52847c, 0x14f8ae886909d5cb, 0x61d8ebd615bab350, 0xfad061f165f4581a)
      && Round(Vars(0x25a117821cb45f07, 0xa130ffa8155a0002, 0xdc34a055cbcb3cb0, 0xb6ebe3c1a54b1646, 0x8296371f6b52847c, 0x14f8ae886909d5cb, 0x61d8ebd615bab350, 0xfad061f165f4581a),
              0x550c7dc3d5ffb4e2, 0x0000000000000000)
        == Vars(0xde9098cae4a49cb9, 0x25a117821cb45f07, 0xa130ffa8155a0002, 0xdc34a055cbcb3cb0, 0xa7fa35fecee3170f, 0x8296371f6b52847c, 0x14f8ae886909d5cb, 0x61d8ebd615bab350)
  {
  }

  /** Rounds 8..11. */
  lemma EmptyRounds2(v: Vars, w: seq<Word>)
    requires |w| == 80 && Rounds(v, w, 8) == Vars(0xb6ebe3c1a54b1646, 0x1202378991eade0b, 0x6fc0e4fa6b7a37d4, 0x7b106b2039c2a013, 0xfad061f165f4581a, 0xfb1f7bb0107c9863, 0x0d3dba50748dd615, 0x80a32a9395b2cc58)
    requires w[8] == 0x0000000000000000 && w[9] == 0x0000000000000000
      && w[10] == 0x0000000000000000 && w[11] == 0x0000000000000000
    ensures Rounds(v, w, 12) == Vars(0xde9098cae4a49cb9, 0x25a117821cb45f07, 0xa130ffa8155a0002, 0xdc34a055cbcb3cb0, 0xa7fa35fecee3170f, 0x8296371f6b52847c, 0x14f8ae886909d5cb, 0x61d8ebd615bab350)
  {
    RoundConstant8();
    RoundConstant9();
    RoundConstant10();
    RoundConstant11();
    EmptyRoundValues2();
    RoundsStep(v, w, 8, Vars(0xb6ebe3c1a54b1646, 0x1202378991eade0b, 0x6fc0e4fa6b7a37d4, 0x7b106b2039c2a013, 0xfad061f165f4581a, 0xfb1f7bb0107c9863, 0x0d3dba50748dd615, 0x80a32a9395b2cc58),
               0xd807aa98a3030242, 0x0000000000000000,
               Vars(0xdc34a055cbcb3cb0, 0xb6ebe3c1a54b1646, 0x1202378991eade0b, 0x6fc0e4fa6b7a37d4, 0x61d8ebd615bab350, 0xfad061f165f4581a, 0xfb1f7bb0107c9863, 0x0d3dba50748dd615));
    RoundsStep(v, w, 9, Vars(0xdc34a055cbcb3cb0, 0xb6ebe3c1a54b1646, 0x1202378991eade0b, 0x6fc0e4fa6b7a37d4, 0x61d8ebd615bab350, 0xfad061f165f4581a, 0xfb1f7bb0107c9863, 0x0d3dba50748dd615),
               0x12835b0145706fbe, 0x0000000000000000,
               Vars(0xa130ffa8155a0002, 0xdc34a055cbcb3cb0, 0xb6ebe3c1a54b1646, 0x1202378991eade0b, 0x14f8ae886909d5cb, 0x61d8ebd615bab350, 0xfad061f165f4581a, 0xfb1f7bb0107c9863));
    RoundsStep(v, w, 10, Vars(0xa130ffa8155a0002, 0xdc34a055cbcb3cb0, 0xb6ebe3c1a54b1646, 0x1202378991eade0b, 0x14f8ae886909d5cb, 0x61d8ebd615bab350, 0xfad061f165f4581a, 0xfb1f7bb0107c9863),
               0x243185be4ee4b28c, 0x0000000000000000,
               Vars(0x25a117821cb45f07, 0xa130ffa8155a0002, 0xdc34a055cbcb3cb0, 0xb6ebe3c1a54b1646, 0x8296371f6b52847c, 0x14f8ae886909d5cb, 0x61d8ebd615bab350, 0xfad061f165f4581a));
    RoundsStep(v, w, 11, Vars(0x25a117821cb45f07, 0xa130ffa8155a0002, 0xdc34a055cbcb3cb0, 0xb6ebe3c1a54b1646, 0x8296371f6b52847c, 0x14f8ae886909d5cb, 0x61d8ebd615bab350, 0xfad061f165f4581a),
               0x550c7dc3d5ffb4e2, 0x0000000000000000,
               Vars(0xde9098cae4a49cb9, 0x25a117821cb45f07, 0xa130ffa8155a0002, 0xdc34a055cbcb3cb0, 0xa7fa35fecee3170f, 0x8296371f6b52847c, 0x14f8ae886909d5cb, 0x61d8ebd615bab350));
  }

  /** The results of rounds 12..15 on their working variables. */
  lemma EmptyRoundValues3()
    ensures Round(Vars(0xde9098cae4a49cb9, 0x25a117821cb45f07, 0xa130ffa8155a0002, 0xdc34a055cbcb3cb0, 0xa7fa35fecee3170f, 0x8296371f6b52847c, 0x14f8ae886909d5cb, 0x61d8ebd615bab350),
              0x72be5d74f27b896f, 0x0000000000000000)
        == Vars(0xda1e551c529d1e69, 0xde9098cae4a49cb9, 0x25a117821cb45f07, 0xa130ffa8155a0002, 0xa9f8b05d1ca3b369, 0xa7fa35fecee3170f, 0x8296371f6b52847c, 0x14f8ae886909d5cb)
      && Round(Vars(0xda1e551c529d1e69, 0xde9098cae4a49cb9, 0x25a117821cb45f07, 0xa130ffa8155a0002, 0xa9f8b05d1ca3b369, 0xa7fa35fecee3170f, 0x8296371f6b52847c, 0x14f8ae886909d5cb),
              0x80deb1fe3b1696b1, 0x0000000000000000)
        == Vars(0x2e2be4efc75663e8, 0xda1e551c529d1e69, 0xde9098cae4a49cb9, 0x25a117821cb45f07, 0xeaf933d283254d99, 0xa9f8b05d1ca3b369, 0xa7fa35fecee3170f, 0x8296371f6b52847c)
      && Round(Vars(0x2e2be4efc75663e8, 0xda1e551c529d1e69, 0xde9098cae4a49cb9, 0x25a117821cb45f07, 0xeaf933d283254d99, 0xa9f8b05d1ca3b369, 0xa7fa35fecee3170f, 0x8296371f6b52847c),
              0x9bdc06a725c71235, 0x0000000000000000)
        == Vars(0x920495cd2d45797c, 0x2e2be4efc75663e8, 0xda1e551c529d1e69, 0xde9098cae4a49cb9, 0x7e4dcdc149fcd98c, 0xeaf933d283254d99, 0xa9f8b05d1ca3b369, 0xa7fa35fecee3170f)
      && Round(Vars(0x920495cd2d45797c, 0x2e2be4efc75663e8, 0xda1e551c529d1e69, 0xde9098cae4a49cb9, 0x7e4dcdc149fcd98c, 0xeaf933d283254d99, 0xa9f8b05d1ca3b369, 0xa7fa35fecee3170f),
              0xc19bf174cf692694, 0x0000000000000000)
        == Vars(0xa5f08b4a7affe8e8, 0x920495cd2d45797c, 0x2e2be4efc75663e8, 0xda1e551c529d1e69, 0xe5160ae31a6299af, 0x7e4dcdc149fcd98c, 0xeaf933d283254d99, 0xa9f8b05d1ca3b369)
  {
  }

  /** Rounds 12..15. */
  lemma EmptyRounds3(v: Vars, w: seq<Word>)
    requires |w| == 80 && Rounds(v, w, 12) == Vars(0xde9098cae4a49cb9, 0x25a117821cb45f07, 0xa130ffa8155a0002, 0xdc34a055cbcb3cb0, 0xa7fa35fecee3170f, 0x8296371f6b52847c, 0x14f8ae886909d5cb, 0x61d8ebd615bab350)
    requires w[12] == 0x0000000000000000 && w[13] == 0x0000000000000000
      && w[14] == 0x0000000000000000 && w[15] == 0x0000000000000000
    ensures Rounds(v, w, 16) == Vars(0xa5f08b4a7affe8e8, 0x920495cd2d45797c, 0x2e2be4efc75663e8, 0xda1e551c529d1e69, 0xe5160ae31a6299af, 0x7e4dcdc149fcd98c, 0xeaf933d283254d99, 0xa9f8b05d1ca3b369)
  {
    RoundConstant12();
    RoundConstant13();
    RoundConstant14();
    RoundConstant15();
    EmptyRoundValues3();
    RoundsStep(v, w, 12, Vars(0xde9098cae4a49cb9, 0x25a117821cb45f07, 0xa130ffa8155a0002, 0xdc34a055cbcb3cb0, 0xa7fa35fecee3170f, 0x8296371f6b52847c, 0x14f8ae886909d5cb, 0x61d8ebd615bab350),
               0x72be5d74f27b896f, 0x0000000000000000,
               Vars(0xda1e551c529d1e69, 0xde9098cae4a49cb9, 0x25a117821cb45f07, 0xa130ffa8155a0002, 0xa9f8b05d1ca3b369, 0xa7fa35fecee3170f, 0x8296371f6b52847c, 0x14f8ae886909d5cb));
    RoundsStep(v, w, 13, Vars(0xda1e551c529d1e69, 0xde9098cae4a49cb9, 0x25a117821cb45f07, 0xa130ffa8155a0002, 0xa9f8b05d1ca3b369, 0xa7fa35fecee3170f, 0x8296371f6b52847c, 0x14f8ae886909d5cb),
               0x80deb1fe3b1696b1, 0x0000000000000000,
               Vars(0x2e2be4efc75663e8, 0xda1e551c529d1e69, 0xde9098cae4a49cb9, 0x25a117821cb45f07, 0xeaf933d283254d99, 0xa9f8b05d1ca3b369, 0xa7fa35fecee3170f, 0x8296371f6b52847c));
    RoundsStep(v, w, 14, Vars(0x2e2be4efc75663e8, 0xda1e551c529d1e69, 0xde9098cae4a49cb9, 0x25a117821cb45f07, 0xeaf933d283254d99, 0xa9f8b05d1ca3b369, 0xa7fa35fecee3170f, 0x8296371f6b52847c),
               0x9bdc06a725c71235, 0x0000000000000000,
               Vars(0x920495cd2d45797c, 0x2e2be4efc75663e8, 0xda1e551c529d1e69, 0xde9098cae4a49cb9, 0x7e4dcdc149fcd98c, 0xeaf933d283254d99, 0xa9f8b05d1ca3b369, 0xa7fa35fecee3170f));
    RoundsStep(v, w, 15, Vars(0x920495cd2d45797c, 0x2e2be4efc75663e8, 0xda1e551c529d1e69, 0xde9098cae4a49cb9, 0x7e4dcdc149fcd98c, 0xeaf933d283254d99, 0xa9f8b05d1ca3b369, 0xa7fa35fecee3170f),
               0xc19bf174cf692694, 0x0000000000000000,
               Vars(0xa5f08b4a7affe8e8, 0x920495cd2d45797c, 0x2e2be4efc75663e8, 0xda1e551c529d1e69, 0xe5160ae31a6299af, 0x7e4dcdc149fcd98c, 0xeaf933d283254d99, 0xa9f8b05d1ca3b369));
  }

  /** The results of rounds 16..19 on their working variables. */
  lemma EmptyRoundValues4()
    ensures Round(Vars(0xa5f08b4a7affe8e8, 0x920495cd2d45797c, 0x2e2be4efc75663e8, 0xda1e551c529d1e69, 0xe5160ae31a6299af, 0x7e4dcdc149fcd98c, 0xeaf933d283254d99, 0xa9f8b05d1ca3b369),
              0xe49b69c19ef14ad2, 0x8000000000000000)
        == Vars(0x7aafc172da57e139, 0xa5f08b4a7affe8e8, 0x920495cd2d45797c, 0x2e2be4efc75663e8, 0x08f9055e165e1e57, 0xe5160ae31a6299af, 0x7e4dcdc149fcd98c, 0xeaf933d283254d99)
      && Round(Vars(0x7aafc172da57e139, 0xa5f08b4a7affe8e8, 0x920495cd2d45797c, 0x2e2be4efc75663e8, 0x08f9055e165e1e57, 0xe5160ae31a6299af, 0x7e4dcdc149fcd98c, 0xeaf933d283254d99),
              0xefbe4786384f25e3, 0x0000000000000000)
        == Vars(0x4b92d85797fd8fe3, 0x7aafc172da57e139, 0xa5f08b4a7affe8e8, 0x920495cd2d45797c, 0xd0baf7e15e595160, 0x08f9055e165e1e57, 0xe5160ae31a6299af, 0x7e4dcdc149fcd98c)
      && Round(Vars(0x4b92d85797fd8fe3, 0x7aafc172da57e139, 0xa5f08b4a7affe8e8, 0x920495cd2d45797c, 0xd0baf7e15e595160, 0x08f9055e165e1e57, 0xe5160ae31a6299af, 0x7e4dcdc149fcd98c),
              0x0fc19dc68b8cd5b5, 0x0200100000000004)
        == Vars(0x37fb135e4677bc61, 0x4b92d85797fd8fe3, 0x7aafc172da57e139, 0xa5f08b4a7affe8e8, 0x29447904eb5f3518, 0xd0baf7e15e595160, 0x08f9055e165e1e57, 0xe5160ae31a6299af)
      && Round(Vars(0x37fb135e4677bc61, 0x4b92d85797fd8fe3, 0x7aafc172da57e139, 0xa5f08b4a7affe8e8, 0x29447904eb5f3518, 0xd0baf7e15e595160, 0x08f9055e165e1e57, 0xe5160ae31a6299af),
              0x240ca1cc77ac9c65, 0x0000000000000000)
        == Vars(0x6b55baaf2d463b68, 0x37fb135e4677bc61, 0x4b92d85797fd8fe3, 0x7aafc172da57e139, 0x4b1fae2ee1ae6fda, 0x29447904eb5f3518, 0xd0baf7e15e595160, 0x08f9055e165e1e57)
  {
  }

  /** Rounds 16..19. */
  lemma EmptyRounds4(v: Vars, w: seq<Word>)
    requires |w| == 80 && Rounds(v, w, 16) == Vars(0xa5f08b4a7affe8e8, 0x920495cd2d45797c, 0x2e2be4efc75663e8, 0xda1e551c529d1e69, 0xe5160ae31a6299af, 0x7e4dcdc149fcd98c, 0xeaf933d283254d99, 0xa9f8b05d1ca3b369)
    requires w[16] == 0x8000000000000000 && w[17] == 0x0000000000000000
      && w[18] == 0x0200100000000004 && w[19] == 0x0000000000000000
    ensures Rounds(v, w, 20) == Vars(0x6b55baaf2d463b68, 0x37fb135e4677bc61, 0x4b92d85797fd8fe3, 0x7aafc172da57e139, 0x4b1fae2ee1ae6fda, 0x29447904eb5f3518, 0xd0baf7e15e595160, 0x08f9055e165e1e57)
  {
    RoundConstant16();
    RoundConstant17();
    RoundConstant18();
    RoundConstant19();
    EmptyRoundValues4();
    RoundsStep(v, w, 16, Vars(0xa5f08b4a7affe8e8, 0x920495cd2d45797c, 0x2e2be4efc75663e8, 0xda1e551c529d1e69, 0xe5160ae31a6299af, 0x7e4dcdc149fcd98c, 0xeaf933d283254d99, 0xa9f8b05d1ca3b369),
               0xe49b69c19ef14ad2, 0x8000000000000000,
               Vars(0x7aafc172da57e139, 0xa5f08b4a7affe8e8, 0x920495cd2d45797c, 0x2e2be4efc75663e8, 0x08f9055e165e1e57, 0xe5160ae31a6299af, 0x7e4dcdc149fcd98c, 0xeaf933d283254d99));
    RoundsStep(v, w, 17, Vars(0x7aafc172da57e139, 0xa5f08b4a7affe8e8, 0x920495cd2d45797c, 0x2e2be4efc75663e8, 0x08f9055e165e1e57, 0xe5160ae31a6299af, 0x7e4dcdc149fcd98c, 0xeaf933d283254d99),
               0xefbe4786384f25e3, 0x0000000000000000,
               Vars(0x4b92d85797fd8fe3, 0x7aafc172da57e139, 0xa5f08b4a7affe8e8, 0x920495cd2d45797c, 0xd0baf7e15e595160, 0x08f9055e165e1e57, 0xe5160ae31a6299af, 0x7e4dcdc149fcd98c));
    RoundsStep(v, w, 18, Vars(0x4b92d85797fd8fe3, 0x7aafc172da57e139, 0xa5f08b4a7affe8e8, 0x920495cd2d45797c, 0xd0baf7e15e595160, 0x08f9055e165e1e57, 0xe5160ae31a6299af, 0x7e4dcdc149fcd98c),
               0x0fc19dc68b8cd5b5, 0x0200100000000004,
               Vars(0x37fb135e4677bc61, 0x4b92d85797fd8fe3, 0x7aafc172da57e139, 0xa5f08b4a7affe8e8, 0x29447904eb5f3518, 0xd0baf7e15e595160, 0x08f9055e165e1e57, 0xe5160ae31a6299af));
    RoundsStep(v, w, 19, Vars(0x37fb135e4677bc61, 0x4b92d85797fd8fe3, 0x7aafc172da57e139, 0xa5f08b4a7affe8e8, 0x29447904eb5f3518, 0xd0baf7e15e595160, 0x08f9055e165e1e57, 0xe5160ae31a6299af),
               0x240ca1cc77ac9c65, 0x0000000000000000,
               Vars(0x6b55baaf2d463b68, 0x37fb135e4677bc61, 0x4b92d85797fd8fe3, 0x7aafc172da57e139, 0x4b1fae2ee1ae6fda, 0x29447904eb5f3518, 0xd0baf7e15e595160, 0x08f9055e165e1e57));
  }

  /** The results of rounds 20..23 on their working variables. */
  lemma EmptyRoundValues5()
    ensures Round(Vars(0x6b55baaf2d463b68, 0x37fb135e4677bc61, 0x4b92d85797fd8fe3, 0x7aafc172da57e139, 0x4b1fae2ee1ae6fda, 0x29447904eb5f3518, 0xd0baf7e15e595160, 0x08f9055e165e1e57),
              0x2de92c6f592b0275, 0x1008000002000020)
        == Vars(0xc1ba63abb5ce35b6, 0x6b55baaf2d463b68, 0x37fb135e4677bc61, 0x4b92d85797fd8fe3, 0x8f2dd6950955e862, 0x4b1fae2ee1ae6fda, 0x29447904eb5f3518, 0xd0baf7e15e595160)
      && Round(Vars(0xc1ba63abb5ce35b6, 0x6b55baaf2d463b68, 0x37fb135e4677bc61, 0x4b92d85797fd8fe3, 0x8f2dd6950955e862, 0x4b1fae2ee1ae6fda, 0x29447904eb5f3518, 0xd0baf7e15e595160),
              0x4a7484aa6ea6e483, 0x0000000000000000)
        == Vars(0x2289df32ba57b91c, 0xc1ba63abb5ce35b6, 0x6b55baaf2d463b68, 0x37fb135e4677bc61, 0x2326397066c33509, 0x8f2dd6950955e862, 0x4b1fae2ee1ae6fda, 0x29447904eb5f3518)
      && Round(Vars(0x2289df32ba57b91c, 0xc1ba63abb5ce35b6, 0x6b55baaf2d463b68, 0x37fb135e4677bc61, 0x2326397066c33509, 0x8f2dd6950955e862, 0x4b1fae2ee1ae6fda, 0x29447904eb5f3518),
              0x5cb0a9dcbd41fbd4, 0x8004220110080140)
        == Vars(0xc4c14d6ffee37f33, 0x2289df32ba57b91c, 0xc1ba63abb5ce35b6, 0x6b55baaf2d463b68, 0x2a87942b6f9a6aff, 0x2326397066c33509, 0x8f2dd6950955e862, 0x4b1fae2ee1ae6fda)
      && Round(Vars(0xc4c14d6ffee37f33, 0x2289df32ba57b91c, 0xc1ba63abb5ce35b6, 0x6b55baaf2d463b68, 0x2a87942b6f9a6aff, 0x2326397066c33509, 0x8f2dd6950955e862, 0x4b1fae2ee1ae6fda),
              0x76f988da831153b5, 0x8000000000000000)
        == Vars(0x9d3870832f2dce51, 0xc4c14d6ffee37f33, 0x2289df32ba57b91c, 0xc1ba63abb5ce35b6, 0x7991f1f7c2ffc545, 0x2a87942b6f9a6aff, 0x2326397066c33509, 0x8f2dd6950955e862)
  {
  }

  /** Rounds 20..23. */
  lemma EmptyRounds5(v: Vars, w: seq<Word>)
    requires |w| == 80 && Rounds(v, w, 20) == Vars(0x6b55baaf2d463b68, 0x37fb135e4677bc61, 0x4b92d85797fd8fe3, 0x7aafc172da57e139, 0x4b1fae2ee1ae6fda, 0x29447904eb5f3518, 0xd0baf7e15e595160, 0x08f9055e165e1e57)
    requires w[20] == 0x1008000002000020 && w[21] == 0x0000000000000000
      && w[22] == 0x8004220110080140 && w[23] == 0x8000000000000000
    ensures Rounds(v, w, 24) == Vars(0x9d3870832f2dce51, 0xc4c14d6ffee37f33, 0x2289df32ba57b91c, 0xc1ba63abb5ce35b6, 0x7991f1f7c2ffc545, 0x2a87942b6f9a6aff, 0x2326397066c33509, 0x8f2dd6950955e862)
  {
    RoundConstant20();
    RoundConstant21();
    RoundConstant22();
    RoundConstant23();
    EmptyRoundValues5();
    RoundsStep(v, w, 20, Vars(0x6b55baaf2d463b68, 0x37fb135e4677bc61, 0x4b92d85797fd8fe3, 0x7aafc172da57e139, 0x4b1fae2ee1ae6fda, 0x29447904eb5f3518, 0xd0baf7e15e595160, 0x08f9055e165e1e57),
               0x2de92c6f592b0275, 0x1008000002000020,
               Vars(0xc1ba63abb5ce35b6, 0x6b55baaf2d463b68, 0x37fb135e4677bc61, 0x4b92d85797fd8fe3, 0x8f2dd6950955e862, 0x4b1fae2ee1ae6fda, 0x29447904eb5f3518, 0xd0baf7e15e595160));
    RoundsStep(v, w, 21, Vars(0xc1ba63abb5ce35b6, 0x6b55baaf2d463b68, 0x37fb135e4677bc61, 0x4b92d85797fd8fe3, 0x8f2dd6950955e862, 0x4b1fae2ee1ae6fda, 0x29447904eb5f3518, 0xd0baf7e15e595160),
               0x4a7484aa6ea6e483, 0x0000000000000000,
               Vars(0x2289df32ba57b91c, 0xc1ba63abb5ce35b6, 0x6b55baaf2d463b68, 0x37fb135e4677bc61, 0x2326397066c33509, 0x8f2dd6950955e862, 0x4b1fae2ee1ae6fda, 0x29447904eb5f3518));
    RoundsStep(v, w, 22, Vars(0x2289df32ba57b91c, 0xc1ba63abb5ce35b6, 0x6b55baaf2d463b68, 0x37fb135e4677bc61, 0x2326397066c33509, 0x8f2dd6950955e862, 0x4b1fae2ee1ae6fda, 0x29447904eb5f3518),
               0x5cb0a9dcbd41fbd4, 0x8004220110080140,
               Vars(0xc4c14d6ffee37f33, 0x2289df32ba57b91c, 0xc1ba63abb5ce35b6, 0x6b55baaf2d463b68, 0x2a87942b6f9a6aff, 0x2326397066c33509, 0x8f2dd6950955e862, 0x4b1fae2ee1ae6fda));
    RoundsStep(v, w, 23, Vars(0xc4c14d6ffee37f33, 0x2289df32ba57b91c, 0xc1ba63abb5ce35b6, 0x6b55baaf2d463b68, 0x2a87942b6f9a6aff, 0x2326397066c33509, 0x8f2dd6950955e862, 0x4b1fae2ee1ae6fda),
               0x76f988da831153b5, 0x8000000000000000,
               Vars(0x9d3870832f2dce51, 0xc4c14d6ffee37f33, 0x2289df32ba57b91c, 0xc1ba63abb5ce35b6, 0x7991f1f7c2ffc545, 0x2a87942b6f9a6aff, 0x2326397066c33509, 0x8f2dd6950955e862));
  }

  /** The results of rounds 24..27 on their working variables. */
  lemma EmptyRoundValues6()
    ensures Round(Vars(0x9d3870832f2dce51, 0xc4c14d6ffee37f33, 0x2289df32ba57b91c, 0xc1ba63abb5ce35b6, 0x7991f1f7c2ffc545, 0x2a87942b6f9a6aff, 0x2326397066c33509, 0x8f2dd6950955e862),
              0x983e5152ee66dfab, 0x0209108000400800)
        == Vars(0x3795c2814e10d816, 0x9d3870832f2dce51, 0xc4c14d6ffee37f33, 0x2289df32ba57b91c, 0x357cfbf82d83a9c8, 0x7991f1f7c2ffc545, 0x2a87942b6f9a6aff, 0x2326397066c33509)
      && Round(Vars(0x3795c2814e10d816, 0x9d3870832f2dce51, 0xc4c14d6ffee37f33, 0x2289df32ba57b91c, 0x357cfbf82d83a9c8, 0x7991f1f7c2ffc545, 0x2a87942b6f9a6aff, 0x2326397066c33509),
              0xa831c66d2db43210, 0x0400200000000008)
        == Vars(0x01d706a3530f7eef, 0x3795c2814e10d816, 0x9d3870832f2dce51, 0xc4c14d6ffee37f33, 0xdeba0e7bc66ee6c7, 0x357cfbf82d83a9c8, 0x7991f1f7c2ffc545, 0x2a87942b6f9a6aff)
      && Round(Vars(0x01d706a3530f7eef, 0x3795c2814e10d816, 0x9d3870832f2dce51, 0xc4c14d6ffee37f33, 0xdeba0e7bc66ee6c7, 0x357cfbf82d83a9c8, 0x7991f1f7c2ffc545, 0x2a87942b6f9a6aff),
              0xb00327c898fb213f, 0x1140a00320114028)
        == Vars(0xf87a846258ed0734, 0x01d706a3530f7eef, 0x3795c2814e10d816, 0x9d3870832f2dce51, 0x05145f9905bca280, 0xdeba0e7bc66ee6c7, 0x357cfbf82d83a9c8, 0x7991f1f7c2ffc545)
      && Round(Vars(0xf87a846258ed0734, 0x01d706a3530f7eef, 0x3795c2814e10d816, 0x9d3870832f2dce51, 0x05145f9905bca280, 0xdeba0e7bc66ee6c7, 0x357cfbf82d83a9c8, 0x7991f1f7c2ffc545),
              0xbf597fc7beef0ee4, 0x3018000006000060)
        == Vars(0x19d15aae07f2ce6e, 0xf87a846258ed0734, 0x01d706a3530f7eef, 0x3795c2814e10d816, 0xa8d75c010ccd2c54, 0x05145f9905bca280, 0xdeba0e7bc66ee6c7, 0x357cfbf82d83a9c8)
  {
  }

  /** Rounds 24..27. */
  lemma EmptyRounds6(v: Vars, w: seq<Word>)
    requires |w| == 80 && Rounds(v, w, 24) == Vars(0x9d3870832f2dce51, 0xc4c14d6ffee37f33, 0x2289df32ba57b91c, 0xc1ba63abb5ce35b6, 0x7991f1f7c2ffc545, 0x2a87942b6f9a6aff, 0x2326397066c33509, 0x8f2dd6950955e862)
    requires w[24] == 0x0209108000400800 && w[25] == 0x0400200000000008
      && w[26] == 0x1140a00320114028 && w[27] == 0x3018000006000060
    ensures Rounds(v, w, 28) == Vars(0x19d15aae07f2ce6e, 0xf87a846258ed0734, 0x01d706a3530f7eef, 0x3795c2814e10d816, 0xa8d75c010ccd2c54, 0x05145f9905bca280, 0xdeba0e7bc66ee6c7, 0x357cfbf82d83a9c8)
  {
    RoundConstant24();
    RoundConstant25();
    RoundConstant26();
    RoundConstant27();
    EmptyRoundValues6();
    RoundsStep(v, w, 24, Vars(0x9d3870832f2dce51, 0xc4c14d6ffee37f33, 0x2289df32ba57b91c, 0xc1ba63abb5ce35b6, 0x7991f1f7c2ffc545, 0x2a87942b6f9a6aff, 0x2326397066c33509, 0x8f2dd6950955e862),
               0x983e5152ee66dfab, 0x0209108000400800,
               Vars(0x3795c2814e10d816, 0x9d3870832f2dce51, 0xc4c14d6ffee37f33, 0x2289df32ba57b91c, 0x357cfbf82d83a9c8, 0x7991f1f7c2ffc545, 0x2a87942b6f9a6aff, 0x2326397066c33509));
    RoundsStep(v, w, 25, Vars(0x3795c2814e10d816, 0x9d3870832f2dce51, 0xc4c14d6ffee37f33, 0x2289df32ba57b91c, 0x357cfbf82d83a9c8, 0x7991f1f7c2ffc545, 0x2a87942b6f9a6aff, 0x2326397066c33509),
               0xa831c66d2db43210, 0x0400200000000008,
               Vars(0x01d706a3530f7eef, 0x3795c2814e10d816, 0x9d3870832f2dce51, 0xc4c14d6ffee37f33, 0xdeba0e7bc66ee6c7, 0x357cfbf82d83a9c8, 0x7991f1f7c2ffc545, 0x2a87942b6f9a6aff));
    RoundsStep(v, w, 26, Vars(0x01d706a3530f7eef, 0x3795c2814e10d816, 0x9d3870832f2dce51, 0xc4c14d6ffee37f33, 0xdeba0e7bc66ee6c7, 0x357cfbf82d83a9c8, 0x7991f1f7c2ffc545, 0x2a87942b6f9a6aff),
               0xb00327c898fb213f, 0x1140a00320114028,
               Vars(0xf87a846258ed0734, 0x01d706a3530f7eef, 0x3795c2814e10d816, 0x9d3870832f2dce51, 0x05145f9905bca280, 0xdeba0e7bc66ee6c7, 0x357cfbf82d83a9c8, 0x7991f1f7c2ffc545));
    RoundsStep(v, w, 27, Vars(0xf87a846258ed0734, 0x01d706a3530f7eef, 0x3795c2814e10d816, 0x9d3870832f2dce51, 0x05145f9905bca280, 0xdeba0e7bc66ee6c7, 0x357cfbf82d83a9c8, 0x7991f1f7c2ffc545),
               0xbf597fc7beef0ee4, 0x3018000006000060,
               Vars(0x19d15aae07f2ce6e, 0xf87a846258ed0734, 0x01d706a3530f7eef, 0x3795c2814e10d816, 0xa8d75c010ccd2c54, 0x05145f9905bca280, 0xdeba0e7bc66ee6c7, 0x357cfbf82d83a9c8));
  }

  /** The results of rounds 28..31 on their working variables. */
  lemma EmptyRoundValues7()
    ensures Round(Vars(0x19d15aae07f2ce6e, 0xf87a846258ed0734, 0x01d706a3530f7eef, 0x3795c2814e10d816, 0xa8d75c010ccd2c54, 0x05145f9905bca280, 0xdeba0e7bc66ee6c7, 0x357cfbf82d83a9c8),
              0xc6e00bf33da88fc2, 0xa24500b1180a2042)
        == Vars(0xac530e9ff2770564, 0x19d15aae07f2ce6e, 0xf87a846258ed0734, 0x01d706a3530f7eef, 0x273619982546300e, 0xa8d75c010ccd2c54, 0x05145f9905bca280, 0xdeba0e7bc66ee6c7)
      && Round(Vars(0xac530e9ff2770564, 0x19d15aae07f2ce6e, 0xf87a846258ed0734, 0x01d706a3530f7eef, 0x273619982546300e, 0xa8d75c010ccd2c54, 0x05145f9905bca280, 0xdeba0e7bc66ee6c7),
              0xd5a79147930aa725, 0x0010880440200500)
        == Vars(0xf10ec39e001ed05e, 0xac530e9ff2770564, 0x19d15aae07f2ce6e, 0xf87a846258ed0734, 0x56894279d8babba4, 0x273619982546300e, 0xa8d75c010ccd2c54, 0x05145f9905bca280)
      && Round(Vars(0xf10ec39e001ed05e, 0xac530e9ff2770564, 0x19d15aae07f2ce6e, 0xf87a846258ed0734, 0x56894279d8babba4, 0x273619982546300e, 0xa8d75c010ccd2c54, 0x05145f9905bca280),
              0x06ca6351e003826f, 0xd4a945c2a4270995)
        == Vars(0x82b00e962d450c2b, 0xf10ec39e001ed05e, 0xac530e9ff2770564, 0x19d15aae07f2ce6e, 0x03ecbc02726dba71, 0x56894279d8babba4, 0x273619982546300e, 0xa8d75c010ccd2c54)
      && Round(Vars(0x82b00e962d450c2b, 0xf10ec39e001ed05e, 0xac530e9ff2770564, 0x19d15aae07f2ce6e, 0x03ecbc02726dba71, 0x56894279d8babba4, 0x273619982546300e, 0xa8d75c010ccd2c54),
              0x142929670a0e6e70, 0x43ad128001402810)
        == Vars(0xc1162d5e11cfafbd, 0x82b00e962d450c2b, 0xf10ec39e001ed05e, 0xac530e9ff2770564, 0xc77a6dc35cc1eee3, 0x03ecbc02726dba71, 0x56894279d8babba4, 0x273619982546300e)
  {
  }

  /** Rounds 28..31. */
  lemma EmptyRounds7(v: Vars, w: seq<Word>)
    requires |w| == 80 && Rounds(v, w, 28) == Vars(0x19d15aae07f2ce6e, 0xf87a846258ed0734, 0x01d706a3530f7eef, 0x3795c2814e10d816, 0xa8d75c010ccd2c54, 0x05145f9905bca280, 0xdeba0e7bc66ee6c7, 0x357cfbf82d83a9c8)
    requires w[28] == 0xa24500b1180a2042 && w[29] == 0x0010880440200500
      && w[30] == 0xd4a945c2a4270995 && w[31] == 0x43ad128001402810
    ensures Rounds(v, w, 32) == Vars(0xc1162d5e11cfafbd, 0x82b00e962d450c2b, 0xf10ec39e001ed05e, 0xac530e9ff2770564, 0xc77a6dc35cc1eee3, 0x03ecbc02726dba71, 0x56894279d8babba4, 0x273619982546300e)
  {
    RoundConstant28();
    RoundConstant29();
    RoundConstant30();
    RoundConstant31();
    EmptyRoundValues7();
    RoundsStep(v, w, 28, Vars(0x19d15aae07f2ce6e, 0xf87a846258ed0734, 0x01d706a3530f7eef, 0x3795c2814e10d816, 0xa8d75c010ccd2c54, 0x05145f9905bca280, 0xdeba0e7bc66ee6c7, 0x357cfbf82d83a9c8),
               0xc6e00bf33da88fc2, 0xa24500b1180a2042,
               Vars(0xac530e9ff2770564, 0x19d15aae07f2ce6e, 0xf87a846258ed0734, 0x01d706a3530f7eef, 0x273619982546300e, 0xa8d75c010ccd2c54, 0x05145f9905bca280, 0xdeba0e7bc66ee6c7));
    RoundsStep(v, w, 29, Vars(0xac530e9ff2770564, 0x19d15aae07f2ce6e, 0xf87a846258ed0734, 0x01d706a3530f7eef, 0x273619982546300e, 0xa8d75c010ccd2c54, 0x05145f9905bca280, 0xdeba0e7bc66ee6c7),
               0xd5a79147930aa725, 0x0010880440200500,
               Vars(0xf10ec39e001ed05e, 0xac530e9ff2770564, 0x19d15aae07f2ce6e, 0xf87a846258ed0734, 0x56894279d8babba4, 0x273619982546300e, 0xa8d75c010ccd2c54, 0x05145f9905bca280));
    RoundsStep(v, w, 30, Vars(0xf10ec39e001ed05e, 0xac530e9ff2770564, 0x19d15aae07f2ce6e, 0xf87a846258ed0734, 0x56894279d8babba4, 0x273619982546300e, 0xa8d75c010ccd2c54, 0x05145f9905bca280),
               0x06ca6351e003826f, 0xd4a945c2a4270995,
               Vars(0x82b00e962d450c2b, 0xf10ec39e001ed05e, 0xac530e9ff2770564, 0x19d15aae07f2ce6e, 0x03ecbc02726dba71, 0x56894279d8babba4, 0x273619982546300e, 0xa8d75c010ccd2c54));
    RoundsStep(v, w, 31, Vars(0x82b00e962d450c2b, 0xf10ec39e001ed05e, 0xac530e9ff2770564, 0x19d15aae07f2ce6e, 0x03ecbc02726dba71, 0x56894279d8babba4, 0x273619982546300e, 0xa8d75c010ccd2c54),
               0x142929670a0e6e70, 0x43ad128001402810,
               Vars(0xc1162d5e11cfafbd, 0x82b00e962d450c2b, 0xf10ec39e001ed05e, 0xac530e9ff2770564, 0xc77a6dc35cc1eee3, 0x03ecbc02726dba71, 0x56894279d8babba4, 0x273619982546300e));
  }

  /** The results of rounds 32..35 on their working variables. */
  lemma EmptyRoundValues8()
    ensures Round(Vars(0xc1162d5e11cfafbd, 0x82b00e962d450c2b, 0xf10ec39e001ed05e, 0xac530e9ff2770564, 0xc77a6dc35cc1eee3, 0x03ecbc02726dba71, 0x56894279d8babba4, 0x273619982546300e),
              0x27b70a8546d22ffc, 0xcb2a519703108414)
        == Vars(0x355acfb9b937b7af, 0xc1162d5e11cfafbd, 0x82b00e962d450c2b, 0xf10ec39e001ed05e, 0xfbed3f4f8fb9bde8, 0xc77a6dc35cc1eee3, 0x03ecbc02726dba71, 0x56894279d8babba4)
      && Round(Vars(0x355acfb9b937b7af, 0xc1162d5e11cfafbd, 0x82b00e962d450c2b, 0xf10ec39e001ed05e, 0xfbed3f4f8fb9bde8, 0xc77a6dc35cc1eee3, 0x03ecbc02726dba71, 0x56894279d8babba4),
              0x2e1b21385c26c926, 0x2faad072c8658034)
        == Vars(0xc62cf70fc0758d1f, 0x355acfb9b937b7af, 0xc1162d5e11cfafbd, 0x82b00e962d450c2b, 0xa7e4b297c0bbafe4, 0xfbed3f4f8fb9bde8, 0xc77a6dc35cc1eee3, 0x03ecbc02726dba71)
      && Round(Vars(0xc62cf70fc0758d1f, 0x355acfb9b937b7af, 0xc1162d5e11cfafbd, 0x82b00e962d450c2b, 0xa7e4b297c0bbafe4, 0xfbed3f4f8fb9bde8, 0xc77a6dc35cc1eee3, 0x03ecbc02726dba71),
              0x4d2c6dfc5ac42aed, 0x7d14cc9b14ba8338)
        == Vars(0x7f9caa5ed1cf1ba2, 0xc62cf70fc0758d1f, 0x355acfb9b937b7af, 0xc1162d5e11cfafbd, 0x54687033c0d4633d, 0xa7e4b297c0bbafe4, 0xfbed3f4f8fb9bde8, 0xc77a6dc35cc1eee3)
      && Round(Vars(0x7f9caa5ed1cf1ba2, 0xc62cf70fc0758d1f, 0x355acfb9b937b7af, 0xc1162d5e11cfafbd, 0x54687033c0d4633d, 0xa7e4b297c0bbafe4, 0xfbed3f4f8fb9bde8, 0xc77a6dc35cc1eee3),
              0x53380d139d95b3df, 0x9867c5d3eb13eeff)
        == Vars(0x7d18c0acebd96ede, 0x7f9caa5ed1cf1ba2, 0xc62cf70fc0758d1f, 0x355acfb9b937b7af, 0xb1f01bf3095ec8be, 0x54687033c0d4633d, 0xa7e4b297c0bbafe4, 0xfbed3f4f8fb9bde8)
  {
  }

  /** Rounds 32..35. */
  lemma EmptyRounds8(v: Vars, w: seq<Word>)
    requires |w| == 80 && Rounds(v, w, 32) == Vars(0xc1162d5e11cfafbd, 0x82b00e962d450c2b, 0xf10ec39e001ed05e, 0xac530e9ff2770564, 0xc77a6dc35cc1eee3, 0x03ecbc02726dba71, 0x56894279d8babba4, 0x273619982546300e)
    requires w[32] == 0xcb2a519703108414 && w[33] == 0x2faad072c8658034
      && w[34] == 0x7d14cc9b14ba8338 && w[35] == 0x9867c5d3eb13eeff
    ensures Rounds(v, w, 36) == Vars(0x7d18c0acebd96ede, 0x7f9caa5ed1cf1ba2, 0xc62cf70fc0758d1f, 0x355acfb9b937b7af, 0xb1f01bf3095ec8be, 0x54687033c0d4633d, 0xa7e4b297c0bbafe4, 0xfbed3f4f8fb9bde8)
  {
    RoundConstant32();
    RoundConstant33();
    RoundConstant34();
    RoundConstant35();
    EmptyRoundValues8();
    RoundsStep(v, w, 32, Vars(0xc1162d5e11cfafbd, 0x82b00e962d450c2b, 0xf10ec39e001ed05e, 0xac530e9ff2770564, 0xc77a6dc35cc1eee3, 0x03ecbc02726dba71, 0x56894279d8babba4, 0x273619982546300e),
               0x27b70a8546d22ffc, 0xcb2a519703108414,
               Vars(0x355acfb9b937b7af, 0xc1162d5e11cfafbd, 0x82b00e962d450c2b, 0xf10ec39e001ed05e, 0xfbed3f4f8fb9bde8, 0xc77a6dc35cc1eee3, 0x03ecbc02726dba71, 0x56894279d8babba4));
    RoundsStep(v, w, 33, Vars(0x355acfb9b937b7af, 0xc1162d5e11cfafbd, 0x82b00e962d450c2b, 0xf10ec39e001ed05e, 0xfbed3f4f8fb9bde8, 0xc77a6dc35cc1eee3, 0x03ecbc02726dba71, 0x56894279d8babba4),
               0x2e1b21385c26c926, 0x2faad072c8658034,
               Vars(0xc62cf70fc0758d1f, 0x355acfb9b937b7af, 0xc1162d5e11cfafbd, 0x82b00e962d450c2b, 0xa7e4b297c0bbafe4, 0xfbed3f4f8fb9bde8, 0xc77a6dc35cc1eee3, 0x03ecbc02726dba71));
    RoundsStep(v, w, 34, Vars(0xc62cf70fc0758d1f, 0x355acfb9b937b7af, 0xc1162d5e11cfafbd, 0x82b00e962d450c2b, 0xa7e4b297c0bbafe4, 0xfbed3f4f8fb9bde8, 0xc77a6dc35cc1eee3, 0x03ecbc02726dba71),
               0x4d2c6dfc5ac42aed, 0x7d14cc9b14ba8338,
               Vars(0x7f9caa5ed1cf1ba2, 0xc62cf70fc0758d1f, 0x355acfb9b937b7af, 0xc1162d5e11cfafbd, 0x54687033c0d4633d, 0xa7e4b297c0bbafe4, 0xfbed3f4f8fb9bde8, 0xc77a6dc35cc1eee3));
    RoundsStep(v, w, 35, Vars(0x7f9caa5ed1cf1ba2, 0xc62cf70fc0758d1f, 0x355acfb9b937b7af, 0xc1162d5e11cfafbd, 0x54687033c0d4633d, 0xa7e4b297c0bbafe4, 0xfbed3f4f8fb9bde8, 0xc77a6dc35cc1eee3),
               0x53380d139d95b3df, 0x9867c5d3eb13eeff,
               Vars(0x7d18c0acebd96ede, 0x7f9caa5ed1cf1ba2, 0xc62cf70fc0758d1f, 0x355acfb9b937b7af, 0xb1f01bf3095ec8be, 0x54687033c0d4633d, 0xa7e4b297c0bbafe4, 0xfbed3f4f8fb9bde8));
  }

  /** The results of rounds 36..39 on their working variables. */
  lemma EmptyRoundValues9()
    ensures Round(Vars(0x7d18c0acebd96ede, 0x7f9caa5ed1cf1ba2, 0xc62cf70fc0758d1f, 0x355acfb9b937b7af, 0xb1f01bf3095ec8be, 0x54687033c0d4633d, 0xa7e4b297c0bbafe4, 0xfbed3f4f8fb9bde8),
              0x650a73548baf63de, 0xc94dc04c92359678)
        == Vars(0x07cfce9d590959dd, 0x7d18c0acebd96ede, 0x7f9caa5ed1cf1ba2, 0xc62cf70fc0758d1f, 0xdf56b7ba5e33f68a, 0xb1f01bf3095ec8be, 0x54687033c0d4633d, 0xa7e4b297c0bbafe4)
      && Round(Vars(0x07cfce9d590959dd, 0x7d18c0acebd96ede, 0x7f9caa5ed1cf1ba2, 0xc62cf70fc0758d1f, 0xdf56b7ba5e33f68a, 0xb1f01bf3095ec8be, 0x54687033c0d4633d, 0xa7e4b297c0bbafe4),
              0x766a0abb3c77b2a8, 0x92aba5ae1ee4675d)
        == Vars(0xb91c2dda3c20b18d, 0x07cfce9d590959dd, 0x7d18c0acebd96ede, 0x7f9caa5ed1cf1ba2, 0x034681389bcc5cdf, 0xdf56b7ba5e33f68a, 0xb1f01bf3095ec8be, 0x54687033c0d4633d)
      && Round(Vars(0xb91c2dda3c20b18d, 0x07cfce9d590959dd, 0x7d18c0acebd96ede, 0x7f9caa5ed1cf1ba2, 0x034681389bcc5cdf, 0xdf56b7ba5e33f68a, 0xb1f01bf3095ec8be, 0x54687033c0d4633d),
              0x81c2c92e47edaee6, 0x00b560cd2d362129)
        == Vars(0xb975a488793a5ae3, 0xb91c2dda3c20b18d, 0x07cfce9d590959dd, 0x7d18c0acebd96ede, 0x027a0c6eed080e1a, 0x034681389bcc5cdf, 0xdf56b7ba5e33f68a, 0xb1f01bf3095ec8be)
      && Round(Vars(0xb975a488793a5ae3, 0xb91c2dda3c20b18d, 0x07cfce9d590959dd, 0x7d18c0acebd96ede, 0x027a0c6eed080e1a, 0x034681389bcc5cdf, 0xdf56b7ba5e33f68a, 0xb1f01bf3095ec8be),
              0x92722c851482353b, 0x682916bbbf1eb0d9)
        == Vars(0xeee1192d6f7b0289, 0xb975a488793a5ae3, 0xb91c2dda3c20b18d, 0x07cfce9d590959dd, 0x1582e10b23b64cae, 0x027a0c6eed080e1a, 0x034681389bcc5cdf, 0xdf56b7ba5e33f68a)
  {
  }

  /** Rounds 36..39. */
  lemma EmptyRounds9(v: Vars, w: seq<Word>)
    requires |w| == 80 && Rounds(v, w, 36) == Vars(0x7d18c0acebd96ede, 0x7f9caa5ed1cf1ba2, 0xc62cf70fc0758d1f, 0x355acfb9b937b7af, 0xb1f01bf3095ec8be, 0x54687033c0d4633d, 0xa7e4b297c0bbafe4, 0xfbed3f4f8fb9bde8)
    requires w[36] == 0xc94dc04c92359678 && w[37] == 0x92aba5ae1ee4675d
      && w[38] == 0x00b560cd2d362129 && w[39] == 0x682916bbbf1eb0d9
    ensures Rounds(v, w, 40) == Vars(0xeee1192d6f7b0289, 0xb975a488793a5ae3, 0xb91c2dda3c20b18d, 0x07cfce9d590959dd, 0x1582e10b23b64cae, 0x027a0c6eed080e1a, 0x034681389bcc5cdf, 0xdf56b7ba5e33f68a)
  {
    RoundConstant36();
    RoundConstant37();
    RoundConstant38();
    RoundConstant39();
    EmptyRoundValues9();
    RoundsStep(v, w, 36, Vars(0x7d18c0acebd96ede, 0x7f9caa5ed1cf1ba2, 0xc62cf70fc0758d1f, 0x355acfb9b937b7af, 0xb1f01bf3095ec8be, 0x54687033c0d4633d, 0xa7e4b297c0bbafe4, 0xfbed3f4f8fb9bde8),
               0x650a73548baf63de, 0xc94dc04c92359678,
               Vars(0x07cfce9d590959dd, 0x7d18c0acebd96ede, 0x7f9caa5ed1cf1ba2, 0xc62cf70fc0758d1f, 0xdf56b7ba5e33f68a, 0xb1f01bf3095ec8be, 0x54687033c0d4633d, 0xa7e4b297c0bbafe4));
    RoundsStep(v, w, 37, Vars(0x07cfce9d590959dd, 0x7d18c0acebd96ede, 0x7f9caa5ed1cf1ba2, 0xc62cf70fc0758d1f, 0xdf56b7ba5e33f68a, 0xb1f01bf3095ec8be, 0x54687033c0d4633d, 0xa7e4b297c0bbafe4),
               0x766a0abb3c77b2a8, 0x92aba5ae1ee4675d,
               Vars(0xb91c2dda3c20b18d, 0x07cfce9d590959dd, 0x7d18c0acebd96ede, 0x7f9caa5ed1cf1ba2, 0x034681389bcc5cdf, 0xdf56b7ba5e33f68a, 0xb1f01bf3095ec8be, 0x54687033c0d4633d));
    RoundsStep(v, w, 38, Vars(0xb91c2dda3c20b18d, 0x07cfce9d590959dd, 0x7d18c0acebd96ede, 0x7f9caa5ed1cf1ba2, 0x034681389bcc5cdf, 0xdf56b7ba5e33f68a, 0xb1f01bf3095ec8be, 0x54687033c0d4633d),
               0x81c2c92e47edaee6, 0x00b560cd2d362129,
               Vars(0xb975a488793a5ae3, 0xb91c2dda3c20b18d, 0x07cfce9d590959dd, 0x7d18c0acebd96ede, 0x027a0c6eed080e1a, 0x034681389bcc5cdf, 0xdf56b7ba5e33f68a, 0xb1f01bf3095ec8be));
    RoundsStep(v, w, 39, Vars(0xb975a488793a5ae3, 0xb91c2dda3c20b18d, 0x07cfce9d590959dd, 0x7d18c0acebd96ede, 0x027a0c6eed080e1a, 0x034681389bcc5cdf, 0xdf56b7ba5e33f68a, 0xb1f01bf3095ec8be),
               0x92722c851482353b, 0x682916bbbf1eb0d9,
               Vars(0xeee1192d6f7b0289, 0xb975a488793a5ae3, 0xb91c2dda3c20b18d, 0x07cfce9d590959dd, 0x1582e10b23b64cae, 0x027a0c6eed080e1a, 0x034681389bcc5cdf, 0xdf56b7ba5e33f68a));
  }

  /** The results of rounds 40..43 on their working variables. */
  lemma EmptyRoundValues10()
    ensures Round(Vars(0xeee1192d6f7b0289, 0xb975a488793a5ae3, 0xb91c2dda3c20b18d, 0x07cfce9d590959dd, 0x1582e10b23b64cae, 0x027a0c6eed080e1a, 0x034681389bcc5cdf, 0xdf56b7ba5e33f68a),
              0xa2bfe8a14cf10364, 0xfd4ce54fb9c1fca2)
        == Vars(0x55d0d9f58d41c367, 0xeee1192d6f7b0289, 0xb975a488793a5ae3, 0xb91c2dda3c20b18d, 0xad7b5cd0e29cf40c, 0x1582e10b23b64cae, 0x027a0c6eed080e1a, 0x034681389bcc5cdf)
      && Round(Vars(0x55d0d9f58d41c367, 0xeee1192d6f7b0289, 0xb975a488793a5ae3, 0xb91c2dda3c20b18d, 0xad7b5cd0e29cf40c, 0x1582e10b23b64cae, 0x027a0c6eed080e1a, 0x034681389bcc5cdf),
              0xa81a664bbc423001, 0x389bbafedf01a2ff)
        == Vars(0xca881252bd12d8f0, 0x55d0d9f58d41c367, 0xeee1192d6f7b0289, 0xb975a488793a5ae3, 0x295be15544e63f04, 0xad7b5cd0e29cf40c, 0x1582e10b23b64cae, 0x027a0c6eed080e1a)
      && Round(Vars(0xca881252bd12d8f0, 0x55d0d9f58d41c367, 0xeee1192d6f7b0289, 0xb975a488793a5ae3, 0x295be15544e63f04, 0xad7b5cd0e29cf40c, 0x1582e10b23b64cae, 0x027a0c6eed080e1a),
              0xc24b8b70d0f89791, 0xf80ad4187a704534)
        == Vars(0x7df2be70c424435a, 0xca881252bd12d8f0, 0x55d0d9f58d41c367, 0xeee1192d6f7b0289, 0x8d952d021454a9c1, 0x295be15544e63f04, 0xad7b5cd0e29cf40c, 0x1582e10b23b64cae)
      && Round(Vars(0x7df2be70c424435a, 0xca881252bd12d8f0, 0x55d0d9f58d41c367, 0xeee1192d6f7b0289, 0x8d952d021454a9c1, 0x295be15544e63f04, 0xad7b5cd0e29cf40c, 0x1582e10b23b64cae),
              0xc76c51a30654be30, 0xfc8a6db46b916fab)
        == Vars(0x00079a011da487c4, 0x7df2be70c424435a, 0xca881252bd12d8f0, 0x55d0d9f58d41c367, 0xfe52aac60b7218ef, 0x8d952d021454a9c1, 0x295be15544e63f04, 0xad7b5cd0e29cf40c)
  {
  }

  /** Rounds 40..43. */
  lemma EmptyRounds10(v: Vars, w: seq<Word>)
    requires |w| == 80 && Rounds(v, w, 40) == Vars(0xeee1192d6f7b0289, 0xb975a488793a5ae3, 0xb91c2dda3c20b18d, 0x07cfce9d590959dd, 0x1582e10b23b64cae, 0x027a0c6eed080e1a, 0x034681389bcc5cdf, 0xdf56b7ba5e33f68a)
    requires w[40] == 0xfd4ce54fb9c1fca2 && w[41] == 0x389bbafedf01a2ff
      && w[42] == 0xf80ad4187a704534 && w[43] == 0xfc8a6db46b916fab
    ensures Rounds(v, w, 44) == Vars(0x00079a011da487c4, 0x7df2be70c424435a, 0xca881252bd12d8f0, 0x55d0d9f58d41c367, 0xfe52aac60b7218ef, 0x8d952d021454a9c1, 0x295be15544e63f04, 0xad7b5cd0e29cf40c)
  {
    RoundConstant40();
    RoundConstant41();
    RoundConstant42();
    RoundConstant43();
    EmptyRoundValues10();
    RoundsStep(v, w, 40, Vars(0xeee1192d6f7b0289, 0xb975a488793a5ae3, 0xb91c2dda3c20b18d, 0x07cfce9d590959dd, 0x1582e10b23b64cae, 0x027a0c6eed080e1a, 0x034681389bcc5cdf, 0xdf56b7ba5e33f68a),
               0xa2bfe8a14cf10364, 0xfd4ce54fb9c1fca2,
               Vars(0x55d0d9f58d41c367, 0xeee1192d6f7b0289, 0xb975a488793a5ae3, 0xb91c2dda3c20b18d, 0xad7b5cd0e29cf40c, 0x1582e10b23b64cae, 0x027a0c6eed080e1a, 0x034681389bcc5cdf));
    RoundsStep(v, w, 41, Vars(0x55d0d9f58d41c367, 0xeee1192d6f7b0289, 0xb975a488793a5ae3, 0xb91c2dda3c20b18d, 0xad7b5cd0e29cf40c, 0x1582e10b23b64cae, 0x027a0c6eed080e1a, 0x034681389bcc5cdf),
               0xa81a664bbc423001, 0x389bbafedf01a2ff,
               Vars(0xca881252bd12d8f0, 0x55d0d9f58d41c367, 0xeee1192d6f7b0289, 0xb975a488793a5ae3, 0x295be15544e63f04, 0xad7b5cd0e29cf40c, 0x1582e10b23b64cae, 0x027a0c6eed080e1a));
    RoundsStep(v, w, 42, Vars(0xca881252bd12d8f0, 0x55d0d9f58d41c367, 0xeee1192d6f7b0289, 0xb975a488793a5ae3, 0x295be15544e63f04, 0xad7b5cd0e29cf40c, 0x1582e10b23b64cae, 0x027a0c6eed080e1a),
               0xc24b8b70d0f89791, 0xf80ad4187a704534,
               Vars(0x7df2be70c424435a, 0xca881252bd12d8f0, 0x55d0d9f58d41c367, 0xeee1192d6f7b0289, 0x8d952d021454a9c1, 0x295be15544e63f04, 0xad7b5cd0e29cf40c, 0x1582e10b23b64cae));
    RoundsStep(v, w, 43, Vars(0x7df2be70c424435a, 0xca881252bd12d8f0, 0x55d0d9f58d41c367, 0xeee1192d6f7b0289, 0x8d952d021454a9c1, 0x295be15544e63f04, 0xad7b5cd0e29cf40c, 0x1582e10b23b64cae),
               0xc76c51a30654be30, 0xfc8a6db46b916fab,
               Vars(0x00079a011da487c4, 0x7df2be70c424435a, 0xca881252bd12d8f0, 0x55d0d9f58d41c367, 0xfe52aac60b7218ef, 0x8d952d021454a9c1, 0x295be15544e63f04, 0xad7b5cd0e29cf40c));
  }

  /** The results of rounds 44..47 on their working variables. */
  lemma EmptyRoundValues11()
    ensures Round(Vars(0x00079a011da487c4, 0x7df2be70c424435a, 0xca881252bd12d8f0, 0x55d0d9f58d41c367, 0xfe52aac60b7218ef, 0x8d952d021454a9c1, 0x295be15544e63f04, 0xad7b5cd0e29cf40c),
              0xd192e819d6ef5218, 0x0009308c4ca7d22b)
        == Vars(0x7a4f4d6be6fbdbc6, 0x00079a011da487c4, 0x7df2be70c424435a, 0xca881252bd12d8f0, 0xe88378524ea091b8, 0xfe52aac60b7218ef, 0x8d952d021454a9c1, 0x295be15544e63f04)
      && Round(Vars(0x7a4f4d6be6fbdbc6, 0x00079a011da487c4, 0x7df2be70c424435a, 0xca881252bd12d8f0, 0xe88378524ea091b8, 0xfe52aac60b7218ef, 0x8d952d021454a9c1, 0x295be15544e63f04),
              0xd69906245565a910, 0x49437d8543e9c98c)
        == Vars(0x3c0fb62a570c3263, 0x7a4f4d6be6fbdbc6, 0x00079a011da487c4, 0x7df2be70c424435a, 0x4c816cf998e6ac0f, 0xe88378524ea091b8, 0xfe52aac60b7218ef, 0x8d952d021454a9c1)
      && Round(Vars(0x3c0fb62a570c3263, 0x7a4f4d6be6fbdbc6, 0x00079a011da487c4, 0x7df2be70c424435a, 0x4c816cf998e6ac0f, 0xe88378524ea091b8, 0xfe52aac60b7218ef, 0x8d952d021454a9c1),
              0xf40e35855771202a, 0x67f19b9756071662)
        == Vars(0x36194be3de28da53, 0x3c0fb62a570c3263, 0x7a4f4d6be6fbdbc6, 0x00079a011da487c4, 0xca4e3959811ff9a4, 0x4c816cf998e6ac0f, 0xe88378524ea091b8, 0xfe52aac60b7218ef)
      && Round(Vars(0x36194be3de28da53, 0x3c0fb62a570c3263, 0x7a4f4d6be6fbdbc6, 0x00079a011da487c4, 0xca4e3959811ff9a4, 0x4c816cf998e6ac0f, 0xe88378524ea091b8, 0xfe52aac60b7218ef),
              0x106aa07032bbd1b8, 0x23d1b6fd5980db71)
        == Vars(0x60161066005269ed, 0x36194be3de28da53, 0x3c0fb62a570c3263, 0x7a4f4d6be6fbdbc6, 0x4f5298e83d4f391c, 0xca4e3959811ff9a4, 0x4c816cf998e6ac0f, 0xe88378524ea091b8)
  {
  }

  /** Rounds 44..47. */
  lemma EmptyRounds11(v: Vars, w: seq<Word>)
    requires |w| == 80 && Rounds(v, w, 44) == Vars(0x00079a011da487c4, 0x7df2be70c424435a, 0xca881252bd12d8f0, 0x55d0d9f58d41c367, 0xfe52aac60b7218ef, 0x8d952d021454a9c1, 0x295be15544e63f04, 0xad7b5cd0e29cf40c)
    requires w[44] == 0x0009308c4ca7d22b && w[45] == 0x49437d8543e9c98c
      && w[46] == 0x67f19b9756071662 && w[47] == 0x23d1b6fd5980db71
    ensures Rounds(v, w, 48) == Vars(0x60161066005269ed, 0x36194be3de28da53, 0x3c0fb62a570c3263, 0x7a4f4d6be6fbdbc6, 0x4f5298e83d4f391c, 0xca4e3959811ff9a4, 0x4c816cf998e6ac0f, 0xe88378524ea091b8)
  {
    RoundConstant44();
    RoundConstant45();
    RoundConstant46();
    RoundConstant47();
    EmptyRoundValues11();
    RoundsStep(v, w, 44, Vars(0x00079a011da487c4, 0x7df2be70c424435a, 0xca881252bd12d8f0, 0x55d0d9f58d41c367, 0xfe52aac60b7218ef, 0x8d952d021454a9c1, 0x295be15544e63f04, 0xad7b5cd0e29cf40c),
               0xd192e819d6ef5218, 0x0009308c4ca7d22b,
               Vars(0x7a4f4d6be6fbdbc6, 0x00079a011da487c4, 0x7df2be70c424435a, 0xca881252bd12d8f0, 0xe88378524ea091b8, 0xfe52aac60b7218ef, 0x8d952d021454a9c1, 0x295be15544e63f04));
    RoundsStep(v, w, 45, Vars(0x7a4f4d6be6fbdbc6, 0x00079a011da487c4, 0x7df2be70c424435a, 0xca881252bd12d8f0, 0xe88378524ea091b8, 0xfe52aac60b7218ef, 0x8d952d021454a9c1, 0x295be15544e63f04),
               0xd69906245565a910, 0x49437d8543e9c98c,
               Vars(0x3c0fb62a570c3263, 0x7a4f4d6be6fbdbc6, 0x00079a011da487c4, 0x7df2be70c424435a, 0x4c816cf998e6ac0f, 0xe88378524ea091b8, 0xfe52aac60b7218ef, 0x8d952d021454a9c1));
    RoundsStep(v, w, 46, Vars(0x3c0fb62a570c3263, 0x7a4f4d6be6fbdbc6, 0x00079a011da487c4, 0x7df2be70c424435a, 0x4c816cf998e6ac0f, 0xe88378524ea091b8, 0xfe52aac60b7218ef, 0x8d952d021454a9c1),
               0xf40e35855771202a, 0x67f19b9756071662,
               Vars(0x36194be3de28da53, 0x3c0fb62a570c3263, 0x7a4f4d6be6fbdbc6, 0x00079a011da487c4, 0xca4e3959811ff9a4, 0x4c816cf998e6ac0f, 0xe88378524ea091b8, 0xfe52aac60b7218ef));
    RoundsStep(v, w, 47, Vars(0x36194be3de28da53, 0x3c0fb62a570c3263, 0x7a4f4d6be6fbdbc6, 0x00079a011da487c4, 0xca4e3959811ff9a4, 0x4c816cf998e6ac0f, 0xe88378524ea091b8, 0xfe52aac60b7218ef),
               0x106aa07032bbd1b8, 0x23d1b6fd5980db71,
               Vars(0x60161066005269ed, 0x36194be3de28da53, 0x3c0fb62a570c3263, 0x7a4f4d6be6fbdbc6, 0x4f5298e83d4f391c, 0xca4e3959811ff9a4, 0x4c816cf998e6ac0f, 0xe88378524ea091b8));
  }

  /** The results of rounds 48..51 on their working variables. */
  lemma EmptyRoundValues12()
    ensures Round(Vars(0x60161066005269ed, 0x36194be3de28da53, 0x3c0fb62a570c3263, 0x7a4f4d6be6fbdbc6, 0x4f5298e83d4f391c, 0xca4e3959811ff9a4, 0x4c816cf998e6ac0f, 0xe88378524ea091b8),
              0x19a4c116b8d2d0c8, 0x044afa0ab38edb37)
        == Vars(0x2cb0ebb0621c769d, 0x60161066005269ed, 0x36194be3de28da53, 0x3c0fb62a570c3263, 0x29ae863b6f6b29a7, 0x4f5298e83d4f391c, 0xca4e3959811ff9a4, 0x4c816cf998e6ac0f)
      && Round(Vars(0x2cb0ebb0621c769d, 0x60161066005269ed, 0x36194be3de28da53, 0x3c0fb62a570c3263, 0x29ae863b6f6b29a7, 0x4f5298e83d4f391c, 0xca4e3959811ff9a4, 0x4c816cf998e6ac0f),
              0x1e376c085141ab53, 0x332fd4ee79f5c755)
        == Vars(0x5802d919790a240a, 0x2cb0ebb0621c769d, 0x60161066005269ed, 0x36194be3de28da53, 0x167df6c8d381fb53, 0x29ae863b6f6b29a7, 0x4f5298e83d4f391c, 0xca4e3959811ff9a4)
      && Round(Vars(0x5802d919790a240a, 0x2cb0ebb0621c769d, 0x60161066005269ed, 0x36194be3de28da53, 0x167df6c8d381fb53, 0x29ae863b6f6b29a7, 0x4f5298e83d4f391c, 0xca4e3959811ff9a4),
              0x2748774cdf8eeb99, 0xa55aa02bebfa6ad4)
        == Vars(0x3c36f2af2dca442c, 0x5802d919790a240a, 0x2cb0ebb0621c769d, 0x60161066005269ed, 0x0e2a8773a93b978f, 0x167df6c8d381fb53, 0x29ae863b6f6b29a7, 0x4f5298e83d4f391c)
      && Round(Vars(0x3c36f2af2dca442c, 0x5802d919790a240a, 0x2cb0ebb0621c769d, 0x60161066005269ed, 0x0e2a8773a93b978f, 0x167df6c8d381fb53, 0x29ae863b6f6b29a7, 0x4f5298e83d4f391c),
              0x34b0bcb5e19b48a8, 0xd7c6eb0c613c793a)
        == Vars(0x0b4270d8c02371cc, 0x3c36f2af2dca442c, 0x5802d919790a240a, 0x2cb0ebb0621c769d, 0xe5983e44c3507bf1, 0x0e2a8773a93b978f, 0x167df6c8d381fb53, 0x29ae863b6f6b29a7)
  {
  }

  /** Rounds 48..51. */
  lemma EmptyRounds12(v: Vars, w: seq<Word>)
    requires |w| == 80 && Rounds(v, w, 48) == Vars(0x60161066005269ed, 0x36194be3de28da53, 0x3c0fb62a570c3263, 0x7a4f4d6be6fbdbc6, 0x4f5298e83d4f391c, 0xca4e3959811ff9a4, 0x4c816cf998e6ac0f, 0xe88378524ea091b8)
    requires w[48] == 0x044afa0ab38edb37 && w[49] == 0x332fd4ee79f5c755
      && w[50] == 0xa55aa02bebfa6ad4 && w[51] == 0xd7c6eb0c613c793a
    ensures Rounds(v, w, 52) == Vars(0x0b4270d8c02371cc, 0x3c36f2af2dca442c, 0x5802d919790a240a, 0x2cb0ebb0621c769d, 0xe5983e44c3507bf1, 0x0e2a8773a93b978f, 0x167df6c8d381fb53, 0x29ae863b6f6b29a7)
  {
    RoundConstant48();
    RoundConstant49();
    RoundConstant50();
    RoundConstant51();
    EmptyRoundValues12();
    RoundsStep(v, w, 48, Vars(0x60161066005269ed, 0x36194be3de28da53, 0x3c0fb62a570c3263, 0x7a4f4d6be6fbdbc6, 0x4f5298e83d4f391c, 0xca4e3959811ff9a4, 0x4c816cf998e6ac0f, 0xe88378524ea091b8),
               0x19a4c116b8d2d0c8, 0x044afa0ab38edb37,
               Vars(0x2cb0ebb0621c769d, 0x60161066005269ed, 0x36194be3de28da53, 0x3c0fb62a570c3263, 0x29ae863b6f6b29a7, 0x4f5298e83d4f391c, 0xca4e3959811ff9a4, 0x4c816cf998e6ac0f));
    RoundsStep(v, w, 49, Vars(0x2cb0ebb0621c769d, 0x60161066005269ed, 0x36194be3de28da53, 0x3c0fb62a570c3263, 0x29ae863b6f6b29a7, 0x4f5298e83d4f391c, 0xca4e3959811ff9a4, 0x4c816cf998e6ac0f),
               0x1e376c085141ab53, 0x332fd4ee79f5c755,
               Vars(0x5802d919790a240a, 0x2cb0ebb0621c769d, 0x60161066005269ed, 0x36194be3de28da53, 0x167df6c8d381fb53, 0x29ae863b6f6b29a7, 0x4f5298e83d4f391c, 0xca4e3959811ff9a4));
    RoundsStep(v, w, 50, Vars(0x5802d919790a240a, 0x2cb0ebb0621c769d, 0x60161066005269ed, 0x36194be3de28da53, 0x167df6c8d381fb53, 0x29ae863b6f6b29a7, 0x4f5298e83d4f391c, 0xca4e3959811ff9a4),
               0x2748774cdf8eeb99, 0xa55aa02bebfa6ad4,
               Vars(0x3c36f2af2dca442c, 0x5802d919790a240a, 0x2cb0ebb0621c769d, 0x60161066005269ed, 0x0e2a8773a93b978f, 0x167df6c8d381fb53, 0x29ae863b6f6b29a7, 0x4f5298e83d4f391c));
    RoundsStep(v, w, 51, Vars(0x3c36f2af2dca442c, 0x5802d919790a240a, 0x2cb0ebb0621c769d, 0x60161066005269ed, 0x0e2a8773a93b978f, 0x167df6c8d381fb53, 0x29ae863b6f6b29a7, 0x4f5298e83d4f391c),
               0x34b0bcb5e19b48a8, 0xd7c6eb0c613c793a,
               Vars(0x0b4270d8c02371cc, 0x3c36f2af2dca442c, 0x5802d919790a240a, 0x2cb0ebb0621c769d, 0xe5983e44c3507bf1, 0x0e2a8773a93b978f, 0x167df6c8d381fb53, 0x29ae863b6f6b29a7));
  }

  /** The results of rounds 52..55 on their working variables. */
  lemma EmptyRoundValues13()
    ensures Round(Vars(0x0b4270d8c02371cc, 0x3c36f2af2dca442c, 0x5802d919790a240a, 0x2cb0ebb0621c769d, 0xe5983e44c3507bf1, 0x0e2a8773a93b978f, 0x167df6c8d381fb53, 0x29ae863b6f6b29a7),
              0x391c0cb3c5c95a63, 0x0d8e6b8077ea417c)
        == Vars(0xf5e3835ce50cc3fa, 0x0b4270d8c02371cc, 0x3c36f2af2dca442c, 0x5802d919790a240a, 0x86d1f823af3dc130, 0xe5983e44c3507bf1, 0x0e2a8773a93b978f, 0x167df6c8d381fb53)
      && Round(Vars(0xf5e3835ce50cc3fa, 0x0b4270d8c02371cc, 0x3c36f2af2dca442c, 0x5802d919790a240a, 0x86d1f823af3dc130, 0xe5983e44c3507bf1, 0x0e2a8773a93b978f, 0x167df6c8d381fb53),
              0x4ed8aa4ae3418acb, 0xd647ca451bde7ccb)
        == Vars(0x3b5a586f582eee77, 0xf5e3835ce50cc3fa, 0x0b4270d8c02371cc, 0x3c36f2af2dca442c, 0x85b527d5d583be76, 0x86d1f823af3dc130, 0xe5983e44c3507bf1, 0x0e2a8773a93b978f)
      && Round(Vars(0x3b5a586f582eee77, 0xf5e3835ce50cc3fa, 0x0b4270d8c02371cc, 0x3c36f2af2dca442c, 0x85b527d5d583be76, 0x86d1f823af3dc130, 0xe5983e44c3507bf1, 0x0e2a8773a93b978f),
              0x5b9cca4f7763e373, 0xb69eec4d0e03246f)
        == Vars(0xc7443e07f909e37b, 0x3b5a586f582eee77, 0xf5e3835ce50cc3fa, 0x0b4270d8c02371cc, 0x3de3df27d19f9f4b, 0x85b527d5d583be76, 0x86d1f823af3dc130, 0xe5983e44c3507bf1)
      && Round(Vars(0xc7443e07f909e37b, 0x3b5a586f582eee77, 0xf5e3835ce50cc3fa, 0x0b4270d8c02371cc, 0x3de3df27d19f9f4b, 0x85b527d5d583be76, 0x86d1f823af3dc130, 0xe5983e44c3507bf1),
              0x682e6ff3d6b2b8a3, 0xc913f017b2ac853a)
        == Vars(0x00133382e6452733, 0xc7443e07f909e37b, 0x3b5a586f582eee77, 0xf5e3835ce50cc3fa, 0xb2e52d673b3f4e02, 0x3de3df27d19f9f4b, 0x85b527d5d583be76, 0x86d1f823af3dc130)
  {
  }

  /** Rounds 52..55. */
  lemma EmptyRounds13(v: Vars, w: seq<Word>)
    requires |w| == 80 && Rounds(v, w, 52) == Vars(0x0b4270d8c02371cc, 0x3c36f2af2dca442c, 0x5802d919790a240a, 0x2cb0ebb0621c769d, 0xe5983e44c3507bf1, 0x0e2a8773a93b978f, 0x167df6c8d381fb53, 0x29ae863b6f6b29a7)
    requires w[52] == 0x0d8e6b8077ea417c && w[53] == 0xd647ca451bde7ccb
      && w[54] == 0xb69eec4d0e03246f && w[55] == 0xc913f017b2ac853a
    ensures Rounds(v, w, 56) == Vars(0x00133382e6452733, 0xc7443e07f909e37b, 0x3b5a586f582eee77, 0xf5e3835ce50cc3fa, 0xb2e52d673b3f4e02, 0x3de3df27d19f9f4b, 0x85b527d5d583be76, 0x86d1f823af3dc130)
  {
    RoundConstant52();
    RoundConstant53();
    RoundConstant54();
    RoundConstant55();
    EmptyRoundValues13();
    RoundsStep(v, w, 52, Vars(0x0b4270d8c02371cc, 0x3c36f2af2dca442c, 0x5802d919790a240a, 0x2cb0ebb0621c769d, 0xe5983e44c3507bf1, 0x0e2a8773a93b978f, 0x167df6c8d381fb53, 0x29ae863b6f6b29a7),
               0x391c0cb3c5c95a63, 0x0d8e6b8077ea417c,
               Vars(0xf5e3835ce50cc3fa, 0x0b4270d8c02371cc, 0x3c36f2af2dca442c, 0x5802d919790a240a, 0x86d1f823af3dc130, 0xe5983e44c3507bf1, 0x0e2a8773a93b978f, 0x167df6c8d381fb53));
    RoundsStep(v, w, 53, Vars(0xf5e3835ce50cc3fa, 0x0b4270d8c02371cc, 0x3c36f2af2dca442c, 0x5802d919790a240a, 0x86d1f823af3dc130, 0xe5983e44c3507bf1, 0x0e2a8773a93b978f, 0x167df6c8d381fb53),
               0x4ed8aa4ae3418acb, 0xd647ca451bde7ccb,
               Vars(0x3b5a586f582eee77, 0xf5e3835ce50cc3fa, 0x0b4270d8c02371cc, 0x3c36f2af2dca442c, 0x85b527d5d583be76, 0x86d1f823af3dc130, 0xe5983e44c3507bf1, 0x0e2a8773a93b978f));
    RoundsStep(v, w, 54, Vars(0x3b5a586f582eee77, 0xf5e3835ce50cc3fa, 0x0b4270d8c02371cc, 0x3c36f2af2dca442c, 0x85b527d5d583be76, 0x86d1f823af3dc130, 0xe5983e44c3507bf1, 0x0e2a8773a93b978f),
               0x5b9cca4f7763e373, 0xb69eec4d0e03246f,
               Vars(0xc7443e07f909e37b, 0x3b5a586f582eee77, 0xf5e3835ce50cc3fa, 0x0b4270d8c02371cc, 0x3de3df27d19f9f4b, 0x85b527d5d583be76, 0x86d1f823af3dc130, 0xe5983e44c3507bf1));
    RoundsStep(v, w, 55, Vars(0xc7443e07f909e37b, 0x3b5a586f582eee77, 0xf5e3835ce50cc3fa, 0x0b4270d8c02371cc, 0x3de3df27d19f9f4b, 0x85b527d5d583be76, 0x86d1f823af3dc130, 0xe5983e44c3507bf1),
               0x682e6ff3d6b2b8a3, 0xc913f017b2ac853a,
               Vars(0x00133382e6452733, 0xc7443e07f909e37b, 0x3b5a586f582eee77, 0xf5e3835ce50cc3fa, 0xb2e52d673b3f4e02, 0x3de3df27d19f9f4b, 0x85b527d5d583be76, 0x86d1f823af3dc130));
  }

  /** The results of rounds 56..59 on their working variables. */
  lemma EmptyRoundValues14()
    ensures Round(Vars(0x00133382e6452733, 0xc7443e07f909e37b, 0x3b5a586f582eee77, 0xf5e3835ce50cc3fa, 0xb2e52d673b3f4e02, 0x3de3df27d19f9f4b, 0x85b527d5d583be76, 0x86d1f823af3dc130),
              0x748f82ee5defb2fc, 0x66221af93a4225bb)
        == Vars(0xcaee8908bbf1631d, 0x00133382e6452733, 0xc7443e07f909e37b, 0x3b5a586f582eee77, 0xe57021ab01b86cfb, 0xb2e52d673b3f4e02, 0x3de3df27d19f9f4b, 0x85b527d5d583be76)
      && Round(Vars(0xcaee8908bbf1631d, 0x00133382e6452733, 0xc7443e07f909e37b, 0x3b5a586f582eee77, 0xe57021ab01b86cfb, 0xb2e52d673b3f4e02, 0x3de3df27d19f9f4b, 0x85b527d5d583be76),
              0x78a5636f43172f60, 0x022066fa965f2dbf)
        == Vars(0x799468f35676cc4c, 0xcaee8908bbf1631d, 0x00133382e6452733, 0xc7443e07f909e37b, 0x720afa81cb9d67ad, 0xe57021ab01b86cfb, 0xb2e52d673b3f4e02, 0x3de3df27d19f9f4b)
      && Round(Vars(0x799468f35676cc4c, 0xcaee8908bbf1631d, 0x00133382e6452733, 0xc7443e07f909e37b, 0x720afa81cb9d67ad, 0xe57021ab01b86cfb, 0xb2e52d673b3f4e02, 0x3de3df27d19f9f4b),
              0x84c87814a1f0ab72, 0x98519af83ac7c4d8)
        == Vars(0x609236057876fb24, 0x799468f35676cc4c, 0xcaee8908bbf1631d, 0x00133382e6452733, 0x8ae2b03e5b3ab9aa, 0x720afa81cb9d67ad, 0xe57021ab01b86cfb, 0xb2e52d673b3f4e02)
      && Round(Vars(0x609236057876fb24, 0x799468f35676cc4c, 0xcaee8908bbf1631d, 0x00133382e6452733, 0x8ae2b03e5b3ab9aa, 0x720afa81cb9d67ad, 0xe57021ab01b86cfb, 0xb2e52d673b3f4e02),
              0x8cc702081a6439ec, 0xa9d9b257ea80f60f)
        == Vars(0xe49eb13219ae2438, 0x609236057876fb24, 0x799468f35676cc4c, 0xcaee8908bbf1631d, 0xa898db3a2bb596a5, 0x8ae2b03e5b3ab9aa, 0x720afa81cb9d67ad, 0xe57021ab01b86cfb)
  {
  }

  /** Rounds 56..59. */
  lemma EmptyRounds14(v: Vars, w: seq<Word>)
    requires |w| == 80 && Rounds(v, w, 56) == Vars(0x00133382e6452733, 0xc7443e07f909e37b, 0x3b5a586f582eee77, 0xf5e3835ce50cc3fa, 0xb2e52d673b3f4e02, 0x3de3df27d19f9f4b, 0x85b527d5d583be76, 0x86d1f823af3dc130)
    requires w[56] == 0x66221af93a4225bb && w[57] == 0x022066fa965f2dbf
      && w[58] == 0x98519af83ac7c4d8 && w[59] == 0xa9d9b257ea80f60f
    ensures Rounds(v, w, 60) == Vars(0xe49eb13219ae2438, 0x609236057876fb24, 0x799468f35676cc4c, 0xcaee8908bbf1631d, 0xa898db3a2bb596a5, 0x8ae2b03e5b3ab9aa, 0x720afa81cb9d67ad, 0xe57021ab01b86cfb)
  {
    RoundConstant56();
    RoundConstant57();
    RoundConstant58();
    RoundConstant59();
    EmptyRoundValues14();
    RoundsStep(v, w, 56, Vars(0x00133382e6452733, 0xc7443e07f909e37b, 0x3b5a586f582eee77, 0xf5e3835ce50cc3fa, 0xb2e52d673b3f4e02, 0x3de3df27d19f9f4b, 0x85b527d5d583be76, 0x86d1f823af3dc130),
               0x748f82ee5defb2fc, 0x66221af93a4225bb,
               Vars(0xcaee8908bbf1631d, 0x00133382e6452733, 0xc7443e07f909e37b, 0x3b5a586f582eee77, 0xe57021ab01b86cfb, 0xb2e52d673b3f4e02, 0x3de3df27d19f9f4b, 0x85b527d5d583be76));
    RoundsStep(v, w, 57, Vars(0xcaee8908bbf1631d, 0x00133382e6452733, 0xc7443e07f909e37b, 0x3b5a586f582eee77, 0xe57021ab01b86cfb, 0xb2e52d673b3f4e02, 0x3de3df27d19f9f4b, 0x85b527d5d583be76),
               0x78a5636f43172f60, 0x022066fa965f2dbf,
               Vars(0x799468f35676cc4c, 0xcaee8908bbf1631d, 0x00133382e6452733, 0xc7443e07f909e37b, 0x720afa81cb9d67ad, 0xe57021ab01b86cfb, 0xb2e52d673b3f4e02, 0x3de3df27d19f9f4b));
    RoundsStep(v, w, 58, Vars(0x799468f35676cc4c, 0xcaee8908bbf1631d, 0x00133382e6452733, 0xc7443e07f909e37b, 0x720afa81cb9d67ad, 0xe57021ab01b86cfb, 0xb2e52d673b3f4e02, 0x3de3df27d19f9f4b),
               0x84c87814a1f0ab72, 0x98519af83ac7c4d8,
               Vars(0x609236057876fb24, 0x799468f35676cc4c, 0xcaee8908bbf1631d, 0x00133382e6452733, 0x8ae2b03e5b3ab9aa, 0x720afa81cb9d67ad, 0xe57021ab01b86cfb, 0xb2e52d673b3f4e02));
    RoundsStep(v, w, 59, Vars(0x609236057876fb24, 0x799468f35676cc4c, 0xcaee8908bbf1631d, 0x00133382e6452733, 0x8ae2b03e5b3ab9aa, 0x720afa81cb9d67ad, 0xe57021ab01b86cfb, 0xb2e52d673b3f4e02),
               0x8cc702081a6439ec, 0xa9d9b257ea80f60f,
               Vars(0xe49eb13219ae2438, 0x609236057876fb24, 0x799468f35676cc4c, 0xcaee8908bbf1631d, 0xa898db3a2bb596a5, 0x8ae2b03e5b3ab9aa, 0x720afa81cb9d67ad, 0xe57021ab01b86cfb));
  }

  /** The results of rounds 60..63 on their working variables. */
  lemma EmptyRoundValues15()
    ensures Round(Vars(0xe49eb13219ae2438, 0x609236057876fb24, 0x799468f35676cc4c, 0xcaee8908bbf1631d, 0xa898db3a2bb596a5, 0x8ae2b03e5b3ab9aa, 0x720afa81cb9d67ad, 0xe57021ab01b86cfb),
              0x90befffa23631e28, 0xb741f8b59c416c21)
        == Vars(0x836ea49fef04bf7d, 0xe49eb13219ae2438, 0x609236057876fb24, 0x799468f35676cc4c, 0x750c66ad5179b45f, 0xa898db3a2bb596a5, 0x8ae2b03e5b3ab9aa, 0x720afa81cb9d67ad)
      && Round(Vars(0x836ea49fef04bf7d, 0xe49eb13219ae2438, 0x609236057876fb24, 0x799468f35676cc4c, 0x750c66ad5179b45f, 0xa898db3a2bb596a5, 0x8ae2b03e5b3ab9aa, 0x720afa81cb9d67ad),
              0xa4506cebde82bde9, 0xa3de4a86a2cdbefb)
        == Vars(0x64dabf682b24168d, 0x836ea49fef04bf7d, 0xe49eb13219ae2438, 0x609236057876fb24, 0xc97ba2ca5b3ce60d, 0x750c66ad5179b45f, 0xa898db3a2bb596a5, 0x8ae2b03e5b3ab9aa)
      && Round(Vars(0x64dabf682b24168d, 0x836ea49fef04bf7d, 0xe49eb13219ae2438, 0x609236057876fb24, 0xc97ba2ca5b3ce60d, 0x750c66ad5179b45f, 0xa898db3a2bb596a5, 0x8ae2b03e5b3ab9aa),
              0xbef9a3f7b2c67915, 0xa6e929fabf4b5fa6)
        == Vars(0x64a49e3eddfeb162, 0x64dabf682b24168d, 0x836ea49fef04bf7d, 0xe49eb13219ae2438, 0x7779f9b21cfc8a23, 0xc97ba2ca5b3ce60d, 0x750c66ad5179b45f, 0xa898db3a2bb596a5)
      && Round(Vars(0x64a49e3eddfeb162, 0x64dabf682b24168d, 0x836ea49fef04bf7d, 0xe49eb13219ae2438, 0x7779f9b21cfc8a23, 0xc97ba2ca5b3ce60d, 0x750c66ad5179b45f, 0xa898db3a2bb596a5),
              0xc67178f2e372532b, 0xeabfcd669f8d15a1)
        == Vars(0xe8714bfa97e042ca, 0x64a49e3eddfeb162, 0x64dabf682b24168d, 0x836ea49fef04bf7d, 0x52f1f7d1aac02237, 0x7779f9b21cfc8a23, 0xc97ba2ca5b3ce60d, 0x750c66ad5179b45f)
  {
  }

  /** Rounds 60..63. */
  lemma EmptyRounds15(v: Vars, w: seq<Word>)
    requires |w| == 80 && Rounds(v, w, 60) == Vars(0xe49eb13219ae2438, 0x609236057876fb24, 0x799468f35676cc4c, 0xcaee8908bbf1631d, 0xa898db3a2bb596a5, 0x8ae2b03e5b3ab9aa, 0x720afa81cb9d67ad, 0xe57021ab01b86cfb)
    requires w[60] == 0xb741f8b59c416c21 && w[61] == 0xa3de4a86a2cdbefb
      && w[62] == 0xa6e929fabf4b5fa6 && w[63] == 0xeabfcd669f8d15a1
    ensures Rounds(v, w, 64) == Vars(0xe8714bfa97e042ca, 0x64a49e3eddfeb162, 0x64dabf682b24168d, 0x836ea49fef04bf7d, 0x52f1f7d1aac02237, 0x7779f9b21cfc8a23, 0xc97ba2ca5b3ce60d, 0x750c66ad5179b45f)
  {
    RoundConstant60();
    RoundConstant61();
    RoundConstant62();
    RoundConstant63();
    EmptyRoundValues15();
    RoundsStep(v, w, 60, Vars(0xe49eb13219ae2438, 0x609236057876fb24, 0x799468f35676cc4c, 0xcaee8908bbf1631d, 0xa898db3a2bb596a5, 0x8ae2b03e5b3ab9aa, 0x720afa81cb9d67ad, 0xe57021ab01b86cfb),
               0x90befffa23631e28, 0xb741f8b59c416c21,
               Vars(0x836ea49fef04bf7d, 0xe49eb13219ae2438, 0x609236057876fb24, 0x799468f35676cc4c, 0x750c66ad5179b45f, 0xa898db3a2bb596a5, 0x8ae2b03e5b3ab9aa, 0x720afa81cb9d67ad));
    RoundsStep(v, w, 61, Vars(0x836ea49fef04bf7d, 0xe49eb13219ae2438, 0x609236057876fb24, 0x799468f35676cc4c, 0x750c66ad5179b45f, 0xa898db3a2bb596a5, 0x8ae2b03e5b3ab9aa, 0x720afa81cb9d67ad),
               0xa4506cebde82bde9, 0xa3de4a86a2cdbefb,
               Vars(0x64dabf682b24168d, 0x836ea49fef04bf7d, 0xe49eb13219ae2438, 0x609236057876fb24, 0xc97ba2ca5b3ce60d, 0x750c66ad5179b45f, 0xa898db3a2bb596a5, 0x8ae2b03e5b3ab9aa));
    RoundsStep(v, w, 62, Vars(0x64dabf682b24168d, 0x836ea49fef04bf7d, 0xe49eb13219ae2438, 0x609236057876fb24, 0xc97ba2ca5b3ce60d, 0x750c66ad5179b45f, 0xa898db3a2bb596a5, 0x8ae2b03e5b3ab9aa),
               0xbef9a3f7b2c67915, 0xa6e929fabf4b5fa6,
               Vars(0x64a49e3eddfeb162, 0x64dabf682b24168d, 0x836ea49fef04bf7d, 0xe49eb13219ae2438, 0x7779f9b21cfc8a23, 0xc97ba2ca5b3ce60d, 0x750c66ad5179b45f, 0xa898db3a2bb596a5));
    RoundsStep(v, w, 63, Vars(0x64a49e3eddfeb162, 0x64dabf682b24168d, 0x836ea49fef04bf7d, 0xe49eb13219ae2438, 0x7779f9b21cfc8a23, 0xc97ba2ca5b3ce60d, 0x750c66ad5179b45f, 0xa898db3a2bb596a5),
               0xc67178f2e372532b, 0xeabfcd669f8d15a1,
               Vars(0xe8714bfa97e042ca, 0x64a49e3eddfeb162, 0x64dabf682b24168d, 0x836ea49fef04bf7d, 0x52f1f7d1aac02237, 0x7779f9b21cfc8a23, 0xc97ba2ca5b3ce60d, 0x750c66ad5179b45f));
  }

  /** The results of rounds 64..67 on their working variables. */
  lemma EmptyRoundValues16()
    ensures Round(Vars(0xe8714bfa97e042ca, 0x64a49e3eddfeb162, 0x64dabf682b24168d, 0x836ea49fef04bf7d, 0x52f1f7d1aac02237, 0x7779f9b21cfc8a23, 0xc97ba2ca5b3ce60d, 0x750c66ad5179b45f),
              0xca273eceea26619c, 0x31543abe8df78e7b)
        == Vars(0x484e6d54256c4676, 0xe8714bfa97e042ca, 0x64a49e3eddfeb162, 0x64dabf682b24168d, 0x37f875dfcbb4e369, 0x52f1f7d1aac02237, 0x7779f9b21cfc8a23, 0xc97ba2ca5b3ce60d)
      && Round(Vars(0x484e6d54256c4676, 0xe8714bfa97e042ca, 0x64a49e3eddfeb162, 0x64dabf682b24168d, 0x37f875dfcbb4e369, 0x52f1f7d1aac02237, 0x7779f9b21cfc8a23, 0xc97ba2ca5b3ce60d),
              0xd186b8c721c0c207, 0x47a4d932de3912aa)
        == Vars(0xf06e791908e41a14, 0x484e6d54256c4676, 0xe8714bfa97e042ca, 0x64a49e3eddfeb162, 0xf50f3a8ca3b61b72, 0x37f875dfcbb4e369, 0x52f1f7d1aac02237, 0x7779f9b21cfc8a23)
      && Round(Vars(0xf06e791908e41a14, 0x484e6d54256c4676, 0xe8714bfa97e042ca, 0x64a49e3eddfeb162, 0xf50f3a8ca3b61b72, 0x37f875dfcbb4e369, 0x52f1f7d1aac02237, 0x7779f9b21cfc8a23),
              0xeada7dd6cde0eb1e, 0x1b7b74730d955557)
        == Vars(0x49e76da23b53251f, 0xf06e791908e41a14, 0x484e6d54256c4676, 0xe8714bfa97e042ca, 0xc7b4328b0050c107, 0xf50f3a8ca3b61b72, 0x37f875dfcbb4e369, 0x52f1f7d1aac02237)
      && Round(Vars(0x49e76da23b53251f, 0xf06e791908e41a14, 0x484e6d54256c4676, 0xe8714bfa97e042ca, 0xc7b4328b0050c107, 0xf50f3a8ca3b61b72, 0x37f875dfcbb4e369, 0x52f1f7d1aac02237),
              0xf57d4f7fee6ed178, 0x28479d455a812eb7)
        == Vars(0x9fe0cfdaa0d236c4, 0x49e76da23b53251f, 0xf06e791908e41a14, 0x484e6d54256c4676, 0xc0536fcb9cb1a3e8, 0xc7b4328b0050c107, 0xf50f3a8ca3b61b72, 0x37f875dfcbb4e369)
  {
  }

  /** Rounds 64..67. */
  lemma EmptyRounds16(v: Vars, w: seq<Word>)
    requires |w| == 80 && Rounds(v, w, 64) == Vars(0xe8714bfa97e042ca, 0x64a49e3eddfeb162, 0x64dabf682b24168d, 0x836ea49fef04bf7d, 0x52f1f7d1aac02237, 0x7779f9b21cfc8a23, 0xc97ba2ca5b3ce60d, 0x750c66ad5179b45f)
    requires w[64] == 0x31543abe8df78e7b && w[65] == 0x47a4d932de3912aa
      && w[66] == 0x1b7b74730d955557 && w[67] == 0x28479d455a812eb7
    ensures Rounds(v, w, 68) == Vars(0x9fe0cfdaa0d236c4, 0x49e76da23b53251f, 0xf06e791908e41a14, 0x484e6d54256c4676, 0xc0536fcb9cb1a3e8, 0xc7b4328b0050c107, 0xf50f3a8ca3b61b72, 0x37f875dfcbb4e369)
  {
    RoundConstant64();
    RoundConstant65();
    RoundConstant66();
    RoundConstant67();
    EmptyRoundValues16();
    RoundsStep(v, w, 64, Vars(0xe8714bfa97e042ca, 0x64a49e3eddfeb162, 0x64dabf682b24168d, 0x836ea49fef04bf7d, 0x52f1f7d1aac02237, 0x7779f9b21cfc8a23, 0xc97ba2ca5b3ce60d, 0x750c66ad5179b45f),
               0xca273eceea26619c, 0x31543abe8df78e7b,
               Vars(0x484e6d54256c4676, 0xe8714bfa97e042ca, 0x64a49e3eddfeb162, 0x64dabf682b24168d, 0x37f875dfcbb4e369, 0x52f1f7d1aac02237, 0x7779f9b21cfc8a23, 0xc97ba2ca5b3ce60d));
    RoundsStep(v, w, 65, Vars(0x484e6d54256c4676, 0xe8714bfa97e042ca, 0x64a49e3eddfeb162, 0x64dabf682b24168d, 0x37f875dfcbb4e369, 0x52f1f7d1aac02237, 0x7779f9b21cfc8a23, 0xc97ba2ca5b3ce60d),
               0xd186b8c721c0c207, 0x47a4d932de3912aa,
               Vars(0xf06e791908e41a14, 0x484e6d54256c4676, 0xe8714bfa97e042ca, 0x64a49e3eddfeb162, 0xf50f3a8ca3b61b72, 0x37f875dfcbb4e369, 0x52f1f7d1aac02237, 0x7779f9b21cfc8a23));
    RoundsStep(v, w, 66, Vars(0xf06e791908e41a14, 0x484e6d54256c4676, 0xe8714bfa97e042ca, 0x64a49e3eddfeb162, 0xf50f3a8ca3b61b72, 0x37f875dfcbb4e369, 0x52f1f7d1aac02237, 0x7779f9b21cfc8a23),
               0xeada7dd6cde0eb1e, 0x1b7b74730d955557,
               Vars(0x49e76da23b53251f, 0xf06e791908e41a14, 0x484e6d54256c4676, 0xe8714bfa97e042ca, 0xc7b4328b0050c107, 0xf50f3a8ca3b61b72, 0x37f875dfcbb4e369, 0x52f1f7d1aac02237));
    RoundsStep(v, w, 67, Vars(0x49e76da23b53251f, 0xf06e791908e41a14, 0x484e6d54256c4676, 0xe8714bfa97e042ca, 0xc7b4328b0050c107, 0xf50f3a8ca3b61b72, 0x37f875dfcbb4e369, 0x52f1f7d1aac02237),
               0xf57d4f7fee6ed178, 0x28479d455a812eb7,
               Vars(0x9fe0cfdaa0d236c4, 0x49e76da23b53251f, 0xf06e791908e41a14, 0x484e6d54256c4676, 0xc0536fcb9cb1a3e8, 0xc7b4328b0050c107, 0xf50f3a8ca3b61b72, 0x37f875dfcbb4e369));
  }

  /** The results of rounds 68..71 on their working variables. */
  lemma EmptyRoundValues17()
    ensures Round(Vars(0x9fe0cfdaa0d236c4, 0x49e76da23b53251f, 0xf06e791908e41a14, 0x484e6d54256c4676, 0xc0536fcb9cb1a3e8, 0xc7b4328b0050c107, 0xf50f3a8ca3b61b72, 0x37f875dfcbb4e369),
              0x06f067aa72176fba, 0x43e290aa2b8dfbb6)
        == Vars(0x64bbbd7b96caea1f, 0x9fe0cfdaa0d236c4, 0x49e76da23b53251f, 0xf06e791908e41a14, 0xc2cd77a04299eabe, 0xc0536fcb9cb1a3e8, 0xc7b4328b0050c107, 0xf50f3a8ca3b61b72)
      && Round(Vars(0x64bbbd7b96caea1f, 0x9fe0cfdaa0d236c4, 0x49e76da23b53251f, 0xf06e791908e41a14, 0xc2cd77a04299eabe, 0xc0536fcb9cb1a3e8, 0xc7b4328b0050c107, 0xf50f3a8ca3b61b72),
              0x0a637dc5a2c898a6, 0x9a10daa95e094e1f)
        == Vars(0x2b806e9ae0909816, 0x64bbbd7b96caea1f, 0x9fe0cfdaa0d236c4, 0x49e76da23b53251f, 0x4fd96b138a463c6e, 0xc2cd77a04299eabe, 0xc0536fcb9cb1a3e8, 0xc7b4328b0050c107)
      && Round(Vars(0x2b806e9ae0909816, 0x64bbbd7b96caea1f, 0x9fe0cfdaa0d236c4, 0x49e76da23b53251f, 0x4fd96b138a463c6e, 0xc2cd77a04299eabe, 0xc0536fcb9cb1a3e8, 0xc7b4328b0050c107),
              0x113f9804bef90dae, 0xa29f4d3f35e6a04f)
        == Vars(0xea5385568d13eed9, 0x2b806e9ae0909816, 0x64bbbd7b96caea1f, 0x9fe0cfdaa0d236c4, 0x7fad7cc708e2670d, 0x4fd96b138a463c6e, 0xc2cd77a04299eabe, 0xc0536fcb9cb1a3e8)
      && Round(Vars(0xea5385568d13eed9, 0x2b806e9ae0909816, 0x64bbbd7b96caea1f, 0x9fe0cfdaa0d236c4, 0x7fad7cc708e2670d, 0x4fd96b138a463c6e, 0xc2cd77a04299eabe, 0xc0536fcb9cb1a3e8),
              0x1b710b35131c471b, 0xfe50fb8c257b666d)
        == Vars(0x5a45916d3b423293, 0xea5385568d13eed9, 0x2b806e9ae0909816, 0x64bbbd7b96caea1f, 0xb03281f7eb096c01, 0x7fad7cc708e2670d, 0x4fd96b138a463c6e, 0xc2cd77a04299eabe)
  {
  }

  /** Rounds 68..71. */
  lemma EmptyRounds17(v: Vars, w: seq<Word>)
    requires |w| == 80 && Rounds(v, w, 68) == Vars(0x9fe0cfdaa0d236c4, 0x49e76da23b53251f, 0xf06e791908e41a14, 0x484e6d54256c4676, 0xc0536fcb9cb1a3e8, 0xc7b4328b0050c107, 0xf50f3a8ca3b61b72, 0x37f875dfcbb4e369)
    requires w[68] == 0x43e290aa2b8dfbb6 && w[69] == 0x9a10daa95e094e1f
      && w[70] == 0xa29f4d3f35e6a04f && w[71] == 0xfe50fb8c257b666d
    ensures Rounds(v, w, 72) == Vars(0x5a45916d3b423293, 0xea5385568d13eed9, 0x2b806e9ae0909816, 0x64bbbd7b96caea1f, 0xb03281f7eb096c01, 0x7fad7cc708e2670d, 0x4fd96b138a463c6e, 0xc2cd77a04299eabe)
  {
    RoundConstant68();
    RoundConstant69();
    RoundConstant70();
    RoundConstant71();
    EmptyRoundValues17();
    RoundsStep(v, w, 68, Vars(0x9fe0cfdaa0d236c4, 0x49e76da23b53251f, 0xf06e791908e41a14, 0x484e6d54256c4676, 0xc0536fcb9cb1a3e8, 0xc7b4328b0050c107, 0xf50f3a8ca3b61b72, 0x37f875dfcbb4e369),
               0x06f067aa72176fba, 0x43e290aa2b8dfbb6,
               Vars(0x64bbbd7b96caea1f, 0x9fe0cfdaa0d236c4, 0x49e76da23b53251f, 0xf06e791908e41a14, 0xc2cd77a04299eabe, 0xc0536fcb9cb1a3e8, 0xc7b4328b0050c107, 0xf50f3a8ca3b61b72));
    RoundsStep(v, w, 69, Vars(0x64bbbd7b96caea1f, 0x9fe0cfdaa0d236c4, 0x49e76da23b53251f, 0xf06e791908e41a14, 0xc2cd77a04299eabe, 0xc0536fcb9cb1a3e8, 0xc7b4328b0050c107, 0xf50f3a8ca3b61b72),
               0x0a637dc5a2c898a6, 0x9a10daa95e094e1f,
               Vars(0x2b806e9ae0909816, 0x64bbbd7b96caea1f, 0x9fe0cfdaa0d236c4, 0x49e76da23b53251f, 0x4fd96b138a463c6e, 0xc2cd77a04299eabe, 0xc0536fcb9cb1a3e8, 0xc7b4328b0050c107));
    RoundsStep(v, w, 70, Vars(0x2b806e9ae0909816, 0x64bbbd7b96caea1f, 0x9fe0cfdaa0d236c4, 0x49e76da23b53251f, 0x4fd96b138a463c6e, 0xc2cd77a04299eabe, 0xc0536fcb9cb1a3e8, 0xc7b4328b0050c107),
               0x113f9804bef90dae, 0xa29f4d3f35e6a04f,
               Vars(0xea5385568d13eed9, 0x2b806e9ae0909816, 0x64bbbd7b96caea1f, 0x9fe0cfdaa0d236c4, 0x7fad7cc708e2670d, 0x4fd96b138a463c6e, 0xc2cd77a04299eabe, 0xc0536fcb9cb1a3e8));
    RoundsStep(v, w, 71, Vars(0xea5385568d13eed9, 0x2b806e9ae0909816, 0x64bbbd7b96caea1f, 0x9fe0cfdaa0d236c4, 0x7fad7cc708e2670d, 0x4fd96b138a463c6e, 0xc2cd77a04299eabe, 0xc0536fcb9cb1a3e8),
               0x1b710b35131c471b, 0xfe50fb8c257b666d,
               Vars(0x5a45916d3b423293, 0xea5385568d13eed9, 0x2b806e9ae0909816, 0x64bbbd7b96caea1f, 0xb03281f7eb096c01, 0x7fad7cc708e2670d, 0x4fd96b138a463c6e, 0xc2cd77a04299eabe));
  }

  /** The results of rounds 72..75 on their working variables. */
  lemma EmptyRoundValues18()
    ensures Round(Vars(0x5a45916d3b423293, 0xea5385568d13eed9, 0x2b806e9ae0909816, 0x64bbbd7b96caea1f, 0xb03281f7eb096c01, 0x7fad7cc708e2670d, 0x4fd96b138a463c6e, 0xc2cd77a04299eabe),
              0x28db77f523047d84, 0xae5728a117562e4e)
        == Vars(0xb5a352c12a450ee3, 0x5a45916d3b423293, 0xea5385568d13eed9, 0x2b806e9ae0909816, 0x8f9868e9c38044c5, 0xb03281f7eb096c01, 0x7fad7cc708e2670d, 0x4fd96b138a463c6e)
      && Round(Vars(0xb5a352c12a450ee3, 0x5a45916d3b423293, 0xea5385568d13eed9, 0x2b806e9ae0909816, 0x8f9868e9c38044c5, 0xb03281f7eb096c01, 0x7fad7cc708e2670d, 0x4fd96b138a463c6e),
              0x32caab7b40c72493, 0x50cf3b85bd608790)
        == Vars(0xa147bd85caa4ef49, 0xb5a352c12a450ee3, 0x5a45916d3b423293, 0xea5385568d13eed9, 0x65ef733d0fbb9a85, 0x8f9868e9c38044c5, 0xb03281f7eb096c01, 0x7fad7cc708e2670d)
      && Round(Vars(0xa147bd85caa4ef49, 0xb5a352c12a450ee3, 0x5a45916d3b423293, 0xea5385568d13eed9, 0x65ef733d0fbb9a85, 0x8f9868e9c38044c5, 0xb03281f7eb096c01, 0x7fad7cc708e2670d),
              0x3c9ebe0a15c9bebc, 0x5079b89b7ec0f5d2)
        == Vars(0x394bffbfed23f1e2, 0xa147bd85caa4ef49, 0xb5a352c12a450ee3, 0x5a45916d3b423293, 0x9ee56cba608af9b2, 0x65ef733d0fbb9a85, 0x8f9868e9c38044c5, 0xb03281f7eb096c01)
      && Round(Vars(0x394bffbfed23f1e2, 0xa147bd85caa4ef49, 0xb5a352c12a450ee3, 0x5a45916d3b423293, 0x9ee56cba608af9b2, 0x65ef733d0fbb9a85, 0x8f9868e9c38044c5, 0xb03281f7eb096c01),
              0x431d67c49c100d4c, 0x80fe6c2f41147099)
        == Vars(0x87d3f4f44506733b, 0x394bffbfed23f1e2, 0xa147bd85caa4ef49, 0xb5a352c12a450ee3, 0xda27e122b78321fd, 0x9ee56cba608af9b2, 0x65ef733d0fbb9a85, 0x8f9868e9c38044c5)
  {
  }

  /** Rounds 72..75. */
  lemma EmptyRounds18(v: Vars, w: seq<Word>)
    requires |w| == 80 && Rounds(v, w, 72) == Vars(0x5a45916d3b423293, 0xea5385568d13eed9, 0x2b806e9ae0909816, 0x64bbbd7b96caea1f, 0xb03281f7eb096c01, 0x7fad7cc708e2670d, 0x4fd96b138a463c6e, 0xc2cd77a04299eabe)
    requires w[72] == 0xae5728a117562e4e && w[73] == 0x50cf3b85bd608790
      && w[74] == 0x5079b89b7ec0f5d2 && w[75] == 0x80fe6c2f41147099
    ensures Rounds(v, w, 76) == Vars(0x87d3f4f44506733b, 0x394bffbfed23f1e2, 0xa147bd85caa4ef49, 0xb5a352c12a450ee3, 0xda27e122b78321fd, 0x9ee56cba608af9b2, 0x65ef733d0fbb9a85, 0x8f9868e9c38044c5)
  {
    RoundConstant72();
    RoundConstant73();
    RoundConstant74();
    RoundConstant75();
    EmptyRoundValues18();
    RoundsStep(v, w, 72, Vars(0x5a45916d3b423293, 0xea5385568d13eed9, 0x2b806e9ae0909816, 0x64bbbd7b96caea1f, 0xb03281f7eb096c01, 0x7fad7cc708e2670d, 0x4fd96b138a463c6e, 0xc2cd77a04299eabe),
               0x28db77f523047d84, 0xae5728a117562e4e,
               Vars(0xb5a352c12a450ee3, 0x5a45916d3b423293, 0xea5385568d13eed9, 0x2b806e9ae0909816, 0x8f9868e9c38044c5, 0xb03281f7eb096c01, 0x7fad7cc708e2670d, 0x4fd96b138a463c6e));
    RoundsStep(v, w, 73, Vars(0xb5a352c12a450ee3, 0x5a45916d3b423293, 0xea5385568d13eed9, 0x2b806e9ae0909816, 0x8f9868e9c38044c5, 0xb03281f7eb096c01, 0x7fad7cc708e2670d, 0x4fd96b138a463c6e),
               0x32caab7b40c72493, 0x50cf3b85bd608790,
               Vars(0xa147bd85caa4ef49, 0xb5a352c12a450ee3, 0x5a45916d3b423293, 0xea5385568d13eed9, 0x65ef733d0fbb9a85, 0x8f9868e9c38044c5, 0xb03281f7eb096c01, 0x7fad7cc708e2670d));
    RoundsStep(v, w, 74, Vars(0xa147bd85caa4ef49, 0xb5a352c12a450ee3, 0x5a45916d3b423293, 0xea5385568d13eed9, 0x65ef733d0fbb9a85, 0x8f9868e9c38044c5, 0xb03281f7eb096c01, 0x7fad7cc708e2670d),
               0x3c9ebe0a15c9bebc, 0x5079b89b7ec0f5d2,
               Vars(0x394bffbfed23f1e2, 0xa147bd85caa4ef49, 0xb5a352c12a450ee3, 0x5a45916d3b423293, 0x9ee56cba608af9b2, 0x65ef733d0fbb9a85, 0x8f9868e9c38044c5, 0xb03281f7eb096c01));
    RoundsStep(v, w, 75, Vars(0x394bffbfed23f1e2, 0xa147bd85caa4ef49, 0xb5a352c12a450ee3, 0x5a45916d3b423293, 0x9ee56cba608af9b2, 0x65ef733d0fbb9a85, 0x8f9868e9c38044c5, 0xb03281f7eb096c01),
               0x431d67c49c100d4c, 0x80fe6c2f41147099,
               Vars(0x87d3f4f44506733b, 0x394bffbfed23f1e2, 0xa147bd85caa4ef49, 0xb5a352c12a450ee3, 0xda27e122b78321fd, 0x9ee56cba608af9b2, 0x65ef733d0fbb9a85, 0x8f9868e9c38044c5));
  }

  /** The results of rounds 76..79 on their working variables. */
  lemma EmptyRoundValues19()
    ensures Round(Vars(0x87d3f4f44506733b, 0x394bffbfed23f1e2, 0xa147bd85caa4ef49, 0xb5a352c12a450ee3, 0xda27e122b78321fd, 0x9ee56cba608af9b2, 0x65ef733d0fbb9a85, 0x8f9868e9c38044c5),
              0x4cc5d4becb3e42b6, 0x1894833281bc069b)
        == Vars(0xdea4b3e7744fb2dd, 0x87d3f4f44506733b, 0x394bffbfed23f1e2, 0xa147bd85caa4ef49, 0x49576561e5a9b8c5, 0xda27e122b78321fd, 0x9ee56cba608af9b2, 0x65ef733d0fbb9a85)
      && Round(Vars(0xdea4b3e7744fb2dd, 0x87d3f4f44506733b, 0x394bffbfed23f1e2, 0xa147bd85caa4ef49, 0x49576561e5a9b8c5, 0xda27e122b78321fd, 0x9ee56cba608af9b2, 0x65ef733d0fbb9a85),
              0x597f299cfc657e2a, 0xc700f022a13b0ea9)
        == Vars(0x99b1f0920cc21db1, 0xdea4b3e7744fb2dd, 0x87d3f4f44506733b, 0x394bffbfed23f1e2, 0x443558114bffbd16, 0x49576561e5a9b8c5, 0xda27e122b78321fd, 0x9ee56cba608af9b2)
      && Round(Vars(0x99b1f0920cc21db1, 0xdea4b3e7744fb2dd, 0x87d3f4f44506733b, 0x394bffbfed23f1e2, 0x443558114bffbd16, 0x49576561e5a9b8c5, 0xda27e122b78321fd, 0x9ee56cba608af9b2),
              0x5fcb6fab3ad6faec, 0x3eaf74f620ad78f6)
        == Vars(0x35ec79cb51a2d8cc, 0x99b1f0920cc21db1, 0xdea4b3e7744fb2dd, 0x87d3f4f44506733b, 0x647db0465c408010, 0x443558114bffbd16, 0x49576561e5a9b8c5, 0xda27e122b78321fd)
      && Round(Vars(0x35ec79cb51a2d8cc, 0x99b1f0920cc21db1, 0xdea4b3e7744fb2dd, 0x87d3f4f44506733b, 0x647db0465c408010, 0x443558114bffbd16, 0x49576561e5a9b8c5, 0xda27e122b78321fd),
              0x6c44198c4a475817, 0xd7df914dd9a9f0f1)
        == Vars(0x6579facd8b32efb5, 0x35ec79cb51a2d8cc, 0x99b1f0920cc21db1, 0xdea4b3e7744fb2dd, 0xf6c27ebcaf9f6fdf, 0x647db0465c408010, 0x443558114bffbd16, 0x49576561e5a9b8c5)
  {
  }

  /** Rounds 76..79. */
  lemma EmptyRounds19(v: Vars, w: seq<Word>)
    requires |w| == 80 && Rounds(v, w, 76) == Vars(0x87d3f4f44506733b, 0x394bffbfed23f1e2, 0xa147bd85caa4ef49, 0xb5a352c12a450ee3, 0xda27e122b78321fd, 0x9ee56cba608af9b2, 0x65ef733d0fbb9a85, 0x8f9868e9c38044c5)
    requires w[76] == 0x1894833281bc069b && w[77] == 0xc700f022a13b0ea9
      && w[78] == 0x3eaf74f620ad78f6 && w[79] == 0xd7df914dd9a9f0f1
    ensures Rounds(v, w, 80) == Vars(0x6579facd8b32efb5, 0x35ec79cb51a2d8cc, 0x99b1f0920cc21db1, 0xdea4b3e7744fb2dd, 0xf6c27ebcaf9f6fdf, 0x647db0465c408010, 0x443558114bffbd16, 0x49576561e5a9b8c5)
  {
    RoundConstant76();
    RoundConstant77();
    RoundConstant78();
    RoundConstant79();
    EmptyRoundValues19();
    RoundsStep(v, w, 76, Vars(0x87d3f4f44506733b, 0x394bffbfed23f1e2, 0xa147bd85caa4ef49, 0xb5a352c12a450ee3, 0xda27e122b78321fd, 0x9ee56cba608af9b2, 0x65ef733d0fbb9a85, 0x8f9868e9c38044c5),
               0x4cc5d4becb3e42b6, 0x1894833281bc069b,
               Vars(0xdea4b3e7744fb2dd, 0x87d3f4f44506733b, 0x394bffbfed23f1e2, 0xa147bd85caa4ef49, 0x49576561e5a9b8c5, 0xda27e122b78321fd, 0x9ee56cba608af9b2, 0x65ef733d0fbb9a85));
    RoundsStep(v, w, 77, Vars(0xdea4b3e7744fb2dd, 0x87d3f4f44506733b, 0x394bffbfed23f1e2, 0xa147bd85caa4ef49, 0x49576561e5a9b8c5, 0xda27e122b78321fd, 0x9ee56cba608af9b2, 0x65ef733d0fbb9a85),
               0x597f299cfc657e2a, 0xc700f022a13b0ea9,
               Vars(0x99b1f0920cc21db1, 0xdea4b3e7744fb2dd, 0x87d3f4f44506733b, 0x394bffbfed23f1e2, 0x443558114bffbd16, 0x49576561e5a9b8c5, 0xda27e122b78321fd, 0x9ee56cba608af9b2));
    RoundsStep(v, w, 78, Vars(0x99b1f0920cc21db1, 0xdea4b3e7744fb2dd, 0x87d3f4f44506733b, 0x394bffbfed23f1e2, 0x443558114bffbd16, 0x49576561e5a9b8c5, 0xda27e122b78321fd, 0x9ee56cba608af9b2),
               0x5fcb6fab3ad6faec, 0x3eaf74f620ad78f6,
               Vars(0x35ec79cb51a2d8cc, 0x99b1f0920cc21db1, 0xdea4b3e7744fb2dd, 0x87d3f4f44506733b, 0x647db0465c408010, 0x443558114bffbd16, 0x49576561e5a9b8c5, 0xda27e122b78321fd));
    RoundsStep(v, w, 79, Vars(0x35ec79cb51a2d8cc, 0x99b1f0920cc21db1, 0xdea4b3e7744fb2dd, 0x87d3f4f44506733b, 0x647db0465c408010, 0x443558114bffbd16, 0x49576561e5a9b8c5, 0xda27e122b78321fd),
               0x6c44198c4a475817, 0xd7df914dd9a9f0f1,
               Vars(0x6579facd8b32efb5, 0x35ec79cb51a2d8cc, 0x99b1f0920cc21db1, 0xdea4b3e7744fb2dd, 0xf6c27ebcaf9f6fdf, 0x647db0465c408010, 0x443558114bffbd16, 0x49576561e5a9b8c5));
  }

  /** The feed-forward onto the initial hash value. */
  lemma EmptyFeedForward()
    ensures FeedForward(IV, Vars(0x6579facd8b32efb5, 0x35ec79cb51a2d8cc, 0x99b1f0920cc21db1, 0xdea4b3e7744fb2dd, 0xf6c27ebcaf9f6fdf, 0x647db0465c408010, 0x443558114bffbd16, 0x49576561e5a9b8c5))
      == [0xcf83e1357eefb8bd, 0xf1542850d66d8007, 0xd620e4050b5715dc, 0x83f4a921d36ce9ce,
       0x47d0d13c5d85f2b0, 0xff8318d2877eec2f, 0x63b931bd47417a81, 0xa538327af927da3e]
  {
  }

  /** The compression of that block from the initial hash value. */
  lemma EmptyTransform(b: Block)
    requires b[0..8] == [0x80, 0x00, 0x00, 0x00, 0x00, 0x00, 0x00, 0x00]
      && b[8..16] == [0x00, 0x00, 0x00, 0x00, 0x00, 0x00, 0x00, 0x00]
      && b[16..24] == [0x00, 0x00, 0x00, 0x00, 0x00, 0x00, 0x00, 0x00]
      && b[24..32] == [0x00, 0x00, 0x00, 0x00, 0x00, 0x00, 0x00, 0x00]
      && b[32..40] == [0x00, 0x00, 0x00, 0x00, 0x00, 0x00, 0x00, 0x00]
      && b[40..48] == [0x00, 0x00, 0x00, 0x00, 0x00, 0x00, 0x00, 0x00]
      && b[48..56] == [0x00, 0x00, 0x00, 0x00, 0x00, 0x00, 0x00, 0x00]
      && b[56..64] == [0x00, 0x00, 0x00, 0x00, 0x00, 0x00, 0x00, 0x00]
      && b[64..72] == [0x00, 0x00, 0x00, 0x00, 0x00, 0x00, 0x00, 0x00]
      && b[72..80] == [0x00, 0x00, 0x00, 0x00, 0x00, 0x00, 0x00, 0x00]
      && b[80..88] == [0x00, 0x00, 0x00, 0x00, 0x00, 0x00, 0x00, 0x00]
      && b[88..96] == [0x00, 0x00, 0x00, 0x00, 0x00, 0x00, 0x00, 0x00]
      && b[96..104] == [0x00, 0x00, 0x00, 0x00, 0x00, 0x00, 0x00, 0x00]
      && b[104..112] == [0x00, 0x00, 0x00, 0x00, 0x00, 0x00, 0x00, 0x00]
      && b[112..120] == [0x00, 0x00, 0x00, 0x00, 0x00, 0x00, 0x00, 0x00]
      && b[120..128] == [0x00, 0x00, 0x00, 0x00, 0x00, 0x00, 0x00, 0x00]
    ensures Transform(IV, b)
      == [0xcf83e1357eefb8bd, 0xf1542850d66d8007, 0xd620e4050b5715dc, 0x83f4a921d36ce9ce,
       0x47d0d13c5d85f2b0, 0xff8318d2877eec2f, 0x63b931bd47417a81, 0xa538327af927da3e]
  {
    EmptySchedule(b);
    var v, w := Load(IV), Schedule(b);
    LoadInitial();
    EmptyRounds0(v, w);
    EmptyRounds1(v, w);
    EmptyRounds2(v, w);
    EmptyRounds3(v, w);
    EmptyRounds4(v, w);
    EmptyRounds5(v, w);
    EmptyRounds6(v, w);
    EmptyRounds7(v, w);
    EmptyRounds8(v, w);
    EmptyRounds9(v, w);
    EmptyRounds10(v, w);
    EmptyRounds11(v, w);
    EmptyRounds12(v, w);
    EmptyRounds13(v, w);
    EmptyRounds14(v, w);
    EmptyRounds15(v, w);
    EmptyRounds16(v, w);
    EmptyRounds17(v, w);
    EmptyRounds18(v, w);
    EmptyRounds19(v, w);
    EmptyFeedForward();
  }

  /** The digest of the empty message: its eight words, big-endian, are
      cf83e1357eefb8bdf1542850d66d8007d620e4050b5715dc83f4a921d36ce9ce
      47d0d13c5d85f2b0ff8318d2877eec2f63b931bd47417a81a538327af927da3e. */
  lemma EmptyDigest(m: seq<Byte>)
    requires m == []
    ensures Digest(m) == Serialize([0xcf83e1357eefb8bd, 0xf1542850d66d8007, 0xd620e4050b5715dc, 0x83f4a921d36ce9ce,
                                 0x47d0d13c5d85f2b0, 0xff8318d2877eec2f, 0x63b931bd47417a81, 0xa538327af927da3e])
  {
    var b := Pad(m);
    EmptyPadded(m);
    EmptyTransform(b);
    SingleBlock(IV, b);
  }

  /** The words of that digest as bytes. */
  lemma EmptyDigestWordBytes()
    ensures WordToBytes(0xcf83e1357eefb8bd) == [0xcf, 0x83, 0xe1, 0x35, 0x7e, 0xef, 0xb8, 0xbd]
      && WordToBytes(0xf1542850d66d8007) == [0xf1, 0x54, 0x28, 0x50, 0xd6, 0x6d, 0x80, 0x07]
      && WordToBytes(0xd620e4050b5715dc) == [0xd6, 0x20, 0xe4, 0x05, 0x0b, 0x57, 0x15, 0xdc]
      && WordToBytes(0x83f4a921d36ce9ce) == [0x83, 0xf4, 0xa9, 0x21, 0xd3, 0x6c, 0xe9, 0xce]
      && WordToBytes(0x47d0d13c5d85f2b0) == [0x47, 0xd0, 0xd1, 0x3c, 0x5d, 0x85, 0xf2, 0xb0]
      && WordToBytes(0xff8318d2877eec2f) == [0xff, 0x83, 0x18, 0xd2, 0x87, 0x7e, 0xec, 0x2f]
      && WordToBytes(0x63b931bd47417a81) == [0x63, 0xb9, 0x31, 0xbd, 0x47, 0x41, 0x7a, 0x81]
      && WordToBytes(0xa538327af927da3e) == [0xa5, 0x38, 0x32, 0x7a, 0xf9, 0x27, 0xda, 0x3e]
  {
  }

  /** That digest as the 64-byte array the crate's test expects, 8 bytes
      at a time. */
  lemma EmptyExpected(r: seq<Byte>)
    requires r == Serialize([0xcf83e1357eefb8bd, 0xf1542850d66d8007, 0xd620e4050b5715dc, 0x83f4a921d36ce9ce, 0x47d0d13c5d85f2b0, 0xff8318d2877eec2f, 0x63b931bd47417a81, 0xa538327af927da3e])
    ensures |r| == 64
      && r[0..8] == [0xcf, 0x83, 0xe1, 0x35, 0x7e, 0xef, 0xb8, 0xbd]
      && r[8..16] == [0xf1, 0x54, 0x28, 0x50, 0xd6, 0x6d, 0x80, 0x07]
      && r[16..24] == [0xd6, 0x20, 0xe4, 0x05, 0x0b, 0x57, 0x15, 0xdc]
      && r[24..32] == [0x83, 0xf4, 0xa9, 0x21, 0xd3, 0x6c, 0xe9, 0xce]
      && r[32..40] == [0x47, 0xd0, 0xd1, 0x3c, 0x5d, 0x85, 0xf2, 0xb0]
      && r[40..48] == [0xff, 0x83, 0x18, 0xd2, 0x87, 0x7e, 0xec, 0x2f]
      && r[48..56] == [0x63, 0xb9, 0x31, 0xbd, 0x47, 0x41, 0x7a, 0x81]
      && r[56..64] == [0xa5, 0x38, 0x32, 0x7a, 0xf9, 0x27, 0xda, 0x3e]
  {
    var h: seq<Word> := [0xcf83e1357eefb8bd, 0xf1542850d66d8007, 0xd620e4050b5715dc, 0x83f4a921d36ce9ce, 0x47d0d13c5d85f2b0, 0xff8318d2877eec2f, 0x63b931bd47417a81, 0xa538327af927da3e];
    EmptyDigestWordBytes();
    SerializedWord(h, 0, 0xcf83e1357eefb8bd, [0xcf, 0x83, 0xe1, 0x35, 0x7e, 0xef, 0xb8, 0xbd]);
    SerializedWord(h, 1, 0xf1542850d66d8007, [0xf1, 0x54, 0x28, 0x50, 0xd6, 0x6d, 0x80, 0x07]);
    SerializedWord(h, 2, 0xd620e4050b5715dc, [0xd6, 0x20, 0xe4, 0x05, 0x0b, 0x57, 0x15, 0xdc]);
    SerializedWord(h, 3, 0x83f4a921d36ce9ce, [0x83, 0xf4, 0xa9, 0x21, 0xd3, 0x6c, 0xe9, 0xce]);
    SerializedWord(h, 4, 0x47d0d13c5d85f2b0, [0x47, 0xd0, 0xd1, 0x3c, 0x5d, 0x85, 0xf2, 0xb0]);
    SerializedWord(h, 5, 0xff8318d2877eec2f, [0xff, 0x83, 0x18, 0xd2, 0x87, 0x7e, 0xec, 0x2f]);
    SerializedWord(h, 6, 0x63b931bd47417a81, [0x63, 0xb9, 0x31, 0xbd, 0x47, 0x41, 0x7a, 0x81]);
    SerializedWord(h, 7, 0xa538327af927da3e, [0xa5, 0x38, 0x32, 0x7a, 0xf9, 0x27, 0xda, 0x3e]);
  }

  /** `test_sha512_empty`: a fresh hasher fed [] finalizes to the expected
      digest. */
  method TestSha512Empty() returns (r: seq<Byte>)
    ensures |r| == 64
      && r[0..8] == [0xcf, 0x83, 0xe1, 0x35, 0x7e, 0xef, 0xb8, 0xbd]
      && r[8..16] == [0xf1, 0x54, 0x28, 0x50, 0xd6, 0x6d, 0x80, 0x07]
      && r[16..24] == [0xd6, 0x20, 0xe4, 0x05, 0x0b, 0x57, 0x15, 0xdc]
      && r[24..32] == [0x83, 0xf4, 0xa9, 0x21, 0xd3, 0x6c, 0xe9, 0xce]
      && r[32..40] == [0x47, 0xd0, 0xd1, 0x3c, 0x5d, 0x85, 0xf2, 0xb0]
      && r[40..48] == [0xff, 0x83, 0x18, 0xd2, 0x87, 0x7e, 0xec, 0x2f]
      && r[48..56] == [0x63, 0xb9, 0x31, 0xbd, 0x47, 0x41, 0x7a, 0x81]
      && r[56..64] == [0xa5, 0x38, 0x32, 0x7a, 0xf9, 0x27, 0xda, 0x3e]
  {
    var msg: seq<Byte> := [];
    var hasher := new Hasher();
    hasher.Update(msg);
    assert hasher.absorbed == msg;
    r := hasher.Finalize();
    EmptyDigest(msg);
    EmptyExpected(r);
  }


  // ---------------------------------------------------------------------
  // The message "abc"

  /** The padded block of the message "abc", byte by byte. */
  lemma AbcPadded(m: seq<Byte>)
    requires m == [0x61, 0x62, 0x63]
    ensures var b := Pad(m);
      && |b| == 128
      && b[0..8] == [0x61, 0x62, 0x63, 0x80, 0x00, 0x00, 0x00, 0x00]
      && b[8..16] == [0x00, 0x00, 0x00, 0x00, 0x00, 0x00, 0x00, 0x00]
      && b[16..24] == [0x00, 0x00, 0x00, 0x00, 0x00, 0x00, 0x00, 0x00]
      && b[24..32] == [0x00, 0x00, 0x00, 0x00, 0x00, 0x00, 0x00, 0x00]
      && b[32..40] == [0x00, 0x00, 0x00, 0x00, 0x00, 0x00, 0x00, 0x00]
      && b[40..48] == [0x00, 0x00, 0x00, 0x00, 0x00, 0x00, 0x00, 0x00]
      && b[48..56] == [0x00, 0x00, 0x00, 0x00, 0x00, 0x00, 0x00, 0x00]
      && b[56..64] == [0x00, 0x00, 0x00, 0x00, 0x00, 0x00, 0x00, 0x00]
      && b[64..72] == [0x00, 0x00, 0x00, 0x00, 0x00, 0x00, 0x00, 0x00]
      && b[72..80] == [0x00, 0x00, 0x00, 0x00, 0x00, 0x00, 0x00, 0x00]
      && b[80..88] == [0x00, 0x00, 0x00, 0x00, 0x00, 0x00, 0x00, 0x00]
      && b[88..96] == [0x00, 0x00, 0x00, 0x00, 0x00, 0x00, 0x00, 0x00]
      && b[96..104] == [0x00, 0x00, 0x00, 0x00, 0x00, 0x00, 0x00, 0x00]
      && b[104..112] == [0x00, 0x00, 0x00, 0x00, 0x00, 0x00, 0x00, 0x00]
      && b[112..120] == [0x00, 0x00, 0x00, 0x00, 0x00, 0x00, 0x00, 0x00]
      && b[120..128] == [0x00, 0x00, 0x00, 0x00, 0x00, 0x00, 0x00, 0x18]
  {
    PadShort(m);
    ToByteOfByte(0x18);
    var b := Pad(m);
    AbcBytes(m, b);
    AbcSlices(b);
  }

  /** The sixteen eight-byte slices of that block. */
  lemma AbcSlices(b: seq<Byte>)
    requires |b| == 128
      && b[0] == 0x61 && b[1] == 0x62 && b[2] == 0x63 && b[3] == 0x80 && b[4] == 0x00 && b[5] == 0x00 && b[6] == 0x00 && b[7] == 0x00
      && b[8] == 0x00 && b[9] == 0x00 && b[10] == 0x00 && b[11] == 0x00 && b[12] == 0x00 && b[13] == 0x00 && b[14] == 0x00 && b[15] == 0x00
      && b[16] == 0x00 && b[17] == 0x00 && b[18] == 0x00 && b[19] == 0x00 && b[20] == 0x00 && b[21] == 0x00 && b[22] == 0x00 && b[23] == 0x00
      && b[24] == 0x00 && b[25] == 0x00 && b[26] == 0x00 && b[27] == 0x00 && b[28] == 0x00 && b[29] == 0x00 && b[30] == 0x00 && b[31] == 0x00
      && b[32] == 0x00 && b[33] == 0x00 && b[34] == 0x00 && b[35] == 0x00 && b[36] == 0x00 && b[37] == 0x00 && b[38] == 0x00 && b[39] == 0x00
      && b[40] == 0x00 && b[41] == 0x00 && b[42] == 0x00 && b[43] == 0x00 && b[44] == 0x00 && b[45] == 0x00 && b[46] == 0x00 && b[47] == 0x00
      && b[48] == 0x00 && b[49] == 0x00 && b[50] == 0x00 && b[51] == 0x00 && b[52] == 0x00 && b[53] == 0x00 && b[54] == 0x00 && b[55] == 0x00
      && b[56] == 0x00 && b[57] == 0x00 && b[58] == 0x00 && b[59] == 0x00 && b[60] == 0x00 && b[61] == 0x00 && b[62] == 0x00 && b[63] == 0x00
      && b[64] == 0x00 && b[65] == 0x00 && b[66] == 0x00 && b[67] == 0x00 && b[68] == 0x00 && b[69] == 0x00 && b[70] == 0x00 && b[71] == 0x00
      && b[72] == 0x00 && b[73] == 0x00 && b[74] == 0x00 && b[75] == 0x00 && b[76] == 0x00 && b[77] == 0x00 && b[78] == 0x00 && b[79] == 0x00
      && b[80] == 0x00 && b[81] == 0x00 && b[82] == 0x00 && b[83] == 0x00 && b[84] == 0x00 && b[85] == 0x00 && b[86] == 0x00 && b[87] == 0x00
      && b[88] == 0x00 && b[89] == 0x00 && b[90] == 0x00 && b[91] == 0x00 && b[92] == 0x00 && b[93] == 0x00 && b[94] == 0x00 && b[95] == 0x00
      && b[96] == 0x00 && b[97] == 0x00 && b[98] == 0x00 && b[99] == 0x00 && b[100] == 0x00 && b[101] == 0x00 && b[102] == 0x00 && b[103] == 0x00
      && b[104] == 0x00 && b[105] == 0x00 && b[106] == 0x00 && b[107] == 0x00 && b[108] == 0x00 && b[109] == 0x00 && b[110] == 0x00 && b[111] == 0x00
      && b[112] == 0x00 && b[113] == 0x00 && b[114] == 0x00 && b[115] == 0x00 && b[116] == 0x00 && b[117] == 0x00 && b[118] == 0x00 && b[119] == 0x00
      && b[120] == 0x00 && b[121] == 0x00 && b[122] == 0x00 && b[123] == 0x00 && b[124] == 0x00 && b[125] == 0x00 && b[126] == 0x00 && b[127] == 0x18
    ensures b[0..8] == [0x61, 0x62, 0x63, 0x80, 0x00, 0x00, 0x00, 0x00]
      && b[8..16] == [0x00, 0x00, 0x00, 0x00, 0x00, 0x00, 0x00, 0x00]
      && b[16..24] == [0x00, 0x00, 0x00, 0x00, 0x00, 0x00, 0x00, 0x00]
      && b[24..32] == [0x00, 0x00, 0x00, 0x00, 0x00, 0x00, 0x00, 0x00]
      && b[32..40] == [0x00, 0x00, 0x00, 0x00, 0x00, 0x00, 0x00, 0x00]
      && b[40..48] == [0x00, 0x00, 0x00, 0x00, 0x00, 0x00, 0x00, 0x00]
      && b[48..56] == [0x00, 0x00, 0x00, 0x00, 0x00, 0x00, 0x00, 0x00]
      && b[56..64] == [0x00, 0x00, 0x00, 0x00, 0x00, 0x00, 0x00, 0x00]
      && b[64..72] == [0x00, 0x00, 0x00, 0x00, 0x00, 0x00, 0x00, 0x00]
      && b[72..80] == [0x00, 0x00, 0x00, 0x00, 0x00, 0x00, 0x00, 0x00]
      && b[80..88] == [0x00, 0x00, 0x00, 0x00, 0x00, 0x00, 0x00, 0x00]
      && b[88..96] == [0x00, 0x00, 0x00, 0x00, 0x00, 0x00, 0x00, 0x00]
      && b[96..104] == [0x00, 0x00, 0x00, 0x00, 0x00, 0x00, 0x00, 0x00]
      && b[104..112] == [0x00, 0x00, 0x00, 0x00, 0x00, 0x00, 0x00, 0x00]
      && b[112..120] == [0x00, 0x00, 0x00, 0x00, 0x00, 0x00, 0x00, 0x00]
      && b[120..128] == [0x00, 0x00, 0x00, 0x00, 0x00, 0x00, 0x00, 0x18]
  {
    SliceEight(b, 0);
    SliceEight(b, 8);
    SliceEight(b, 16);
    SliceEight(b, 24);
    SliceEight(b, 32);
    SliceEight(b, 40);
    SliceEight(b, 48);
    SliceEight(b, 56);
    SliceEight(b, 64);
    SliceEight(b, 72);
    SliceEight(b, 80);
    SliceEight(b, 88);
    SliceEight(b, 96);
    SliceEight(b, 104);
    SliceEight(b, 112);
    SliceEight(b, 120);
  }

  /** The bytes of that block read off its four parts. */
  lemma AbcBytes(m: seq<Byte>, b: seq<Byte>)
    requires m == [0x61, 0x62, 0x63]
    requires b == m + [0x80] + Zeros(108) + (Zeros(15) + [0x18])
    ensures |b| == 128
      && b[0] == 0x61 && b[1] == 0x62 && b[2] == 0x63 && b[3] == 0x80 && b[4] == 0x00 && b[5] == 0x00 && b[6] == 0x00 && b[7] == 0x00
      && b[8] == 0x00 && b[9] == 0x00 && b[10] == 0x00 && b[11] == 0x00 && b[12] == 0x00 && b[13] == 0x00 && b[14] == 0x00 && b[15] == 0x00
      && b[16] == 0x00 && b[17] == 0x00 && b[18] == 0x00 && b[19] == 0x00 && b[20] == 0x00 && b[21] == 0x00 && b[22] == 0x00 && b[23] == 0x00
      && b[24] == 0x00 && b[25] == 0x00 && b[26] == 0x00 && b[27] == 0x00 && b[28] == 0x00 && b[29] == 0x00 && b[30] == 0x00 && b[31] == 0x00
      && b[32] == 0x00 && b[33] == 0x00 && b[34] == 0x00 && b[35] == 0x00 && b[36] == 0x00 && b[37] == 0x00 && b[38] == 0x00 && b[39] == 0x00
      && b[40] == 0x00 && b[41] == 0x00 && b[42] == 0x00 && b[43] == 0x00 && b[44] == 0x00 && b[45] == 0x00 && b[46] == 0x00 && b[47] == 0x00
      && b[48] == 0x00 && b[49] == 0x00 && b[50] == 0x00 && b[51] == 0x00 && b[52] == 0x00 && b[53] == 0x00 && b[54] == 0x00 && b[55] == 0x00
      && b[56] == 0x00 && b[57] == 0x00 && b[58] == 0x00 && b[59] == 0x00 && b[60] == 0x00 && b[61] == 0x00 && b[62] == 0x00 && b[63] == 0x00
      && b[64] == 0x00 && b[65] == 0x00 && b[66] == 0x00 && b[67] == 0x00 && b[68] == 0x00 && b[69] == 0x00 && b[70] == 0x00 && b[71] == 0x00
      && b[72] == 0x00 && b[73] == 0x00 && b[74] == 0x00 && b[75] == 0x00 && b[76] == 0x00 && b[77] == 0x00 && b[78] == 0x00 && b[79] == 0x00
      && b[80] == 0x00 && b[81] == 0x00 && b[82] == 0x00 && b[83] == 0x00 && b[84] == 0x00 && b[85] == 0x00 && b[86] == 0x00 && b[87] == 0x00
      && b[88] == 0x00 && b[89] == 0x00 && b[90] == 0x00 && b[91] == 0x00 && b[92] == 0x00 && b[93] == 0x00 && b[94] == 0x00 && b[95] == 0x00
      && b[96] == 0x00 && b[97] == 0x00 && b[98] == 0x00 && b[99] == 0x00 && b[100] == 0x00 && b[101] == 0x00 && b[102] == 0x00 && b[103] == 0x00
      && b[104] == 0x00 && b[105] == 0x00 && b[106] == 0x00 && b[107] == 0x00 && b[108] == 0x00 && b[109] == 0x00 && b[110] == 0x00 && b[111] == 0x00
      && b[112] == 0x00 && b[113] == 0x00 && b[114] == 0x00 && b[115] == 0x00 && b[116] == 0x00 && b[117] == 0x00 && b[118] == 0x00 && b[119] == 0x00
      && b[120] == 0x00 && b[121] == 0x00 && b[122] == 0x00 && b[123] == 0x00 && b[124] == 0x00 && b[125] == 0x00 && b[126] == 0x00 && b[127] == 0x18
  {
  }

  /** The sixteen words of that block, big-endian. */
  lemma AbcWords()
    ensures WordFromBytes([0x61, 0x62, 0x63, 0x80, 0x00, 0x00, 0x00, 0x00]) == 0x6162638000000000
      && WordFromBytes([0x00, 0x00, 0x00, 0x00, 0x00, 0x00, 0x00, 0x00]) == 0x0000000000000000
      && WordFromBytes([0x00, 0x00, 0x00, 0x00, 0x00, 0x00, 0x00, 0x00]) == 0x0000000000000000
      && WordFromBytes([0x00, 0x00, 0x00, 0x00, 0x00, 0x00, 0x00, 0x00]) == 0x0000000000000000
      && WordFromBytes([0x00, 0x00, 0x00, 0x00, 0x00, 0x00, 0x00, 0x00]) == 0x0000000000000000
      && WordFromBytes([0x00, 0x00, 0x00, 0x00, 0x00, 0x00, 0x00, 0x00]) == 0x0000000000000000
      && WordFromBytes([0x00, 0x00, 0x00, 0x00, 0x00, 0x00, 0x00, 0x00]) == 0x0000000000000000
      && WordFromBytes([0x00, 0x00, 0x00, 0x00, 0x00, 0x00, 0x00, 0x00]) == 0x0000000000000000
      && WordFromBytes([0x00, 0x00, 0x00, 0x00, 0x00, 0x00, 0x00, 0x00]) == 0x0000000000000000
      && WordFromBytes([0x00, 0x00, 0x00, 0x00, 0x00, 0x00, 0x00, 0x00]) == 0x0000000000000000
      && WordFromBytes([0x00, 0x00, 0x00, 0x00, 0x00, 0x00, 0x00, 0x00]) == 0x0000000000000000
      && WordFromBytes([0x00, 0x00, 0x00, 0x00, 0x00, 0x00, 0x00, 0x00]) == 0x0000000000000000
      && WordFromBytes([0x00, 0x00, 0x00, 0x00, 0x00, 0x00, 0x00, 0x00]) == 0x0000000000000000
      && WordFromBytes([0x00, 0x00, 0x00, 0x00, 0x00, 0x00, 0x00, 0x00]) == 0x0000000000000000
      && WordFromBytes([0x00, 0x00, 0x00, 0x00, 0x00, 0x00, 0x00, 0x00]) == 0x0000000000000000
      && WordFromBytes([0x00, 0x00, 0x00, 0x00, 0x00, 0x00, 0x00, 0x18]) == 0x0000000000000018
  {
  }

  /** W[0..15] of that block. */
  lemma AbcLoaded(b: Block)
    requires b[0..8] == [0x61, 0x62, 0x63, 0x80, 0x00, 0x00, 0x00, 0x00]
      && b[8..16] == [0x00, 0x00, 0x00, 0x00, 0x00, 0x00, 0x00, 0x00]
      && b[16..24] == [0x00, 0x00, 0x00, 0x00, 0x00, 0x00, 0x00, 0x00]
      && b[24..32] == [0x00, 0x00, 0x00, 0x00, 0x00, 0x00, 0x00, 0x00]
      && b[32..40] == [0x00, 0x00, 0x00, 0x00, 0x00, 0x00, 0x00, 0x00]
      && b[40..48] == [0x00, 0x00, 0x00, 0x00, 0x00, 0x00, 0x00, 0x00]
      && b[48..56] == [0x00, 0x00, 0x00, 0x00, 0x00, 0x00, 0x00, 0x00]
      && b[56..64] == [0x00, 0x00, 0x00, 0x00, 0x00, 0x00, 0x00, 0x00]
      && b[64..72] == [0x00, 0x00, 0x00, 0x00, 0x00, 0x00, 0x00, 0x00]
      && b[72..80] == [0x00, 0x00, 0x00, 0x00, 0x00, 0x00, 0x00, 0x00]
      && b[80..88] == [0x00, 0x00, 0x00, 0x00, 0x00, 0x00, 0x00, 0x00]
      && b[88..96] == [0x00, 0x00, 0x00, 0x00, 0x00, 0x00, 0x00, 0x00]
      && b[96..104] == [0x00, 0x00, 0x00, 0x00, 0x00, 0x00, 0x00, 0x00]
      && b[104..112] == [0x00, 0x00, 0x00, 0x00, 0x00, 0x00, 0x00, 0x00]
      && b[112..120] == [0x00, 0x00, 0x00, 0x00, 0x00, 0x00, 0x00, 0x00]
      && b[120..128] == [0x00, 0x00, 0x00, 0x00, 0x00, 0x00, 0x00, 0x18]
    ensures var w := Schedule(b);
      && w[0] == 0x6162638000000000 && w[1] == 0x0000000000000000
      && w[2] == 0x0000000000000000 && w[3] == 0x0000000000000000
      && w[4] == 0x0000000000000000 && w[5] == 0x0000000000000000
      && w[6] == 0x0000000000000000 && w[7] == 0x0000000000000000
      && w[8] == 0x0000000000000000 && w[9] == 0x0000000000000000
      && w[10] == 0x0000000000000000 && w[11] == 0x0000000000000000
      && w[12] == 0x0000000000000000 && w[13] == 0x0000000000000000
      && w[14] == 0x0000000000000000 && w[15] == 0x0000000000000018
  {
    AbcWords();
    LoadedWord(b, 0, 0x61, 0x62, 0x63, 0x80, 0x00, 0x00, 0x00, 0x00, 0x6162638000000000);
    LoadedWord(b, 1, 0x00, 0x00, 0x00, 0x00, 0x00, 0x00, 0x00, 0x00, 0x0000000000000000);
    LoadedWord(b, 2, 0x00, 0x00, 0x00, 0x00, 0x00, 0x00, 0x00, 0x00, 0x0000000000000000);
    LoadedWord(b, 3, 0x00, 0x00, 0x00, 0x00, 0x00, 0x00, 0x00, 0x00, 0x0000000000000000);
    LoadedWord(b, 4, 0x00, 0x00, 0x00, 0x00, 0x00, 0x00, 0x00, 0x00, 0x0000000000000000);
    LoadedWord(b, 5, 0x00, 0x00, 0x00, 0x00, 0x00, 0x00, 0x00, 0x00, 0x0000000000000000);
    LoadedWord(b, 6, 0x00, 0x00, 0x00, 0x00, 0x00, 0x00, 0x00, 0x00, 0x0000000000000000);
    LoadedWord(b, 7, 0x00, 0x00, 0x00, 0x00, 0x00, 0x00, 0x00, 0x00, 0x0000000000000000);
    LoadedWord(b, 8, 0x00, 0x00, 0x00, 0x00, 0x00, 0x00, 0x00, 0x00, 0x0000000000000000);
    LoadedWord(b, 9, 0x00, 0x00, 0x00, 0x00, 0x00, 0x00, 0x00, 0x00, 0x0000000000000000);
    LoadedWord(b, 10, 0x00, 0x00, 0x00, 0x00, 0x00, 0x00, 0x00, 0x00, 0x0000000000000000);
    LoadedWord(b, 11, 0x00, 0x00, 0x00, 0x00, 0x00, 0x00, 0x00, 0x00, 0x0000000000000000);
    LoadedWord(b, 12, 0x00, 0x00, 0x00, 0x00, 0x00, 0x00, 0x00, 0x00, 0x0000000000000000);
    LoadedWord(b, 13, 0x00, 0x00, 0x00, 0x00, 0x00, 0x00, 0x00, 0x00, 0x0000000000000000);
    LoadedWord(b, 14, 0x00, 0x00, 0x00, 0x00, 0x00, 0x00, 0x00, 0x00, 0x0000000000000000);
    LoadedWord(b, 15, 0x00, 0x00, 0x00, 0x00, 0x00, 0x00, 0x00, 0x18, 0x0000000000000018);
  }

  /** W[16..23] from W[0..15]. */
  lemma AbcExpanded1(b: Block)
    requires var w := Schedule(b);
      && w[0] == 0x6162638000000000 && w[1] == 0x0000000000000000
      && w[2] == 0x0000000000000000 && w[3] == 0x0000000000000000
      && w[4] == 0x0000000000000000 && w[5] == 0x0000000000000000
      && w[6] == 0x0000000000000000 && w[7] == 0x0000000000000000
      && w[8] == 0x0000000000000000 && w[9] == 0x0000000000000000
      && w[10] == 0x0000000000000000 && w[11] == 0x0000000000000000
      && w[12] == 0x0000000000000000 && w[13] == 0x0000000000000000
      && w[14] == 0x0000000000000000 && w[15] == 0x0000000000000018
    ensures var w := Schedule(b);
      && w[16] == 0x6162638000000000 && w[17] == 0x00030000000000c0
      && w[18] == 0x0a9699a24c700003 && w[19] == 0x00000c0060000603
      && w[20] == 0x549ef62639858996 && w[21] == 0x00c0003300003c00
      && w[22] == 0x1497007a8a0e9dbc && w[23] == 0x62e56500cc0780f0
  {
    ScheduleWordRecurrence(b, 16);
    ScheduleWordRecurrence(b, 17);
    ScheduleWordRecurrence(b, 18);
    ScheduleWordRecurrence(b, 19);
    ScheduleWordRecurrence(b, 20);
    ScheduleWordRecurrence(b, 21);
    ScheduleWordRecurrence(b, 22);
    ScheduleWordRecurrence(b, 23);
  }

  /** W[24..31] from W[8..23]. */
  lemma AbcExpanded2(b: Block)
    requires var w := Schedule(b);
      && w[8] == 0x0000000000000000 && w[9] == 0x0000000000000000
      && w[10] == 0x0000000000000000 && w[11] == 0x0000000000000000
      && w[12] == 0x0000000000000000 && w[13] == 0x0000000000000000
      && w[14] == 0x0000000000000000 && w[15] == 0x0000000000000018
      && w[16] == 0x6162638000000000 && w[17] == 0x00030000000000c0
      && w[18] == 0x0a9699a24c700003 && w[19] == 0x00000c0060000603
      && w[20] == 0x549ef62639858996 && w[21] == 0x00c0003300003c00
      && w[22] == 0x1497007a8a0e9dbc && w[23] == 0x62e56500cc0780f0
    ensures var w := Schedule(b);
      && w[24] == 0x7760dd475a538797 && w[25] == 0xf1554b711c1c0003
      && w[26] == 0xca2993a4345d9ff2 && w[27] == 0x5e0e66b5c783dd32
      && w[28] == 0xe25a625d00494b62 && w[29] == 0x9f44486fb1e4fbd2
      && w[30] == 0xb31b8c2b06085f2f && w[31] == 0x0e987660934142f6
  {
    ScheduleWordRecurrence(b, 24);
    ScheduleWordRecurrence(b, 25);
    ScheduleWordRecurrence(b, 26);
    ScheduleWordRecurrence(b, 27);
    ScheduleWordRecurrence(b, 28);
    ScheduleWordRecurrence(b, 29);
    ScheduleWordRecurrence(b, 30);
    ScheduleWordRecurrence(b, 31);
  }

  /** W[32..39] from W[16..31]. */
  lemma AbcExpanded3(b: Block)
    requires var w := Schedule(b);
      && w[16] == 0x6162638000000000 && w[17] == 0x00030000000000c0
      && w[18] == 0x0a9699a24c700003 && w[19] == 0x00000c0060000603
      && w[20] == 0x549ef62639858996 && w[21] == 0x00c0003300003c00
      && w[22] == 0x1497007a8a0e9dbc && w[23] == 0x62e56500cc0780f0
      && w[24] == 0x7760dd475a538797 && w[25] == 0xf1554b711c1c0003
      && w[26] == 0xca2993a4345d9ff2 && w[27] == 0x5e0e66b5c783dd32
      && w[28] == 0xe25a625d00494b62 && w[29] == 0x9f44486fb1e4fbd2
      && w[30] == 0xb31b8c2b06085f2f && w[31] == 0x0e987660934142f6
    ensures var w := Schedule(b);
      && w[32] == 0xa4af2cfd09fbb924 && w[33] == 0xad289e2e0bd53186
      && w[34] == 0x3c74563aa2f9673e && w[35] == 0x6ccdcd14cc14b53f
      && w[36] == 0xc3f925b337f22bde && w[37] == 0x5bcc77a75ad95b54
      && w[38] == 0x3ec2257adca09a52 && w[39] == 0x28246960001fc5eb
  {
    ScheduleWordRecurrence(b, 32);
    ScheduleWordRecurrence(b, 33);
    ScheduleWordRecurrence(b, 34);
    ScheduleWordRecurrence(b, 35);
    ScheduleWordRecurrence(b, 36);
    ScheduleWordRecurrence(b, 37);
    ScheduleWordRecurrence(b, 38);
    ScheduleWordRecurrence(b, 39);
  }

  /** W[40..47] from W[24..39]. */
  lemma AbcExpanded4(b: Block)
    requires var w := Schedule(b);
      && w[24] == 0x7760dd475a538797 && w[25] == 0xf1554b711c1c0003
      && w[26] == 0xca2993a4345d9ff2 && w[27] == 0x5e0e66b5c783dd32
      && w[28] == 0xe25a625d00494b62 && w[29] == 0x9f44486fb1e4fbd2
      && w[30] == 0xb31b8c2b06085f2f && w[31] == 0x0e987660934142f6
      && w[32] == 0xa4af2cfd09fbb924 && w[33] == 0xad289e2e0bd53186
      && w[34] == 0x3c74563aa2f9673e && w[35] == 0x6ccdcd14cc14b53f
      && w[36] == 0xc3f925b337f22bde && w[37] == 0x5bcc77a75ad95b54
      && w[38] == 0x3ec2257adca09a52 && w[39] == 0x28246960001fc5eb
    ensures var w := Schedule(b);
      && w[40] == 0x04e33a75ce2be88a && w[41] == 0x7d5314b3c359e0e7
      && w[42] == 0xaef7a285ff251266 && w[43] == 0x0b8472581deea04f
      && w[44] == 0xb174e26eddc7b033 && w[45] == 0x5d63bae58ddd88de
      && w[46] == 0x4c044007b744ccbb && w[47] == 0xe6a9aa4d74dc7d43
  {
    ScheduleWordRecurrence(b, 40);
    ScheduleWordRecurrence(b, 41);
    ScheduleWordRecurrence(b, 42);
    ScheduleWordRecurrence(b, 43);
    ScheduleWordRecurrence(b, 44);
    ScheduleWordRecurrence(b, 45);
    ScheduleWordRecurrence(b, 46);
    ScheduleWordRecurrence(b, 47);
  }

  /** W[48..55] from W[32..47]. */
  lemma AbcExpanded5(b: Block)
    requires var w := Schedule(b);
      && w[32] == 0xa4af2cfd09fbb924 && w[33] == 0xad289e2e0bd53186
      && w[34] == 0x3c74563aa2f9673e && w[35] == 0x6ccdcd14cc14b53f
      && w[36] == 0xc3f925b337f22bde && w[37] == 0x5bcc77a75ad95b54
      && w[38] == 0x3ec2257adca09a52 && w[39] == 0x28246960001fc5eb
      && w[40] == 0x04e33a75ce2be88a && w[41] == 0x7d5314b3c359e0e7
      && w[42] == 0xaef7a285ff251266 && w[43] == 0x0b8472581deea04f
      && w[44] == 0xb174e26eddc7b033 && w[45] == 0x5d63bae58ddd88de
      && w[46] == 0x4c044007b744ccbb && w[47] == 0xe6a9aa4d74dc7d43
    ensures var w := Schedule(b);
      && w[48] == 0xebeaf1237248019c && w[49] == 0x361e80b2d00f3193
      && w[50] == 0x2e9839125df3b175 && w[51] == 0x3319629293ad5363
      && w[52] == 0x9cbc5d89ac1b89d5 && w[53] == 0x275e23ffeeca50b7
      && w[54] == 0x3b80d680bf69ef58 && w[55] == 0x0d0696933945a125
  {
    ScheduleWordRecurrence(b, 48);
    ScheduleWordRecurrence(b, 49);
    ScheduleWordRecurrence(b, 50);
    ScheduleWordRecurrence(b, 51);
    ScheduleWordRecurrence(b, 52);
    ScheduleWordRecurrence(b, 53);
    ScheduleWordRecurrence(b, 54);
    ScheduleWordRecurrence(b, 55);
  }

  /** W[56..63] from W[40..55]. */
  lemma AbcExpanded6(b: Block)
    requires var w := Schedule(b);
      && w[40] == 0x04e33a75ce2be88a && w[41] == 0x7d5314b3c359e0e7
      && w[42] == 0xaef7a285ff251266 && w[43] == 0x0b8472581deea04f
      && w[44] == 0xb174e26eddc7b033 && w[45] == 0x5d63bae58ddd88de
      && w[46] == 0x4c044007b744ccbb && w[47] == 0xe6a9aa4d74dc7d43
      && w[48] == 0xebeaf1237248019c && w[49] == 0x361e80b2d00f3193
      && w[50] == 0x2e9839125df3b175 && w[51] == 0x3319629293ad5363
      && w[52] == 0x9cbc5d89ac1b89d5 && w[53] == 0x275e23ffeeca50b7
      && w[54] == 0x3b80d680bf69ef58 && w[55] == 0x0d0696933945a125
    ensures var w := Schedule(b);
      && w[56] == 0x7533eabcb786ff00 && w[57] == 0xb89826cee6fbf0e5
      && w[58] == 0x249b4fbcad623e9f && w[59] == 0x4aea9df2b02d6f1e
      && w[60] == 0x2cc57475a55e8d8f && w[61] == 0xb2574ae938d8be89
      && w[62] == 0xc1b35a57b16d6aea && w[63] == 0xcc4918b5949206bb
  {
    ScheduleWordRecurrence(b, 56);
    ScheduleWordRecurrence(b, 57);
    ScheduleWordRecurrence(b, 58);
    ScheduleWordRecurrence(b, 59);
    ScheduleWordRecurrence(b, 60);
    ScheduleWordRecurrence(b, 61);
    ScheduleWordRecurrence(b, 62);
    ScheduleWordRecurrence(b, 63);
  }

  /** W[64..71] from W[48..63]. */
  lemma AbcExpanded7(b: Block)
    requires var w := Schedule(b);
      && w[48] == 0xebeaf1237248019c && w[49] == 0x361e80b2d00f3193
      && w[50] == 0x2e9839125df3b175 && w[51] == 0x3319629293ad5363
      && w[52] == 0x9cbc5d89ac1b89d5 && w[53] == 0x275e23ffeeca50b7
      && w[54] == 0x3b80d680bf69ef58 && w[55] == 0x0d0696933945a125
      && w[56] == 0x7533eabcb786ff00 && w[57] == 0xb89826cee6fbf0e5
      && w[58] == 0x249b4fbcad623e9f && w[59] == 0x4aea9df2b02d6f1e
      && w[60] == 0x2cc57475a55e8d8f && w[61] == 0xb2574ae938d8be89
      && w[62] == 0xc1b35a57b16d6aea && w[63] == 0xcc4918b5949206bb
    ensures var w := Schedule(b);
      && w[64] == 0x5099c3add79f90ec && w[65] == 0x5ea81d78e7660bf1
      && w[66] == 0xebee6267405ac2a9 && w[67] == 0xb01f21926108a4ab
      && w[68] == 0x786433dd2fe65556 && w[69] == 0xc54a6eaa24a0552c
      && w[70] == 0xb3c8f1530bdbaa9e && w[71] == 0xbb8abfe56f469338
  {
    ScheduleWordRecurrence(b, 64);
    ScheduleWordRecurrence(b, 65);
    ScheduleWordRecurrence(b, 66);
    ScheduleWordRecurrence(b, 67);
    ScheduleWordRecurrence(b, 68);
    ScheduleWordRecurrence(b, 69);
    ScheduleWordRecurrence(b, 70);
    ScheduleWordRecurrence(b, 71);
  }

  /** W[72..79] from W[56..71]. */
  lemma AbcExpanded8(b: Block)
    requires var w := Schedule(b);
      && w[56] == 0x7533eabcb786ff00 && w[57] == 0xb89826cee6fbf0e5
      && w[58] == 0x249b4fbcad623e9f && w[59] == 0x4aea9df2b02d6f1e
      && w[60] == 0x2cc57475a55e8d8f && w[61] == 0xb2574ae938d8be89
      && w[62] == 0xc1b35a57b16d6aea && w[63] == 0xcc4918b5949206bb
      && w[64] == 0x5099c3add79f90ec && w[65] == 0x5ea81d78e7660bf1
      && w[66] == 0xebee6267405ac2a9 && w[67] == 0xb01f21926108a4ab
      && w[68] == 0x786433dd2fe65556 && w[69] == 0xc54a6eaa24a0552c
      && w[70] == 0xb3c8f1530bdbaa9e && w[71] == 0xbb8abfe56f469338
    ensures var w := Schedule(b);
      && w[72] == 0xf63d4265cc1c5a78 && w[73] == 0xbe8355ea73129afb
      && w[74] == 0x49e2db8ebdcfbeb5 && w[75] == 0x82269d4a883a3d99
      && w[76] == 0xfdf53df3011f362b && w[77] == 0x464af5671d71c12e
      && w[78] == 0xe449b68198ec611c && w[79] == 0x92aeeed1a7bcf7d2
  {
    ScheduleWordRecurrence(b, 72);
    ScheduleWordRecurrence(b, 73);
    ScheduleWordRecurrence(b, 74);
    ScheduleWordRecurrence(b, 75);
    ScheduleWordRecurrence(b, 76);
    ScheduleWordRecurrence(b, 77);
    ScheduleWordRecurrence(b, 78);
    ScheduleWordRecurrence(b, 79);
  }

  /** The whole schedule of that block. */
  lemma AbcSchedule(b: Block)
    requires b[0..8] == [0x61, 0x62, 0x63, 0x80, 0x00, 0x00, 0x00, 0x00]
      && b[8..16] == [0x00, 0x00, 0x00, 0x00, 0x00, 0x00, 0x00, 0x00]
      && b[16..24] == [0x00, 0x00, 0x00, 0x00, 0x00, 0x00, 0x00, 0x00]
      && b[24..32] == [0x00, 0x00, 0x00, 0x00, 0x00, 0x00, 0x00, 0x00]
      && b[32..40] == [0x00, 0x00, 0x00, 0x00, 0x00, 0x00, 0x00, 0x00]
      && b[40..48] == [0x00, 0x00, 0x00, 0x00, 0x00, 0x00, 0x00, 0x00]
      && b[48..56] == [0x00, 0x00, 0x00, 0x00, 0x00, 0x00, 0x00, 0x00]
      && b[56..64] == [0x00, 0x00, 0x00, 0x00, 0x00, 0x00, 0x00, 0x00]
      && b[64..72] == [0x00, 0x00, 0x00, 0x00, 0x00, 0x00, 0x00, 0x00]
      && b[72..80] == [0x00, 0x00, 0x00, 0x00, 0x00, 0x00, 0x00, 0x00]
      && b[80..88] == [0x00, 0x00, 0x00, 0x00, 0x00, 0x00, 0x00, 0x00]
      && b[88..96] == [0x00, 0x00, 0x00, 0x00, 0x00, 0x00, 0x00, 0x00]
      && b[96..104] == [0x00, 0x00, 0x00, 0x00, 0x00, 0x00, 0x00, 0x00]
      && b[104..112] == [0x00, 0x00, 0x00, 0x00, 0x00, 0x00, 0x00, 0x00]
      && b[112..120] == [0x00, 0x00, 0x00, 0x00, 0x00, 0x00, 0x00, 0x00]
      && b[120..128] == [0x00, 0x00, 0x00, 0x00, 0x00, 0x00, 0x00, 0x18]
    ensures var w := Schedule(b);
      && w[0] == 0x6162638000000000 && w[1] == 0x0000000000000000
      && w[2] == 0x0000000000000000 && w[3] == 0x0000000000000000
      && w[4] == 0x0000000000000000 && w[5] == 0x0000000000000000
      && w[6] == 0x0000000000000000 && w[7] == 0x0000000000000000
      && w[8] == 0x0000000000000000 && w[9] == 0x0000000000000000
      && w[10] == 0x0000000000000000 && w[11] == 0x0000000000000000
      && w[12] == 0x0000000000000000 && w[13] == 0x0000000000000000
      && w[14] == 0x0000000000000000 && w[15] == 0x0000000000000018
      && w[16] == 0x6162638000000000 && w[17] == 0x00030000000000c0
      && w[18] == 0x0a9699a24c700003 && w[19] == 0x00000c0060000603
      && w[20] == 0x549ef62639858996 && w[21] == 0x00c0003300003c00
      && w[22] == 0x1497007a8a0e9dbc && w[23] == 0x62e56500cc0780f0
      && w[24] == 0x7760dd475a538797 && w[25] == 0xf1554b711c1c0003
      && w[26] == 0xca2993a4345d9ff2 && w[27] == 0x5e0e66b5c783dd32
      && w[28] == 0xe25a625d00494b62 && w[29] == 0x9f44486fb1e4fbd2
      && w[30] == 0xb31b8c2b06085f2f && w[31] == 0x0e987660934142f6
      && w[32] == 0xa4af2cfd09fbb924 && w[33] == 0xad289e2e0bd53186
      && w[34] == 0x3c74563aa2f9673e && w[35] == 0x6ccdcd14cc14b53f
      && w[36] == 0xc3f925b337f22bde && w[37] == 0x5bcc77a75ad95b54
      && w[38] == 0x3ec2257adca09a52 && w[39] == 0x28246960001fc5eb
      && w[40] == 0x04e33a75ce2be88a && w[41] == 0x7d5314b3c359e0e7
      && w[42] == 0xaef7a285ff251266 && w[43] == 0x0b8472581deea04f
      && w[44] == 0xb174e26eddc7b033 && w[45] == 0x5d63bae58ddd88de
      && w[46] == 0x4c044007b744ccbb && w[47] == 0xe6a9aa4d74dc7d43
      && w[48] == 0xebeaf1237248019c && w[49] == 0x361e80b2d00f3193
      && w[50] == 0x2e9839125df3b175 && w[51] == 0x3319629293ad5363
      && w[52] == 0x9cbc5d89ac1b89d5 && w[53] == 0x275e23ffeeca50b7
      && w[54] == 0x3b80d680bf69ef58 && w[55] == 0x0d0696933945a125
      && w[56] == 0x7533eabcb786ff00 && w[57] == 0xb89826cee6fbf0e5
      && w[58] == 0x249b4fbcad623e9f && w[59] == 0x4aea9df2b02d6f1e
      && w[60] == 0x2cc57475a55e8d8f && w[61] == 0xb2574ae938d8be89
      && w[62] == 0xc1b35a57b16d6aea && w[63] == 0xcc4918b5949206bb
      && w[64] == 0x5099c3add79f90ec && w[65] == 0x5ea81d78e7660bf1
      && w[66] == 0xebee6267405ac2a9 && w[67] == 0xb01f21926108a4ab
      && w[68] == 0x786433dd2fe65556 && w[69] == 0xc54a6eaa24a0552c
      && w[70] == 0xb3c8f1530bdbaa9e && w[71] == 0xbb8abfe56f469338
      && w[72] == 0xf63d4265cc1c5a78 && w[73] == 0xbe8355ea73129afb
      && w[74] == 0x49e2db8ebdcfbeb5 && w[75] == 0x82269d4a883a3d99
      && w[76] == 0xfdf53df3011f362b && w[77] == 0x464af5671d71c12e
      && w[78] == 0xe449b68198ec611c && w[79] == 0x92aeeed1a7bcf7d2
  {
    AbcLoaded(b);
    AbcExpanded1(b);
    AbcExpanded2(b);
    AbcExpanded3(b);
    AbcExpanded4(b);
    AbcExpanded5(b);
    AbcExpanded6(b);
    AbcExpanded7(b);
    AbcExpanded8(b);
  }

  /** The results of rounds 0..3 on their working variables. */
  lemma AbcRoundValues0()
    ensures Round(Vars(0x6a09e667f3bcc908, 0xbb67ae8584caa73b, 0x3c6ef372fe94f82b, 0xa54ff53a5f1d36f1, 0x510e527fade682d1, 0x9b05688c2b3e6c1f, 0x1f83d9abfb41bd6b, 0x5be0cd19137e2179),
              0x428a2f98d728ae22, 0x6162638000000000)
        == Vars(0xf6afceb8bcfcddf5, 0x6a09e667f3bcc908, 0xbb67ae8584caa73b, 0x3c6ef372fe94f82b, 0x58cb02347ab51f91, 0x510e527fade682d1, 0x9b05688c2b3e6c1f, 0x1f83d9abfb41bd6b)
      && Round(Vars(0xf6afceb8bcfcddf5, 0x6a09e667f3bcc908, 0xbb67ae8584caa73b, 0x3c6ef372fe94f82b, 0x58cb02347ab51f91, 0x510e527fade682d1, 0x9b05688c2b3e6c1f, 0x1f83d9abfb41bd6b),
              0x7137449123ef65cd, 0x0000000000000000)
        == Vars(0x1320f8c9fb872cc0, 0xf6afceb8bcfcddf5, 0x6a09e667f3bcc908, 0xbb67ae8584caa73b, 0xc3d4ebfd48650ffa, 0x58cb02347ab51f91, 0x510e527fade682d1, 0x9b05688c2b3e6c1f)
      && Round(Vars(0x1320f8c9fb872cc0, 0xf6afceb8bcfcddf5, 0x6a09e667f3bcc908, 0xbb67ae8584caa73b, 0xc3d4ebfd48650ffa, 0x58cb02347ab51f91, 0x510e527fade682d1, 0x9b05688c2b3e6c1f),
              0xb5c0fbcfec4d3b2f, 0x0000000000000000)
        == Vars(0xebcffc07203d91f3, 0x1320f8c9fb872cc0, 0xf6afceb8bcfcddf5, 0x6a09e667f3bcc908, 0xdfa9b239f2697812, 0xc3d4ebfd48650ffa, 0x58cb02347ab51f91, 0x510e527fade682d1)
      && Round(Vars(0xebcffc07203d91f3, 0x1320f8c9fb872cc0, 0xf6afceb8bcfcddf5, 0x6a09e667f3bcc908, 0xdfa9b239f2697812, 0xc3d4ebfd48650ffa, 0x58cb02347ab51f91, 0x510e527fade682d1),
              0xe9b5dba58189dbbc, 0x0000000000000000)
        == Vars(0x5a83cb3e80050e82, 0xebcffc07203d91f3, 0x1320f8c9fb872cc0, 0xf6afceb8bcfcddf5, 0x0b47b4bb1928990e, 0xdfa9b239f2697812, 0xc3d4ebfd48650ffa, 0x58cb02347ab51f91)
  {
  }

  /** Rounds 0..3. */
  lemma AbcRounds0(v: Vars, w: seq<Word>)
    requires |w| == 80 && Rounds(v, w, 0) == Vars(0x6a09e667f3bcc908, 0xbb67ae8584caa73b, 0x3c6ef372fe94f82b, 0xa54ff53a5f1d36f1, 0x510e527fade682d1, 0x9b05688c2b3e6c1f, 0x1f83d9abfb41bd6b, 0x5be0cd19137e2179)
    requires w[0] == 0x6162638000000000 && w[1] == 0x0000000000000000
      && w[2] == 0x0000000000000000 && w[3] == 0x0000000000000000
    ensures Rounds(v, w, 4) == Vars(0x5a83cb3e80050e82, 0xebcffc07203d91f3, 0x1320f8c9fb872cc0, 0xf6afceb8bcfcddf5, 0x0b47b4bb1928990e, 0xdfa9b239f2697812, 0xc3d4ebfd48650ffa, 0x58cb02347ab51f91)
  {
    RoundConstant0();
    RoundConstant1();
    RoundConstant2();
    RoundConstant3();
    AbcRoundValues0();
    RoundsStep(v, w, 0, Vars(0x6a09e667f3bcc908, 0xbb67ae8584caa73b, 0x3c6ef372fe94f82b, 0xa54ff53a5f1d36f1, 0x510e527fade682d1, 0x9b05688c2b3e6c1f, 0x1f83d9abfb41bd6b, 0x5be0cd19137e2179),
               0x428a2f98d728ae22, 0x6162638000000000,
               Vars(0xf6afceb8bcfcddf5, 0x6a09e667f3bcc908, 0xbb67ae8584caa73b, 0x3c6ef372fe94f82b, 0x58cb02347ab51f91, 0x510e527fade682d1, 0x9b05688c2b3e6c1f, 0x1f83d9abfb41bd6b));
    RoundsStep(v, w, 1, Vars(0xf6afceb8bcfcddf5, 0x6a09e667f3bcc908, 0xbb67ae8584caa73b, 0x3c6ef372fe94f82b, 0x58cb02347ab51f91, 0x510e527fade682d1, 0x9b05688c2b3e6c1f, 0x1f83d9abfb41bd6b),
               0x7137449123ef65cd, 0x0000000000000000,
               Vars(0x1320f8c9fb872cc0, 0xf6afceb8bcfcddf5, 0x6a09e667f3bcc908, 0xbb67ae8584caa73b, 0xc3d4ebfd48650ffa, 0x58cb02347ab51f91, 0x510e527fade682d1, 0x9b05688c2b3e6c1f));
    RoundsStep(v, w, 2, Vars(0x1320f8c9fb872cc0, 0xf6afceb8bcfcddf5, 0x6a09e667f3bcc908, 0xbb67ae8584caa73b, 0xc3d4ebfd48650ffa, 0x58cb02347ab51f91, 0x510e527fade682d1, 0x9b05688c2b3e6c1f),
               0xb5c0fbcfec4d3b2f, 0x0000000000000000,
               Vars(0xebcffc07203d91f3, 0x1320f8c9fb872cc0, 0xf6afceb8bcfcddf5, 0x6a09e667f3bcc908, 0xdfa9b239f2697812, 0xc3d4ebfd48650ffa, 0x58cb02347ab51f91, 0x510e527fade682d1));
    RoundsStep(v, w, 3, Vars(0xebcffc07203d91f3, 0x1320f8c9fb872cc0, 0xf6afceb8bcfcddf5, 0x6a09e667f3bcc908, 0xdfa9b239f2697812, 0xc3d4ebfd48650ffa, 0x58cb02347ab51f91, 0x510e527fade682d1),
               0xe9b5dba58189dbbc, 0x0000000000000000,
               Vars(0x5a83cb3e80050e82, 0xebcffc07203d91f3, 0x1320f8c9fb872cc0, 0xf6afceb8bcfcddf5, 0x0b47b4bb1928990e, 0xdfa9b239f2697812, 0xc3d4ebfd48650ffa, 0x58cb02347ab51f91));
  }

  /** The results of rounds 4..7 on their working variables. */
  lemma AbcRoundValues1()
    ensures Round(Vars(0x5a83cb3e80050e82, 0xebcffc07203d91f3, 0x1320f8c9fb872cc0, 0xf6afceb8bcfcddf5, 0x0b47b4bb1928990e, 0xdfa9b239f2697812, 0xc3d4ebfd48650ffa, 0x58cb02347ab51f91),
              0x3956c25bf348b538, 0x0000000000000000)
        == Vars(0xb680953951604860, 0x5a83cb3e80050e82, 0xebcffc07203d91f3, 0x1320f8c9fb872cc0, 0x745aca4a342ed2e2, 0x0b47b4bb1928990e, 0xdfa9b239f2697812, 0xc3d4ebfd48650ffa)
      && Round(Vars(0xb680953951604860, 0x5a83cb3e80050e82, 0xebcffc07203d91f3, 0x1320f8c9fb872cc0, 0x745aca4a342ed2e2, 0x0b47b4bb1928990e, 0xdfa9b239f2697812, 0xc3d4ebfd48650ffa),
              0x59f111f1b605d019, 0x0000000000000000)
        == Vars(0xaf573b02403e89cd, 0xb680953951604860, 0x5a83cb3e80050e82, 0xebcffc07203d91f3, 0x96f60209b6dc35ba, 0x745aca4a342ed2e2, 0x0b47b4bb1928990e, 0xdfa9b239f2697812)
      && Round(Vars(0xaf573b02403e89cd, 0xb680953951604860, 0x5a83cb3e80050e82, 0xebcffc07203d91f3, 0x96f60209b6dc35ba, 0x745aca4a342ed2e2, 0x0b47b4bb1928990e, 0xdfa9b239f2697812),
              0x923f82a4af194f9b, 0x0000000000000000)
        == Vars(0xc4875b0c7abc076b, 0xaf573b02403e89cd, 0xb680953951604860, 0x5a83cb3e80050e82, 0x5a6c781f54dcc00c, 0x96f60209b6dc35ba, 0x745aca4a342ed2e2, 0x0b47b4bb1928990e)
      && Round(Vars(0xc4875b0c7abc076b, 0xaf573b02403e89cd, 0xb680953951604860, 0x5a83cb3e80050e82, 0x5a6c781f54dcc00c, 0x96f60209b6dc35ba, 0x745aca4a342ed2e2, 0x0b47b4bb1928990e),
              0xab1c5ed5da6d8118, 0x0000000000000000)
        == Vars(0x8093d195e0054fa3, 0xc4875b0c7abc076b, 0xaf573b02403e89cd, 0xb680953951604860, 0x86f67263a0f0ec0a, 0x5a6c781f54dcc00c, 0x96f60209b6dc35ba, 0x745aca4a342ed2e2)
  {
  }

  /** Rounds 4..7. */
  lemma AbcRounds1(v: Vars, w: seq<Word>)
    requires |w| == 80 && Rounds(v, w, 4) == Vars(0x5a83cb3e80050e82, 0xebcffc07203d91f3, 0x1320f8c9fb872cc0, 0xf6afceb8bcfcddf5, 0x0b47b4bb1928990e, 0xdfa9b239f2697812, 0xc3d4ebfd48650ffa, 0x58cb02347ab51f91)
    requires w[4] == 0x0000000000000000 && w[5] == 0x0000000000000000
      && w[6] == 0x0000000000000000 && w[7] == 0x0000000000000000
    ensures Rounds(v, w, 8) == Vars(0x8093d195e0054fa3, 0xc4875b0c7abc076b, 0xaf573b02403e89cd, 0xb680953951604860, 0x86f67263a0f0ec0a, 0x5a6c781f54dcc00c, 0x96f60209b6dc35ba, 0x745aca4a342ed2e2)
  {
    RoundConstant4();
    RoundConstant5();
    RoundConstant6();
    RoundConstant7();
    AbcRoundValues1();
    RoundsStep(v, w, 4, Vars(0x5a83cb3e80050e82, 0xebcffc07203d91f3, 0x1320f8c9fb872cc0, 0xf6afceb8bcfcddf5, 0x0b47b4bb1928990e, 0xdfa9b239f2697812, 0xc3d4ebfd48650ffa, 0x58cb02347ab51f91),
               0x3956c25bf348b538, 0x0000000000000000,
               Vars(0xb680953951604860, 0x5a83cb3e80050e82, 0xebcffc07203d91f3, 0x1320f8c9fb872cc0, 0x745aca4a342ed2e2, 0x0b47b4bb1928990e, 0xdfa9b239f2697812, 0xc3d4ebfd48650ffa));
    RoundsStep(v, w, 5, Vars(0xb680953951604860, 0x5a83cb3e80050e82, 0xebcffc07203d91f3, 0x1320f8c9fb872cc0, 0x745aca4a342ed2e2, 0x0b47b4bb1928990e, 0xdfa9b239f2697812, 0xc3d4ebfd48650ffa),
               0x59f111f1b605d019, 0x0000000000000000,
               Vars(0xaf573b02403e89cd, 0xb680953951604860, 0x5a83cb3e80050e82, 0xebcffc07203d91f3, 0x96f60209b6dc35ba, 0x745aca4a342ed2e2, 0x0b47b4bb1928990e, 0xdfa9b239f2697812));
    RoundsStep(v, w, 6, Vars(0xaf573b02403e89cd, 0xb680953951604860, 0x5a83cb3e80050e82, 0xebcffc07203d91f3, 0x96f60209b6dc35ba, 0x745aca4a342ed2e2, 0x0b47b4bb1928990e, 0xdfa9b239f2697812),
               0x923f82a4af194f9b, 0x0000000000000000,
               Vars(0xc4875b0c7abc076b, 0xaf573b02403e89cd, 0xb680953951604860, 0x5a83cb3e80050e82, 0x5a6c781f54dcc00c, 0x96f60209b6dc35ba, 0x745aca4a342ed2e2, 0x0b47b4bb1928990e));
    RoundsStep(v, w, 7, Vars(0xc4875b0c7abc076b, 0xaf573b02403e89cd, 0xb680953951604860, 0x5a83cb3e80050e82, 0x5a6c781f54dcc00c, 0x96f60209b6dc35ba, 0x745aca4a342ed2e2, 0x0b47b4bb1928990e),
               0xab1c5ed5da6d8118, 0x0000000000000000,
               Vars(0x8093d195e0054fa3, 0xc4875b0c7abc076b, 0xaf573b02403e89cd, 0xb680953951604860, 0x86f67263a0f0ec0a, 0x5a6c781f54dcc00c, 0x96f60209b6dc35ba, 0x745aca4a342ed2e2));
  }

  /** The results of rounds 8..11 on their working variables. */
  lemma AbcRoundValues2()
    ensures Round(Vars(0x8093d195e0054fa3, 0xc4875b0c7abc076b, 0xaf573b02403e89cd, 0xb680953951604860, 0x86f67263a0f0ec0a, 0x5a6c781f54dcc00c, 0x96f60209b6dc35ba, 0x745aca4a342ed2e2),
              0xd807aa98a3030242, 0x0000000000000000)
        == Vars(0xf1eca5544cb89225, 0x8093d195e0054fa3, 0xc4875b0c7abc076b, 0xaf573b02403e89cd, 0xd0403c398fc40002, 0x86f67263a0f0ec0a, 0x5a6c781f54dcc00c, 0x96f60209b6dc35ba)
      && Round(Vars(0xf1eca5544cb89225, 0x8093d195e0054fa3, 0xc4875b0c7abc076b, 0xaf573b02403e89cd, 0xd0403c398fc40002, 0x86f67263a0f0ec0a, 0x5a6c781f54dcc00c, 0x96f60209b6dc35ba),
              0x12835b0145706fbe, 0x0000000000000000)
        == Vars(0x81782d4a5db48f03, 0xf1eca5544cb89225, 0x8093d195e0054fa3, 0xc4875b0c7abc076b, 0x00091f460be46c52, 0xd0403c398fc40002, 0x86f67263a0f0ec0a, 0x5a6c781f54dcc00c)
      && Round(Vars(0x81782d4a5db48f03, 0xf1eca5544cb89225, 0x8093d195e0054fa3, 0xc4875b0c7abc076b, 0x00091f460be46c52, 0xd0403c398fc40002, 0x86f67263a0f0ec0a, 0x5a6c781f54dcc00c),
              0x243185be4ee4b28c, 0x0000000000000000)
        == Vars(0x69854c4aa0f25b59, 0x81782d4a5db48f03, 0xf1eca5544cb89225, 0x8093d195e0054fa3, 0xd375471bde1ba3f4, 0x00091f460be46c52, 0xd0403c398fc40002, 0x86f67263a0f0ec0a)
      && Round(Vars(0x69854c4aa0f25b59, 0x81782d4a5db48f03, 0xf1eca5544cb89225, 0x8093d195e0054fa3, 0xd375471bde1ba3f4, 0x00091f460be46c52, 0xd0403c398fc40002, 0x86f67263a0f0ec0a),
              0x550c7dc3d5ffb4e2, 0x0000000000000000)
        == Vars(0xdb0a9963f80c2eaa, 0x69854c4aa0f25b59, 0x81782d4a5db48f03, 0xf1eca5544cb89225, 0x475975b91a7a462c, 0xd375471bde1ba3f4, 0x00091f460be46c52, 0xd0403c398fc40002)
  {
  }

  /** Rounds 8..11. */
  lemma AbcRounds2(v: Vars, w: seq<Word>)
    requires |w| == 80 && Rounds(v, w, 8) == Vars(0x8093d195e0054fa3, 0xc4875b0c7abc076b, 0xaf573b02403e89cd, 0xb680953951604860, 0x86f67263a0f0ec0a, 0x5a6c781f54dcc00c, 0x96f60209b6dc35ba, 0x745aca4a342ed2e2)
    requires w[8] == 0x0000000000000000 && w[9] == 0x0000000000000000
      && w[10] == 0x0000000000000000 && w[11] == 0x0000000000000000
    ensures Rounds(v, w, 12) == Vars(0xdb0a9963f80c2eaa, 0x69854c4aa0f25b59, 0x81782d4a5db48f03, 0xf1eca5544cb89225, 0x475975b91a7a462c, 0xd375471bde1ba3f4, 0x00091f460be46c52, 0xd0403c398fc40002)
  {
    RoundConstant8();
    RoundConstant9();
    RoundConstant10();
    RoundConstant11();
    AbcRoundValues2();
    RoundsStep(v, w, 8, Vars(0x8093d195e0054fa3, 0xc4875b0c7abc076b, 0xaf573b02403e89cd, 0xb680953951604860, 0x86f67263a0f0ec0a, 0x5a6c781f54dcc00c, 0x96f60209b6dc35ba, 0x745aca4a342ed2e2),
               0xd807aa98a3030242, 0x0000000000000000,
               Vars(0xf1eca5544cb89225, 0x8093d195e0054fa3, 0xc4875b0c7abc076b, 0xaf573b02403e89cd, 0xd0403c398fc40002, 0x86f67263a0f0ec0a, 0x5a6c781f54dcc00c, 0x96f60209b6dc35ba));
    RoundsStep(v, w, 9, Vars(0xf1eca5544cb89225, 0x8093d195e0054fa3, 0xc4875b0c7abc076b, 0xaf573b02403e89cd, 0xd0403c398fc40002, 0x86f67263a0f0ec0a, 0x5a6c781f54dcc00c, 0x96f60209b6dc35ba),
               0x12835b0145706fbe, 0x0000000000000000,
               Vars(0x81782d4a5db48f03, 0xf1eca5544cb89225, 0x8093d195e0054fa3, 0xc4875b0c7abc076b, 0x00091f460be46c52, 0xd0403c398fc40002, 0x86f67263a0f0ec0a, 0x5a6c781f54dcc00c));
    RoundsStep(v, w, 10, Vars(0x81782d4a5db48f03, 0xf1eca5544cb89225, 0x8093d195e0054fa3, 0xc4875b0c7abc076b, 0x00091f460be46c52, 0xd0403c398fc40002, 0x86f67263a0f0ec0a, 0x5a6c781f54dcc00c),
               0x243185be4ee4b28c, 0x0000000000000000,
               Vars(0x69854c4aa0f25b59, 0x81782d4a5db48f03, 0xf1eca5544cb89225, 0x8093d195e0054fa3, 0xd375471bde1ba3f4, 0x00091f460be46c52, 0xd0403c398fc40002, 0x86f67263a0f0ec0a));
    RoundsStep(v, w, 11, Vars(0x69854c4aa0f25b59, 0x81782d4a5db48f03, 0xf1eca5544cb89225, 0x8093d195e0054fa3, 0xd375471bde1ba3f4, 0x00091f460be46c52, 0xd0403c398fc40002, 0x86f67263a0f0ec0a),
               0x550c7dc3d5ffb4e2, 0x0000000000000000,
               Vars(0xdb0a9963f80c2eaa, 0x69854c4aa0f25b59, 0x81782d4a5db48f03, 0xf1eca5544cb89225, 0x475975b91a7a462c, 0xd375471bde1ba3f4, 0x00091f460be46c52, 0xd0403c398fc40002));
  }

  /** The results of rounds 12..15 on their working variables. */
  lemma AbcRoundValues3()
    ensures Round(Vars(0xdb0a9963f80c2eaa, 0x69854c4aa0f25b59, 0x81782d4a5db48f03, 0xf1eca5544cb89225, 0x475975b91a7a462c, 0xd375471bde1ba3f4, 0x00091f460be46c52, 0xd0403c398fc40002),
              0x72be5d74f27b896f, 0x0000000000000000)
        == Vars(0x5e41214388186c14, 0xdb0a9963f80c2eaa, 0x69854c4aa0f25b59, 0x81782d4a5db48f03, 0xcdf3bff2883fc9d9, 0x475975b91a7a462c, 0xd375471bde1ba3f4, 0x00091f460be46c52)
      && Round(Vars(0x5e41214388186c14, 0xdb0a9963f80c2eaa, 0x69854c4aa0f25b59, 0x81782d4a5db48f03, 0xcdf3bff2883fc9d9, 0x475975b91a7a462c, 0xd375471bde1ba3f4, 0x00091f460be46c52),
              0x80deb1fe3b1696b1, 0x0000000000000000)
        == Vars(0x44249631255d2ca0, 0x5e41214388186c14, 0xdb0a9963f80c2eaa, 0x69854c4aa0f25b59, 0x860acf9effba6f61, 0xcdf3bff2883fc9d9, 0x475975b91a7a462c, 0xd375471bde1ba3f4)
      && Round(Vars(0x44249631255d2ca0, 0x5e41214388186c14, 0xdb0a9963f80c2eaa, 0x69854c4aa0f25b59, 0x860acf9effba6f61, 0xcdf3bff2883fc9d9, 0x475975b91a7a462c, 0xd375471bde1ba3f4),
              0x9bdc06a725c71235, 0x0000000000000000)
        == Vars(0xfa967eed85a08028, 0x44249631255d2ca0, 0x5e41214388186c14, 0xdb0a9963f80c2eaa, 0x874bfe5f6aae9f2f, 0x860acf9effba6f61, 0xcdf3bff2883fc9d9, 0x475975b91a7a462c)
      && Round(Vars(0xfa967eed85a08028, 0x44249631255d2ca0, 0x5e41214388186c14, 0xdb0a9963f80c2eaa, 0x874bfe5f6aae9f2f, 0x860acf9effba6f61, 0xcdf3bff2883fc9d9, 0x475975b91a7a462c),
              0xc19bf174cf692694, 0x0000000000000018)
        == Vars(0x0ae07c86b1181c75, 0xfa967eed85a08028, 0x44249631255d2ca0, 0x5e41214388186c14, 0xa77b7c035dd4c161, 0x874bfe5f6aae9f2f, 0x860acf9effba6f61, 0xcdf3bff2883fc9d9)
  {
  }

  /** Rounds 12..15. */
  lemma AbcRounds3(v: Vars, w: seq<Word>)
    requires |w| == 80 && Rounds(v, w, 12) == Vars(0xdb0a9963f80c2eaa, 0x69854c4aa0f25b59, 0x81782d4a5db48f03, 0xf1eca5544cb89225, 0x475975b91a7a462c, 0xd375471bde1ba3f4, 0x00091f460be46c52, 0xd0403c398fc40002)
    requires w[12] == 0x0000000000000000 && w[13] == 0x0000000000000000
      && w[14] == 0x0000000000000000 && w[15] == 0x0000000000000018
    ensures Rounds(v, w, 16) == Vars(0x0ae07c86b1181c75, 0xfa967eed85a08028, 0x44249631255d2ca0, 0x5e41214388186c14, 0xa77b7c035dd4c161, 0x874bfe5f6aae9f2f, 0x860acf9effba6f61, 0xcdf3bff2883fc9d9)
  {
    RoundConstant12();
    RoundConstant13();
    RoundConstant14();
    RoundConstant15();
    AbcRoundValues3();
    RoundsStep(v, w, 12, Vars(0xdb0a9963f80c2eaa, 0x69854c4aa0f25b59, 0x81782d4a5db48f03, 0xf1eca5544cb89225, 0x475975b91a7a462c, 0xd375471bde1ba3f4, 0x00091f460be46c52, 0xd0403c398fc40002),
               0x72be5d74f27b896f, 0x0000000000000000,
               Vars(0x5e41214388186c14, 0xdb0a9963f80c2eaa, 0x69854c4aa0f25b59, 0x81782d4a5db48f03, 0xcdf3bff2883fc9d9, 0x475975b91a7a462c, 0xd375471bde1ba3f4, 0x00091f460be46c52));
    RoundsStep(v, w, 13, Vars(0x5e41214388186c14, 0xdb0a9963f80c2eaa, 0x69854c4aa0f25b59, 0x81782d4a5db48f03, 0xcdf3bff2883fc9d9, 0x475975b91a7a462c, 0xd375471bde1ba3f4, 0x00091f460be46c52),
               0x80deb1fe3b1696b1, 0x0000000000000000,
               Vars(0x44249631255d2ca0, 0x5e41214388186c14, 0xdb0a9963f80c2eaa, 0x69854c4aa0f25b59, 0x860acf9effba6f61, 0xcdf3bff2883fc9d9, 0x475975b91a7a462c, 0xd375471bde1ba3f4));
    RoundsStep(v, w, 14, Vars(0x44249631255d2ca0, 0x5e41214388186c14, 0xdb0a9963f80c2eaa, 0x69854c4aa0f25b59, 0x860acf9effba6f61, 0xcdf3bff2883fc9d9, 0x475975b91a7a462c, 0xd375471bde1ba3f4),
               0x9bdc06a725c71235, 0x0000000000000000,
               Vars(0xfa967eed85a08028, 0x44249631255d2ca0, 0x5e41214388186c14, 0xdb0a9963f80c2eaa, 0x874bfe5f6aae9f2f, 0x860acf9effba6f61, 0xcdf3bff2883fc9d9, 0x475975b91a7a462c));
    RoundsStep(v, w, 15, Vars(0xfa967eed85a08028, 0x44249631255d2ca0, 0x5e41214388186c14, 0xdb0a9963f80c2eaa, 0x874bfe5f6aae9f2f, 0x860acf9effba6f61, 0xcdf3bff2883fc9d9, 0x475975b91a7a462c),
               0xc19bf174cf692694, 0x0000000000000018,
               Vars(0x0ae07c86b1181c75, 0xfa967eed85a08028, 0x44249631255d2ca0, 0x5e41214388186c14, 0xa77b7c035dd4c161, 0x874bfe5f6aae9f2f, 0x860acf9effba6f61, 0xcdf3bff2883fc9d9));
  }

  /** The results of rounds 16..19 on their working variables. */
  lemma AbcRoundValues4()
    ensures Round(Vars(0x0ae07c86b1181c75, 0xfa967eed85a08028, 0x44249631255d2ca0, 0x5e41214388186c14, 0xa77b7c035dd4c161, 0x874bfe5f6aae9f2f, 0x860acf9effba6f61, 0xcdf3bff2883fc9d9),
              0xe49b69c19ef14ad2, 0x6162638000000000)
        == Vars(0xcaf81a425d800537, 0x0ae07c86b1181c75, 0xfa967eed85a08028, 0x44249631255d2ca0, 0x2deecc6b39d64d78, 0xa77b7c035dd4c161, 0x874bfe5f6aae9f2f, 0x860acf9effba6f61)
      && Round(Vars(0xcaf81a425d800537, 0x0ae07c86b1181c75, 0xfa967eed85a08028, 0x44249631255d2ca0, 0x2deecc6b39d64d78, 0xa77b7c035dd4c161, 0x874bfe5f6aae9f2f, 0x860acf9effba6f61),
              0xefbe4786384f25e3, 0x00030000000000c0)
        == Vars(0x4725be249ad19e6b, 0xcaf81a425d800537, 0x0ae07c86b1181c75, 0xfa967eed85a08028, 0xf47e8353f8047455, 0x2deecc6b39d64d78, 0xa77b7c035dd4c161, 0x874bfe5f6aae9f2f)
      && Round(Vars(0x4725be249ad19e6b, 0xcaf81a425d800537, 0x0ae07c86b1181c75, 0xfa967eed85a08028, 0xf47e8353f8047455, 0x2deecc6b39d64d78, 0xa77b7c035dd4c161, 0x874bfe5f6aae9f2f),
              0x0fc19dc68b8cd5b5, 0x0a9699a24c700003)
        == Vars(0x3c4b4104168e3edb, 0x4725be249ad19e6b, 0xcaf81a425d800537, 0x0ae07c86b1181c75, 0x29695fd88d81dbd0, 0xf47e8353f8047455, 0x2deecc6b39d64d78, 0xa77b7c035dd4c161)
      && Round(Vars(0x3c4b4104168e3edb, 0x4725be249ad19e6b, 0xcaf81a425d800537, 0x0ae07c86b1181c75, 0x29695fd88d81dbd0, 0xf47e8353f8047455, 0x2deecc6b39d64d78, 0xa77b7c035dd4c161),
              0x240ca1cc77ac9c65, 0x00000c0060000603)
        == Vars(0x9a3fb4d38ab6cf06, 0x3c4b4104168e3edb, 0x4725be249ad19e6b, 0xcaf81a425d800537, 0xf14998dd5f70767e, 0x29695fd88d81dbd0, 0xf47e8353f8047455, 0x2deecc6b39d64d78)
  {
  }

  /** Rounds 16..19. */
  lemma AbcRounds4(v: Vars, w: seq<Word>)
    requires |w| == 80 && Rounds(v, w, 16) == Vars(0x0ae07c86b1181c75, 0xfa967eed85a08028, 0x44249631255d2ca0, 0x5e41214388186c14, 0xa77b7c035dd4c161, 0x874bfe5f6aae9f2f, 0x860acf9effba6f61, 0xcdf3bff2883fc9d9)
    requires w[16] == 0x6162638000000000 && w[17] == 0x00030000000000c0
      && w[18] == 0x0a9699a24c700003 && w[19] == 0x00000c0060000603
    ensures Rounds(v, w, 20) == Vars(0x9a3fb4d38ab6cf06, 0x3c4b4104168e3edb, 0x4725be249ad19e6b, 0xcaf81a425d800537, 0xf14998dd5f70767e, 0x29695fd88d81dbd0, 0xf47e8353f8047455, 0x2deecc6b39d64d78)
  {
    RoundConstant16();
    RoundConstant17();
    RoundConstant18();
    RoundConstant19();
    AbcRoundValues4();
    RoundsStep(v, w, 16, Vars(0x0ae07c86b1181c75, 0xfa967eed85a08028, 0x44249631255d2ca0, 0x5e41214388186c14, 0xa77b7c035dd4c161, 0x874bfe5f6aae9f2f, 0x860acf9effba6f61, 0xcdf3bff2883fc9d9),
               0xe49b69c19ef14ad2, 0x6162638000000000,
               Vars(0xcaf81a425d800537, 0x0ae07c86b1181c75, 0xfa967eed85a08028, 0x44249631255d2ca0, 0x2deecc6b39d64d78, 0xa77b7c035dd4c161, 0x874bfe5f6aae9f2f, 0x860acf9effba6f61));
    RoundsStep(v, w, 17, Vars(0xcaf81a425d800537, 0x0ae07c86b1181c75, 0xfa967eed85a08028, 0x44249631255d2ca0, 0x2deecc6b39d64d78, 0xa77b7c035dd4c161, 0x874bfe5f6aae9f2f, 0x860acf9effba6f61),
               0xefbe4786384f25e3, 0x00030000000000c0,
               Vars(0x4725be249ad19e6b, 0xcaf81a425d800537, 0x0ae07c86b1181c75, 0xfa967eed85a08028, 0xf47e8353f8047455, 0x2deecc6b39d64d78, 0xa77b7c035dd4c161, 0x874bfe5f6aae9f2f));
    RoundsStep(v, w, 18, Vars(0x4725be249ad19e6b, 0xcaf81a425d800537, 0x0ae07c86b1181c75, 0xfa967eed85a08028, 0xf47e8353f8047455, 0x2deecc6b39d64d78, 0xa77b7c035dd4c161, 0x874bfe5f6aae9f2f),
               0x0fc19dc68b8cd5b5, 0x0a9699a24c700003,
               Vars(0x3c4b4104168e3edb, 0x4725be249ad19e6b, 0xcaf81a425d800537, 0x0ae07c86b1181c75, 0x29695fd88d81dbd0, 0xf47e8353f8047455, 0x2deecc6b39d64d78, 0xa77b7c035dd4c161));
    RoundsStep(v, w, 19, Vars(0x3c4b4104168e3edb, 0x4725be249ad19e6b, 0xcaf81a425d800537, 0x0ae07c86b1181c75, 0x29695fd88d81dbd0, 0xf47e8353f8047455, 0x2deecc6b39d64d78, 0xa77b7c035dd4c161),
               0x240ca1cc77ac9c65, 0x00000c0060000603,
               Vars(0x9a3fb4d38ab6cf06, 0x3c4b4104168e3edb, 0x4725be249ad19e6b, 0xcaf81a425d800537, 0xf14998dd5f70767e, 0x29695fd88d81dbd0, 0xf47e8353f8047455, 0x2deecc6b39d64d78));
  }

  /** The results of rounds 20..23 on their working variables. */
  lemma AbcRoundValues5()
    ensures Round(Vars(0x9a3fb4d38ab6cf06, 0x3c4b4104168e3edb, 0x4725be249ad19e6b, 0xcaf81a425d800537, 0xf14998dd5f70767e, 0x29695fd88d81dbd0, 0xf47e8353f8047455, 0x2deecc6b39d64d78),
              0x2de92c6f592b0275, 0x549ef62639858996)
        == Vars(0x8dc5ae65569d3855, 0x9a3fb4d38ab6cf06, 0x3c4b4104168e3edb, 0x4725be249ad19e6b, 0x4bb9e66d1145bfdc, 0xf14998dd5f70767e, 0x29695fd88d81dbd0, 0xf47e8353f8047455)
      && Round(Vars(0x8dc5ae65569d3855, 0x9a3fb4d38ab6cf06, 0x3c4b4104168e3edb, 0x4725be249ad19e6b, 0x4bb9e66d1145bfdc, 0xf14998dd5f70767e, 0x29695fd88d81dbd0, 0xf47e8353f8047455),
              0x4a7484aa6ea6e483, 0x00c0003300003c00)
        == Vars(0xda34d6673d452dcf, 0x8dc5ae65569d3855, 0x9a3fb4d38ab6cf06, 0x3c4b4104168e3edb, 0x8e30ff09ad488753, 0x4bb9e66d1145bfdc, 0xf14998dd5f70767e, 0x29695fd88d81dbd0)
      && Round(Vars(0xda34d6673d452dcf, 0x8dc5ae65569d3855, 0x9a3fb4d38ab6cf06, 0x3c4b4104168e3edb, 0x8e30ff09ad488753, 0x4bb9e66d1145bfdc, 0xf14998dd5f70767e, 0x29695fd88d81dbd0),
              0x5cb0a9dcbd41fbd4, 0x1497007a8a0e9dbc)
        == Vars(0x3e2644567b709a78, 0xda34d6673d452dcf, 0x8dc5ae65569d3855, 0x9a3fb4d38ab6cf06, 0x0ac2b11da8f571c6, 0x8e30ff09ad488753, 0x4bb9e66d1145bfdc, 0xf14998dd5f70767e)
      && Round(Vars(0x3e2644567b709a78, 0xda34d6673d452dcf, 0x8dc5ae65569d3855, 0x9a3fb4d38ab6cf06, 0x0ac2b11da8f571c6, 0x8e30ff09ad488753, 0x4bb9e66d1145bfdc, 0xf14998dd5f70767e),
              0x76f988da831153b5, 0x62e56500cc0780f0)
        == Vars(0x4f6877b58fe55484, 0x3e2644567b709a78, 0xda34d6673d452dcf, 0x8dc5ae65569d3855, 0xc66005f87db55233, 0x0ac2b11da8f571c6, 0x8e30ff09ad488753, 0x4bb9e66d1145bfdc)
  {
  }

  /** Rounds 20..23. */
  lemma AbcRounds5(v: Vars, w: seq<Word>)
    requires |w| == 80 && Rounds(v, w, 20) == Vars(0x9a3fb4d38ab6cf06, 0x3c4b4104168e3edb, 0x4725be249ad19e6b, 0xcaf81a425d800537, 0xf14998dd5f70767e, 0x29695fd88d81dbd0, 0xf47e8353f8047455, 0x2deecc6b39d64d78)
    requires w[20] == 0x549ef62639858996 && w[21] == 0x00c0003300003c00
      && w[22] == 0x1497007a8a0e9dbc && w[23] == 0x62e56500cc0780f0
    ensures Rounds(v, w, 24) == Vars(0x4f6877b58fe55484, 0x3e2644567b709a78, 0xda34d6673d452dcf, 0x8dc5ae65569d3855, 0xc66005f87db55233, 0x0ac2b11da8f571c6, 0x8e30ff09ad488753, 0x4bb9e66d1145bfdc)
  {
    RoundConstant20();
    RoundConstant21();
    RoundConstant22();
    RoundConstant23();
    AbcRoundValues5();
    RoundsStep(v, w, 20, Vars(0x9a3fb4d38ab6cf06, 0x3c4b4104168e3edb, 0x4725be249ad19e6b, 0xcaf81a425d800537, 0xf14998dd5f70767e, 0x29695fd88d81dbd0, 0xf47e8353f8047455, 0x2deecc6b39d64d78),
               0x2de92c6f592b0275, 0x549ef62639858996,
               Vars(0x8dc5ae65569d3855, 0x9a3fb4d38ab6cf06, 0x3c4b4104168e3edb, 0x4725be249ad19e6b, 0x4bb9e66d1145bfdc, 0xf14998dd5f70767e, 0x29695fd88d81dbd0, 0xf47e8353f8047455));
    RoundsStep(v, w, 21, Vars(0x8dc5ae65569d3855, 0x9a3fb4d38ab6cf06, 0x3c4b4104168e3edb, 0x4725be249ad19e6b, 0x4bb9e66d1145bfdc, 0xf14998dd5f70767e, 0x29695fd88d81dbd0, 0xf47e8353f8047455),
               0x4a7484aa6ea6e483, 0x00c0003300003c00,
               Vars(0xda34d6673d452dcf, 0x8dc5ae65569d3855, 0x9a3fb4d38ab6cf06, 0x3c4b4104168e3edb, 0x8e30ff09ad488753, 0x4bb9e66d1145bfdc, 0xf14998dd5f70767e, 0x29695fd88d81dbd0));
    RoundsStep(v, w, 22, Vars(0xda34d6673d452dcf, 0x8dc5ae65569d3855, 0x9a3fb4d38ab6cf06, 0x3c4b4104168e3edb, 0x8e30ff09ad488753, 0x4bb9e66d1145bfdc, 0xf14998dd5f70767e, 0x29695fd88d81dbd0),
               0x5cb0a9dcbd41fbd4, 0x1497007a8a0e9dbc,
               Vars(0x3e2644567b709a78, 0xda34d6673d452dcf, 0x8dc5ae65569d3855, 0x9a3fb4d38ab6cf06, 0x0ac2b11da8f571c6, 0x8e30ff09ad488753, 0x4bb9e66d1145bfdc, 0xf14998dd5f70767e));
    RoundsStep(v, w, 23, Vars(0x3e2644567b709a78, 0xda34d6673d452dcf, 0x8dc5ae65569d3855, 0x9a3fb4d38ab6cf06, 0x0ac2b11da8f571c6, 0x8e30ff09ad488753, 0x4bb9e66d1145bfdc, 0xf14998dd5f70767e),
               0x76f988da831153b5, 0x62e56500cc0780f0,
               Vars(0x4f6877b58fe55484, 0x3e2644567b709a78, 0xda34d6673d452dcf, 0x8dc5ae65569d3855, 0xc66005f87db55233, 0x0ac2b11da8f571c6, 0x8e30ff09ad488753, 0x4bb9e66d1145bfdc));
  }

  /** The results of rounds 24..27 on their working variables. */
  lemma AbcRoundValues6()
    ensures Round(Vars(0x4f6877b58fe55484, 0x3e2644567b709a78, 0xda34d6673d452dcf, 0x8dc5ae65569d3855, 0xc66005f87db55233, 0x0ac2b11da8f571c6, 0x8e30ff09ad488753, 0x4bb9e66d1145bfdc),
              0x983e5152ee66dfab, 0x7760dd475a538797)
        == Vars(0x9aff71163fa3a940, 0x4f6877b58fe55484, 0x3e2644567b709a78, 0xda34d6673d452dcf, 0xd3ecf13769180e6f, 0xc66005f87db55233, 0x0ac2b11da8f571c6, 0x8e30ff09ad488753)
      && Round(Vars(0x9aff71163fa3a940, 0x4f6877b58fe55484, 0x3e2644567b709a78, 0xda34d6673d452dcf, 0xd3ecf13769180e6f, 0xc66005f87db55233, 0x0ac2b11da8f571c6, 0x8e30ff09ad488753),
              0xa831c66d2db43210, 0xf1554b711c1c0003)
        == Vars(0x0bc5f791f8e6816b, 0x9aff71163fa3a940, 0x4f6877b58fe55484, 0x3e2644567b709a78, 0x6ddf1fd7edcce336, 0xd3ecf13769180e6f, 0xc66005f87db55233, 0x0ac2b11da8f571c6)
      && Round(Vars(0x0bc5f791f8e6816b, 0x9aff71163fa3a940, 0x4f6877b58fe55484, 0x3e2644567b709a78, 0x6ddf1fd7edcce336, 0xd3ecf13769180e6f, 0xc66005f87db55233, 0x0ac2b11da8f571c6),
              0xb00327c898fb213f, 0xca2993a4345d9ff2)
        == Vars(0x884c3bc27bc4f941, 0x0bc5f791f8e6816b, 0x9aff71163fa3a940, 0x4f6877b58fe55484, 0xe6e48c9a8e948365, 0x6ddf1fd7edcce336, 0xd3ecf13769180e6f, 0xc66005f87db55233)
      && Round(Vars(0x884c3bc27bc4f941, 0x0bc5f791f8e6816b, 0x9aff71163fa3a940, 0x4f6877b58fe55484, 0xe6e48c9a8e948365, 0x6ddf1fd7edcce336, 0xd3ecf13769180e6f, 0xc66005f87db55233),
              0xbf597fc7beef0ee4, 0x5e0e66b5c783dd32)
        == Vars(0xeab4a9e5771b8d09, 0x884c3bc27bc4f941, 0x0bc5f791f8e6816b, 0x9aff71163fa3a940, 0x09068a4e255a0dac, 0xe6e48c9a8e948365, 0x6ddf1fd7edcce336, 0xd3ecf13769180e6f)
  {
  }

  /** Rounds 24..27. */
  lemma AbcRounds6(v: Vars, w: seq<Word>)
    requires |w| == 80 && Rounds(v, w, 24) == Vars(0x4f6877b58fe55484, 0x3e2644567b709a78, 0xda34d6673d452dcf, 0x8dc5ae65569d3855, 0xc66005f87db55233, 0x0ac2b11da8f571c6, 0x8e30ff09ad488753, 0x4bb9e66d1145bfdc)
    requires w[24] == 0x7760dd475a538797 && w[25] == 0xf1554b711c1c0003
      && w[26] == 0xca2993a4345d9ff2 && w[27] == 0x5e0e66b5c783dd32
    ensures Rounds(v, w, 28) == Vars(0xeab4a9e5771b8d09, 0x884c3bc27bc4f941, 0x0bc5f791f8e6816b, 0x9aff71163fa3a940, 0x09068a4e255a0dac, 0xe6e48c9a8e948365, 0x6ddf1fd7edcce336, 0xd3ecf13769180e6f)
  {
    RoundConstant24();
    RoundConstant25();
    RoundConstant26();
    RoundConstant27();
    AbcRoundValues6();
    RoundsStep(v, w, 24, Vars(0x4f6877b58fe55484, 0x3e2644567b709a78, 0xda34d6673d452dcf, 0x8dc5ae65569d3855, 0xc66005f87db55233, 0x0ac2b11da8f571c6, 0x8e30ff09ad488753, 0x4bb9e66d1145bfdc),
               0x983e5152ee66dfab, 0x7760dd475a538797,
               Vars(0x9aff71163fa3a940, 0x4f6877b58fe55484, 0x3e2644567b709a78, 0xda34d6673d452dcf, 0xd3ecf13769180e6f, 0xc66005f87db55233, 0x0ac2b11da8f571c6, 0x8e30ff09ad488753));
    RoundsStep(v, w, 25, Vars(0x9aff71163fa3a940, 0x4f6877b58fe55484, 0x3e2644567b709a78, 0xda34d6673d452dcf, 0xd3ecf13769180e6f, 0xc66005f87db55233, 0x0ac2b11da8f571c6, 0x8e30ff09ad488753),
               0xa831c66d2db43210, 0xf1554b711c1c0003,
               Vars(0x0bc5f791f8e6816b, 0x9aff71163fa3a940, 0x4f6877b58fe55484, 0x3e2644567b709a78, 0x6ddf1fd7edcce336, 0xd3ecf13769180e6f, 0xc66005f87db55233, 0x0ac2b11da8f571c6));
    RoundsStep(v, w, 26, Vars(0x0bc5f791f8e6816b, 0x9aff71163fa3a940, 0x4f6877b58fe55484, 0x3e2644567b709a78, 0x6ddf1fd7edcce336, 0xd3ecf13769180e6f, 0xc66005f87db55233, 0x0ac2b11da8f571c6),
               0xb00327c898fb213f, 0xca2993a4345d9ff2,
               Vars(0x884c3bc27bc4f941, 0x0bc5f791f8e6816b, 0x9aff71163fa3a940, 0x4f6877b58fe55484, 0xe6e48c9a8e948365, 0x6ddf1fd7edcce336, 0xd3ecf13769180e6f, 0xc66005f87db55233));
    RoundsStep(v, w, 27, Vars(0x884c3bc27bc4f941, 0x0bc5f791f8e6816b, 0x9aff71163fa3a940, 0x4f6877b58fe55484, 0xe6e48c9a8e948365, 0x6ddf1fd7edcce336, 0xd3ecf13769180e6f, 0xc66005f87db55233),
               0xbf597fc7beef0ee4, 0x5e0e66b5c783dd32,
               Vars(0xeab4a9e5771b8d09, 0x884c3bc27bc4f941, 0x0bc5f791f8e6816b, 0x9aff71163fa3a940, 0x09068a4e255a0dac, 0xe6e48c9a8e948365, 0x6ddf1fd7edcce336, 0xd3ecf13769180e6f));
  }

  /** The results of rounds 28..31 on their working variables. */
  lemma AbcRoundValues7()
    ensures Round(Vars(0xeab4a9e5771b8d09, 0x884c3bc27bc4f941, 0x0bc5f791f8e6816b, 0x9aff71163fa3a940, 0x09068a4e255a0dac, 0xe6e48c9a8e948365, 0x6ddf1fd7edcce336, 0xd3ecf13769180e6f),
              0xc6e00bf33da88fc2, 0xe25a625d00494b62)
        == Vars(0xe62349090f47d30a, 0xeab4a9e5771b8d09, 0x884c3bc27bc4f941, 0x0bc5f791f8e6816b, 0x0fcdf99710f21584, 0x09068a4e255a0dac, 0xe6e48c9a8e948365, 0x6ddf1fd7edcce336)
      && Round(Vars(0xe62349090f47d30a, 0xeab4a9e5771b8d09, 0x884c3bc27bc4f941, 0x0bc5f791f8e6816b, 0x0fcdf99710f21584, 0x09068a4e255a0dac, 0xe6e48c9a8e948365, 0x6ddf1fd7edcce336),
              0xd5a79147930aa725, 0x9f44486fb1e4fbd2)
        == Vars(0x74bf40f869094c63, 0xe62349090f47d30a, 0xeab4a9e5771b8d09, 0x884c3bc27bc4f941, 0xf0aec2fe1437f085, 0x0fcdf99710f21584, 0x09068a4e255a0dac, 0xe6e48c9a8e948365)
      && Round(Vars(0x74bf40f869094c63, 0xe62349090f47d30a, 0xeab4a9e5771b8d09, 0x884c3bc27bc4f941, 0xf0aec2fe1437f085, 0x0fcdf99710f21584, 0x09068a4e255a0dac, 0xe6e48c9a8e948365),
              0x06ca6351e003826f, 0xb31b8c2b06085f2f)
        == Vars(0x4c4fbbb75f1873a6, 0x74bf40f869094c63, 0xe62349090f47d30a, 0xeab4a9e5771b8d09, 0x73e025d91b9efea3, 0xf0aec2fe1437f085, 0x0fcdf99710f21584, 0x09068a4e255a0dac)
      && Round(Vars(0x4c4fbbb75f1873a6, 0x74bf40f869094c63, 0xe62349090f47d30a, 0xeab4a9e5771b8d09, 0x73e025d91b9efea3, 0xf0aec2fe1437f085, 0x0fcdf99710f21584, 0x09068a4e255a0dac),
              0x142929670a0e6e70, 0x0e987660934142f6)
        == Vars(0xff4d3f1f0d46a736, 0x4c4fbbb75f1873a6, 0x74bf40f869094c63, 0xe62349090f47d30a, 0x3cd388e119e8162e, 0x73e025d91b9efea3, 0xf0aec2fe1437f085, 0x0fcdf99710f21584)
  {
  }

  /** Rounds 28..31. */
  lemma AbcRounds7(v: Vars, w: seq<Word>)
    requires |w| == 80 && Rounds(v, w, 28) == Vars(0xeab4a9e5771b8d09, 0x884c3bc27bc4f941, 0x0bc5f791f8e6816b, 0x9aff71163fa3a940, 0x09068a4e255a0dac, 0xe6e48c9a8e948365, 0x6ddf1fd7edcce336, 0xd3ecf13769180e6f)
    requires w[28] == 0xe25a625d00494b62 && w[29] == 0x9f44486fb1e4fbd2
      && w[30] == 0xb31b8c2b06085f2f && w[31] == 0x0e987660934142f6
    ensures Rounds(v, w, 32) == Vars(0xff4d3f1f0d46a736, 0x4c4fbbb75f1873a6, 0x74bf40f869094c63, 0xe62349090f47d30a, 0x3cd388e119e8162e, 0x73e025d91b9efea3, 0xf0aec2fe1437f085, 0x0fcdf99710f21584)
  {
    RoundConstant28();
    RoundConstant29();
    RoundConstant30();
    RoundConstant31();
    AbcRoundValues7();
    RoundsStep(v, w, 28, Vars(0xeab4a9e5771b8d09, 0x884c3bc27bc4f941, 0x0bc5f791f8e6816b, 0x9aff71163fa3a940, 0x09068a4e255a0dac, 0xe6e48c9a8e948365, 0x6ddf1fd7edcce336, 0xd3ecf13769180e6f),
               0xc6e00bf33da88fc2, 0xe25a625d00494b62,
               Vars(0xe62349090f47d30a, 0xeab4a9e5771b8d09, 0x884c3bc27bc4f941, 0x0bc5f791f8e6816b, 0x0fcdf99710f21584, 0x09068a4e255a0dac, 0xe6e48c9a8e948365, 0x6ddf1fd7edcce336));
    RoundsStep(v, w, 29, Vars(0xe62349090f47d30a, 0xeab4a9e5771b8d09, 0x884c3bc27bc4f941, 0x0bc5f791f8e6816b, 0x0fcdf99710f21584, 0x09068a4e255a0dac, 0xe6e48c9a8e948365, 0x6ddf1fd7edcce336),
               0xd5a79147930aa725, 0x9f44486fb1e4fbd2,
               Vars(0x74bf40f869094c63, 0xe62349090f47d30a, 0xeab4a9e5771b8d09, 0x884c3bc27bc4f941, 0xf0aec2fe1437f085, 0x0fcdf99710f21584, 0x09068a4e255a0dac, 0xe6e48c9a8e948365));
    RoundsStep(v, w, 30, Vars(0x74bf40f869094c63, 0xe62349090f47d30a, 0xeab4a9e5771b8d09, 0x884c3bc27bc4f941, 0xf0aec2fe1437f085, 0x0fcdf99710f21584, 0x09068a4e255a0dac, 0xe6e48c9a8e948365),
               0x06ca6351e003826f, 0xb31b8c2b06085f2f,
               Vars(0x4c4fbbb75f1873a6, 0x74bf40f869094c63, 0xe62349090f47d30a, 0xeab4a9e5771b8d09, 0x73e025d91b9efea3, 0xf0aec2fe1437f085, 0x0fcdf99710f21584, 0x09068a4e255a0dac));
    RoundsStep(v, w, 31, Vars(0x4c4fbbb75f1873a6, 0x74bf40f869094c63, 0xe62349090f47d30a, 0xeab4a9e5771b8d09, 0x73e025d91b9efea3, 0xf0aec2fe1437f085, 0x0fcdf99710f21584, 0x09068a4e255a0dac),
               0x142929670a0e6e70, 0x0e987660934142f6,
               Vars(0xff4d3f1f0d46a736, 0x4c4fbbb75f1873a6, 0x74bf40f869094c63, 0xe62349090f47d30a, 0x3cd388e119e8162e, 0x73e025d91b9efea3, 0xf0aec2fe1437f085, 0x0fcdf99710f21584));
  }

  /** The results of rounds 32..35 on their working variables. */
  lemma AbcRoundValues8()
    ensures Round(Vars(0xff4d3f1f0d46a736, 0x4c4fbbb75f1873a6, 0x74bf40f869094c63, 0xe62349090f47d30a, 0x3cd388e119e8162e, 0x73e025d91b9efea3, 0xf0aec2fe1437f085, 0x0fcdf99710f21584),
              0x27b70a8546d22ffc, 0xa4af2cfd09fbb924)
        == Vars(0xa0509015ca08c8d4, 0xff4d3f1f0d46a736, 0x4c4fbbb75f1873a6, 0x74bf40f869094c63, 0xe1034573654a106f, 0x3cd388e119e8162e, 0x73e025d91b9efea3, 0xf0aec2fe1437f085)
      && Round(Vars(0xa0509015ca08c8d4, 0xff4d3f1f0d46a736, 0x4c4fbbb75f1873a6, 0x74bf40f869094c63, 0xe1034573654a106f, 0x3cd388e119e8162e, 0x73e025d91b9efea3, 0xf0aec2fe1437f085),
              0x2e1b21385c26c926, 0xad289e2e0bd53186)
        == Vars(0x60d4e6995ed91fe6, 0xa0509015ca08c8d4, 0xff4d3f1f0d46a736, 0x4c4fbbb75f1873a6, 0xefabbd8bf47c041a, 0xe1034573654a106f, 0x3cd388e119e8162e, 0x73e025d91b9efea3)
      && Round(Vars(0x60d4e6995ed91fe6, 0xa0509015ca08c8d4, 0xff4d3f1f0d46a736, 0x4c4fbbb75f1873a6, 0xefabbd8bf47c041a, 0xe1034573654a106f, 0x3cd388e119e8162e, 0x73e025d91b9efea3),
              0x4d2c6dfc5ac42aed, 0x3c74563aa2f9673e)
        == Vars(0x2c59ec7743632621, 0x60d4e6995ed91fe6, 0xa0509015ca08c8d4, 0xff4d3f1f0d46a736, 0x0fbae670fa780fd3, 0xefabbd8bf47c041a, 0xe1034573654a106f, 0x3cd388e119e8162e)
      && Round(Vars(0x2c59ec7743632621, 0x60d4e6995ed91fe6, 0xa0509015ca08c8d4, 0xff4d3f1f0d46a736, 0x0fbae670fa780fd3, 0xefabbd8bf47c041a, 0xe1034573654a106f, 0x3cd388e119e8162e),
              0x53380d139d95b3df, 0x6ccdcd14cc14b53f)
        == Vars(0x1a081afc59fdbc2c, 0x2c59ec7743632621, 0x60d4e6995ed91fe6, 0xa0509015ca08c8d4, 0xf098082f502b44cd, 0x0fbae670fa780fd3, 0xefabbd8bf47c041a, 0xe1034573654a106f)
  {
  }

  /** Rounds 32..35. */
  lemma AbcRounds8(v: Vars, w: seq<Word>)
    requires |w| == 80 && Rounds(v, w, 32) == Vars(0xff4d3f1f0d46a736, 0x4c4fbbb75f1873a6, 0x74bf40f869094c63, 0xe62349090f47d30a, 0x3cd388e119e8162e, 0x73e025d91b9efea3, 0xf0aec2fe1437f085, 0x0fcdf99710f21584)
    requires w[32] == 0xa4af2cfd09fbb924 && w[33] == 0xad289e2e0bd53186
      && w[34] == 0x3c74563aa2f9673e && w[35] == 0x6ccdcd14cc14b53f
    ensures Rounds(v, w, 36) == Vars(0x1a081afc59fdbc2c, 0x2c59ec7743632621, 0x60d4e6995ed91fe6, 0xa0509015ca08c8d4, 0xf098082f502b44cd, 0x0fbae670fa780fd3, 0xefabbd8bf47c041a, 0xe1034573654a106f)
  {
    RoundConstant32();
    RoundConstant33();
    RoundConstant34();
    RoundConstant35();
    AbcRoundValues8();
    RoundsStep(v, w, 32, Vars(0xff4d3f1f0d46a736, 0x4c4fbbb75f1873a6, 0x74bf40f869094c63, 0xe62349090f47d30a, 0x3cd388e119e8162e, 0x73e025d91b9efea3, 0xf0aec2fe1437f085, 0x0fcdf99710f21584),
               0x27b70a8546d22ffc, 0xa4af2cfd09fbb924,
               Vars(0xa0509015ca08c8d4, 0xff4d3f1f0d46a736, 0x4c4fbbb75f1873a6, 0x74bf40f869094c63, 0xe1034573654a106f, 0x3cd388e119e8162e, 0x73e025d91b9efea3, 0xf0aec2fe1437f085));
    RoundsStep(v, w, 33, Vars(0xa0509015ca08c8d4, 0xff4d3f1f0d46a736, 0x4c4fbbb75f1873a6, 0x74bf40f869094c63, 0xe1034573654a106f, 0x3cd388e119e8162e, 0x73e025d91b9efea3, 0xf0aec2fe1437f085),
               0x2e1b21385c26c926, 0xad289e2e0bd53186,
               Vars(0x60d4e6995ed91fe6, 0xa0509015ca08c8d4, 0xff4d3f1f0d46a736, 0x4c4fbbb75f1873a6, 0xefabbd8bf47c041a, 0xe1034573654a106f, 0x3cd388e119e8162e, 0x73e025d91b9efea3));
    RoundsStep(v, w, 34, Vars(0x60d4e6995ed91fe6, 0xa0509015ca08c8d4, 0xff4d3f1f0d46a736, 0x4c4fbbb75f1873a6, 0xefabbd8bf47c041a, 0xe1034573654a106f, 0x3cd388e119e8162e, 0x73e025d91b9efea3),
               0x4d2c6dfc5ac42aed, 0x3c74563aa2f9673e,
               Vars(0x2c59ec7743632621, 0x60d4e6995ed91fe6, 0xa0509015ca08c8d4, 0xff4d3f1f0d46a736, 0x0fbae670fa780fd3, 0xefabbd8bf47c041a, 0xe1034573654a106f, 0x3cd388e119e8162e));
    RoundsStep(v, w, 35, Vars(0x2c59ec7743632621, 0x60d4e6995ed91fe6, 0xa0509015ca08c8d4, 0xff4d3f1f0d46a736, 0x0fbae670fa780fd3, 0xefabbd8bf47c041a, 0xe1034573654a106f, 0x3cd388e119e8162e),
               0x53380d139d95b3df, 0x6ccdcd14cc14b53f,
               Vars(0x1a081afc59fdbc2c, 0x2c59ec7743632621, 0x60d4e6995ed91fe6, 0xa0509015ca08c8d4, 0xf098082f502b44cd, 0x0fbae670fa780fd3, 0xefabbd8bf47c041a, 0xe1034573654a106f));
  }

  /** The results of rounds 36..39 on their working variables. */
  lemma AbcRoundValues9()
    ensures Round(Vars(0x1a081afc59fdbc2c, 0x2c59ec7743632621, 0x60d4e6995ed91fe6, 0xa0509015ca08c8d4, 0xf098082f502b44cd, 0x0fbae670fa780fd3, 0xefabbd8bf47c041a, 0xe1034573654a106f),
              0x650a73548baf63de, 0xc3f925b337f22bde)
        == Vars(0x88df85b0bbe77514, 0x1a081afc59fdbc2c, 0x2c59ec7743632621, 0x60d4e6995ed91fe6, 0x8fbfd0162bbf4675, 0xf098082f502b44cd, 0x0fbae670fa780fd3, 0xefabbd8bf47c041a)
      && Round(Vars(0x88df85b0bbe77514, 0x1a081afc59fdbc2c, 0x2c59ec7743632621, 0x60d4e6995ed91fe6, 0x8fbfd0162bbf4675, 0xf098082f502b44cd, 0x0fbae670fa780fd3, 0xefabbd8bf47c041a),
              0x766a0abb3c77b2a8, 0x5bcc77a75ad95b54)
        == Vars(0x002bb8e4cd989567, 0x88df85b0bbe77514, 0x1a081afc59fdbc2c, 0x2c59ec7743632621, 0x66adcfa249ac7bbd, 0x8fbfd0162bbf4675, 0xf098082f502b44cd, 0x0fbae670fa780fd3)
      && Round(Vars(0x002bb8e4cd989567, 0x88df85b0bbe77514, 0x1a081afc59fdbc2c, 0x2c59ec7743632621, 0x66adcfa249ac7bbd, 0x8fbfd0162bbf4675, 0xf098082f502b44cd, 0x0fbae670fa780fd3),
              0x81c2c92e47edaee6, 0x3ec2257adca09a52)
        == Vars(0xb3bb8542b3376de5, 0x002bb8e4cd989567, 0x88df85b0bbe77514, 0x1a081afc59fdbc2c, 0xb49596c20feba7de, 0x66adcfa249ac7bbd, 0x8fbfd0162bbf4675, 0xf098082f502b44cd)
      && Round(Vars(0xb3bb8542b3376de5, 0x002bb8e4cd989567, 0x88df85b0bbe77514, 0x1a081afc59fdbc2c, 0xb49596c20feba7de, 0x66adcfa249ac7bbd, 0x8fbfd0162bbf4675, 0xf098082f502b44cd),
              0x92722c851482353b, 0x28246960001fc5eb)
        == Vars(0x8e01e125b855d225, 0xb3bb8542b3376de5, 0x002bb8e4cd989567, 0x88df85b0bbe77514, 0x0c710a47ba6a567b, 0xb49596c20feba7de, 0x66adcfa249ac7bbd, 0x8fbfd0162bbf4675)
  {
  }

  /** Rounds 36..39. */
  lemma AbcRounds9(v: Vars, w: seq<Word>)
    requires |w| == 80 && Rounds(v, w, 36) == Vars(0x1a081afc59fdbc2c, 0x2c59ec7743632621, 0x60d4e6995ed91fe6, 0xa0509015ca08c8d4, 0xf098082f502b44cd, 0x0fbae670fa780fd3, 0xefabbd8bf47c041a, 0xe1034573654a106f)
    requires w[36] == 0xc3f925b337f22bde && w[37] == 0x5bcc77a75ad95b54
      && w[38] == 0x3ec2257adca09a52 && w[39] == 0x28246960001fc5eb
    ensures Rounds(v, w, 40) == Vars(0x8e01e125b855d225, 0xb3bb8542b3376de5, 0x002bb8e4cd989567, 0x88df85b0bbe77514, 0x0c710a47ba6a567b, 0xb49596c20feba7de, 0x66adcfa249ac7bbd, 0x8fbfd0162bbf4675)
  {
    RoundConstant36();
    RoundConstant37();
    RoundConstant38();
    RoundConstant39();
    AbcRoundValues9();
    RoundsStep(v, w, 36, Vars(0x1a081afc59fdbc2c, 0x2c59ec7743632621, 0x60d4e6995ed91fe6, 0xa0509015ca08c8d4, 0xf098082f502b44cd, 0x0fbae670fa780fd3, 0xefabbd8bf47c041a, 0xe1034573654a106f),
               0x650a73548baf63de, 0xc3f925b337f22bde,
               Vars(0x88df85b0bbe77514, 0x1a081afc59fdbc2c, 0x2c59ec7743632621, 0x60d4e6995ed91fe6, 0x8fbfd0162bbf4675, 0xf098082f502b44cd, 0x0fbae670fa780fd3, 0xefabbd8bf47c041a));
    RoundsStep(v, w, 37, Vars(0x88df85b0bbe77514, 0x1a081afc59fdbc2c, 0x2c59ec7743632621, 0x60d4e6995ed91fe6, 0x8fbfd0162bbf4675, 0xf098082f502b44cd, 0x0fbae670fa780fd3, 0xefabbd8bf47c041a),
               0x766a0abb3c77b2a8, 0x5bcc77a75ad95b54,
               Vars(0x002bb8e4cd989567, 0x88df85b0bbe77514, 0x1a081afc59fdbc2c, 0x2c59ec7743632621, 0x66adcfa249ac7bbd, 0x8fbfd0162bbf4675, 0xf098082f502b44cd, 0x0fbae670fa780fd3));
    RoundsStep(v, w, 38, Vars(0x002bb8e4cd989567, 0x88df85b0bbe77514, 0x1a081afc59fdbc2c, 0x2c59ec7743632621, 0x66adcfa249ac7bbd, 0x8fbfd0162bbf4675, 0xf098082f502b44cd, 0x0fbae670fa780fd3),
               0x81c2c92e47edaee6, 0x3ec2257adca09a52,
               Vars(0xb3bb8542b3376de5, 0x002bb8e4cd989567, 0x88df85b0bbe77514, 0x1a081afc59fdbc2c, 0xb49596c20feba7de, 0x66adcfa249ac7bbd, 0x8fbfd0162bbf4675, 0xf098082f502b44cd));
    RoundsStep(v, w, 39, Vars(0xb3bb8542b3376de5, 0x002bb8e4cd989567, 0x88df85b0bbe77514, 0x1a081afc59fdbc2c, 0xb49596c20feba7de, 0x66adcfa249ac7bbd, 0x8fbfd0162bbf4675, 0xf098082f502b44cd),
               0x92722c851482353b, 0x28246960001fc5eb,
               Vars(0x8e01e125b855d225, 0xb3bb8542b3376de5, 0x002bb8e4cd989567, 0x88df85b0bbe77514, 0x0c710a47ba6a567b, 0xb49596c20feba7de, 0x66adcfa249ac7bbd, 0x8fbfd0162bbf4675));
  }

  /** The results of rounds 40..43 on their working variables. */
  lemma AbcRoundValues10()
    ensures Round(Vars(0x8e01e125b855d225, 0xb3bb8542b3376de5, 0x002bb8e4cd989567, 0x88df85b0bbe77514, 0x0c710a47ba6a567b, 0xb49596c20feba7de, 0x66adcfa249ac7bbd, 0x8fbfd0162bbf4675),
              0xa2bfe8a14cf10364, 0x04e33a75ce2be88a)
        == Vars(0xb01521dd6a6be12c, 0x8e01e125b855d225, 0xb3bb8542b3376de5, 0x002bb8e4cd989567, 0x169008b3a4bb170b, 0x0c710a47ba6a567b, 0xb49596c20feba7de, 0x66adcfa249ac7bbd)
      && Round(Vars(0xb01521dd6a6be12c, 0x8e01e125b855d225, 0xb3bb8542b3376de5, 0x002bb8e4cd989567, 0x169008b3a4bb170b, 0x0c710a47ba6a567b, 0xb49596c20feba7de, 0x66adcfa249ac7bbd),
              0xa81a664bbc423001, 0x7d5314b3c359e0e7)
        == Vars(0xe96f89dd48cbd851, 0xb01521dd6a6be12c, 0x8e01e125b855d225, 0xb3bb8542b3376de5, 0xf0996439e7b50cb1, 0x169008b3a4bb170b, 0x0c710a47ba6a567b, 0xb49596c20feba7de)
      && Round(Vars(0xe96f89dd48cbd851, 0xb01521dd6a6be12c, 0x8e01e125b855d225, 0xb3bb8542b3376de5, 0xf0996439e7b50cb1, 0x169008b3a4bb170b, 0x0c710a47ba6a567b, 0xb49596c20feba7de),
              0xc24b8b70d0f89791, 0xaef7a285ff251266)
        == Vars(0xbc05ba8de5d3c480, 0xe96f89dd48cbd851, 0xb01521dd6a6be12c, 0x8e01e125b855d225, 0x639cb938e14dc190, 0xf0996439e7b50cb1, 0x169008b3a4bb170b, 0x0c710a47ba6a567b)
      && Round(Vars(0xbc05ba8de5d3c480, 0xe96f89dd48cbd851, 0xb01521dd6a6be12c, 0x8e01e125b855d225, 0x639cb938e14dc190, 0xf0996439e7b50cb1, 0x169008b3a4bb170b, 0x0c710a47ba6a567b),
              0xc76c51a30654be30, 0x0b8472581deea04f)
        == Vars(0x35d7e7f41defcbd5, 0xbc05ba8de5d3c480, 0xe96f89dd48cbd851, 0xb01521dd6a6be12c, 0xcc5100997f5710f2, 0x639cb938e14dc190, 0xf0996439e7b50cb1, 0x169008b3a4bb170b)
  {
  }

  /** Rounds 40..43. */
  lemma AbcRounds10(v: Vars, w: seq<Word>)
    requires |w| == 80 && Rounds(v, w, 40) == Vars(0x8e01e125b855d225, 0xb3bb8542b3376de5, 0x002bb8e4cd989567, 0x88df85b0bbe77514, 0x0c710a47ba6a567b, 0xb49596c20feba7de, 0x66adcfa249ac7bbd, 0x8fbfd0162bbf4675)
    requires w[40] == 0x04e33a75ce2be88a && w[41] == 0x7d5314b3c359e0e7
      && w[42] == 0xaef7a285ff251266 && w[43] == 0x0b8472581deea04f
    ensures Rounds(v, w, 44) == Vars(0x35d7e7f41defcbd5, 0xbc05ba8de5d3c480, 0xe96f89dd48cbd851, 0xb01521dd6a6be12c, 0xcc5100997f5710f2, 0x639cb938e14dc190, 0xf0996439e7b50cb1, 0x169008b3a4bb170b)
  {
    RoundConstant40();
    RoundConstant41();
    RoundConstant42();
    RoundConstant43();
    AbcRoundValues10();
    RoundsStep(v, w, 40, Vars(0x8e01e125b855d225, 0xb3bb8542b3376de5, 0x002bb8e4cd989567, 0x88df85b0bbe77514, 0x0c710a47ba6a567b, 0xb49596c20feba7de, 0x66adcfa249ac7bbd, 0x8fbfd0162bbf4675),
               0xa2bfe8a14cf10364, 0x04e33a75ce2be88a,
               Vars(0xb01521dd6a6be12c, 0x8e01e125b855d225, 0xb3bb8542b3376de5, 0x002bb8e4cd989567, 0x169008b3a4bb170b, 0x0c710a47ba6a567b, 0xb49596c20feba7de, 0x66adcfa249ac7bbd));
    RoundsStep(v, w, 41, Vars(0xb01521dd6a6be12c, 0x8e01e125b855d225, 0xb3bb8542b3376de5, 0x002bb8e4cd989567, 0x169008b3a4bb170b, 0x0c710a47ba6a567b, 0xb49596c20feba7de, 0x66adcfa249ac7bbd),
               0xa81a664bbc423001, 0x7d5314b3c359e0e7,
               Vars(0xe96f89dd48cbd851, 0xb01521dd6a6be12c, 0x8e01e125b855d225, 0xb3bb8542b3376de5, 0xf0996439e7b50cb1, 0x169008b3a4bb170b, 0x0c710a47ba6a567b, 0xb49596c20feba7de));
    RoundsStep(v, w, 42, Vars(0xe96f89dd48cbd851, 0xb01521dd6a6be12c, 0x8e01e125b855d225, 0xb3bb8542b3376de5, 0xf0996439e7b50cb1, 0x169008b3a4bb170b, 0x0c710a47ba6a567b, 0xb49596c20feba7de),
               0xc24b8b70d0f89791, 0xaef7a285ff251266,
               Vars(0xbc05ba8de5d3c480, 0xe96f89dd48cbd851, 0xb01521dd6a6be12c, 0x8e01e125b855d225, 0x639cb938e14dc190, 0xf0996439e7b50cb1, 0x169008b3a4bb170b, 0x0c710a47ba6a567b));
    RoundsStep(v, w, 43, Vars(0xbc05ba8de5d3c480, 0xe96f89dd48cbd851, 0xb01521dd6a6be12c, 0x8e01e125b855d225, 0x639cb938e14dc190, 0xf0996439e7b50cb1, 0x169008b3a4bb170b, 0x0c710a47ba6a567b),
               0xc76c51a30654be30, 0x0b8472581deea04f,
               Vars(0x35d7e7f41defcbd5, 0xbc05ba8de5d3c480, 0xe96f89dd48cbd851, 0xb01521dd6a6be12c, 0xcc5100997f5710f2, 0x639cb938e14dc190, 0xf0996439e7b50cb1, 0x169008b3a4bb170b));
  }

  /** The results of rounds 44..47 on their working variables. */
  lemma AbcRoundValues11()
    ensures Round(Vars(0x35d7e7f41defcbd5, 0xbc05ba8de5d3c480, 0xe96f89dd48cbd851, 0xb01521dd6a6be12c, 0xcc5100997f5710f2, 0x639cb938e14dc190, 0xf0996439e7b50cb1, 0x169008b3a4bb170b),
              0xd192e819d6ef5218, 0xb174e26eddc7b033)
        == Vars(0xc47c9d5c7ea8a234, 0x35d7e7f41defcbd5, 0xbc05ba8de5d3c480, 0xe96f89dd48cbd851, 0x858d832ae0e8911c, 0xcc5100997f5710f2, 0x639cb938e14dc190, 0xf0996439e7b50cb1)
      && Round(Vars(0xc47c9d5c7ea8a234, 0x35d7e7f41defcbd5, 0xbc05ba8de5d3c480, 0xe96f89dd48cbd851, 0x858d832ae0e8911c, 0xcc5100997f5710f2, 0x639cb938e14dc190, 0xf0996439e7b50cb1),
              0xd69906245565a910, 0x5d63bae58ddd88de)
        == Vars(0x021fbadbabab5ac6, 0xc47c9d5c7ea8a234, 0x35d7e7f41defcbd5, 0xbc05ba8de5d3c480, 0xe95c2a57572d64d9, 0x858d832ae0e8911c, 0xcc5100997f5710f2, 0x639cb938e14dc190)
      && Round(Vars(0x021fbadbabab5ac6, 0xc47c9d5c7ea8a234, 0x35d7e7f41defcbd5, 0xbc05ba8de5d3c480, 0xe95c2a57572d64d9, 0x858d832ae0e8911c, 0xcc5100997f5710f2, 0x639cb938e14dc190),
              0xf40e35855771202a, 0x4c044007b744ccbb)
        == Vars(0xf61e672694de2d67, 0x021fbadbabab5ac6, 0xc47c9d5c7ea8a234, 0x35d7e7f41defcbd5, 0xc6bc35740d8daa9a, 0xe95c2a57572d64d9, 0x858d832ae0e8911c, 0xcc5100997f5710f2)
      && Round(Vars(0xf61e672694de2d67, 0x021fbadbabab5ac6, 0xc47c9d5c7ea8a234, 0x35d7e7f41defcbd5, 0xc6bc35740d8daa9a, 0xe95c2a57572d64d9, 0x858d832ae0e8911c, 0xcc5100997f5710f2),
              0x106aa07032bbd1b8, 0xe6a9aa4d74dc7d43)
        == Vars(0x6b69fc1bb482feac, 0xf61e672694de2d67, 0x021fbadbabab5ac6, 0xc47c9d5c7ea8a234, 0x35264334c03ac8ad, 0xc6bc35740d8daa9a, 0xe95c2a57572d64d9, 0x858d832ae0e8911c)
  {
  }

  /** Rounds 44..47. */
  lemma AbcRounds11(v: Vars, w: seq<Word>)
    requires |w| == 80 && Rounds(v, w, 44) == Vars(0x35d7e7f41defcbd5, 0xbc05ba8de5d3c480, 0xe96f89dd48cbd851, 0xb01521dd6a6be12c, 0xcc5100997f5710f2, 0x639cb938e14dc190, 0xf0996439e7b50cb1, 0x169008b3a4bb170b)
    requires w[44] == 0xb174e26eddc7b033 && w[45] == 0x5d63bae58ddd88de
      && w[46] == 0x4c044007b744ccbb && w[47] == 0xe6a9aa4d74dc7d43
    ensures Rounds(v, w, 48) == Vars(0x6b69fc1bb482feac, 0xf61e672694de2d67, 0x021fbadbabab5ac6, 0xc47c9d5c7ea8a234, 0x35264334c03ac8ad, 0xc6bc35740d8daa9a, 0xe95c2a57572d64d9, 0x858d832ae0e8911c)
  {
    RoundConstant44();
    RoundConstant45();
    RoundConstant46();
    RoundConstant47();
    AbcRoundValues11();
    RoundsStep(v, w, 44, Vars(0x35d7e7f41defcbd5, 0xbc05ba8de5d3c480, 0xe96f89dd48cbd851, 0xb01521dd6a6be12c, 0xcc5100997f5710f2, 0x639cb938e14dc190, 0xf0996439e7b50cb1, 0x169008b3a4bb170b),
               0xd192e819d6ef5218, 0xb174e26eddc7b033,
               Vars(0xc47c9d5c7ea8a234, 0x35d7e7f41defcbd5, 0xbc05ba8de5d3c480, 0xe96f89dd48cbd851, 0x858d832ae0e8911c, 0xcc5100997f5710f2, 0x639cb938e14dc190, 0xf0996439e7b50cb1));
    RoundsStep(v, w, 45, Vars(0xc47c9d5c7ea8a234, 0x35d7e7f41defcbd5, 0xbc05ba8de5d3c480, 0xe96f89dd48cbd851, 0x858d832ae0e8911c, 0xcc5100997f5710f2, 0x639cb938e14dc190, 0xf0996439e7b50cb1),
               0xd69906245565a910, 0x5d63bae58ddd88de,
               Vars(0x021fbadbabab5ac6, 0xc47c9d5c7ea8a234, 0x35d7e7f41defcbd5, 0xbc05ba8de5d3c480, 0xe95c2a57572d64d9, 0x858d832ae0e8911c, 0xcc5100997f5710f2, 0x639cb938e14dc190));
    RoundsStep(v, w, 46, Vars(0x021fbadbabab5ac6, 0xc47c9d5c7ea8a234, 0x35d7e7f41defcbd5, 0xbc05ba8de5d3c480, 0xe95c2a57572d64d9, 0x858d832ae0e8911c, 0xcc5100997f5710f2, 0x639cb938e14dc190),
               0xf40e35855771202a, 0x4c044007b744ccbb,
               Vars(0xf61e672694de2d67, 0x021fbadbabab5ac6, 0xc47c9d5c7ea8a234, 0x35d7e7f41defcbd5, 0xc6bc35740d8daa9a, 0xe95c2a57572d64d9, 0x858d832ae0e8911c, 0xcc5100997f5710f2));
    RoundsStep(v, w, 47, Vars(0xf61e672694de2d67, 0x021fbadbabab5ac6, 0xc47c9d5c7ea8a234, 0x35d7e7f41defcbd5, 0xc6bc35740d8daa9a, 0xe95c2a57572d64d9, 0x858d832ae0e8911c, 0xcc5100997f5710f2),
               0x106aa07032bbd1b8, 0xe6a9aa4d74dc7d43,
               Vars(0x6b69fc1bb482feac, 0xf61e672694de2d67, 0x021fbadbabab5ac6, 0xc47c9d5c7ea8a234, 0x35264334c03ac8ad, 0xc6bc35740d8daa9a, 0xe95c2a57572d64d9, 0x858d832ae0e8911c));
  }

  /** The results of rounds 48..51 on their working variables. */
  lemma AbcRoundValues12()
    ensures Round(Vars(0x6b69fc1bb482feac, 0xf61e672694de2d67, 0x021fbadbabab5ac6, 0xc47c9d5c7ea8a234, 0x35264334c03ac8ad, 0xc6bc35740d8daa9a, 0xe95c2a57572d64d9, 0x858d832ae0e8911c),
              0x19a4c116b8d2d0c8, 0xebeaf1237248019c)
        == Vars(0x571f323d96b3a047, 0x6b69fc1bb482feac, 0xf61e672694de2d67, 0x021fbadbabab5ac6, 0x271580ed6c3e5650, 0x35264334c03ac8ad, 0xc6bc35740d8daa9a, 0xe95c2a57572d64d9)
      && Round(Vars(0x571f323d96b3a047, 0x6b69fc1bb482feac, 0xf61e672694de2d67, 0x021fbadbabab5ac6, 0x271580ed6c3e5650, 0x35264334c03ac8ad, 0xc6bc35740d8daa9a, 0xe95c2a57572d64d9),
              0x1e376c085141ab53, 0x361e80b2d00f3193)
        == Vars(0xca9bd862c5050918, 0x571f323d96b3a047, 0x6b69fc1bb482feac, 0xf61e672694de2d67, 0xdfe091dab182e645, 0x271580ed6c3e5650, 0x35264334c03ac8ad, 0xc6bc35740d8daa9a)
      && Round(Vars(0xca9bd862c5050918, 0x571f323d96b3a047, 0x6b69fc1bb482feac, 0xf61e672694de2d67, 0xdfe091dab182e645, 0x271580ed6c3e5650, 0x35264334c03ac8ad, 0xc6bc35740d8daa9a),
              0x2748774cdf8eeb99, 0x2e9839125df3b175)
        == Vars(0x813a43dd2c502043, 0xca9bd862c5050918, 0x571f323d96b3a047, 0x6b69fc1bb482feac, 0x07a0d8ef821c5e1a, 0xdfe091dab182e645, 0x271580ed6c3e5650, 0x35264334c03ac8ad)
      && Round(Vars(0x813a43dd2c502043, 0xca9bd862c5050918, 0x571f323d96b3a047, 0x6b69fc1bb482feac, 0x07a0d8ef821c5e1a, 0xdfe091dab182e645, 0x271580ed6c3e5650, 0x35264334c03ac8ad),
              0x34b0bcb5e19b48a8, 0x3319629293ad5363)
        == Vars(0xd43f83727325dd77, 0x813a43dd2c502043, 0xca9bd862c5050918, 0x571f323d96b3a047, 0x483f80a82eaee23e, 0x07a0d8ef821c5e1a, 0xdfe091dab182e645, 0x271580ed6c3e5650)
  {
  }

  /** Rounds 48..51. */
  lemma AbcRounds12(v: Vars, w: seq<Word>)
    requires |w| == 80 && Rounds(v, w, 48) == Vars(0x6b69fc1bb482feac, 0xf61e672694de2d67, 0x021fbadbabab5ac6, 0xc47c9d5c7ea8a234, 0x35264334c03ac8ad, 0xc6bc35740d8daa9a, 0xe95c2a57572d64d9, 0x858d832ae0e8911c)
    requires w[48] == 0xebeaf1237248019c && w[49] == 0x361e80b2d00f3193
      && w[50] == 0x2e9839125df3b175 && w[51] == 0x3319629293ad5363
    ensures Rounds(v, w, 52) == Vars(0xd43f83727325dd77, 0x813a43dd2c502043, 0xca9bd862c5050918, 0x571f323d96b3a047, 0x483f80a82eaee23e, 0x07a0d8ef821c5e1a, 0xdfe091dab182e645, 0x271580ed6c3e5650)
  {
    RoundConstant48();
    RoundConstant49();
    RoundConstant50();
    RoundConstant51();
    AbcRoundValues12();
    RoundsStep(v, w, 48, Vars(0x6b69fc1bb482feac, 0xf61e672694de2d67, 0x021fbadbabab5ac6, 0xc47c9d5c7ea8a234, 0x35264334c03ac8ad, 0xc6bc35740d8daa9a, 0xe95c2a57572d64d9, 0x858d832ae0e8911c),
               0x19a4c116b8d2d0c8, 0xebeaf1237248019c,
               Vars(0x571f323d96b3a047, 0x6b69fc1bb482feac, 0xf61e672694de2d67, 0x021fbadbabab5ac6, 0x271580ed6c3e5650, 0x35264334c03ac8ad, 0xc6bc35740d8daa9a, 0xe95c2a57572d64d9));
    RoundsStep(v, w, 49, Vars(0x571f323d96b3a047, 0x6b69fc1bb482feac, 0xf61e672694de2d67, 0x021fbadbabab5ac6, 0x271580ed6c3e5650, 0x35264334c03ac8ad, 0xc6bc35740d8daa9a, 0xe95c2a57572d64d9),
               0x1e376c085141ab53, 0x361e80b2d00f3193,
               Vars(0xca9bd862c5050918, 0x571f323d96b3a047, 0x6b69fc1bb482feac, 0xf61e672694de2d67, 0xdfe091dab182e645, 0x271580ed6c3e5650, 0x35264334c03ac8ad, 0xc6bc35740d8daa9a));
    RoundsStep(v, w, 50, Vars(0xca9bd862c5050918, 0x571f323d96b3a047, 0x6b69fc1bb482feac, 0xf61e672694de2d67, 0xdfe091dab182e645, 0x271580ed6c3e5650, 0x35264334c03ac8ad, 0xc6bc35740d8daa9a),
               0x2748774cdf8eeb99, 0x2e9839125df3b175,
               Vars(0x813a43dd2c502043, 0xca9bd862c5050918, 0x571f323d96b3a047, 0x6b69fc1bb482feac, 0x07a0d8ef821c5e1a, 0xdfe091dab182e645, 0x271580ed6c3e5650, 0x35264334c03ac8ad));
    RoundsStep(v, w, 51, Vars(0x813a43dd2c502043, 0xca9bd862c5050918, 0x571f323d96b3a047, 0x6b69fc1bb482feac, 0x07a0d8ef821c5e1a, 0xdfe091dab182e645, 0x271580ed6c3e5650, 0x35264334c03ac8ad),
               0x34b0bcb5e19b48a8, 0x3319629293ad5363,
               Vars(0xd43f83727325dd77, 0x813a43dd2c502043, 0xca9bd862c5050918, 0x571f323d96b3a047, 0x483f80a82eaee23e, 0x07a0d8ef821c5e1a, 0xdfe091dab182e645, 0x271580ed6c3e5650));
  }

  /** The results of rounds 52..55 on their working variables. */
  lemma AbcRoundValues13()
    ensures Round(Vars(0xd43f83727325dd77, 0x813a43dd2c502043, 0xca9bd862c5050918, 0x571f323d96b3a047, 0x483f80a82eaee23e, 0x07a0d8ef821c5e1a, 0xdfe091dab182e645, 0x271580ed6c3e5650),
              0x391c0cb3c5c95a63, 0x9cbc5d89ac1b89d5)
        == Vars(0x03df11b32d42e203, 0xd43f83727325dd77, 0x813a43dd2c502043, 0xca9bd862c5050918, 0x504f94e40591cffa, 0x483f80a82eaee23e, 0x07a0d8ef821c5e1a, 0xdfe091dab182e645)
      && Round(Vars(0x03df11b32d42e203, 0xd43f83727325dd77, 0x813a43dd2c502043, 0xca9bd862c5050918, 0x504f94e40591cffa, 0x483f80a82eaee23e, 0x07a0d8ef821c5e1a, 0xdfe091dab182e645),
              0x4ed8aa4ae3418acb, 0x275e23ffeeca50b7)
        == Vars(0xd63f68037ddf06aa, 0x03df11b32d42e203, 0xd43f83727325dd77, 0x813a43dd2c502043, 0xa6781efe1aa1ce02, 0x504f94e40591cffa, 0x483f80a82eaee23e, 0x07a0d8ef821c5e1a)
      && Round(Vars(0xd63f68037ddf06aa, 0x03df11b32d42e203, 0xd43f83727325dd77, 0x813a43dd2c502043, 0xa6781efe1aa1ce02, 0x504f94e40591cffa, 0x483f80a82eaee23e, 0x07a0d8ef821c5e1a),
              0x5b9cca4f7763e373, 0x3b80d680bf69ef58)
        == Vars(0xf650857b5babda4d, 0xd63f68037ddf06aa, 0x03df11b32d42e203, 0xd43f83727325dd77, 0x9ccfb31a86df0f86, 0xa6781efe1aa1ce02, 0x504f94e40591cffa, 0x483f80a82eaee23e)
      && Round(Vars(0xf650857b5babda4d, 0xd63f68037ddf06aa, 0x03df11b32d42e203, 0xd43f83727325dd77, 0x9ccfb31a86df0f86, 0xa6781efe1aa1ce02, 0x504f94e40591cffa, 0x483f80a82eaee23e),
              0x682e6ff3d6b2b8a3, 0x0d0696933945a125)
        == Vars(0x63b460e42748817e, 0xf650857b5babda4d, 0xd63f68037ddf06aa, 0x03df11b32d42e203, 0xc6b4dd2a9931c509, 0x9ccfb31a86df0f86, 0xa6781efe1aa1ce02, 0x504f94e40591cffa)
  {
  }

  /** Rounds 52..55. */
  lemma AbcRounds13(v: Vars, w: seq<Word>)
    requires |w| == 80 && Rounds(v, w, 52) == Vars(0xd43f83727325dd77, 0x813a43dd2c502043, 0xca9bd862c5050918, 0x571f323d96b3a047, 0x483f80a82eaee23e, 0x07a0d8ef821c5e1a, 0xdfe091dab182e645, 0x271580ed6c3e5650)
    requires w[52] == 0x9cbc5d89ac1b89d5 && w[53] == 0x275e23ffeeca50b7
      && w[54] == 0x3b80d680bf69ef58 && w[55] == 0x0d0696933945a125
    ensures Rounds(v, w, 56) == Vars(0x63b460e42748817e, 0xf650857b5babda4d, 0xd63f68037ddf06aa, 0x03df11b32d42e203, 0xc6b4dd2a9931c509, 0x9ccfb31a86df0f86, 0xa6781efe1aa1ce02, 0x504f94e40591cffa)
  {
    RoundConstant52();
    RoundConstant53();
    RoundConstant54();
    RoundConstant55();
    AbcRoundValues13();
    RoundsStep(v, w, 52, Vars(0xd43f83727325dd77, 0x813a43dd2c502043, 0xca9bd862c5050918, 0x571f323d96b3a047, 0x483f80a82eaee23e, 0x07a0d8ef821c5e1a, 0xdfe091dab182e645, 0x271580ed6c3e5650),
               0x391c0cb3c5c95a63, 0x9cbc5d89ac1b89d5,
               Vars(0x03df11b32d42e203, 0xd43f83727325dd77, 0x813a43dd2c502043, 0xca9bd862c5050918, 0x504f94e40591cffa, 0x483f80a82eaee23e, 0x07a0d8ef821c5e1a, 0xdfe091dab182e645));
    RoundsStep(v, w, 53, Vars(0x03df11b32d42e203, 0xd43f83727325dd77, 0x813a43dd2c502043, 0xca9bd862c5050918, 0x504f94e40591cffa, 0x483f80a82eaee23e, 0x07a0d8ef821c5e1a, 0xdfe091dab182e645),
               0x4ed8aa4ae3418acb, 0x275e23ffeeca50b7,
               Vars(0xd63f68037ddf06aa, 0x03df11b32d42e203, 0xd43f83727325dd77, 0x813a43dd2c502043, 0xa6781efe1aa1ce02, 0x504f94e40591cffa, 0x483f80a82eaee23e, 0x07a0d8ef821c5e1a));
    RoundsStep(v, w, 54, Vars(0xd63f68037ddf06aa, 0x03df11b32d42e203, 0xd43f83727325dd77, 0x813a43dd2c502043, 0xa6781efe1aa1ce02, 0x504f94e40591cffa, 0x483f80a82eaee23e, 0x07a0d8ef821c5e1a),
               0x5b9cca4f7763e373, 0x3b80d680bf69ef58,
               Vars(0xf650857b5babda4d, 0xd63f68037ddf06aa, 0x03df11b32d42e203, 0xd43f83727325dd77, 0x9ccfb31a86df0f86, 0xa6781efe1aa1ce02, 0x504f94e40591cffa, 0x483f80a82eaee23e));
    RoundsStep(v, w, 55, Vars(0xf650857b5babda4d, 0xd63f68037ddf06aa, 0x03df11b32d42e203, 0xd43f83727325dd77, 0x9ccfb31a86df0f86, 0xa6781efe1aa1ce02, 0x504f94e40591cffa, 0x483f80a82eaee23e),
               0x682e6ff3d6b2b8a3, 0x0d0696933945a125,
               Vars(0x63b460e42748817e, 0xf650857b5babda4d, 0xd63f68037ddf06aa, 0x03df11b32d42e203, 0xc6b4dd2a9931c509, 0x9ccfb31a86df0f86, 0xa6781efe1aa1ce02, 0x504f94e40591cffa));
  }

  /** The results of rounds 56..59 on their working variables. */
  lemma AbcRoundValues14()
    ensures Round(Vars(0x63b460e42748817e, 0xf650857b5babda4d, 0xd63f68037ddf06aa, 0x03df11b32d42e203, 0xc6b4dd2a9931c509, 0x9ccfb31a86df0f86, 0xa6781efe1aa1ce02, 0x504f94e40591cffa),
              0x748f82ee5defb2fc, 0x7533eabcb786ff00)
        == Vars(0x7a52912943d52b05, 0x63b460e42748817e, 0xf650857b5babda4d, 0xd63f68037ddf06aa, 0xd2e89bbd91e00be0, 0xc6b4dd2a9931c509, 0x9ccfb31a86df0f86, 0xa6781efe1aa1ce02)
      && Round(Vars(0x7a52912943d52b05, 0x63b460e42748817e, 0xf650857b5babda4d, 0xd63f68037ddf06aa, 0xd2e89bbd91e00be0, 0xc6b4dd2a9931c509, 0x9ccfb31a86df0f86, 0xa6781efe1aa1ce02),
              0x78a5636f43172f60, 0xb89826cee6fbf0e5)
        == Vars(0x4b81c3aec976ea4b, 0x7a52912943d52b05, 0x63b460e42748817e, 0xf650857b5babda4d, 0x70505988124351ac, 0xd2e89bbd91e00be0, 0xc6b4dd2a9931c509, 0x9ccfb31a86df0f86)
      && Round(Vars(0x4b81c3aec976ea4b, 0x7a52912943d52b05, 0x63b460e42748817e, 0xf650857b5babda4d, 0x70505988124351ac, 0xd2e89bbd91e00be0, 0xc6b4dd2a9931c509, 0x9ccfb31a86df0f86),
              0x84c87814a1f0ab72, 0x249b4fbcad623e9f)
        == Vars(0x581ecb3355dcd9b8, 0x4b81c3aec976ea4b, 0x7a52912943d52b05, 0x63b460e42748817e, 0x6a3c9b0f71c8bf36, 0x70505988124351ac, 0xd2e89bbd91e00be0, 0xc6b4dd2a9931c509)
      && Round(Vars(0x581ecb3355dcd9b8, 0x4b81c3aec976ea4b, 0x7a52912943d52b05, 0x63b460e42748817e, 0x6a3c9b0f71c8bf36, 0x70505988124351ac, 0xd2e89bbd91e00be0, 0xc6b4dd2a9931c509),
              0x8cc702081a6439ec, 0x4aea9df2b02d6f1e)
        == Vars(0x2c074484ef1eac8c, 0x581ecb3355dcd9b8, 0x4b81c3aec976ea4b, 0x7a52912943d52b05, 0x4797cde4ed370692, 0x6a3c9b0f71c8bf36, 0x70505988124351ac, 0xd2e89bbd91e00be0)
  {
  }

  /** Rounds 56..59. */
  lemma AbcRounds14(v: Vars, w: seq<Word>)
    requires |w| == 80 && Rounds(v, w, 56) == Vars(0x63b460e42748817e, 0xf650857b5babda4d, 0xd63f68037ddf06aa, 0x03df11b32d42e203, 0xc6b4dd2a9931c509, 0x9ccfb31a86df0f86, 0xa6781efe1aa1ce02, 0x504f94e40591cffa)
    requires w[56] == 0x7533eabcb786ff00 && w[57] == 0xb89826cee6fbf0e5
      && w[58] == 0x249b4fbcad623e9f && w[59] == 0x4aea9df2b02d6f1e
    ensures Rounds(v, w, 60) == Vars(0x2c074484ef1eac8c, 0x581ecb3355dcd9b8, 0x4b81c3aec976ea4b, 0x7a52912943d52b05, 0x4797cde4ed370692, 0x6a3c9b0f71c8bf36, 0x70505988124351ac, 0xd2e89bbd91e00be0)
  {
    RoundConstant56();
    RoundConstant57();
    RoundConstant58();
    RoundConstant59();
    AbcRoundValues14();
    RoundsStep(v, w, 56, Vars(0x63b460e42748817e, 0xf650857b5babda4d, 0xd63f68037ddf06aa, 0x03df11b32d42e203, 0xc6b4dd2a9931c509, 0x9ccfb31a86df0f86, 0xa6781efe1aa1ce02, 0x504f94e40591cffa),
               0x748f82ee5defb2fc, 0x7533eabcb786ff00,
               Vars(0x7a52912943d52b05, 0x63b460e42748817e, 0xf650857b5babda4d, 0xd63f68037ddf06aa, 0xd2e89bbd91e00be0, 0xc6b4dd2a9931c509, 0x9ccfb31a86df0f86, 0xa6781efe1aa1ce02));
    RoundsStep(v, w, 57, Vars(0x7a52912943d52b05, 0x63b460e42748817e, 0xf650857b5babda4d, 0xd63f68037ddf06aa, 0xd2e89bbd91e00be0, 0xc6b4dd2a9931c509, 0x9ccfb31a86df0f86, 0xa6781efe1aa1ce02),
               0x78a5636f43172f60, 0xb89826cee6fbf0e5,
               Vars(0x4b81c3aec976ea4b, 0x7a52912943d52b05, 0x63b460e42748817e, 0xf650857b5babda4d, 0x70505988124351ac, 0xd2e89bbd91e00be0, 0xc6b4dd2a9931c509, 0x9ccfb31a86df0f86));
    RoundsStep(v, w, 58, Vars(0x4b81c3aec976ea4b, 0x7a52912943d52b05, 0x63b460e42748817e, 0xf650857b5babda4d, 0x70505988124351ac, 0xd2e89bbd91e00be0, 0xc6b4dd2a9931c509, 0x9ccfb31a86df0f86),
               0x84c87814a1f0ab72, 0x249b4fbcad623e9f,
               Vars(0x581ecb3355dcd9b8, 0x4b81c3aec976ea4b, 0x7a52912943d52b05, 0x63b460e42748817e, 0x6a3c9b0f71c8bf36, 0x70505988124351ac, 0xd2e89bbd91e00be0, 0xc6b4dd2a9931c509));
    RoundsStep(v, w, 59, Vars(0x581ecb3355dcd9b8, 0x4b81c3aec976ea4b, 0x7a52912943d52b05, 0x63b460e42748817e, 0x6a3c9b0f71c8bf36, 0x70505988124351ac, 0xd2e89bbd91e00be0, 0xc6b4dd2a9931c509),
               0x8cc702081a6439ec, 0x4aea9df2b02d6f1e,
               Vars(0x2c074484ef1eac8c, 0x581ecb3355dcd9b8, 0x4b81c3aec976ea4b, 0x7a52912943d52b05, 0x4797cde4ed370692, 0x6a3c9b0f71c8bf36, 0x70505988124351ac, 0xd2e89bbd91e00be0));
  }

  /** The results of rounds 60..63 on their working variables. */
  lemma AbcRoundValues15()
    ensures Round(Vars(0x2c074484ef1eac8c, 0x581ecb3355dcd9b8, 0x4b81c3aec976ea4b, 0x7a52912943d52b05, 0x4797cde4ed370692, 0x6a3c9b0f71c8bf36, 0x70505988124351ac, 0xd2e89bbd91e00be0),
              0x90befffa23631e28, 0x2cc57475a55e8d8f)
        == Vars(0x3857dfd2fc37d3ba, 0x2c074484ef1eac8c, 0x581ecb3355dcd9b8, 0x4b81c3aec976ea4b, 0xa6af4e9c9f807e51, 0x4797cde4ed370692, 0x6a3c9b0f71c8bf36, 0x70505988124351ac)
      && Round(Vars(0x3857dfd2fc37d3ba, 0x2c074484ef1eac8c, 0x581ecb3355dcd9b8, 0x4b81c3aec976ea4b, 0xa6af4e9c9f807e51, 0x4797cde4ed370692, 0x6a3c9b0f71c8bf36, 0x70505988124351ac),
              0xa4506cebde82bde9, 0xb2574ae938d8be89)
        == Vars(0xcfcd928c5424e2b6, 0x3857dfd2fc37d3ba, 0x2c074484ef1eac8c, 0x581ecb3355dcd9b8, 0x09aee5bda1644de5, 0xa6af4e9c9f807e51, 0x4797cde4ed370692, 0x6a3c9b0f71c8bf36)
      && Round(Vars(0xcfcd928c5424e2b6, 0x3857dfd2fc37d3ba, 0x2c074484ef1eac8c, 0x581ecb3355dcd9b8, 0x09aee5bda1644de5, 0xa6af4e9c9f807e51, 0x4797cde4ed370692, 0x6a3c9b0f71c8bf36),
              0xbef9a3f7b2c67915, 0xc1b35a57b16d6aea)
        == Vars(0xa81dedbb9f19e643, 0xcfcd928c5424e2b6, 0x3857dfd2fc37d3ba, 0x2c074484ef1eac8c, 0x84058865d60a05fa, 0x09aee5bda1644de5, 0xa6af4e9c9f807e51, 0x4797cde4ed370692)
      && Round(Vars(0xa81dedbb9f19e643, 0xcfcd928c5424e2b6, 0x3857dfd2fc37d3ba, 0x2c074484ef1eac8c, 0x84058865d60a05fa, 0x09aee5bda1644de5, 0xa6af4e9c9f807e51, 0x4797cde4ed370692),
              0xc67178f2e372532b, 0xcc4918b5949206bb)
        == Vars(0xab44e86276478d85, 0xa81dedbb9f19e643, 0xcfcd928c5424e2b6, 0x3857dfd2fc37d3ba, 0xcd881ee59ca6bc53, 0x84058865d60a05fa, 0x09aee5bda1644de5, 0xa6af4e9c9f807e51)
  {
  }

  /** Rounds 60..63. */
  lemma AbcRounds15(v: Vars, w: seq<Word>)
    requires |w| == 80 && Rounds(v, w, 60) == Vars(0x2c074484ef1eac8c, 0x581ecb3355dcd9b8, 0x4b81c3aec976ea4b, 0x7a52912943d52b05, 0x4797cde4ed370692, 0x6a3c9b0f71c8bf36, 0x70505988124351ac, 0xd2e89bbd91e00be0)
    requires w[60] == 0x2cc57475a55e8d8f && w[61] == 0xb2574ae938d8be89
      && w[62] == 0xc1b35a57b16d6aea && w[63] == 0xcc4918b5949206bb
    ensures Rounds(v, w, 64) == Vars(0xab44e86276478d85, 0xa81dedbb9f19e643, 0xcfcd928c5424e2b6, 0x3857dfd2fc37d3ba, 0xcd881ee59ca6bc53, 0x84058865d60a05fa, 0x09aee5bda1644de5, 0xa6af4e9c9f807e51)
  {
    RoundConstant60();
    RoundConstant61();
    RoundConstant62();
    RoundConstant63();
    AbcRoundValues15();
    RoundsStep(v, w, 60, Vars(0x2c074484ef1eac8c, 0x581ecb3355dcd9b8, 0x4b81c3aec976ea4b, 0x7a52912943d52b05, 0x4797cde4ed370692, 0x6a3c9b0f71c8bf36, 0x70505988124351ac, 0xd2e89bbd91e00be0),
               0x90befffa23631e28, 0x2cc57475a55e8d8f,
               Vars(0x3857dfd2fc37d3ba, 0x2c074484ef1eac8c, 0x581ecb3355dcd9b8, 0x4b81c3aec976ea4b, 0xa6af4e9c9f807e51, 0x4797cde4ed370692, 0x6a3c9b0f71c8bf36, 0x70505988124351ac));
    RoundsStep(v, w, 61, Vars(0x3857dfd2fc37d3ba, 0x2c074484ef1eac8c, 0x581ecb3355dcd9b8, 0x4b81c3aec976ea4b, 0xa6af4e9c9f807e51, 0x4797cde4ed370692, 0x6a3c9b0f71c8bf36, 0x70505988124351ac),
               0xa4506cebde82bde9, 0xb2574ae938d8be89,
               Vars(0xcfcd928c5424e2b6, 0x3857dfd2fc37d3ba, 0x2c074484ef1eac8c, 0x581ecb3355dcd9b8, 0x09aee5bda1644de5, 0xa6af4e9c9f807e51, 0x4797cde4ed370692, 0x6a3c9b0f71c8bf36));
    RoundsStep(v, w, 62, Vars(0xcfcd928c5424e2b6, 0x3857dfd2fc37d3ba, 0x2c074484ef1eac8c, 0x581ecb3355dcd9b8, 0x09aee5bda1644de5, 0xa6af4e9c9f807e51, 0x4797cde4ed370692, 0x6a3c9b0f71c8bf36),
               0xbef9a3f7b2c67915, 0xc1b35a57b16d6aea,
               Vars(0xa81dedbb9f19e643, 0xcfcd928c5424e2b6, 0x3857dfd2fc37d3ba, 0x2c074484ef1eac8c, 0x84058865d60a05fa, 0x09aee5bda1644de5, 0xa6af4e9c9f807e51, 0x4797cde4ed370692));
    RoundsStep(v, w, 63, Vars(0xa81dedbb9f19e643, 0xcfcd928c5424e2b6, 0x3857dfd2fc37d3ba, 0x2c074484ef1eac8c, 0x84058865d60a05fa, 0x09aee5bda1644de5, 0xa6af4e9c9f807e51, 0x4797cde4ed370692),
               0xc67178f2e372532b, 0xcc4918b5949206bb,
               Vars(0xab44e86276478d85, 0xa81dedbb9f19e643, 0xcfcd928c5424e2b6, 0x3857dfd2fc37d3ba, 0xcd881ee59ca6bc53, 0x84058865d60a05fa, 0x09aee5bda1644de5, 0xa6af4e9c9f807e51));
  }

  /** The results of rounds 64..67 on their working variables. */
  lemma AbcRoundValues16()
    ensures Round(Vars(0xab44e86276478d85, 0xa81dedbb9f19e643, 0xcfcd928c5424e2b6, 0x3857dfd2fc37d3ba, 0xcd881ee59ca6bc53, 0x84058865d60a05fa, 0x09aee5bda1644de5, 0xa6af4e9c9f807e51),
              0xca273eceea26619c, 0x5099c3add79f90ec)
        == Vars(0x5a806d7e9821a501, 0xab44e86276478d85, 0xa81dedbb9f19e643, 0xcfcd928c5424e2b6, 0xaa84b086688a5c45, 0xcd881ee59ca6bc53, 0x84058865d60a05fa, 0x09aee5bda1644de5)
      && Round(Vars(0x5a806d7e9821a501, 0xab44e86276478d85, 0xa81dedbb9f19e643, 0xcfcd928c5424e2b6, 0xaa84b086688a5c45, 0xcd881ee59ca6bc53, 0x84058865d60a05fa, 0x09aee5bda1644de5),
              0xd186b8c721c0c207, 0x5ea81d78e7660bf1)
        == Vars(0xeeb9c21bb0102598, 0x5a806d7e9821a501, 0xab44e86276478d85, 0xa81dedbb9f19e643, 0x3b5fed0d6a1f96e1, 0xaa84b086688a5c45, 0xcd881ee59ca6bc53, 0x84058865d60a05fa)
      && Round(Vars(0xeeb9c21bb0102598, 0x5a806d7e9821a501, 0xab44e86276478d85, 0xa81dedbb9f19e643, 0x3b5fed0d6a1f96e1, 0xaa84b086688a5c45, 0xcd881ee59ca6bc53, 0x84058865d60a05fa),
              0xeada7dd6cde0eb1e, 0xebee6267405ac2a9)
        == Vars(0x46c4210ab2cc155d, 0xeeb9c21bb0102598, 0x5a806d7e9821a501, 0xab44e86276478d85, 0x29fab5a7bff53366, 0x3b5fed0d6a1f96e1, 0xaa84b086688a5c45, 0xcd881ee59ca6bc53)
      && Round(Vars(0x46c4210ab2cc155d, 0xeeb9c21bb0102598, 0x5a806d7e9821a501, 0xab44e86276478d85, 0x29fab5a7bff53366, 0x3b5fed0d6a1f96e1, 0xaa84b086688a5c45, 0xcd881ee59ca6bc53),
              0xf57d4f7fee6ed178, 0xb01f21926108a4ab)
        == Vars(0x54ba35cf56a0340e, 0x46c4210ab2cc155d, 0xeeb9c21bb0102598, 0x5a806d7e9821a501, 0x1c66f46d95690bcf, 0x29fab5a7bff53366, 0x3b5fed0d6a1f96e1, 0xaa84b086688a5c45)
  {
  }

  /** Rounds 64..67. */
  lemma AbcRounds16(v: Vars, w: seq<Word>)
    requires |w| == 80 && Rounds(v, w, 64) == Vars(0xab44e86276478d85, 0xa81dedbb9f19e643, 0xcfcd928c5424e2b6, 0x3857dfd2fc37d3ba, 0xcd881ee59ca6bc53, 0x84058865d60a05fa, 0x09aee5bda1644de5, 0xa6af4e9c9f807e51)
    requires w[64] == 0x5099c3add79f90ec && w[65] == 0x5ea81d78e7660bf1
      && w[66] == 0xebee6267405ac2a9 && w[67] == 0xb01f21926108a4ab
    ensures Rounds(v, w, 68) == Vars(0x54ba35cf56a0340e, 0x46c4210ab2cc155d, 0xeeb9c21bb0102598, 0x5a806d7e9821a501, 0x1c66f46d95690bcf, 0x29fab5a7bff53366, 0x3b5fed0d6a1f96e1, 0xaa84b086688a5c45)
  {
    RoundConstant64();
    RoundConstant65();
    RoundConstant66();
    RoundConstant67();
    AbcRoundValues16();
    RoundsStep(v, w, 64, Vars(0xab44e86276478d85, 0xa81dedbb9f19e643, 0xcfcd928c5424e2b6, 0x3857dfd2fc37d3ba, 0xcd881ee59ca6bc53, 0x84058865d60a05fa, 0x09aee5bda1644de5, 0xa6af4e9c9f807e51),
               0xca273eceea26619c, 0x5099c3add79f90ec,
               Vars(0x5a806d7e9821a501, 0xab44e86276478d85, 0xa81dedbb9f19e643, 0xcfcd928c5424e2b6, 0xaa84b086688a5c45, 0xcd881ee59ca6bc53, 0x84058865d60a05fa, 0x09aee5bda1644de5));
    RoundsStep(v, w, 65, Vars(0x5a806d7e9821a501, 0xab44e86276478d85, 0xa81dedbb9f19e643, 0xcfcd928c5424e2b6, 0xaa84b086688a5c45, 0xcd881ee59ca6bc53, 0x84058865d60a05fa, 0x09aee5bda1644de5),
               0xd186b8c721c0c207, 0x5ea81d78e7660bf1,
               Vars(0xeeb9c21bb0102598, 0x5a806d7e9821a501, 0xab44e86276478d85, 0xa81dedbb9f19e643, 0x3b5fed0d6a1f96e1, 0xaa84b086688a5c45, 0xcd881ee59ca6bc53, 0x84058865d60a05fa));
    RoundsStep(v, w, 66, Vars(0xeeb9c21bb0102598, 0x5a806d7e9821a501, 0xab44e86276478d85, 0xa81dedbb9f19e643, 0x3b5fed0d6a1f96e1, 0xaa84b086688a5c45, 0xcd881ee59ca6bc53, 0x84058865d60a05fa),
               0xeada7dd6cde0eb1e, 0xebee6267405ac2a9,
               Vars(0x46c4210ab2cc155d, 0xeeb9c21bb0102598, 0x5a806d7e9821a501, 0xab44e86276478d85, 0x29fab5a7bff53366, 0x3b5fed0d6a1f96e1, 0xaa84b086688a5c45, 0xcd881ee59ca6bc53));
    RoundsStep(v, w, 67, Vars(0x46c4210ab2cc155d, 0xeeb9c21bb0102598, 0x5a806d7e9821a501, 0xab44e86276478d85, 0x29fab5a7bff53366, 0x3b5fed0d6a1f96e1, 0xaa84b086688a5c45, 0xcd881ee59ca6bc53),
               0xf57d4f7fee6ed178, 0xb01f21926108a4ab,
               Vars(0x54ba35cf56a0340e, 0x46c4210ab2cc155d, 0xeeb9c21bb0102598, 0x5a806d7e9821a501, 0x1c66f46d95690bcf, 0x29fab5a7bff53366, 0x3b5fed0d6a1f96e1, 0xaa84b086688a5c45));
  }

  /** The results of rounds 68..71 on their working variables. */
  lemma AbcRoundValues17()
    ensures Round(Vars(0x54ba35cf56a0340e, 0x46c4210ab2cc155d, 0xeeb9c21bb0102598, 0x5a806d7e9821a501, 0x1c66f46d95690bcf, 0x29fab5a7bff53366, 0x3b5fed0d6a1f96e1, 0xaa84b086688a5c45),
              0x06f067aa72176fba, 0x786433dd2fe65556)
        == Vars(0x181839d609c79748, 0x54ba35cf56a0340e, 0x46c4210ab2cc155d, 0xeeb9c21bb0102598, 0x0ada78ba2d446140, 0x1c66f46d95690bcf, 0x29fab5a7bff53366, 0x3b5fed0d6a1f96e1)
      && Round(Vars(0x181839d609c79748, 0x54ba35cf56a0340e, 0x46c4210ab2cc155d, 0xeeb9c21bb0102598, 0x0ada78ba2d446140, 0x1c66f46d95690bcf, 0x29fab5a7bff53366, 0x3b5fed0d6a1f96e1),
              0x0a637dc5a2c898a6, 0xc54a6eaa24a0552c)
        == Vars(0xfb6aaae5d0b6a447, 0x181839d609c79748, 0x54ba35cf56a0340e, 0x46c4210ab2cc155d, 0xe3711cb6564d112d, 0x0ada78ba2d446140, 0x1c66f46d95690bcf, 0x29fab5a7bff53366)
      && Round(Vars(0xfb6aaae5d0b6a447, 0x181839d609c79748, 0x54ba35cf56a0340e, 0x46c4210ab2cc155d, 0xe3711cb6564d112d, 0x0ada78ba2d446140, 0x1c66f46d95690bcf, 0x29fab5a7bff53366),
              0x113f9804bef90dae, 0xb3c8f1530bdbaa9e)
        == Vars(0x7652c579cb60f19c, 0xfb6aaae5d0b6a447, 0x181839d609c79748, 0x54ba35cf56a0340e, 0xaff62c9665ff80fa, 0xe3711cb6564d112d, 0x0ada78ba2d446140, 0x1c66f46d95690bcf)
      && Round(Vars(0x7652c579cb60f19c, 0xfb6aaae5d0b6a447, 0x181839d609c79748, 0x54ba35cf56a0340e, 0xaff62c9665ff80fa, 0xe3711cb6564d112d, 0x0ada78ba2d446140, 0x1c66f46d95690bcf),
              0x1b710b35131c471b, 0xbb8abfe56f469338)
        == Vars(0xf15e9664b2803575, 0x7652c579cb60f19c, 0xfb6aaae5d0b6a447, 0x181839d609c79748, 0x947c3dfafee570ef, 0xaff62c9665ff80fa, 0xe3711cb6564d112d, 0x0ada78ba2d446140)
  {
  }

  /** Rounds 68..71. */
  lemma AbcRounds17(v: Vars, w: seq<Word>)
    requires |w| == 80 && Rounds(v, w, 68) == Vars(0x54ba35cf56a0340e, 0x46c4210ab2cc155d, 0xeeb9c21bb0102598, 0x5a806d7e9821a501, 0x1c66f46d95690bcf, 0x29fab5a7bff53366, 0x3b5fed0d6a1f96e1, 0xaa84b086688a5c45)
    requires w[68] == 0x786433dd2fe65556 && w[69] == 0xc54a6eaa24a0552c
      && w[70] == 0xb3c8f1530bdbaa9e && w[71] == 0xbb8abfe56f469338
    ensures Rounds(v, w, 72) == Vars(0xf15e9664b2803575, 0x7652c579cb60f19c, 0xfb6aaae5d0b6a447, 0x181839d609c79748, 0x947c3dfafee570ef, 0xaff62c9665ff80fa, 0xe3711cb6564d112d, 0x0ada78ba2d446140)
  {
    RoundConstant68();
    RoundConstant69();
    RoundConstant70();
    RoundConstant71();
    AbcRoundValues17();
    RoundsStep(v, w, 68, Vars(0x54ba35cf56a0340e, 0x46c4210ab2cc155d, 0xeeb9c21bb0102598, 0x5a806d7e9821a501, 0x1c66f46d95690bcf, 0x29fab5a7bff53366, 0x3b5fed0d6a1f96e1, 0xaa84b086688a5c45),
               0x06f067aa72176fba, 0x786433dd2fe65556,
               Vars(0x181839d609c79748, 0x54ba35cf56a0340e, 0x46c4210ab2cc155d, 0xeeb9c21bb0102598, 0x0ada78ba2d446140, 0x1c66f46d95690bcf, 0x29fab5a7bff53366, 0x3b5fed0d6a1f96e1));
    RoundsStep(v, w, 69, Vars(0x181839d609c79748, 0x54ba35cf56a0340e, 0x46c4210ab2cc155d, 0xeeb9c21bb0102598, 0x0ada78ba2d446140, 0x1c66f46d95690bcf, 0x29fab5a7bff53366, 0x3b5fed0d6a1f96e1),
               0x0a637dc5a2c898a6, 0xc54a6eaa24a0552c,
               Vars(0xfb6aaae5d0b6a447, 0x181839d609c79748, 0x54ba35cf56a0340e, 0x46c4210ab2cc155d, 0xe3711cb6564d112d, 0x0ada78ba2d446140, 0x1c66f46d95690bcf, 0x29fab5a7bff53366));
    RoundsStep(v, w, 70, Vars(0xfb6aaae5d0b6a447, 0x181839d609c79748, 0x54ba35cf56a0340e, 0x46c4210ab2cc155d, 0xe3711cb6564d112d, 0x0ada78ba2d446140, 0x1c66f46d95690bcf, 0x29fab5a7bff53366),
               0x113f9804bef90dae, 0xb3c8f1530bdbaa9e,
               Vars(0x7652c579cb60f19c, 0xfb6aaae5d0b6a447, 0x181839d609c79748, 0x54ba35cf56a0340e, 0xaff62c9665ff80fa, 0xe3711cb6564d112d, 0x0ada78ba2d446140, 0x1c66f46d95690bcf));
    RoundsStep(v, w, 71, Vars(0x7652c579cb60f19c, 0xfb6aaae5d0b6a447, 0x181839d609c79748, 0x54ba35cf56a0340e, 0xaff62c9665ff80fa, 0xe3711cb6564d112d, 0x0ada78ba2d446140, 0x1c66f46d95690bcf),
               0x1b710b35131c471b, 0xbb8abfe56f469338,
               Vars(0xf15e9664b2803575, 0x7652c579cb60f19c, 0xfb6aaae5d0b6a447, 0x181839d609c79748, 0x947c3dfafee570ef, 0xaff62c9665ff80fa, 0xe3711cb6564d112d, 0x0ada78ba2d446140));
  }

  /** The results of rounds 72..75 on their working variables. */
  lemma AbcRoundValues18()
    ensures Round(Vars(0xf15e9664b2803575, 0x7652c579cb60f19c, 0xfb6aaae5d0b6a447, 0x181839d609c79748, 0x947c3dfafee570ef, 0xaff62c9665ff80fa, 0xe3711cb6564d112d, 0x0ada78ba2d446140),
              0x28db77f523047d84, 0xf63d4265cc1c5a78)
        == Vars(0x358406d165aee9ab, 0xf15e9664b2803575, 0x7652c579cb60f19c, 0xfb6aaae5d0b6a447, 0x8c7b5fd91a794ca0, 0x947c3dfafee570ef, 0xaff62c9665ff80fa, 0xe3711cb6564d112d)
      && Round(Vars(0x358406d165aee9ab, 0xf15e9664b2803575, 0x7652c579cb60f19c, 0xfb6aaae5d0b6a447, 0x8c7b5fd91a794ca0, 0x947c3dfafee570ef, 0xaff62c9665ff80fa, 0xe3711cb6564d112d),
              0x32caab7b40c72493, 0xbe8355ea73129afb)
        == Vars(0x20878dcd29cdfaf5, 0x358406d165aee9ab, 0xf15e9664b2803575, 0x7652c579cb60f19c, 0x054d3536539948d0, 0x8c7b5fd91a794ca0, 0x947c3dfafee570ef, 0xaff62c9665ff80fa)
      && Round(Vars(0x20878dcd29cdfaf5, 0x358406d165aee9ab, 0xf15e9664b2803575, 0x7652c579cb60f19c, 0x054d3536539948d0, 0x8c7b5fd91a794ca0, 0x947c3dfafee570ef, 0xaff62c9665ff80fa),
              0x3c9ebe0a15c9bebc, 0x49e2db8ebdcfbeb5)
        == Vars(0x33d48dabb5521de2, 0x20878dcd29cdfaf5, 0x358406d165aee9ab, 0xf15e9664b2803575, 0x2ba18245b50de4cf, 0x054d3536539948d0, 0x8c7b5fd91a794ca0, 0x947c3dfafee570ef)
      && Round(Vars(0x33d48dabb5521de2, 0x20878dcd29cdfaf5, 0x358406d165aee9ab, 0xf15e9664b2803575, 0x2ba18245b50de4cf, 0x054d3536539948d0, 0x8c7b5fd91a794ca0, 0x947c3dfafee570ef),
              0x431d67c49c100d4c, 0x82269d4a883a3d99)
        == Vars(0xc8960e6be864b916, 0x33d48dabb5521de2, 0x20878dcd29cdfaf5, 0x358406d165aee9ab, 0x995019a6ff3ba3de, 0x2ba18245b50de4cf, 0x054d3536539948d0, 0x8c7b5fd91a794ca0)
  {
  }

  /** Rounds 72..75. */
  lemma AbcRounds18(v: Vars, w: seq<Word>)
    requires |w| == 80 && Rounds(v, w, 72) == Vars(0xf15e9664b2803575, 0x7652c579cb60f19c, 0xfb6aaae5d0b6a447, 0x181839d609c79748, 0x947c3dfafee570ef, 0xaff62c9665ff80fa, 0xe3711cb6564d112d, 0x0ada78ba2d446140)
    requires w[72] == 0xf63d4265cc1c5a78 && w[73] == 0xbe8355ea73129afb
      && w[74] == 0x49e2db8ebdcfbeb5 && w[75] == 0x82269d4a883a3d99
    ensures Rounds(v, w, 76) == Vars(0xc8960e6be864b916, 0x33d48dabb5521de2, 0x20878dcd29cdfaf5, 0x358406d165aee9ab, 0x995019a6ff3ba3de, 0x2ba18245b50de4cf, 0x054d3536539948d0, 0x8c7b5fd91a794ca0)
  {
    RoundConstant72();
    RoundConstant73();
    RoundConstant74();
    RoundConstant75();
    AbcRoundValues18();
    RoundsStep(v, w, 72, Vars(0xf15e9664b2803575, 0x7652c579cb60f19c, 0xfb6aaae5d0b6a447, 0x181839d609c79748, 0x947c3dfafee570ef, 0xaff62c9665ff80fa, 0xe3711cb6564d112d, 0x0ada78ba2d446140),
               0x28db77f523047d84, 0xf63d4265cc1c5a78,
               Vars(0x358406d165aee9ab, 0xf15e9664b2803575, 0x7652c579cb60f19c, 0xfb6aaae5d0b6a447, 0x8c7b5fd91a794ca0, 0x947c3dfafee570ef, 0xaff62c9665ff80fa, 0xe3711cb6564d112d));
    RoundsStep(v, w, 73, Vars(0x358406d165aee9ab, 0xf15e9664b2803575, 0x7652c579cb60f19c, 0xfb6aaae5d0b6a447, 0x8c7b5fd91a794ca0, 0x947c3dfafee570ef, 0xaff62c9665ff80fa, 0xe3711cb6564d112d),
               0x32caab7b40c72493, 0xbe8355ea73129afb,
               Vars(0x20878dcd29cdfaf5, 0x358406d165aee9ab, 0xf15e9664b2803575, 0x7652c579cb60f19c, 0x054d3536539948d0, 0x8c7b5fd91a794ca0, 0x947c3dfafee570ef, 0xaff62c9665ff80fa));
    RoundsStep(v, w, 74, Vars(0x20878dcd29cdfaf5, 0x358406d165aee9ab, 0xf15e9664b2803575, 0x7652c579cb60f19c, 0x054d3536539948d0, 0x8c7b5fd91a794ca0, 0x947c3dfafee570ef, 0xaff62c9665ff80fa),
               0x3c9ebe0a15c9bebc, 0x49e2db8ebdcfbeb5,
               Vars(0x33d48dabb5521de2, 0x20878dcd29cdfaf5, 0x358406d165aee9ab, 0xf15e9664b2803575, 0x2ba18245b50de4cf, 0x054d3536539948d0, 0x8c7b5fd91a794ca0, 0x947c3dfafee570ef));
    RoundsStep(v, w, 75, Vars(0x33d48dabb5521de2, 0x20878dcd29cdfaf5, 0x358406d165aee9ab, 0xf15e9664b2803575, 0x2ba18245b50de4cf, 0x054d3536539948d0, 0x8c7b5fd91a794ca0, 0x947c3dfafee570ef),
               0x431d67c49c100d4c, 0x82269d4a883a3d99,
               Vars(0xc8960e6be864b916, 0x33d48dabb5521de2, 0x20878dcd29cdfaf5, 0x358406d165aee9ab, 0x995019a6ff3ba3de, 0x2ba18245b50de4cf, 0x054d3536539948d0, 0x8c7b5fd91a794ca0));
  }

  /** The results of rounds 76..79 on their working variables. */
  lemma AbcRoundValues19()
    ensures Round(Vars(0xc8960e6be864b916, 0x33d48dabb5521de2, 0x20878dcd29cdfaf5, 0x358406d165aee9ab, 0x995019a6ff3ba3de, 0x2ba18245b50de4cf, 0x054d3536539948d0, 0x8c7b5fd91a794ca0),
              0x4cc5d4becb3e42b6, 0xfdf53df3011f362b)
        == Vars(0x654ef9abec389ca9, 0xc8960e6be864b916, 0x33d48dabb5521de2, 0x20878dcd29cdfaf5, 0xceb9fc3691ce8326, 0x995019a6ff3ba3de, 0x2ba18245b50de4cf, 0x054d3536539948d0)
      && Round(Vars(0x654ef9abec389ca9, 0xc8960e6be864b916, 0x33d48dabb5521de2, 0x20878dcd29cdfaf5, 0xceb9fc3691ce8326, 0x995019a6ff3ba3de, 0x2ba18245b50de4cf, 0x054d3536539948d0),
              0x597f299cfc657e2a, 0x464af5671d71c12e)
        == Vars(0xd67806db8b148677, 0x654ef9abec389ca9, 0xc8960e6be864b916, 0x33d48dabb5521de2, 0x25c96a7768fb2aa3, 0xceb9fc3691ce8326, 0x995019a6ff3ba3de, 0x2ba18245b50de4cf)
      && Round(Vars(0xd67806db8b148677, 0x654ef9abec389ca9, 0xc8960e6be864b916, 0x33d48dabb5521de2, 0x25c96a7768fb2aa3, 0xceb9fc3691ce8326, 0x995019a6ff3ba3de, 0x2ba18245b50de4cf),
              0x5fcb6fab3ad6faec, 0xe449b68198ec611c)
        == Vars(0x10d9c4c4295599f6, 0xd67806db8b148677, 0x654ef9abec389ca9, 0xc8960e6be864b916, 0x9bb4d39778c07f9e, 0x25c96a7768fb2aa3, 0xceb9fc3691ce8326, 0x995019a6ff3ba3de)
      && Round(Vars(0x10d9c4c4295599f6, 0xd67806db8b148677, 0x654ef9abec389ca9, 0xc8960e6be864b916, 0x9bb4d39778c07f9e, 0x25c96a7768fb2aa3, 0xceb9fc3691ce8326, 0x995019a6ff3ba3de),
              0x6c44198c4a475817, 0x92aeeed1a7bcf7d2)
        == Vars(0x73a54f399fa4b1b2, 0x10d9c4c4295599f6, 0xd67806db8b148677, 0x654ef9abec389ca9, 0xd08446aa79693ed7, 0x9bb4d39778c07f9e, 0x25c96a7768fb2aa3, 0xceb9fc3691ce8326)
  {
  }

  /** Rounds 76..79. */
  lemma AbcRounds19(v: Vars, w: seq<Word>)
    requires |w| == 80 && Rounds(v, w, 76) == Vars(0xc8960e6be864b916, 0x33d48dabb5521de2, 0x20878dcd29cdfaf5, 0x358406d165aee9ab, 0x995019a6ff3ba3de, 0x2ba18245b50de4cf, 0x054d3536539948d0, 0x8c7b5fd91a794ca0)
    requires w[76] == 0xfdf53df3011f362b && w[77] == 0x464af5671d71c12e
      && w[78] == 0xe449b68198ec611c && w[79] == 0x92aeeed1a7bcf7d2
    ensures Rounds(v, w, 80) == Vars(0x73a54f399fa4b1b2, 0x10d9c4c4295599f6, 0xd67806db8b148677, 0x654ef9abec389ca9, 0xd08446aa79693ed7, 0x9bb4d39778c07f9e, 0x25c96a7768fb2aa3, 0xceb9fc3691ce8326)
  {
    RoundConstant76();
    RoundConstant77();
    RoundConstant78();
    RoundConstant79();
    AbcRoundValues19();
    RoundsStep(v, w, 76, Vars(0xc8960e6be864b916, 0x33d48dabb5521de2, 0x20878dcd29cdfaf5, 0x358406d165aee9ab, 0x995019a6ff3ba3de, 0x2ba18245b50de4cf, 0x054d3536539948d0, 0x8c7b5fd91a794ca0),
               0x4cc5d4becb3e42b6, 0xfdf53df3011f362b,
               Vars(0x654ef9abec389ca9, 0xc8960e6be864b916, 0x33d48dabb5521de2, 0x20878dcd29cdfaf5, 0xceb9fc3691ce8326, 0x995019a6ff3ba3de, 0x2ba18245b50de4cf, 0x054d3536539948d0));
    RoundsStep(v, w, 77, Vars(0x654ef9abec389ca9, 0xc8960e6be864b916, 0x33d48dabb5521de2, 0x20878dcd29cdfaf5, 0xceb9fc3691ce8326, 0x995019a6ff3ba3de, 0x2ba18245b50de4cf, 0x054d3536539948d0),
               0x597f299cfc657e2a, 0x464af5671d71c12e,
               Vars(0xd67806db8b148677, 0x654ef9abec389ca9, 0xc8960e6be864b916, 0x33d48dabb5521de2, 0x25c96a7768fb2aa3, 0xceb9fc3691ce8326, 0x995019a6ff3ba3de, 0x2ba18245b50de4cf));
    RoundsStep(v, w, 78, Vars(0xd67806db8b148677, 0x654ef9abec389ca9, 0xc8960e6be864b916, 0x33d48dabb5521de2, 0x25c96a7768fb2aa3, 0xceb9fc3691ce8326, 0x995019a6ff3ba3de, 0x2ba18245b50de4cf),
               0x5fcb6fab3ad6faec, 0xe449b68198ec611c,
               Vars(0x10d9c4c4295599f6, 0xd67806db8b148677, 0x654ef9abec389ca9, 0xc8960e6be864b916, 0x9bb4d39778c07f9e, 0x25c96a7768fb2aa3, 0xceb9fc3691ce8326, 0x995019a6ff3ba3de));
    RoundsStep(v, w, 79, Vars(0x10d9c4c4295599f6, 0xd67806db8b148677, 0x654ef9abec389ca9, 0xc8960e6be864b916, 0x9bb4d39778c07f9e, 0x25c96a7768fb2aa3, 0xceb9fc3691ce8326, 0x995019a6ff3ba3de),
               0x6c44198c4a475817, 0x92aeeed1a7bcf7d2,
               Vars(0x73a54f399fa4b1b2, 0x10d9c4c4295599f6, 0xd67806db8b148677, 0x654ef9abec389ca9, 0xd08446aa79693ed7, 0x9bb4d39778c07f9e, 0x25c96a7768fb2aa3, 0xceb9fc3691ce8326));
  }

  /** The feed-forward onto the initial hash value. */
  lemma AbcFeedForward()
    ensures FeedForward(IV, Vars(0x73a54f399fa4b1b2, 0x10d9c4c4295599f6, 0xd67806db8b148677, 0x654ef9abec389ca9, 0xd08446aa79693ed7, 0x9bb4d39778c07f9e, 0x25c96a7768fb2aa3, 0xceb9fc3691ce8326))
      == [0xddaf35a193617aba, 0xcc417349ae204131, 0x12e6fa4e89a97ea2, 0x0a9eeee64b55d39a,
       0x2192992a274fc1a8, 0x36ba3c23a3feebbd, 0x454d4423643ce80e, 0x2a9ac94fa54ca49f]
  {
  }

  /** The compression of that block from the initial hash value. */
  lemma AbcTransform(b: Block)
    requires b[0..8] == [0x61, 0x62, 0x63, 0x80, 0x00, 0x00, 0x00, 0x00]
      && b[8..16] == [0x00, 0x00, 0x00, 0x00, 0x00, 0x00, 0x00, 0x00]
      && b[16..24] == [0x00, 0x00, 0x00, 0x00, 0x00, 0x00, 0x00, 0x00]
      && b[24..32] == [0x00, 0x00, 0x00, 0x00, 0x00, 0x00, 0x00, 0x00]
      && b[32..40] == [0x00, 0x00, 0x00, 0x00, 0x00, 0x00, 0x00, 0x00]
      && b[40..48] == [0x00, 0x00, 0x00, 0x00, 0x00, 0x00, 0x00, 0x00]
      && b[48..56] == [0x00, 0x00, 0x00, 0x00, 0x00, 0x00, 0x00, 0x00]
      && b[56..64] == [0x00, 0x00, 0x00, 0x00, 0x00, 0x00, 0x00, 0x00]
      && b[64..72] == [0x00, 0x00, 0x00, 0x00, 0x00, 0x00, 0x00, 0x00]
      && b[72..80] == [0x00, 0x00, 0x00, 0x00, 0x00, 0x00, 0x00, 0x00]
      && b[80..88] == [0x00, 0x00, 0x00, 0x00, 0x00, 0x00, 0x00, 0x00]
      && b[88..96] == [0x00, 0x00, 0x00, 0x00, 0x00, 0x00, 0x00, 0x00]
      && b[96..104] == [0x00, 0x00, 0x00, 0x00, 0x00, 0x00, 0x00, 0x00]
      && b[104..112] == [0x00, 0x00, 0x00, 0x00, 0x00, 0x00, 0x00, 0x00]
      && b[112..120] == [0x00, 0x00, 0x00, 0x00, 0x00, 0x00, 0x00, 0x00]
      && b[120..128] == [0x00, 0x00, 0x00, 0x00, 0x00, 0x00, 0x00, 0x18]
    ensures Transform(IV, b)
      == [0xddaf35a193617aba, 0xcc417349ae204131, 0x12e6fa4e89a97ea2, 0x0a9eeee64b55d39a,
       0x2192992a274fc1a8, 0x36ba3c23a3feebbd, 0x454d4423643ce80e, 0x2a9ac94fa54ca49f]
  {
    AbcSchedule(b);
    var v, w := Load(IV), Schedule(b);
    LoadInitial();
    AbcRounds0(v, w);
    AbcRounds1(v, w);
    AbcRounds2(v, w);
    AbcRounds3(v, w);
    AbcRounds4(v, w);
    AbcRounds5(v, w);
    AbcRounds6(v, w);
    AbcRounds7(v, w);
    AbcRounds8(v, w);
    AbcRounds9(v, w);
    AbcRounds10(v, w);
    AbcRounds11(v, w);
    AbcRounds12(v, w);
    AbcRounds13(v, w);
    AbcRounds14(v, w);
    AbcRounds15(v, w);
    AbcRounds16(v, w);
    AbcRounds17(v, w);
    AbcRounds18(v, w);
    AbcRounds19(v, w);
    AbcFeedForward();
  }

  /** The digest of the message "abc": its eight words, big-endian, are
      ddaf35a193617abacc417349ae20413112e6fa4e89a97ea20a9eeee64b55d39a
      2192992a274fc1a836ba3c23a3feebbd454d4423643ce80e2a9ac94fa54ca49f. */
  lemma AbcDigest(m: seq<Byte>)
    requires m == [0x61, 0x62, 0x63]
    ensures Digest(m) == Serialize([0xddaf35a193617aba, 0xcc417349ae204131, 0x12e6fa4e89a97ea2, 0x0a9eeee64b55d39a,
                                 0x2192992a274fc1a8, 0x36ba3c23a3feebbd, 0x454d4423643ce80e, 0x2a9ac94fa54ca49f])
  {
    var b := Pad(m);
    AbcPadded(m);
    AbcTransform(b);
    SingleBlock(IV, b);
  }

  /** The words of that digest as bytes. */
  lemma AbcDigestWordBytes()
    ensures WordToBytes(0xddaf35a193617aba) == [0xdd, 0xaf, 0x35, 0xa1, 0x93, 0x61, 0x7a, 0xba]
      && WordToBytes(0xcc417349ae204131) == [0xcc, 0x41, 0x73, 0x49, 0xae, 0x20, 0x41, 0x31]
      && WordToBytes(0x12e6fa4e89a97ea2) == [0x12, 0xe6, 0xfa, 0x4e, 0x89, 0xa9, 0x7e, 0xa2]
      && WordToBytes(0x0a9eeee64b55d39a) == [0x0a, 0x9e, 0xee, 0xe6, 0x4b, 0x55, 0xd3, 0x9a]
      && WordToBytes(0x2192992a274fc1a8) == [0x21, 0x92, 0x99, 0x2a, 0x27, 0x4f, 0xc1, 0xa8]
      && WordToBytes(0x36ba3c23a3feebbd) == [0x36, 0xba, 0x3c, 0x23, 0xa3, 0xfe, 0xeb, 0xbd]
      && WordToBytes(0x454d4423643ce80e) == [0x45, 0x4d, 0x44, 0x23, 0x64, 0x3c, 0xe8, 0x0e]
      && WordToBytes(0x2a9ac94fa54ca49f) == [0x2a, 0x9a, 0xc9, 0x4f, 0xa5, 0x4c, 0xa4, 0x9f]
  {
  }

  /** That digest as the 64-byte array the crate's test expects, 8 bytes
      at a time. */
  lemma AbcExpected(r: seq<Byte>)
    requires r == Serialize([0xddaf35a193617aba, 0xcc417349ae204131, 0x12e6fa4e89a97ea2, 0x0a9eeee64b55d39a, 0x2192992a274fc1a8, 0x36ba3c23a3feebbd, 0x454d4423643ce80e, 0x2a9ac94fa54ca49f])
    ensures |r| == 64
      && r[0..8] == [0xdd, 0xaf, 0x35, 0xa1, 0x93, 0x61, 0x7a, 0xba]
      && r[8..16] == [0xcc, 0x41, 0x73, 0x49, 0xae, 0x20, 0x41, 0x31]
      && r[16..24] == [0x12, 0xe6, 0xfa, 0x4e, 0x89, 0xa9, 0x7e, 0xa2]
      && r[24..32] == [0x0a, 0x9e, 0xee, 0xe6, 0x4b, 0x55, 0xd3, 0x9a]
      && r[32..40] == [0x21, 0x92, 0x99, 0x2a, 0x27, 0x4f, 0xc1, 0xa8]
      && r[40..48] == [0x36, 0xba, 0x3c, 0x23, 0xa3, 0xfe, 0xeb, 0xbd]
      && r[48..56] == [0x45, 0x4d, 0x44, 0x23, 0x64, 0x3c, 0xe8, 0x0e]
      && r[56..64] == [0x2a, 0x9a, 0xc9, 0x4f, 0xa5, 0x4c, 0xa4, 0x9f]
  {
    var h: seq<Word> := [0xddaf35a193617aba, 0xcc417349ae204131, 0x12e6fa4e89a97ea2, 0x0a9eeee64b55d39a, 0x2192992a274fc1a8, 0x36ba3c23a3feebbd, 0x454d4423643ce80e, 0x2a9ac94fa54ca49f];
    AbcDigestWordBytes();
    SerializedWord(h, 0, 0xddaf35a193617aba, [0xdd, 0xaf, 0x35, 0xa1, 0x93, 0x61, 0x7a, 0xba]);
    SerializedWord(h, 1, 0xcc417349ae204131, [0xcc, 0x41, 0x73, 0x49, 0xae, 0x20, 0x41, 0x31]);
    SerializedWord(h, 2, 0x12e6fa4e89a97ea2, [0x12, 0xe6, 0xfa, 0x4e, 0x89, 0xa9, 0x7e, 0xa2]);
    SerializedWord(h, 3, 0x0a9eeee64b55d39a, [0x0a, 0x9e, 0xee, 0xe6, 0x4b, 0x55, 0xd3, 0x9a]);
    SerializedWord(h, 4, 0x2192992a274fc1a8, [0x21, 0x92, 0x99, 0x2a, 0x27, 0x4f, 0xc1, 0xa8]);
    SerializedWord(h, 5, 0x36ba3c23a3feebbd, [0x36, 0xba, 0x3c, 0x23, 0xa3, 0xfe, 0xeb, 0xbd]);
    SerializedWord(h, 6, 0x454d4423643ce80e, [0x45, 0x4d, 0x44, 0x23, 0x64, 0x3c, 0xe8, 0x0e]);
    SerializedWord(h, 7, 0x2a9ac94fa54ca49f, [0x2a, 0x9a, 0xc9, 0x4f, 0xa5, 0x4c, 0xa4, 0x9f]);
  }

  /** `test_sha512_abc`: a fresh hasher fed [0x61, 0x62, 0x63] finalizes to the expected
      digest. */
  method TestSha512Abc() returns (r: seq<Byte>)
    ensures |r| == 64
      && r[0..8] == [0xdd, 0xaf, 0x35, 0xa1, 0x93, 0x61, 0x7a, 0xba]
      && r[8..16] == [0xcc, 0x41, 0x73, 0x49, 0xae, 0x20, 0x41, 0x31]
      && r[16..24] == [0x12, 0xe6, 0xfa, 0x4e, 0x89, 0xa9, 0x7e, 0xa2]
      && r[24..32] == [0x0a, 0x9e, 0xee, 0xe6, 0x4b, 0x55, 0xd3, 0x9a]
      && r[32..40] == [0x21, 0x92, 0x99, 0x2a, 0x27, 0x4f, 0xc1, 0xa8]
      && r[40..48] == [0x36, 0xba, 0x3c, 0x23, 0xa3, 0xfe, 0xeb, 0xbd]
      && r[48..56] == [0x45, 0x4d, 0x44, 0x23, 0x64, 0x3c, 0xe8, 0x0e]
      && r[56..64] == [0x2a, 0x9a, 0xc9, 0x4f, 0xa5, 0x4c, 0xa4, 0x9f]
  {
    var msg: seq<Byte> := [0x61, 0x62, 0x63];
    var hasher := new Hasher();
    hasher.Update(msg);
    assert hasher.absorbed == msg;
    r := hasher.Finalize();
    AbcDigest(msg);
    AbcExpected(r);
  }

}
