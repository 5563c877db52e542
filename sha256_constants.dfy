/** The derivation of the SHA-256 constants in FIPS 180-4: the round
    constants K (section 4.2.2) and the initial hash value H(0) (section
    5.3.3) are the first 32 bits of the fractional parts of the cube
    and square roots of the first primes. */
module Sha256Constants {
  import opened Roots
  import Sha256

  /** K(t) is the first 32 bits of the fractional part of the cube root of
      the (t + 1)-th prime (section 4.2.2). */
  lemma RoundConstantsAreCubeRoots(t: nat)
    requires t < 64
    ensures FractionalBits(NthPrime(t), 3, 0x1_0000_0000, Sha256.K(t) as nat)
  {
    if t == 0 {
      CubeRoot0();
    } else if t == 1 {
      CubeRoot1();
    } else if t == 2 {
      CubeRoot2();
    } else if t == 3 {
      CubeRoot3();
    } else if t == 4 {
      CubeRoot4();
    } else if t == 5 {
      CubeRoot5();
    } else if t == 6 {
      CubeRoot6();
    } else if t == 7 {
      CubeRoot7();
    } else if t == 8 {
      CubeRoot8();
    } else if t == 9 {
      CubeRoot9();
    } else if t == 10 {
      CubeRoot10();
    } else if t == 11 {
      CubeRoot11();
    } else if t == 12 {
      CubeRoot12();
    } else if t == 13 {
      CubeRoot13();
    } else if t == 14 {
      CubeRoot14();
    } else if t == 15 {
      CubeRoot15();
    } else if t == 16 {
      CubeRoot16();
    } else if t == 17 {
      CubeRoot17();
    } else if t == 18 {
      CubeRoot18();
    } else if t == 19 {
      CubeRoot19();
    } else if t == 20 {
      CubeRoot20();
    } else if t == 21 {
      CubeRoot21();
    } else if t == 22 {
      CubeRoot22();
    } else if t == 23 {
      CubeRoot23();
    } else if t == 24 {
      CubeRoot24();
    } else if t == 25 {
      CubeRoot25();
    } else if t == 26 {
      CubeRoot26();
    } else if t == 27 {
      CubeRoot27();
    } else if t == 28 {
      CubeRoot28();
    } else if t == 29 {
      CubeRoot29();
    } else if t == 30 {
      CubeRoot30();
    } else if t == 31 {
      CubeRoot31();
    } else if t == 32 {
      CubeRoot32();
    } else if t == 33 {
      CubeRoot33();
    } else if t == 34 {
      CubeRoot34();
    } else if t == 35 {
      CubeRoot35();
    } else if t == 36 {
      CubeRoot36();
    } else if t == 37 {
      CubeRoot37();
    } else if t == 38 {
      CubeRoot38();
    } else if t == 39 {
      CubeRoot39();
    } else if t == 40 {
      CubeRoot40();
    } else if t == 41 {
      CubeRoot41();
    } else if t == 42 {
      CubeRoot42();
    } else if t == 43 {
      CubeRoot43();
    } else if t == 44 {
      CubeRoot44();
    } else if t == 45 {
      CubeRoot45();
    } else if t == 46 {
      CubeRoot46();
    } else if t == 47 {
      CubeRoot47();
    } else if t == 48 {
      CubeRoot48();
    } else if t == 49 {
      CubeRoot49();
    } else if t == 50 {
      CubeRoot50();
    } else if t == 51 {
      CubeRoot51();
    } else if t == 52 {
      CubeRoot52();
    } else if t == 53 {
      CubeRoot53();
    } else if t == 54 {
      CubeRoot54();
    } else if t == 55 {
      CubeRoot55();
    } else if t == 56 {
      CubeRoot56();
    } else if t == 57 {
      CubeRoot57();
    } else if t == 58 {
      CubeRoot58();
    } else if t == 59 {
      CubeRoot59();
    } else if t == 60 {
      CubeRoot60();
    } else if t == 61 {
      CubeRoot61();
    } else if t == 62 {
      CubeRoot62();
    } else {
      CubeRoot63();
    }
  }

  /** Word i of H(0) is the first 32 bits of the fractional part of the
      square root of the (i + 1)-th prime (section 5.3.3). */
  lemma InitialHashIsSquareRoots(i: nat)
    requires i < 8
    ensures FractionalBits(NthPrime(i), 2, 0x1_0000_0000, Sha256.IV[i] as nat)
  {
    if i == 0 {
      SquareRoot0();
    } else if i == 1 {
      SquareRoot1();
    } else if i == 2 {
      SquareRoot2();
    } else if i == 3 {
      SquareRoot3();
    } else if i == 4 {
      SquareRoot4();
    } else if i == 5 {
      SquareRoot5();
    } else if i == 6 {
      SquareRoot6();
    } else {
      SquareRoot7();
    }
  }

  lemma CubeRoot0()
    ensures FractionalBits(NthPrime(0), 3, 0x1_0000_0000, Sha256.K(0) as nat)
  {
    assert NthPrime(0) == 2 && Sha256.K(0) == 0x428a2f98;
    assert FractionalBits(2, 3, 0x1_0000_0000, 0x428a2f98);
  }

  lemma CubeRoot1()
    ensures FractionalBits(NthPrime(1), 3, 0x1_0000_0000, Sha256.K(1) as nat)
  {
    assert NthPrime(1) == 3 && Sha256.K(1) == 0x71374491;
    assert FractionalBits(3, 3, 0x1_0000_0000, 0x71374491);
  }

  lemma CubeRoot2()
    ensures FractionalBits(NthPrime(2), 3, 0x1_0000_0000, Sha256.K(2) as nat)
  {
    assert NthPrime(2) == 5 && Sha256.K(2) == 0xb5c0fbcf;
    assert FractionalBits(5, 3, 0x1_0000_0000, 0xb5c0fbcf);
  }

  lemma CubeRoot3()
    ensures FractionalBits(NthPrime(3), 3, 0x1_0000_0000, Sha256.K(3) as nat)
  {
    assert NthPrime(3) == 7 && Sha256.K(3) == 0xe9b5dba5;
    assert FractionalBits(7, 3, 0x1_0000_0000, 0xe9b5dba5);
  }

  lemma CubeRoot4()
    ensures FractionalBits(NthPrime(4), 3, 0x1_0000_0000, Sha256.K(4) as nat)
  {
    assert NthPrime(4) == 11 && Sha256.K(4) == 0x3956c25b;
    assert FractionalBits(11, 3, 0x1_0000_0000, 0x3956c25b);
  }

  lemma CubeRoot5()
    ensures FractionalBits(NthPrime(5), 3, 0x1_0000_0000, Sha256.K(5) as nat)
  {
    assert NthPrime(5) == 13 && Sha256.K(5) == 0x59f111f1;
    assert FractionalBits(13, 3, 0x1_0000_0000, 0x59f111f1);
  }

  lemma CubeRoot6()
    ensures FractionalBits(NthPrime(6), 3, 0x1_0000_0000, Sha256.K(6) as nat)
  {
    assert NthPrime(6) == 17 && Sha256.K(6) == 0x923f82a4;
    assert FractionalBits(17, 3, 0x1_0000_0000, 0x923f82a4);
  }

  lemma CubeRoot7()
    ensures FractionalBits(NthPrime(7), 3, 0x1_0000_0000, Sha256.K(7) as nat)
  {
    assert NthPrime(7) == 19 && Sha256.K(7) == 0xab1c5ed5;
    assert FractionalBits(19, 3, 0x1_0000_0000, 0xab1c5ed5);
  }

  lemma CubeRoot8()
    ensures FractionalBits(NthPrime(8), 3, 0x1_0000_0000, Sha256.K(8) as nat)
  {
    assert NthPrime(8) == 23 && Sha256.K(8) == 0xd807aa98;
    assert FractionalBits(23, 3, 0x1_0000_0000, 0xd807aa98);
  }

  lemma CubeRoot9()
    ensures FractionalBits(NthPrime(9), 3, 0x1_0000_0000, Sha256.K(9) as nat)
  {
    assert NthPrime(9) == 29 && Sha256.K(9) == 0x12835b01;
    assert FractionalBits(29, 3, 0x1_0000_0000, 0x12835b01);
  }

  lemma CubeRoot10()
    ensures FractionalBits(NthPrime(10), 3, 0x1_0000_0000, Sha256.K(10) as nat)
  {
    assert NthPrime(10) == 31 && Sha256.K(10) == 0x243185be;
    assert FractionalBits(31, 3, 0x1_0000_0000, 0x243185be);
  }

  lemma CubeRoot11()
    ensures FractionalBits(NthPrime(11), 3, 0x1_0000_0000, Sha256.K(11) as nat)
  {
    assert NthPrime(11) == 37 && Sha256.K(11) == 0x550c7dc3;
    assert FractionalBits(37, 3, 0x1_0000_0000, 0x550c7dc3);
  }

  lemma CubeRoot12()
    ensures FractionalBits(NthPrime(12), 3, 0x1_0000_0000, Sha256.K(12) as nat)
  {
    assert NthPrime(12) == 41 && Sha256.K(12) == 0x72be5d74;
    assert FractionalBits(41, 3, 0x1_0000_0000, 0x72be5d74);
  }

  lemma CubeRoot13()
    ensures FractionalBits(NthPrime(13), 3, 0x1_0000_0000, Sha256.K(13) as nat)
  {
    assert NthPrime(13) == 43 && Sha256.K(13) == 0x80deb1fe;
    assert FractionalBits(43, 3, 0x1_0000_0000, 0x80deb1fe);
  }

  lemma CubeRoot14()
    ensures FractionalBits(NthPrime(14), 3, 0x1_0000_0000, Sha256.K(14) as nat)
  {
    assert NthPrime(14) == 47 && Sha256.K(14) == 0x9bdc06a7;
    assert FractionalBits(47, 3, 0x1_0000_0000, 0x9bdc06a7);
  }

  lemma CubeRoot15()
    ensures FractionalBits(NthPrime(15), 3, 0x1_0000_0000, Sha256.K(15) as nat)
  {
    assert NthPrime(15) == 53 && Sha256.K(15) == 0xc19bf174;
    assert FractionalBits(53, 3, 0x1_0000_0000, 0xc19bf174);
  }

  lemma CubeRoot16()
    ensures FractionalBits(NthPrime(16), 3, 0x1_0000_0000, Sha256.K(16) as nat)
  {
    assert NthPrime(16) == 59 && Sha256.K(16) == 0xe49b69c1;
    assert FractionalBits(59, 3, 0x1_0000_0000, 0xe49b69c1);
  }

  lemma CubeRoot17()
    ensures FractionalBits(NthPrime(17), 3, 0x1_0000_0000, Sha256.K(17) as nat)
  {
    assert NthPrime(17) == 61 && Sha256.K(17) == 0xefbe4786;
    assert FractionalBits(61, 3, 0x1_0000_0000, 0xefbe4786);
  }

  lemma CubeRoot18()
    ensures FractionalBits(NthPrime(18), 3, 0x1_0000_0000, Sha256.K(18) as nat)
  {
    assert NthPrime(18) == 67 && Sha256.K(18) == 0x0fc19dc6;
    assert FractionalBits(67, 3, 0x1_0000_0000, 0x0fc19dc6);
  }

  lemma CubeRoot19()
    ensures FractionalBits(NthPrime(19), 3, 0x1_0000_0000, Sha256.K(19) as nat)
  {
    assert NthPrime(19) == 71 && Sha256.K(19) == 0x240ca1cc;
    assert FractionalBits(71, 3, 0x1_0000_0000, 0x240ca1cc);
  }

  lemma CubeRoot20()
    ensures FractionalBits(NthPrime(20), 3, 0x1_0000_0000, Sha256.K(20) as nat)
  {
    assert NthPrime(20) == 73 && Sha256.K(20) == 0x2de92c6f;
    assert FractionalBits(73, 3, 0x1_0000_0000, 0x2de92c6f);
  }

  lemma CubeRoot21()
    ensures FractionalBits(NthPrime(21), 3, 0x1_0000_0000, Sha256.K(21) as nat)
  {
    assert NthPrime(21) == 79 && Sha256.K(21) == 0x4a7484aa;
    assert FractionalBits(79, 3, 0x1_0000_0000, 0x4a7484aa);
  }

  lemma CubeRoot22()
    ensures FractionalBits(NthPrime(22), 3, 0x1_0000_0000, Sha256.K(22) as nat)
  {
    assert NthPrime(22) == 83 && Sha256.K(22) == 0x5cb0a9dc;
    assert FractionalBits(83, 3, 0x1_0000_0000, 0x5cb0a9dc);
  }

  lemma CubeRoot23()
    ensures FractionalBits(NthPrime(23), 3, 0x1_0000_0000, Sha256.K(23) as nat)
  {
    assert NthPrime(23) == 89 && Sha256.K(23) == 0x76f988da;
    assert FractionalBits(89, 3, 0x1_0000_0000, 0x76f988da);
  }

  lemma CubeRoot24()
    ensures FractionalBits(NthPrime(24), 3, 0x1_0000_0000, Sha256.K(24) as nat)
  {
    assert NthPrime(24) == 97 && Sha256.K(24) == 0x983e5152;
    assert FractionalBits(97, 3, 0x1_0000_0000, 0x983e5152);
  }

  lemma CubeRoot25()
    ensures FractionalBits(NthPrime(25), 3, 0x1_0000_0000, Sha256.K(25) as nat)
  {
    assert NthPrime(25) == 101 && Sha256.K(25) == 0xa831c66d;
    assert FractionalBits(101, 3, 0x1_0000_0000, 0xa831c66d);
  }

  lemma CubeRoot26()
    ensures FractionalBits(NthPrime(26), 3, 0x1_0000_0000, Sha256.K(26) as nat)
  {
    assert NthPrime(26) == 103 && Sha256.K(26) == 0xb00327c8;
    assert FractionalBits(103, 3, 0x1_0000_0000, 0xb00327c8);
  }

  lemma CubeRoot27()
    ensures FractionalBits(NthPrime(27), 3, 0x1_0000_0000, Sha256.K(27) as nat)
  {
    assert NthPrime(27) == 107 && Sha256.K(27) == 0xbf597fc7;
    assert FractionalBits(107, 3, 0x1_0000_0000, 0xbf597fc7);
  }

  lemma CubeRoot28()
    ensures FractionalBits(NthPrime(28), 3, 0x1_0000_0000, Sha256.K(28) as nat)
  {
    assert NthPrime(28) == 109 && Sha256.K(28) == 0xc6e00bf3;
    assert FractionalBits(109, 3, 0x1_0000_0000, 0xc6e00bf3);
  }

  lemma CubeRoot29()
    ensures FractionalBits(NthPrime(29), 3, 0x1_0000_0000, Sha256.K(29) as nat)
  {
    assert NthPrime(29) == 113 && Sha256.K(29) == 0xd5a79147;
    assert FractionalBits(113, 3, 0x1_0000_0000, 0xd5a79147);
  }

  lemma CubeRoot30()
    ensures FractionalBits(NthPrime(30), 3, 0x1_0000_0000, Sha256.K(30) as nat)
  {
    assert NthPrime(30) == 127 && Sha256.K(30) == 0x06ca6351;
    assert FractionalBits(127, 3, 0x1_0000_0000, 0x06ca6351);
  }

  lemma CubeRoot31()
    ensures FractionalBits(NthPrime(31), 3, 0x1_0000_0000, Sha256.K(31) as nat)
  {
    assert NthPrime(31) == 131 && Sha256.K(31) == 0x14292967;
    assert FractionalBits(131, 3, 0x1_0000_0000, 0x14292967);
  }

  lemma CubeRoot32()
    ensures FractionalBits(NthPrime(32), 3, 0x1_0000_0000, Sha256.K(32) as nat)
  {
    assert NthPrime(32) == 137 && Sha256.K(32) == 0x27b70a85;
    assert FractionalBits(137, 3, 0x1_0000_0000, 0x27b70a85);
  }

  lemma CubeRoot33()
    ensures FractionalBits(NthPrime(33), 3, 0x1_0000_0000, Sha256.K(33) as nat)
  {
    assert NthPrime(33) == 139 && Sha256.K(33) == 0x2e1b2138;
    assert FractionalBits(139, 3, 0x1_0000_0000, 0x2e1b2138);
  }

  lemma CubeRoot34()
    ensures FractionalBits(NthPrime(34), 3, 0x1_0000_0000, Sha256.K(34) as nat)
  {
    assert NthPrime(34) == 149 && Sha256.K(34) == 0x4d2c6dfc;
    assert FractionalBits(149, 3, 0x1_0000_0000, 0x4d2c6dfc);
  }

  lemma CubeRoot35()
    ensures FractionalBits(NthPrime(35), 3, 0x1_0000_0000, Sha256.K(35) as nat)
  {
    assert NthPrime(35) == 151 && Sha256.K(35) == 0x53380d13;
    assert FractionalBits(151, 3, 0x1_0000_0000, 0x53380d13);
  }

  lemma CubeRoot36()
    ensures FractionalBits(NthPrime(36), 3, 0x1_0000_0000, Sha256.K(36) as nat)
  {
    assert NthPrime(36) == 157 && Sha256.K(36) == 0x650a7354;
    assert FractionalBits(157, 3, 0x1_0000_0000, 0x650a7354);
  }

  lemma CubeRoot37()
    ensures FractionalBits(NthPrime(37), 3, 0x1_0000_0000, Sha256.K(37) as nat)
  {
    assert NthPrime(37) == 163 && Sha256.K(37) == 0x766a0abb;
    assert FractionalBits(163, 3, 0x1_0000_0000, 0x766a0abb);
  }

  lemma CubeRoot38()
    ensures FractionalBits(NthPrime(38), 3, 0x1_0000_0000, Sha256.K(38) as nat)
  {
    assert NthPrime(38) == 167 && Sha256.K(38) == 0x81c2c92e;
    assert FractionalBits(167, 3, 0x1_0000_0000, 0x81c2c92e);
  }

  lemma CubeRoot39()
    ensures FractionalBits(NthPrime(39), 3, 0x1_0000_0000, Sha256.K(39) as nat)
  {
    assert NthPrime(39) == 173 && Sha256.K(39) == 0x92722c85;
    assert FractionalBits(173, 3, 0x1_0000_0000, 0x92722c85);
  }

  lemma CubeRoot40()
    ensures FractionalBits(NthPrime(40), 3, 0x1_0000_0000, Sha256.K(40) as nat)
  {
    assert NthPrime(40) == 179 && Sha256.K(40) == 0xa2bfe8a1;
    assert FractionalBits(179, 3, 0x1_0000_0000, 0xa2bfe8a1);
  }

  lemma CubeRoot41()
    ensures FractionalBits(NthPrime(41), 3, 0x1_0000_0000, Sha256.K(41) as nat)
  {
    assert NthPrime(41) == 181 && Sha256.K(41) == 0xa81a664b;
    assert FractionalBits(181, 3, 0x1_0000_0000, 0xa81a664b);
  }

  lemma CubeRoot42()
    ensures FractionalBits(NthPrime(42), 3, 0x1_0000_0000, Sha256.K(42) as nat)
  {
    assert NthPrime(42) == 191 && Sha256.K(42) == 0xc24b8b70;
    assert FractionalBits(191, 3, 0x1_0000_0000, 0xc24b8b70);
  }

  lemma CubeRoot43()
    ensures FractionalBits(NthPrime(43), 3, 0x1_0000_0000, Sha256.K(43) as nat)
  {
    assert NthPrime(43) == 193 && Sha256.K(43) == 0xc76c51a3;
    assert FractionalBits(193, 3, 0x1_0000_0000, 0xc76c51a3);
  }

  lemma CubeRoot44()
    ensures FractionalBits(NthPrime(44), 3, 0x1_0000_0000, Sha256.K(44) as nat)
  {
    assert NthPrime(44) == 197 && Sha256.K(44) == 0xd192e819;
    assert FractionalBits(197, 3, 0x1_0000_0000, 0xd192e819);
  }

  lemma CubeRoot45()
    ensures FractionalBits(NthPrime(45), 3, 0x1_0000_0000, Sha256.K(45) as nat)
  {
    assert NthPrime(45) == 199 && Sha256.K(45) == 0xd6990624;
    assert FractionalBits(199, 3, 0x1_0000_0000, 0xd6990624);
  }

  lemma CubeRoot46()
    ensures FractionalBits(NthPrime(46), 3, 0x1_0000_0000, Sha256.K(46) as nat)
  {
    assert NthPrime(46) == 211 && Sha256.K(46) == 0xf40e3585;
    assert FractionalBits(211, 3, 0x1_0000_0000, 0xf40e3585);
  }

  lemma CubeRoot47()
    ensures FractionalBits(NthPrime(47), 3, 0x1_0000_0000, Sha256.K(47) as nat)
  {
    assert NthPrime(47) == 223 && Sha256.K(47) == 0x106aa070;
    assert FractionalBits(223, 3, 0x1_0000_0000, 0x106aa070);
  }

  lemma CubeRoot48()
    ensures FractionalBits(NthPrime(48), 3, 0x1_0000_0000, Sha256.K(48) as nat)
  {
    assert NthPrime(48) == 227 && Sha256.K(48) == 0x19a4c116;
    assert FractionalBits(227, 3, 0x1_0000_0000, 0x19a4c116);
  }

  lemma CubeRoot49()
    ensures FractionalBits(NthPrime(49), 3, 0x1_0000_0000, Sha256.K(49) as nat)
  {
    assert NthPrime(49) == 229 && Sha256.K(49) == 0x1e376c08;
    assert FractionalBits(229, 3, 0x1_0000_0000, 0x1e376c08);
  }

  lemma CubeRoot50()
    ensures FractionalBits(NthPrime(50), 3, 0x1_0000_0000, Sha256.K(50) as nat)
  {
    assert NthPrime(50) == 233 && Sha256.K(50) == 0x2748774c;
    assert FractionalBits(233, 3, 0x1_0000_0000, 0x2748774c);
  }

  lemma CubeRoot51()
    ensures FractionalBits(NthPrime(51), 3, 0x1_0000_0000, Sha256.K(51) as nat)
  {
    assert NthPrime(51) == 239 && Sha256.K(51) == 0x34b0bcb5;
    assert FractionalBits(239, 3, 0x1_0000_0000, 0x34b0bcb5);
  }

  lemma CubeRoot52()
    ensures FractionalBits(NthPrime(52), 3, 0x1_0000_0000, Sha256.K(52) as nat)
  {
    assert NthPrime(52) == 241 && Sha256.K(52) == 0x391c0cb3;
    assert FractionalBits(241, 3, 0x1_0000_0000, 0x391c0cb3);
  }

  lemma CubeRoot53()
    ensures FractionalBits(NthPrime(53), 3, 0x1_0000_0000, Sha256.K(53) as nat)
  {
    assert NthPrime(53) == 251 && Sha256.K(53) == 0x4ed8aa4a;
    assert FractionalBits(251, 3, 0x1_0000_0000, 0x4ed8aa4a);
  }

  lemma CubeRoot54()
    ensures FractionalBits(NthPrime(54), 3, 0x1_0000_0000, Sha256.K(54) as nat)
  {
    assert NthPrime(54) == 257 && Sha256.K(54) == 0x5b9cca4f;
    assert FractionalBits(257, 3, 0x1_0000_0000, 0x5b9cca4f);
  }

  lemma CubeRoot55()
    ensures FractionalBits(NthPrime(55), 3, 0x1_0000_0000, Sha256.K(55) as nat)
  {
    assert NthPrime(55) == 263 && Sha256.K(55) == 0x682e6ff3;
    assert FractionalBits(263, 3, 0x1_0000_0000, 0x682e6ff3);
  }

  lemma CubeRoot56()
    ensures FractionalBits(NthPrime(56), 3, 0x1_0000_0000, Sha256.K(56) as nat)
  {
    assert NthPrime(56) == 269 && Sha256.K(56) == 0x748f82ee;
    assert FractionalBits(269, 3, 0x1_0000_0000, 0x748f82ee);
  }

  lemma CubeRoot57()
    ensures FractionalBits(NthPrime(57), 3, 0x1_0000_0000, Sha256.K(57) as nat)
  {
    assert NthPrime(57) == 271 && Sha256.K(57) == 0x78a5636f;
    assert FractionalBits(271, 3, 0x1_0000_0000, 0x78a5636f);
  }

  lemma CubeRoot58()
    ensures FractionalBits(NthPrime(58), 3, 0x1_0000_0000, Sha256.K(58) as nat)
  {
    assert NthPrime(58) == 277 && Sha256.K(58) == 0x84c87814;
    assert FractionalBits(277, 3, 0x1_0000_0000, 0x84c87814);
  }

  lemma CubeRoot59()
    ensures FractionalBits(NthPrime(59), 3, 0x1_0000_0000, Sha256.K(59) as nat)
  {
    assert NthPrime(59) == 281 && Sha256.K(59) == 0x8cc70208;
    assert FractionalBits(281, 3, 0x1_0000_0000, 0x8cc70208);
  }

  lemma CubeRoot60()
    ensures FractionalBits(NthPrime(60), 3, 0x1_0000_0000, Sha256.K(60) as nat)
  {
    assert NthPrime(60) == 283 && Sha256.K(60) == 0x90befffa;
    assert FractionalBits(283, 3, 0x1_0000_0000, 0x90befffa);
  }

  lemma CubeRoot61()
    ensures FractionalBits(NthPrime(61), 3, 0x1_0000_0000, Sha256.K(61) as nat)
  {
    assert NthPrime(61) == 293 && Sha256.K(61) == 0xa4506ceb;
    assert FractionalBits(293, 3, 0x1_0000_0000, 0xa4506ceb);
  }

  lemma CubeRoot62()
    ensures FractionalBits(NthPrime(62), 3, 0x1_0000_0000, Sha256.K(62) as nat)
  {
    assert NthPrime(62) == 307 && Sha256.K(62) == 0xbef9a3f7;
    assert FractionalBits(307, 3, 0x1_0000_0000, 0xbef9a3f7);
  }

  lemma CubeRoot63()
    ensures FractionalBits(NthPrime(63), 3, 0x1_0000_0000, Sha256.K(63) as nat)
  {
    assert NthPrime(63) == 311 && Sha256.K(63) == 0xc67178f2;
    assert FractionalBits(311, 3, 0x1_0000_0000, 0xc67178f2);
  }

  lemma SquareRoot0()
    ensures FractionalBits(NthPrime(0), 2, 0x1_0000_0000, Sha256.IV[0] as nat)
  {
    assert NthPrime(0) == 2 && Sha256.IV[0] == 0x6a09e667;
    assert FractionalBits(2, 2, 0x1_0000_0000, 0x6a09e667);
  }

  lemma SquareRoot1()
    ensures FractionalBits(NthPrime(1), 2, 0x1_0000_0000, Sha256.IV[1] as nat)
  {
    assert NthPrime(1) == 3 && Sha256.IV[1] == 0xbb67ae85;
    assert FractionalBits(3, 2, 0x1_0000_0000, 0xbb67ae85);
  }

  lemma SquareRoot2()
    ensures FractionalBits(NthPrime(2), 2, 0x1_0000_0000, Sha256.IV[2] as nat)
  {
    assert NthPrime(2) == 5 && Sha256.IV[2] == 0x3c6ef372;
    assert FractionalBits(5, 2, 0x1_0000_0000, 0x3c6ef372);
  }

  lemma SquareRoot3()
    ensures FractionalBits(NthPrime(3), 2, 0x1_0000_0000, Sha256.IV[3] as nat)
  {
    assert NthPrime(3) == 7 && Sha256.IV[3] == 0xa54ff53a;
    assert FractionalBits(7, 2, 0x1_0000_0000, 0xa54ff53a);
  }

  lemma SquareRoot4()
    ensures FractionalBits(NthPrime(4), 2, 0x1_0000_0000, Sha256.IV[4] as nat)
  {
    assert NthPrime(4) == 11 && Sha256.IV[4] == 0x510e527f;
    assert FractionalBits(11, 2, 0x1_0000_0000, 0x510e527f);
  }

  lemma SquareRoot5()
    ensures FractionalBits(NthPrime(5), 2, 0x1_0000_0000, Sha256.IV[5] as nat)
  {
    assert NthPrime(5) == 13 && Sha256.IV[5] == 0x9b05688c;
    assert FractionalBits(13, 2, 0x1_0000_0000, 0x9b05688c);
  }

  lemma SquareRoot6()
    ensures FractionalBits(NthPrime(6), 2, 0x1_0000_0000, Sha256.IV[6] as nat)
  {
    assert NthPrime(6) == 17 && Sha256.IV[6] == 0x1f83d9ab;
    assert FractionalBits(17, 2, 0x1_0000_0000, 0x1f83d9ab);
  }

  lemma SquareRoot7()
    ensures FractionalBits(NthPrime(7), 2, 0x1_0000_0000, Sha256.IV[7] as nat)
  {
    assert NthPrime(7) == 19 && Sha256.IV[7] == 0x5be0cd19;
    assert FractionalBits(19, 2, 0x1_0000_0000, 0x5be0cd19);
  }
}
