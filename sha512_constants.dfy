/** The derivation of the SHA-512 constants in FIPS 180-4: the round
    constants K (section 4.2.3) and the initial hash value H(0) (section
    5.3.5) are the first 64 bits of the fractional parts of the cube
    and square roots of the first primes. */
module Sha512Constants {
  import opened Roots
  import Sha512

  /** K(t) is the first 64 bits of the fractional part of the cube root of
      the (t + 1)-th prime (section 4.2.3). */
  lemma RoundConstantsAreCubeRoots(t: nat)
    requires t < 80
    ensures FractionalBits(NthPrime(t), 3, 0x1_0000_0000_0000_0000, Sha512.K(t) as nat)
  {
    if t == 0 {
      CubeRoot0();
    } else if t == 1 {
      CubeRoot1();
    } else if t == 2 {
      CubeRoot2();
    } else if t == 3 {
      CubeRoot3();
    } else if t == 4 {
      CubeRoot4();
    } else if t == 5 {
      CubeRoot5();
    } else if t == 6 {
      CubeRoot6();
    } else if t == 7 {
      CubeRoot7();
    } else if t == 8 {
      CubeRoot8();
    } else if t == 9 {
      CubeRoot9();
    } else if t == 10 {
      CubeRoot10();
    } else if t == 11 {
      CubeRoot11();
    } else if t == 12 {
      CubeRoot12();
    } else if t == 13 {
      CubeRoot13();
    } else if t == 14 {
      CubeRoot14();
    } else if t == 15 {
      CubeRoot15();
    } else if t == 16 {
      CubeRoot16();
    } else if t == 17 {
      CubeRoot17();
    } else if t == 18 {
      CubeRoot18();
    } else if t == 19 {
      CubeRoot19();
    } else if t == 20 {
      CubeRoot20();
    } else if t == 21 {
      CubeRoot21();
    } else if t == 22 {
      CubeRoot22();
    } else if t == 23 {
      CubeRoot23();
    } else if t == 24 {
      CubeRoot24();
    } else if t == 25 {
      CubeRoot25();
    } else if t == 26 {
      CubeRoot26();
    } else if t == 27 {
      CubeRoot27();
    } else if t == 28 {
      CubeRoot28();
    } else if t == 29 {
      CubeRoot29();
    } else if t == 30 {
      CubeRoot30();
    } else if t == 31 {
      CubeRoot31();
    } else if t == 32 {
      CubeRoot32();
    } else if t == 33 {
      CubeRoot33();
    } else if t == 34 {
      CubeRoot34();
    } else if t == 35 {
      CubeRoot35();
    } else if t == 36 {
      CubeRoot36();
    } else if t == 37 {
      CubeRoot37();
    } else if t == 38 {
      CubeRoot38();
    } else if t == 39 {
      CubeRoot39();
    } else if t == 40 {
      CubeRoot40();
    } else if t == 41 {
      CubeRoot41();
    } else if t == 42 {
      CubeRoot42();
    } else if t == 43 {
      CubeRoot43();
    } else if t == 44 {
      CubeRoot44();
    } else if t == 45 {
      CubeRoot45();
    } else if t == 46 {
      CubeRoot46();
    } else if t == 47 {
      CubeRoot47();
    } else if t == 48 {
      CubeRoot48();
    } else if t == 49 {
      CubeRoot49();
    } else if t == 50 {
      CubeRoot50();
    } else if t == 51 {
      CubeRoot51();
    } else if t == 52 {
      CubeRoot52();
    } else if t == 53 {
      CubeRoot53();
    } else if t == 54 {
      CubeRoot54();
    } else if t == 55 {
      CubeRoot55();
    } else if t == 56 {
      CubeRoot56();
    } else if t == 57 {
      CubeRoot57();
    } else if t == 58 {
      CubeRoot58();
    } else if t == 59 {
      CubeRoot59();
    } else if t == 60 {
      CubeRoot60();
    } else if t == 61 {
      CubeRoot61();
    } else if t == 62 {
      CubeRoot62();
    } else if t == 63 {
      CubeRoot63();
    } else if t == 64 {
      CubeRoot64();
    } else if t == 65 {
      CubeRoot65();
    } else if t == 66 {
      CubeRoot66();
    } else if t == 67 {
      CubeRoot67();
    } else if t == 68 {
      CubeRoot68();
    } else if t == 69 {
      CubeRoot69();
    } else if t == 70 {
      CubeRoot70();
    } else if t == 71 {
      CubeRoot71();
    } else if t == 72 {
      CubeRoot72();
    } else if t == 73 {
      CubeRoot73();
    } else if t == 74 {
      CubeRoot74();
    } else if t == 75 {
      CubeRoot75();
    } else if t == 76 {
      CubeRoot76();
    } else if t == 77 {
      CubeRoot77();
    } else if t == 78 {
      CubeRoot78();
    } else {
      CubeRoot79();
    }
  }

  /** Word i of H(0) is the first 64 bits of the fractional part of the
      square root of the (i + 1)-th prime (section 5.3.5). */
  lemma InitialHashIsSquareRoots(i: nat)
    requires i < 8
    ensures FractionalBits(NthPrime(i), 2, 0x1_0000_0000_0000_0000, Sha512.IV[i] as nat)
  {
    if i == 0 {
      SquareRoot0();
    } else if i == 1 {
      SquareRoot1();
    } else if i == 2 {
      SquareRoot2();
    } else if i == 3 {
      SquareRoot3();
    } else if i == 4 {
      SquareRoot4();
    } else if i == 5 {
      SquareRoot5();
    } else if i == 6 {
      SquareRoot6();
    } else {
      SquareRoot7();
    }
  }

  lemma CubeRoot0()
    ensures FractionalBits(NthPrime(0), 3, 0x1_0000_0000_0000_0000, Sha512.K(0) as nat)
  {
    assert NthPrime(0) == 2 && Sha512.K(0) == 0x428a2f98d728ae22;
    assert FractionalBits(2, 3, 0x1_0000_0000_0000_0000, 0x428a2f98d728ae22);
  }

  lemma CubeRoot1()
    ensures FractionalBits(NthPrime(1), 3, 0x1_0000_0000_0000_0000, Sha512.K(1) as nat)
  {
    assert NthPrime(1) == 3 && Sha512.K(1) == 0x7137449123ef65cd;
    assert FractionalBits(3, 3, 0x1_0000_0000_0000_0000, 0x7137449123ef65cd);
  }

  lemma CubeRoot2()
    ensures FractionalBits(NthPrime(2), 3, 0x1_0000_0000_0000_0000, Sha512.K(2) as nat)
  {
    assert NthPrime(2) == 5 && Sha512.K(2) == 0xb5c0fbcfec4d3b2f;
    assert FractionalBits(5, 3, 0x1_0000_0000_0000_0000, 0xb5c0fbcfec4d3b2f);
  }

  lemma CubeRoot3()
    ensures FractionalBits(NthPrime(3), 3, 0x1_0000_0000_0000_0000, Sha512.K(3) as nat)
  {
    assert NthPrime(3) == 7 && Sha512.K(3) == 0xe9b5dba58189dbbc;
    assert FractionalBits(7, 3, 0x1_0000_0000_0000_0000, 0xe9b5dba58189dbbc);
  }

  lemma CubeRoot4()
    ensures FractionalBits(NthPrime(4), 3, 0x1_0000_0000_0000_0000, Sha512.K(4) as nat)
  {
    assert NthPrime(4) == 11 && Sha512.K(4) == 0x3956c25bf348b538;
    assert FractionalBits(11, 3, 0x1_0000_0000_0000_0000, 0x3956c25bf348b538);
  }

  lemma CubeRoot5()
    ensures FractionalBits(NthPrime(5), 3, 0x1_0000_0000_0000_0000, Sha512.K(5) as nat)
  {
    assert NthPrime(5) == 13 && Sha512.K(5) == 0x59f111f1b605d019;
    assert FractionalBits(13, 3, 0x1_0000_0000_0000_0000, 0x59f111f1b605d019);
  }

  lemma CubeRoot6()
    ensures FractionalBits(NthPrime(6), 3, 0x1_0000_0000_0000_0000, Sha512.K(6) as nat)
  {
    assert NthPrime(6) == 17 && Sha512.K(6) == 0x923f82a4af194f9b;
    assert FractionalBits(17, 3, 0x1_0000_0000_0000_0000, 0x923f82a4af194f9b);
  }

  lemma CubeRoot7()
    ensures FractionalBits(NthPrime(7), 3, 0x1_0000_0000_0000_0000, Sha512.K(7) as nat)
  {
    assert NthPrime(7) == 19 && Sha512.K(7) == 0xab1c5ed5da6d8118;
    assert FractionalBits(19, 3, 0x1_0000_0000_0000_0000, 0xab1c5ed5da6d8118);
  }

  lemma CubeRoot8()
    ensures FractionalBits(NthPrime(8), 3, 0x1_0000_0000_0000_0000, Sha512.K(8) as nat)
  {
    assert NthPrime(8) == 23 && Sha512.K(8) == 0xd807aa98a3030242;
    assert FractionalBits(23, 3, 0x1_0000_0000_0000_0000, 0xd807aa98a3030242);
  }

  lemma CubeRoot9()
    ensures FractionalBits(NthPrime(9), 3, 0x1_0000_0000_0000_0000, Sha512.K(9) as nat)
  {
    assert NthPrime(9) == 29 && Sha512.K(9) == 0x12835b0145706fbe;
    assert FractionalBits(29, 3, 0x1_0000_0000_0000_0000, 0x12835b0145706fbe);
  }

  lemma CubeRoot10()
    ensures FractionalBits(NthPrime(10), 3, 0x1_0000_0000_0000_0000, Sha512.K(10) as nat)
  {
    assert NthPrime(10) == 31 && Sha512.K(10) == 0x243185be4ee4b28c;
    assert FractionalBits(31, 3, 0x1_0000_0000_0000_0000, 0x243185be4ee4b28c);
  }

  lemma CubeRoot11()
    ensures FractionalBits(NthPrime(11), 3, 0x1_0000_0000_0000_0000, Sha512.K(11) as nat)
  {
    assert NthPrime(11) == 37 && Sha512.K(11) == 0x550c7dc3d5ffb4e2;
    assert FractionalBits(37, 3, 0x1_0000_0000_0000_0000, 0x550c7dc3d5ffb4e2);
  }

  lemma CubeRoot12()
    ensures FractionalBits(NthPrime(12), 3, 0x1_0000_0000_0000_0000, Sha512.K(12) as nat)
  {
    assert NthPrime(12) == 41 && Sha512.K(12) == 0x72be5d74f27b896f;
    assert FractionalBits(41, 3, 0x1_0000_0000_0000_0000, 0x72be5d74f27b896f);
  }

  lemma CubeRoot13()
    ensures FractionalBits(NthPrime(13), 3, 0x1_0000_0000_0000_0000, Sha512.K(13) as nat)
  {
    assert NthPrime(13) == 43 && Sha512.K(13) == 0x80deb1fe3b1696b1;
    assert FractionalBits(43, 3, 0x1_0000_0000_0000_0000, 0x80deb1fe3b1696b1);
  }

  lemma CubeRoot14()
    ensures FractionalBits(NthPrime(14), 3, 0x1_0000_0000_0000_0000, Sha512.K(14) as nat)
  {
    assert NthPrime(14) == 47 && Sha512.K(14) == 0x9bdc06a725c71235;
    assert FractionalBits(47, 3, 0x1_0000_0000_0000_0000, 0x9bdc06a725c71235);
  }

  lemma CubeRoot15()
    ensures FractionalBits(NthPrime(15), 3, 0x1_0000_0000_0000_0000, Sha512.K(15) as nat)
  {
    assert NthPrime(15) == 53 && Sha512.K(15) == 0xc19bf174cf692694;
    assert FractionalBits(53, 3, 0x1_0000_0000_0000_0000, 0xc19bf174cf692694);
  }

  lemma CubeRoot16()
    ensures FractionalBits(NthPrime(16), 3, 0x1_0000_0000_0000_0000, Sha512.K(16) as nat)
  {
    assert NthPrime(16) == 59 && Sha512.K(16) == 0xe49b69c19ef14ad2;
    assert FractionalBits(59, 3, 0x1_0000_0000_0000_0000, 0xe49b69c19ef14ad2);
  }

  lemma CubeRoot17()
    ensures FractionalBits(NthPrime(17), 3, 0x1_0000_0000_0000_0000, Sha512.K(17) as nat)
  {
    assert NthPrime(17) == 61 && Sha512.K(17) == 0xefbe4786384f25e3;
    assert FractionalBits(61, 3, 0x1_0000_0000_0000_0000, 0xefbe4786384f25e3);
  }

  lemma CubeRoot18()
    ensures FractionalBits(NthPrime(18), 3, 0x1_0000_0000_0000_0000, Sha512.K(18) as nat)
  {
    assert NthPrime(18) == 67 && Sha512.K(18) == 0x0fc19dc68b8cd5b5;
    assert FractionalBits(67, 3, 0x1_0000_0000_0000_0000, 0x0fc19dc68b8cd5b5);
  }

  lemma CubeRoot19()
    ensures FractionalBits(NthPrime(19), 3, 0x1_0000_0000_0000_0000, Sha512.K(19) as nat)
  {
    assert NthPrime(19) == 71 && Sha512.K(19) == 0x240ca1cc77ac9c65;
    assert FractionalBits(71, 3, 0x1_0000_0000_0000_0000, 0x240ca1cc77ac9c65);
  }

  lemma CubeRoot20()
    ensures FractionalBits(NthPrime(20), 3, 0x1_0000_0000_0000_0000, Sha512.K(20) as nat)
  {
    assert NthPrime(20) == 73 && Sha512.K(20) == 0x2de92c6f592b0275;
    assert FractionalBits(73, 3, 0x1_0000_0000_0000_0000, 0x2de92c6f592b0275);
  }

  lemma CubeRoot21()
    ensures FractionalBits(NthPrime(21), 3, 0x1_0000_0000_0000_0000, Sha512.K(21) as nat)
  {
    assert NthPrime(21) == 79 && Sha512.K(21) == 0x4a7484aa6ea6e483;
    assert FractionalBits(79, 3, 0x1_0000_0000_0000_0000, 0x4a7484aa6ea6e483);
  }

  lemma CubeRoot22()
    ensures FractionalBits(NthPrime(22), 3, 0x1_0000_0000_0000_0000, Sha512.K(22) as nat)
  {
    assert NthPrime(22) == 83 && Sha512.K(22) == 0x5cb0a9dcbd41fbd4;
    assert FractionalBits(83, 3, 0x1_0000_0000_0000_0000, 0x5cb0a9dcbd41fbd4);
  }

  lemma CubeRoot23()
    ensures FractionalBits(NthPrime(23), 3, 0x1_0000_0000_0000_0000, Sha512.K(23) as nat)
  {
    assert NthPrime(23) == 89 && Sha512.K(23) == 0x76f988da831153b5;
    assert FractionalBits(89, 3, 0x1_0000_0000_0000_0000, 0x76f988da831153b5);
  }

  lemma CubeRoot24()
    ensures FractionalBits(NthPrime(24), 3, 0x1_0000_0000_0000_0000, Sha512.K(24) as nat)
  {
    assert NthPrime(24) == 97 && Sha512.K(24) == 0x983e5152ee66dfab;
    assert FractionalBits(97, 3, 0x1_0000_0000_0000_0000, 0x983e5152ee66dfab);
  }

  lemma CubeRoot25()
    ensures FractionalBits(NthPrime(25), 3, 0x1_0000_0000_0000_0000, Sha512.K(25) as nat)
  {
    assert NthPrime(25) == 101 && Sha512.K(25) == 0xa831c66d2db43210;
    assert FractionalBits(101, 3, 0x1_0000_0000_0000_0000, 0xa831c66d2db43210);
  }

  lemma CubeRoot26()
    ensures FractionalBits(NthPrime(26), 3, 0x1_0000_0000_0000_0000, Sha512.K(26) as nat)
  {
    assert NthPrime(26) == 103 && Sha512.K(26) == 0xb00327c898fb213f;
    assert FractionalBits(103, 3, 0x1_0000_0000_0000_0000, 0xb00327c898fb213f);
  }

  lemma CubeRoot27()
    ensures FractionalBits(NthPrime(27), 3, 0x1_0000_0000_0000_0000, Sha512.K(27) as nat)
  {
    assert NthPrime(27) == 107 && Sha512.K(27) == 0xbf597fc7beef0ee4;
    assert FractionalBits(107, 3, 0x1_0000_0000_0000_0000, 0xbf597fc7beef0ee4);
  }

  lemma CubeRoot28()
    ensures FractionalBits(NthPrime(28), 3, 0x1_0000_0000_0000_0000, Sha512.K(28) as nat)
  {
    assert NthPrime(28) == 109 && Sha512.K(28) == 0xc6e00bf33da88fc2;
    assert FractionalBits(109, 3, 0x1_0000_0000_0000_0000, 0xc6e00bf33da88fc2);
  }

  lemma CubeRoot29()
    ensures FractionalBits(NthPrime(29), 3, 0x1_0000_0000_0000_0000, Sha512.K(29) as nat)
  {
    assert NthPrime(29) == 113 && Sha512.K(29) == 0xd5a79147930aa725;
    assert FractionalBits(113, 3, 0x1_0000_0000_0000_0000, 0xd5a79147930aa725);
  }

  lemma CubeRoot30()
    ensures FractionalBits(NthPrime(30), 3, 0x1_0000_0000_0000_0000, Sha512.K(30) as nat)
  {
    assert NthPrime(30) == 127 && Sha512.K(30) == 0x06ca6351e003826f;
    assert FractionalBits(127, 3, 0x1_0000_0000_0000_0000, 0x06ca6351e003826f);
  }

  lemma CubeRoot31()
    ensures FractionalBits(NthPrime(31), 3, 0x1_0000_0000_0000_0000, Sha512.K(31) as nat)
  {
    assert NthPrime(31) == 131 && Sha512.K(31) == 0x142929670a0e6e70;
    assert FractionalBits(131, 3, 0x1_0000_0000_0000_0000, 0x142929670a0e6e70);
  }

  lemma CubeRoot32()
    ensures FractionalBits(NthPrime(32), 3, 0x1_0000_0000_0000_0000, Sha512.K(32) as nat)
  {
    assert NthPrime(32) == 137 && Sha512.K(32) == 0x27b70a8546d22ffc;
    assert FractionalBits(137, 3, 0x1_0000_0000_0000_0000, 0x27b70a8546d22ffc);
  }

  lemma CubeRoot33()
    ensures FractionalBits(NthPrime(33), 3, 0x1_0000_0000_0000_0000, Sha512.K(33) as nat)
  {
    assert NthPrime(33) == 139 && Sha512.K(33) == 0x2e1b21385c26c926;
    assert FractionalBits(139, 3, 0x1_0000_0000_0000_0000, 0x2e1b21385c26c926);
  }

  lemma CubeRoot34()
    ensures FractionalBits(NthPrime(34), 3, 0x1_0000_0000_0000_0000, Sha512.K(34) as nat)
  {
    assert NthPrime(34) == 149 && Sha512.K(34) == 0x4d2c6dfc5ac42aed;
    assert FractionalBits(149, 3, 0x1_0000_0000_0000_0000, 0x4d2c6dfc5ac42aed);
  }

  lemma CubeRoot35()
    ensures FractionalBits(NthPrime(35), 3, 0x1_0000_0000_0000_0000, Sha512.K(35) as nat)
  {
    assert NthPrime(35) == 151 && Sha512.K(35) == 0x53380d139d95b3df;
    assert FractionalBits(151, 3, 0x1_0000_0000_0000_0000, 0x53380d139d95b3df);
  }

  lemma CubeRoot36()
    ensures FractionalBits(NthPrime(36), 3, 0x1_0000_0000_0000_0000, Sha512.K(36) as nat)
  {
    assert NthPrime(36) == 157 && Sha512.K(36) == 0x650a73548baf63de;
    assert FractionalBits(157, 3, 0x1_0000_0000_0000_0000, 0x650a73548baf63de);
  }

  lemma CubeRoot37()
    ensures FractionalBits(NthPrime(37), 3, 0x1_0000_0000_0000_0000, Sha512.K(37) as nat)
  {
    assert NthPrime(37) == 163 && Sha512.K(37) == 0x766a0abb3c77b2a8;
    assert FractionalBits(163, 3, 0x1_0000_0000_0000_0000, 0x766a0abb3c77b2a8);
  }

  lemma CubeRoot38()
    ensures FractionalBits(NthPrime(38), 3, 0x1_0000_0000_0000_0000, Sha512.K(38) as nat)
  {
    assert NthPrime(38) == 167 && Sha512.K(38) == 0x81c2c92e47edaee6;
    assert FractionalBits(167, 3, 0x1_0000_0000_0000_0000, 0x81c2c92e47edaee6);
  }

  lemma CubeRoot39()
    ensures FractionalBits(NthPrime(39), 3, 0x1_0000_0000_0000_0000, Sha512.K(39) as nat)
  {
    assert NthPrime(39) == 173 && Sha512.K(39) == 0x92722c851482353b;
    assert FractionalBits(173, 3, 0x1_0000_0000_0000_0000, 0x92722c851482353b);
  }

  lemma CubeRoot40()
    ensures FractionalBits(NthPrime(40), 3, 0x1_0000_0000_0000_0000, Sha512.K(40) as nat)
  {
    assert NthPrime(40) == 179 && Sha512.K(40) == 0xa2bfe8a14cf10364;
    assert FractionalBits(179, 3, 0x1_0000_0000_0000_0000, 0xa2bfe8a14cf10364);
  }

  lemma CubeRoot41()
    ensures FractionalBits(NthPrime(41), 3, 0x1_0000_0000_0000_0000, Sha512.K(41) as nat)
  {
    assert NthPrime(41) == 181 && Sha512.K(41) == 0xa81a664bbc423001;
    assert FractionalBits(181, 3, 0x1_0000_0000_0000_0000, 0xa81a664bbc423001);
  }

  lemma CubeRoot42()
    ensures FractionalBits(NthPrime(42), 3, 0x1_0000_0000_0000_0000, Sha512.K(42) as nat)
  {
    assert NthPrime(42) == 191 && Sha512.K(42) == 0xc24b8b70d0f89791;
    assert FractionalBits(191, 3, 0x1_0000_0000_0000_0000, 0xc24b8b70d0f89791);
  }

  lemma CubeRoot43()
    ensures FractionalBits(NthPrime(43), 3, 0x1_0000_0000_0000_0000, Sha512.K(43) as nat)
  {
    assert NthPrime(43) == 193 && Sha512.K(43) == 0xc76c51a30654be30;
    assert FractionalBits(193, 3, 0x1_0000_0000_0000_0000, 0xc76c51a30654be30);
  }

  lemma CubeRoot44()
    ensures FractionalBits(NthPrime(44), 3, 0x1_0000_0000_0000_0000, Sha512.K(44) as nat)
  {
    assert NthPrime(44) == 197 && Sha512.K(44) == 0xd192e819d6ef5218;
    assert FractionalBits(197, 3, 0x1_0000_0000_0000_0000, 0xd192e819d6ef5218);
  }

  lemma CubeRoot45()
    ensures FractionalBits(NthPrime(45), 3, 0x1_0000_0000_0000_0000, Sha512.K(45) as nat)
  {
    assert NthPrime(45) == 199 && Sha512.K(45) == 0xd69906245565a910;
    assert FractionalBits(199, 3, 0x1_0000_0000_0000_0000, 0xd69906245565a910);
  }

  lemma CubeRoot46()
    ensures FractionalBits(NthPrime(46), 3, 0x1_0000_0000_0000_0000, Sha512.K(46) as nat)
  {
    assert NthPrime(46) == 211 && Sha512.K(46) == 0xf40e35855771202a;
    assert FractionalBits(211, 3, 0x1_0000_0000_0000_0000, 0xf40e35855771202a);
  }

  lemma CubeRoot47()
    ensures FractionalBits(NthPrime(47), 3, 0x1_0000_0000_0000_0000, Sha512.K(47) as nat)
  {
    assert NthPrime(47) == 223 && Sha512.K(47) == 0x106aa07032bbd1b8;
    assert FractionalBits(223, 3, 0x1_0000_0000_0000_0000, 0x106aa07032bbd1b8);
  }

  lemma CubeRoot48()
    ensures FractionalBits(NthPrime(48), 3, 0x1_0000_0000_0000_0000, Sha512.K(48) as nat)
  {
    assert NthPrime(48) == 227 && Sha512.K(48) == 0x19a4c116b8d2d0c8;
    assert FractionalBits(227, 3, 0x1_0000_0000_0000_0000, 0x19a4c116b8d2d0c8);
  }

  lemma CubeRoot49()
    ensures FractionalBits(NthPrime(49), 3, 0x1_0000_0000_0000_0000, Sha512.K(49) as nat)
  {
    assert NthPrime(49) == 229 && Sha512.K(49) == 0x1e376c085141ab53;
    assert FractionalBits(229, 3, 0x1_0000_0000_0000_0000, 0x1e376c085141ab53);
  }

  lemma CubeRoot50()
    ensures FractionalBits(NthPrime(50), 3, 0x1_0000_0000_0000_0000, Sha512.K(50) as nat)
  {
    assert NthPrime(50) == 233 && Sha512.K(50) == 0x2748774cdf8eeb99;
    assert FractionalBits(233, 3, 0x1_0000_0000_0000_0000, 0x2748774cdf8eeb99);
  }

  lemma CubeRoot51()
    ensures FractionalBits(NthPrime(51), 3, 0x1_0000_0000_0000_0000, Sha512.K(51) as nat)
  {
    assert NthPrime(51) == 239 && Sha512.K(51) == 0x34b0bcb5e19b48a8;
    assert FractionalBits(239, 3, 0x1_0000_0000_0000_0000, 0x34b0bcb5e19b48a8);
  }

  lemma CubeRoot52()
    ensures FractionalBits(NthPrime(52), 3, 0x1_0000_0000_0000_0000, Sha512.K(52) as nat)
  {
    assert NthPrime(52) == 241 && Sha512.K(52) == 0x391c0cb3c5c95a63;
    assert FractionalBits(241, 3, 0x1_0000_0000_0000_0000, 0x391c0cb3c5c95a63);
  }

  lemma CubeRoot53()
    ensures FractionalBits(NthPrime(53), 3, 0x1_0000_0000_0000_0000, Sha512.K(53) as nat)
  {
    assert NthPrime(53) == 251 && Sha512.K(53) == 0x4ed8aa4ae3418acb;
    assert FractionalBits(251, 3, 0x1_0000_0000_0000_0000, 0x4ed8aa4ae3418acb);
  }

  lemma CubeRoot54()
    ensures FractionalBits(NthPrime(54), 3, 0x1_0000_0000_0000_0000, Sha512.K(54) as nat)
  {
    assert NthPrime(54) == 257 && Sha512.K(54) == 0x5b9cca4f7763e373;
    assert FractionalBits(257, 3, 0x1_0000_0000_0000_0000, 0x5b9cca4f7763e373);
  }

  lemma CubeRoot55()
    ensures FractionalBits(NthPrime(55), 3, 0x1_0000_0000_0000_0000, Sha512.K(55) as nat)
  {
    assert NthPrime(55) == 263 && Sha512.K(55) == 0x682e6ff3d6b2b8a3;
    assert FractionalBits(263, 3, 0x1_0000_0000_0000_0000, 0x682e6ff3d6b2b8a3);
  }

  lemma CubeRoot56()
    ensures FractionalBits(NthPrime(56), 3, 0x1_0000_0000_0000_0000, Sha512.K(56) as nat)
  {
    assert NthPrime(56) == 269 && Sha512.K(56) == 0x748f82ee5defb2fc;
    assert FractionalBits(269, 3, 0x1_0000_0000_0000_0000, 0x748f82ee5defb2fc);
  }

  lemma CubeRoot57()
    ensures FractionalBits(NthPrime(57), 3, 0x1_0000_0000_0000_0000, Sha512.K(57) as nat)
  {
    assert NthPrime(57) == 271 && Sha512.K(57) == 0x78a5636f43172f60;
    assert FractionalBits(271, 3, 0x1_0000_0000_0000_0000, 0x78a5636f43172f60);
  }

  lemma CubeRoot58()
    ensures FractionalBits(NthPrime(58), 3, 0x1_0000_0000_0000_0000, Sha512.K(58) as nat)
  {
    assert NthPrime(58) == 277 && Sha512.K(58) == 0x84c87814a1f0ab72;
    assert FractionalBits(277, 3, 0x1_0000_0000_0000_0000, 0x84c87814a1f0ab72);
  }

  lemma CubeRoot59()
    ensures FractionalBits(NthPrime(59), 3, 0x1_0000_0000_0000_0000, Sha512.K(59) as nat)
  {
    assert NthPrime(59) == 281 && Sha512.K(59) == 0x8cc702081a6439ec;
    assert FractionalBits(281, 3, 0x1_0000_0000_0000_0000, 0x8cc702081a6439ec);
  }

  lemma CubeRoot60()
    ensures FractionalBits(NthPrime(60), 3, 0x1_0000_0000_0000_0000, Sha512.K(60) as nat)
  {
    assert NthPrime(60) == 283 && Sha512.K(60) == 0x90befffa23631e28;
    assert FractionalBits(283, 3, 0x1_0000_0000_0000_0000, 0x90befffa23631e28);
  }

  lemma CubeRoot61()
    ensures FractionalBits(NthPrime(61), 3, 0x1_0000_0000_0000_0000, Sha512.K(61) as nat)
  {
    assert NthPrime(61) == 293 && Sha512.K(61) == 0xa4506cebde82bde9;
    assert FractionalBits(293, 3, 0x1_0000_0000_0000_0000, 0xa4506cebde82bde9);
  }

  lemma CubeRoot62()
    ensures FractionalBits(NthPrime(62), 3, 0x1_0000_0000_0000_0000, Sha512.K(62) as nat)
  {
    assert NthPrime(62) == 307 && Sha512.K(62) == 0xbef9a3f7b2c67915;
    assert FractionalBits(307, 3, 0x1_0000_0000_0000_0000, 0xbef9a3f7b2c67915);
  }

  lemma CubeRoot63()
    ensures FractionalBits(NthPrime(63), 3, 0x1_0000_0000_0000_0000, Sha512.K(63) as nat)
  {
    assert NthPrime(63) == 311 && Sha512.K(63) == 0xc67178f2e372532b;
    assert FractionalBits(311, 3, 0x1_0000_0000_0000_0000, 0xc67178f2e372532b);
  }

  lemma CubeRoot64()
    ensures FractionalBits(NthPrime(64), 3, 0x1_0000_0000_0000_0000, Sha512.K(64) as nat)
  {
    assert NthPrime(64) == 313 && Sha512.K(64) == 0xca273eceea26619c;
    assert FractionalBits(313, 3, 0x1_0000_0000_0000_0000, 0xca273eceea26619c);
  }

  lemma CubeRoot65()
    ensures FractionalBits(NthPrime(65), 3, 0x1_0000_0000_0000_0000, Sha512.K(65) as nat)
  {
    assert NthPrime(65) == 317 && Sha512.K(65) == 0xd186b8c721c0c207;
    assert FractionalBits(317, 3, 0x1_0000_0000_0000_0000, 0xd186b8c721c0c207);
  }

  lemma CubeRoot66()
    ensures FractionalBits(NthPrime(66), 3, 0x1_0000_0000_0000_0000, Sha512.K(66) as nat)
  {
    assert NthPrime(66) == 331 && Sha512.K(66) == 0xeada7dd6cde0eb1e;
    assert FractionalBits(331, 3, 0x1_0000_0000_0000_0000, 0xeada7dd6cde0eb1e);
  }

  lemma CubeRoot67()
    ensures FractionalBits(NthPrime(67), 3, 0x1_0000_0000_0000_0000, Sha512.K(67) as nat)
  {
    assert NthPrime(67) == 337 && Sha512.K(67) == 0xf57d4f7fee6ed178;
    assert FractionalBits(337, 3, 0x1_0000_0000_0000_0000, 0xf57d4f7fee6ed178);
  }

  lemma CubeRoot68()
    ensures FractionalBits(NthPrime(68), 3, 0x1_0000_0000_0000_0000, Sha512.K(68) as nat)
  {
    assert NthPrime(68) == 347 && Sha512.K(68) == 0x06f067aa72176fba;
    assert FractionalBits(347, 3, 0x1_0000_0000_0000_0000, 0x06f067aa72176fba);
  }

  lemma CubeRoot69()
    ensures FractionalBits(NthPrime(69), 3, 0x1_0000_0000_0000_0000, Sha512.K(69) as nat)
  {
    assert NthPrime(69) == 349 && Sha512.K(69) == 0x0a637dc5a2c898a6;
    assert FractionalBits(349, 3, 0x1_0000_0000_0000_0000, 0x0a637dc5a2c898a6);
  }

  lemma CubeRoot70()
    ensures FractionalBits(NthPrime(70), 3, 0x1_0000_0000_0000_0000, Sha512.K(70) as nat)
  {
    assert NthPrime(70) == 353 && Sha512.K(70) == 0x113f9804bef90dae;
    assert FractionalBits(353, 3, 0x1_0000_0000_0000_0000, 0x113f9804bef90dae);
  }

  lemma CubeRoot71()
    ensures FractionalBits(NthPrime(71), 3, 0x1_0000_0000_0000_0000, Sha512.K(71) as nat)
  {
    assert NthPrime(71) == 359 && Sha512.K(71) == 0x1b710b35131c471b;
    assert FractionalBits(359, 3, 0x1_0000_0000_0000_0000, 0x1b710b35131c471b);
  }

  lemma CubeRoot72()
    ensures FractionalBits(NthPrime(72), 3, 0x1_0000_0000_0000_0000, Sha512.K(72) as nat)
  {
    assert NthPrime(72) == 367 && Sha512.K(72) == 0x28db77f523047d84;
    assert FractionalBits(367, 3, 0x1_0000_0000_0000_0000, 0x28db77f523047d84);
  }

  lemma CubeRoot73()
    ensures FractionalBits(NthPrime(73), 3, 0x1_0000_0000_0000_0000, Sha512.K(73) as nat)
  {
    assert NthPrime(73) == 373 && Sha512.K(73) == 0x32caab7b40c72493;
    assert FractionalBits(373, 3, 0x1_0000_0000_0000_0000, 0x32caab7b40c72493);
  }

  lemma CubeRoot74()
    ensures FractionalBits(NthPrime(74), 3, 0x1_0000_0000_0000_0000, Sha512.K(74) as nat)
  {
    assert NthPrime(74) == 379 && Sha512.K(74) == 0x3c9ebe0a15c9bebc;
    assert FractionalBits(379, 3, 0x1_0000_0000_0000_0000, 0x3c9ebe0a15c9bebc);
  }

  lemma CubeRoot75()
    ensures FractionalBits(NthPrime(75), 3, 0x1_0000_0000_0000_0000, Sha512.K(75) as nat)
  {
    assert NthPrime(75) == 383 && Sha512.K(75) == 0x431d67c49c100d4c;
    assert FractionalBits(383, 3, 0x1_0000_0000_0000_0000, 0x431d67c49c100d4c);
  }

  lemma CubeRoot76()
    ensures FractionalBits(NthPrime(76), 3, 0x1_0000_0000_0000_0000, Sha512.K(76) as nat)
  {
    assert NthPrime(76) == 389 && Sha512.K(76) == 0x4cc5d4becb3e42b6;
    assert FractionalBits(389, 3, 0x1_0000_0000_0000_0000, 0x4cc5d4becb3e42b6);
  }

  lemma CubeRoot77()
    ensures FractionalBits(NthPrime(77), 3, 0x1_0000_0000_0000_0000, Sha512.K(77) as nat)
  {
    assert NthPrime(77) == 397 && Sha512.K(77) == 0x597f299cfc657e2a;
    assert FractionalBits(397, 3, 0x1_0000_0000_0000_0000, 0x597f299cfc657e2a);
  }

  lemma CubeRoot78()
    ensures FractionalBits(NthPrime(78), 3, 0x1_0000_0000_0000_0000, Sha512.K(78) as nat)
  {
    assert NthPrime(78) == 401 && Sha512.K(78) == 0x5fcb6fab3ad6faec;
    assert FractionalBits(401, 3, 0x1_0000_0000_0000_0000, 0x5fcb6fab3ad6faec);
  }

  lemma CubeRoot79()
    ensures FractionalBits(NthPrime(79), 3, 0x1_0000_0000_0000_0000, Sha512.K(79) as nat)
  {
    assert NthPrime(79) == 409 && Sha512.K(79) == 0x6c44198c4a475817;
    assert FractionalBits(409, 3, 0x1_0000_0000_0000_0000, 0x6c44198c4a475817);
  }

  lemma SquareRoot0()
    ensures FractionalBits(NthPrime(0), 2, 0x1_0000_0000_0000_0000, Sha512.IV[0] as nat)
  {
    assert NthPrime(0) == 2 && Sha512.IV[0] == 0x6a09e667f3bcc908;
    assert FractionalBits(2, 2, 0x1_0000_0000_0000_0000, 0x6a09e667f3bcc908);
  }

  lemma SquareRoot1()
    ensures FractionalBits(NthPrime(1), 2, 0x1_0000_0000_0000_0000, Sha512.IV[1] as nat)
  {
    assert NthPrime(1) == 3 && Sha512.IV[1] == 0xbb67ae8584caa73b;
    assert FractionalBits(3, 2, 0x1_0000_0000_0000_0000, 0xbb67ae8584caa73b);
  }

  lemma SquareRoot2()
    ensures FractionalBits(NthPrime(2), 2, 0x1_0000_0000_0000_0000, Sha512.IV[2] as nat)
  {
    assert NthPrime(2) == 5 && Sha512.IV[2] == 0x3c6ef372fe94f82b;
    assert FractionalBits(5, 2, 0x1_0000_0000_0000_0000, 0x3c6ef372fe94f82b);
  }

  lemma SquareRoot3()
    ensures FractionalBits(NthPrime(3), 2, 0x1_0000_0000_0000_0000, Sha512.IV[3] as nat)
  {
    assert NthPrime(3) == 7 && Sha512.IV[3] == 0xa54ff53a5f1d36f1;
    assert FractionalBits(7, 2, 0x1_0000_0000_0000_0000, 0xa54ff53a5f1d36f1);
  }

  lemma SquareRoot4()
    ensures FractionalBits(NthPrime(4), 2, 0x1_0000_0000_0000_0000, Sha512.IV[4] as nat)
  {
    assert NthPrime(4) == 11 && Sha512.IV[4] == 0x510e527fade682d1;
    assert FractionalBits(11, 2, 0x1_0000_0000_0000_0000, 0x510e527fade682d1);
  }

  lemma SquareRoot5()
    ensures FractionalBits(NthPrime(5), 2, 0x1_0000_0000_0000_0000, Sha512.IV[5] as nat)
  {
    assert NthPrime(5) == 13 && Sha512.IV[5] == 0x9b05688c2b3e6c1f;
    assert FractionalBits(13, 2, 0x1_0000_0000_0000_0000, 0x9b05688c2b3e6c1f);
  }

  lemma SquareRoot6()
    ensures FractionalBits(NthPrime(6), 2, 0x1_0000_0000_0000_0000, Sha512.IV[6] as nat)
  {
    assert NthPrime(6) == 17 && Sha512.IV[6] == 0x1f83d9abfb41bd6b;
    assert FractionalBits(17, 2, 0x1_0000_0000_0000_0000, 0x1f83d9abfb41bd6b);
  }

  lemma SquareRoot7()
    ensures FractionalBits(NthPrime(7), 2, 0x1_0000_0000_0000_0000, Sha512.IV[7] as nat)
  {
    assert NthPrime(7) == 19 && Sha512.IV[7] == 0x5be0cd19137e2179;
    assert FractionalBits(19, 2, 0x1_0000_0000_0000_0000, 0x5be0cd19137e2179);
  }
}
