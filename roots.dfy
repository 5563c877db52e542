/** The first eighty primes and the fractional parts of their square and
    cube roots, from which FIPS 180-4 derives the SHA-2 constants: the round
    constants of section 4.2.2 (SHA-256) and 4.2.3 (SHA-512) and the initial
    hash values of sections 5.3.3 and 5.3.5. */
module Roots {
  /** x raised to the power e. */
  function Power(x: nat, e: nat): nat
  {
    if e == 0 then 1 else x * Power(x, e - 1)
  }

  lemma {:induction false} PowerPositive(x: nat, e: nat)
    requires 0 < x
    ensures 0 < Power(x, e)
    decreases e
  {
    if e > 0 {
      PowerPositive(x, e - 1);
    }
  }

  lemma MulMonotone(a: nat, b: nat, c: nat, d: nat)
    requires a <= c && b <= d
    ensures a * b <= c * d
  {
    assert a * b <= a * d;
    assert a * d <= c * d;
  }

  lemma MulStrictlyMonotone(a: nat, b: nat, c: nat, d: nat)
    requires a < c && b <= d && 0 < d
    ensures a * b < c * d
  {
    MulMonotone(a, b, a, d);
  }

  /** Power is strictly increasing in its base for a positive exponent. */
  lemma {:induction false} PowerStrictlyIncreasing(x: nat, y: nat, e: nat)
    requires x < y && 0 < e
    ensures Power(x, e) < Power(y, e)
    decreases e
  {
    if e > 1 {
      PowerStrictlyIncreasing(x, y, e - 1);
      PowerPositive(y, e - 1);
      MulStrictlyMonotone(x, Power(x, e - 1), y, Power(y, e - 1));
    }
  }

  /** Power(x, e) is at least x for a positive exponent. */
  lemma {:induction false} PowerAtLeastBase(x: nat, e: nat)
    requires 0 < e
    ensures x <= Power(x, e)
    decreases e
  {
    if e > 1 && x > 0 {
      PowerAtLeastBase(x, e - 1);
      assert x * 1 <= x * Power(x, e - 1);
    }
  }

  /** The integer e-th root of n, found by counting up from c. */
  function IntRootFrom(n: nat, e: nat, c: nat): nat
    decreases n - c
  {
    if c >= n || Power(c + 1, e) > n then c else IntRootFrom(n, e, c + 1)
  }

  /** The integer part of the e-th root of n. */
  function IntRoot(n: nat, e: nat): nat
  {
    IntRootFrom(n, e, 0)
  }

  lemma {:induction false} IntRootFromBracket(n: nat, e: nat, c: nat)
    requires 0 < e && Power(c, e) <= n
    ensures Power(IntRootFrom(n, e, c), e) <= n < Power(IntRootFrom(n, e, c) + 1, e)
    decreases n - c
  {
    if c >= n {
      PowerAtLeastBase(c + 1, e);
    } else if Power(c + 1, e) <= n {
      IntRootFromBracket(n, e, c + 1);
    }
  }

  /** IntRoot(n, e) is the largest r with r^e <= n. */
  lemma IntRootBracket(n: nat, e: nat)
    requires 0 < e
    ensures Power(IntRoot(n, e), e) <= n < Power(IntRoot(n, e) + 1, e)
  {
    PowerAtLeastBase(0, e);
    IntRootFromBracket(n, e, 0);
  }

  /** x is the first log2(scale) bits of the fractional part of the e-th
      root of p: with r the integer part of that root, r * scale + x is the
      root scaled by scale and rounded down. */
  predicate FractionalBits(p: nat, e: nat, scale: nat, x: nat)
  {
    var v := IntRoot(p, e) * scale + x;
    x < scale && Power(v, e) <= p * Power(scale, e) < Power(v + 1, e)
  }

  /** The fractional bits are determined by the root: at most one x fits. */
  lemma FractionalBitsUnique(p: nat, e: nat, scale: nat, x: nat, y: nat)
    requires 0 < e && FractionalBits(p, e, scale, x) && FractionalBits(p, e, scale, y)
    ensures x == y
  {
    var r := IntRoot(p, e) * scale;
    if x < y {
      if r + x + 1 < r + y {
        PowerStrictlyIncreasing(r + x + 1, r + y, e);
      }
    } else if y < x {
      if r + y + 1 < r + x {
        PowerStrictlyIncreasing(r + y + 1, r + x, e);
      }
    }
  }

  /** d is a divisor of n. */
  predicate Divides(d: nat, n: nat)
  {
    0 < d && n % d == 0
  }

  /** Trial division: no d' with d <= d', d' * d' <= n and d' < n divides n. */
  predicate NoDivisorFrom(n: nat, d: nat)
    requires 2 <= d
    decreases n - d
  {
    d * d > n || d >= n || (n % d != 0 && NoDivisorFrom(n, d + 1))
  }

  /** n is prime, decided by trial division up to its square root. */
  predicate IsPrime(n: nat)
  {
    2 <= n && NoDivisorFrom(n, 2)
  }

  /** A multiple of m leaves no remainder on division by m. */
  lemma MultipleMod(n: nat, m: nat, k: nat)
    requires 0 < m && n == m * k
    ensures n % m == 0
  {
    var q, r := n / m, n % m;
    assert n == m * q + r && r < m;
    if q < k {
      MulMonotone(m, q + 1, m, k);
    } else if k < q {
      MulMonotone(m, k + 1, m, q);
    }
  }

  /** A divisor k of n with k < n leaves a cofactor of at least 2 that also
      divides n. */
  lemma Cofactor(n: nat, k: nat)
    requires 2 <= k < n && Divides(k, n)
    ensures 2 <= n / k && (n / k) * k == n && Divides(n / k, n)
  {
    var m := n / k;
    assert n == k * m + n % k;
    assert m * k == n;
    MultipleMod(n, m, k);
  }

  lemma {:induction false} NoDivisorFromSound(n: nat, d: nat)
    requires 2 <= d && NoDivisorFrom(n, d)
    requires forall k :: 2 <= k < d ==> !Divides(k, n)
    ensures forall k :: 2 <= k < n ==> !Divides(k, n)
    decreases n - d
  {
    if d * d > n || d >= n {
      forall k | 2 <= k < n
        ensures !Divides(k, n)
      {
        if d <= k && Divides(k, n) {
          Cofactor(n, k);
          var m := n / k;
          if d <= m {
            MulMonotone(d, d, m, k);
          }
        }
      }
    } else {
      NoDivisorFromSound(n, d + 1);
    }
  }

  lemma {:induction false} NoDivisorFromComplete(n: nat, d: nat)
    requires 2 <= d
    requires forall k :: 2 <= k < n ==> !Divides(k, n)
    ensures NoDivisorFrom(n, d)
    decreases n - d
  {
    if d * d <= n && d < n {
      assert !Divides(d, n);
      NoDivisorFromComplete(n, d + 1);
    }
  }

  /** Trial division agrees with the definition: n is prime exactly when
      it is at least 2 and no k with 2 <= k < n divides it. */
  lemma PrimeIff(n: nat)
    ensures IsPrime(n) <==> 2 <= n && forall k :: 2 <= k < n ==> !Divides(k, n)
  {
    if IsPrime(n) {
      NoDivisorFromSound(n, 2);
    }
    if 2 <= n && forall k :: 2 <= k < n ==> !Divides(k, n) {
      NoDivisorFromComplete(n, 2);
    }
  }

  lemma NotPrime(n: nat, d: nat)
    requires 2 <= d < n && n % d == 0
    ensures !IsPrime(n)
  {
    PrimeIff(n);
    assert Divides(d, n);
  }

  /** The first eighty primes, in increasing order. */
  function NthPrime(i: nat): nat
    requires i < 80
  {
    match i
    case 0 => 2
    case 1 => 3
    case 2 => 5
    case 3 => 7
    case 4 => 11
    case 5 => 13
    case 6 => 17
    case 7 => 19
    case 8 => 23
    case 9 => 29
    case 10 => 31
    case 11 => 37
    case 12 => 41
    case 13 => 43
    case 14 => 47
    case 15 => 53
    case 16 => 59
    case 17 => 61
    case 18 => 67
    case 19 => 71
    case 20 => 73
    case 21 => 79
    case 22 => 83
    case 23 => 89
    case 24 => 97
    case 25 => 101
    case 26 => 103
    case 27 => 107
    case 28 => 109
    case 29 => 113
    case 30 => 127
    case 31 => 131
    case 32 => 137
    case 33 => 139
    case 34 => 149
    case 35 => 151
    case 36 => 157
    case 37 => 163
    case 38 => 167
    case 39 => 173
    case 40 => 179
    case 41 => 181
    case 42 => 191
    case 43 => 193
    case 44 => 197
    case 45 => 199
    case 46 => 211
    case 47 => 223
    case 48 => 227
    case 49 => 229
    case 50 => 233
    case 51 => 239
    case 52 => 241
    case 53 => 251
    case 54 => 257
    case 55 => 263
    case 56 => 269
    case 57 => 271
    case 58 => 277
    case 59 => 281
    case 60 => 283
    case 61 => 293
    case 62 => 307
    case 63 => 311
    case 64 => 313
    case 65 => 317
    case 66 => 331
    case 67 => 337
    case 68 => 347
    case 69 => 349
    case 70 => 353
    case 71 => 359
    case 72 => 367
    case 73 => 373
    case 74 => 379
    case 75 => 383
    case 76 => 389
    case 77 => 397
    case 78 => 401
    case _ => 409
  }

  /** NthPrime(i) is prime, the first is 2, and no prime lies between
      consecutive entries: the table lists the primes in order from the
      first. */
  lemma NthPrimeIsNextPrime(i: nat)
    requires i < 80
    ensures IsPrime(NthPrime(i))
    ensures i == 0 ==> NthPrime(i) == 2
    ensures 0 < i ==> NthPrime(i - 1) < NthPrime(i) && forall n :: NthPrime(i - 1) < n < NthPrime(i) ==> !IsPrime(n)
  {
    if i < 4 {
      PrimesBlock0(i);
    } else if i < 8 {
      PrimesBlock1(i);
    } else if i < 12 {
      PrimesBlock2(i);
    } else if i < 16 {
      PrimesBlock3(i);
    } else if i < 20 {
      PrimesBlock4(i);
    } else if i < 24 {
      PrimesBlock5(i);
    } else if i < 28 {
      PrimesBlock6(i);
    } else if i < 32 {
      PrimesBlock7(i);
    } else if i < 36 {
      PrimesBlock8(i);
    } else if i < 40 {
      PrimesBlock9(i);
    } else if i < 44 {
      PrimesBlock10(i);
    } else if i < 48 {
      PrimesBlock11(i);
    } else if i < 52 {
      PrimesBlock12(i);
    } else if i < 56 {
      PrimesBlock13(i);
    } else if i < 60 {
      PrimesBlock14(i);
    } else if i < 64 {
      PrimesBlock15(i);
    } else if i < 68 {
      PrimesBlock16(i);
    } else if i < 72 {
      PrimesBlock17(i);
    } else if i < 76 {
      PrimesBlock18(i);
    } else {
      PrimesBlock19(i);
    }
  }

  lemma PrimesBlock0(i: nat)
    requires i < 4
    ensures IsPrime(NthPrime(i))
    ensures i == 0 ==> NthPrime(i) == 2
    ensures 0 < i ==> NthPrime(i - 1) < NthPrime(i) && forall n :: NthPrime(i - 1) < n < NthPrime(i) ==> !IsPrime(n)
  {
    if i == 0 {
      assert NoDivisorFrom(2, 2);
    } else if i == 1 {
      assert NoDivisorFrom(3, 2);
    } else if i == 2 {
      assert NoDivisorFrom(5, 3);
      assert NoDivisorFrom(5, 2);
      forall n | 3 < n < 5
        ensures !IsPrime(n)
      {
        NotPrime(4, 2);
      }
    } else {
      assert NoDivisorFrom(7, 3);
      assert NoDivisorFrom(7, 2);
      forall n | 5 < n < 7
        ensures !IsPrime(n)
      {
        NotPrime(6, 2);
      }
    }
  }

  lemma PrimesBlock1(i: nat)
    requires 4 <= i < 8
    ensures IsPrime(NthPrime(i))
    ensures NthPrime(i - 1) < NthPrime(i) && forall n :: NthPrime(i - 1) < n < NthPrime(i) ==> !IsPrime(n)
  {
    if i == 4 {
      assert NoDivisorFrom(11, 4);
      assert NoDivisorFrom(11, 3);
      assert NoDivisorFrom(11, 2);
      forall n | 7 < n < 11
        ensures !IsPrime(n)
      {
        if n == 8 {
          NotPrime(8, 2);
        } else if n == 9 {
          NotPrime(9, 3);
        } else {
          NotPrime(10, 2);
        }
      }
    } else if i == 5 {
      assert NoDivisorFrom(13, 4);
      assert NoDivisorFrom(13, 3);
      assert NoDivisorFrom(13, 2);
      forall n | 11 < n < 13
        ensures !IsPrime(n)
      {
        NotPrime(12, 2);
      }
    } else if i == 6 {
      assert NoDivisorFrom(17, 5);
      assert NoDivisorFrom(17, 4);
      assert NoDivisorFrom(17, 3);
      assert NoDivisorFrom(17, 2);
      forall n | 13 < n < 17
        ensures !IsPrime(n)
      {
        if n == 14 {
          NotPrime(14, 2);
        } else if n == 15 {
          NotPrime(15, 3);
        } else {
          NotPrime(16, 2);
        }
      }
    } else {
      assert NoDivisorFrom(19, 5);
      assert NoDivisorFrom(19, 4);
      assert NoDivisorFrom(19, 3);
      assert NoDivisorFrom(19, 2);
      forall n | 17 < n < 19
        ensures !IsPrime(n)
      {
        NotPrime(18, 2);
      }
    }
  }

  lemma PrimesBlock2(i: nat)
    requires 8 <= i < 12
    ensures IsPrime(NthPrime(i))
    ensures NthPrime(i - 1) < NthPrime(i) && forall n :: NthPrime(i - 1) < n < NthPrime(i) ==> !IsPrime(n)
  {
    if i == 8 {
      assert NoDivisorFrom(23, 5);
      assert NoDivisorFrom(23, 4);
      assert NoDivisorFrom(23, 3);
      assert NoDivisorFrom(23, 2);
      forall n | 19 < n < 23
        ensures !IsPrime(n)
      {
        if n == 20 {
          NotPrime(20, 2);
        } else if n == 21 {
          NotPrime(21, 3);
        } else {
          NotPrime(22, 2);
        }
      }
    } else if i == 9 {
      assert NoDivisorFrom(29, 6);
      assert NoDivisorFrom(29, 5);
      assert NoDivisorFrom(29, 4);
      assert NoDivisorFrom(29, 3);
      assert NoDivisorFrom(29, 2);
      forall n | 23 < n < 29
        ensures !IsPrime(n)
      {
        if n == 24 {
          NotPrime(24, 2);
        } else if n == 25 {
          NotPrime(25, 5);
        } else if n == 26 {
          NotPrime(26, 2);
        } else if n == 27 {
          NotPrime(27, 3);
        } else {
          NotPrime(28, 2);
        }
      }
    } else if i == 10 {
      assert NoDivisorFrom(31, 6);
      assert NoDivisorFrom(31, 5);
      assert NoDivisorFrom(31, 4);
      assert NoDivisorFrom(31, 3);
      assert NoDivisorFrom(31, 2);
      forall n | 29 < n < 31
        ensures !IsPrime(n)
      {
        NotPrime(30, 2);
      }
    } else {
      assert NoDivisorFrom(37, 7);
      assert NoDivisorFrom(37, 6);
      assert NoDivisorFrom(37, 5);
      assert NoDivisorFrom(37, 4);
      assert NoDivisorFrom(37, 3);
      assert NoDivisorFrom(37, 2);
      forall n | 31 < n < 37
        ensures !IsPrime(n)
      {
        if n == 32 {
          NotPrime(32, 2);
        } else if n == 33 {
          NotPrime(33, 3);
        } else if n == 34 {
          NotPrime(34, 2);
        } else if n == 35 {
          NotPrime(35, 5);
        } else {
          NotPrime(36, 2);
        }
      }
    }
  }

  lemma PrimesBlock3(i: nat)
    requires 12 <= i < 16
    ensures IsPrime(NthPrime(i))
    ensures NthPrime(i - 1) < NthPrime(i) && forall n :: NthPrime(i - 1) < n < NthPrime(i) ==> !IsPrime(n)
  {
    if i == 12 {
      assert NoDivisorFrom(41, 7);
      assert NoDivisorFrom(41, 6);
      assert NoDivisorFrom(41, 5);
      assert NoDivisorFrom(41, 4);
      assert NoDivisorFrom(41, 3);
      assert NoDivisorFrom(41, 2);
      forall n | 37 < n < 41
        ensures !IsPrime(n)
      {
        if n == 38 {
          NotPrime(38, 2);
        } else if n == 39 {
          NotPrime(39, 3);
        } else {
          NotPrime(40, 2);
        }
      }
    } else if i == 13 {
      assert NoDivisorFrom(43, 7);
      assert NoDivisorFrom(43, 6);
      assert NoDivisorFrom(43, 5);
      assert NoDivisorFrom(43, 4);
      assert NoDivisorFrom(43, 3);
      assert NoDivisorFrom(43, 2);
      forall n | 41 < n < 43
        ensures !IsPrime(n)
      {
        NotPrime(42, 2);
      }
    } else if i == 14 {
      assert NoDivisorFrom(47, 7);
      assert NoDivisorFrom(47, 6);
      assert NoDivisorFrom(47, 5);
      assert NoDivisorFrom(47, 4);
      assert NoDivisorFrom(47, 3);
      assert NoDivisorFrom(47, 2);
      forall n | 43 < n < 47
        ensures !IsPrime(n)
      {
        if n == 44 {
          NotPrime(44, 2);
        } else if n == 45 {
          NotPrime(45, 3);
        } else {
          NotPrime(46, 2);
        }
      }
    } else {
      assert NoDivisorFrom(53, 8);
      assert NoDivisorFrom(53, 7);
      assert NoDivisorFrom(53, 6);
      assert NoDivisorFrom(53, 5);
      assert NoDivisorFrom(53, 4);
      assert NoDivisorFrom(53, 3);
      assert NoDivisorFrom(53, 2);
      forall n | 47 < n < 53
        ensures !IsPrime(n)
      {
        if n == 48 {
          NotPrime(48, 2);
        } else if n == 49 {
          NotPrime(49, 7);
        } else if n == 50 {
          NotPrime(50, 2);
        } else if n == 51 {
          NotPrime(51, 3);
        } else {
          NotPrime(52, 2);
        }
      }
    }
  }

  lemma PrimesBlock4(i: nat)
    requires 16 <= i < 20
    ensures IsPrime(NthPrime(i))
    ensures NthPrime(i - 1) < NthPrime(i) && forall n :: NthPrime(i - 1) < n < NthPrime(i) ==> !IsPrime(n)
  {
    if i == 16 {
      assert NoDivisorFrom(59, 8);
      assert NoDivisorFrom(59, 7);
      assert NoDivisorFrom(59, 6);
      assert NoDivisorFrom(59, 5);
      assert NoDivisorFrom(59, 4);
      assert NoDivisorFrom(59, 3);
      assert NoDivisorFrom(59, 2);
      forall n | 53 < n < 59
        ensures !IsPrime(n)
      {
        if n == 54 {
          NotPrime(54, 2);
        } else if n == 55 {
          NotPrime(55, 5);
        } else if n == 56 {
          NotPrime(56, 2);
        } else if n == 57 {
          NotPrime(57, 3);
        } else {
          NotPrime(58, 2);
        }
      }
    } else if i == 17 {
      assert NoDivisorFrom(61, 8);
      assert NoDivisorFrom(61, 7);
      assert NoDivisorFrom(61, 6);
      assert NoDivisorFrom(61, 5);
      assert NoDivisorFrom(61, 4);
      assert NoDivisorFrom(61, 3);
      assert NoDivisorFrom(61, 2);
      forall n | 59 < n < 61
        ensures !IsPrime(n)
      {
        NotPrime(60, 2);
      }
    } else if i == 18 {
      assert NoDivisorFrom(67, 9);
      assert NoDivisorFrom(67, 8);
      assert NoDivisorFrom(67, 7);
      assert NoDivisorFrom(67, 6);
      assert NoDivisorFrom(67, 5);
      assert NoDivisorFrom(67, 4);
      assert NoDivisorFrom(67, 3);
      assert NoDivisorFrom(67, 2);
      forall n | 61 < n < 67
        ensures !IsPrime(n)
      {
        if n == 62 {
          NotPrime(62, 2);
        } else if n == 63 {
          NotPrime(63, 3);
        } else if n == 64 {
          NotPrime(64, 2);
        } else if n == 65 {
          NotPrime(65, 5);
        } else {
          NotPrime(66, 2);
        }
      }
    } else {
      assert NoDivisorFrom(71, 9);
      assert NoDivisorFrom(71, 8);
      assert NoDivisorFrom(71, 7);
      assert NoDivisorFrom(71, 6);
      assert NoDivisorFrom(71, 5);
      assert NoDivisorFrom(71, 4);
      assert NoDivisorFrom(71, 3);
      assert NoDivisorFrom(71, 2);
      forall n | 67 < n < 71
        ensures !IsPrime(n)
      {
        if n == 68 {
          NotPrime(68, 2);
        } else if n == 69 {
          NotPrime(69, 3);
        } else {
          NotPrime(70, 2);
        }
      }
    }
  }

  lemma PrimesBlock5(i: nat)
    requires 20 <= i < 24
    ensures IsPrime(NthPrime(i))
    ensures NthPrime(i - 1) < NthPrime(i) && forall n :: NthPrime(i - 1) < n < NthPrime(i) ==> !IsPrime(n)
  {
    if i == 20 {
      assert NoDivisorFrom(73, 9);
      assert NoDivisorFrom(73, 8);
      assert NoDivisorFrom(73, 7);
      assert NoDivisorFrom(73, 6);
      assert NoDivisorFrom(73, 5);
      assert NoDivisorFrom(73, 4);
      assert NoDivisorFrom(73, 3);
      assert NoDivisorFrom(73, 2);
      forall n | 71 < n < 73
        ensures !IsPrime(n)
      {
        NotPrime(72, 2);
      }
    } else if i == 21 {
      assert NoDivisorFrom(79, 9);
      assert NoDivisorFrom(79, 8);
      assert NoDivisorFrom(79, 7);
      assert NoDivisorFrom(79, 6);
      assert NoDivisorFrom(79, 5);
      assert NoDivisorFrom(79, 4);
      assert NoDivisorFrom(79, 3);
      assert NoDivisorFrom(79, 2);
      forall n | 73 < n < 79
        ensures !IsPrime(n)
      {
        if n == 74 {
          NotPrime(74, 2);
        } else if n == 75 {
          NotPrime(75, 3);
        } else if n == 76 {
          NotPrime(76, 2);
        } else if n == 77 {
          NotPrime(77, 7);
        } else {
          NotPrime(78, 2);
        }
      }
    } else if i == 22 {
      assert NoDivisorFrom(83, 10);
      assert NoDivisorFrom(83, 9);
      assert NoDivisorFrom(83, 8);
      assert NoDivisorFrom(83, 7);
      assert NoDivisorFrom(83, 6);
      assert NoDivisorFrom(83, 5);
      assert NoDivisorFrom(83, 4);
      assert NoDivisorFrom(83, 3);
      assert NoDivisorFrom(83, 2);
      forall n | 79 < n < 83
        ensures !IsPrime(n)
      {
        if n == 80 {
          NotPrime(80, 2);
        } else if n == 81 {
          NotPrime(81, 3);
        } else {
          NotPrime(82, 2);
        }
      }
    } else {
      assert NoDivisorFrom(89, 10);
      assert NoDivisorFrom(89, 9);
      assert NoDivisorFrom(89, 8);
      assert NoDivisorFrom(89, 7);
      assert NoDivisorFrom(89, 6);
      assert NoDivisorFrom(89, 5);
      assert NoDivisorFrom(89, 4);
      assert NoDivisorFrom(89, 3);
      assert NoDivisorFrom(89, 2);
      forall n | 83 < n < 89
        ensures !IsPrime(n)
      {
        if n == 84 {
          NotPrime(84, 2);
        } else if n == 85 {
          NotPrime(85, 5);
        } else if n == 86 {
          NotPrime(86, 2);
        } else if n == 87 {
          NotPrime(87, 3);
        } else {
          NotPrime(88, 2);
        }
      }
    }
  }

  lemma PrimesBlock6(i: nat)
    requires 24 <= i < 28
    ensures IsPrime(NthPrime(i))
    ensures NthPrime(i - 1) < NthPrime(i) && forall n :: NthPrime(i - 1) < n < NthPrime(i) ==> !IsPrime(n)
  {
    if i == 24 {
      assert NoDivisorFrom(97, 10);
      assert NoDivisorFrom(97, 9);
      assert NoDivisorFrom(97, 8);
      assert NoDivisorFrom(97, 7);
      assert NoDivisorFrom(97, 6);
      assert NoDivisorFrom(97, 5);
      assert NoDivisorFrom(97, 4);
      assert NoDivisorFrom(97, 3);
      assert NoDivisorFrom(97, 2);
      forall n | 89 < n < 97
        ensures !IsPrime(n)
      {
        if n == 90 {
          NotPrime(90, 2);
        } else if n == 91 {
          NotPrime(91, 7);
        } else if n == 92 {
          NotPrime(92, 2);
        } else if n == 93 {
          NotPrime(93, 3);
        } else if n == 94 {
          NotPrime(94, 2);
        } else if n == 95 {
          NotPrime(95, 5);
        } else {
          NotPrime(96, 2);
        }
      }
    } else if i == 25 {
      assert NoDivisorFrom(101, 11);
      assert NoDivisorFrom(101, 10);
      assert NoDivisorFrom(101, 9);
      assert NoDivisorFrom(101, 8);
      assert NoDivisorFrom(101, 7);
      assert NoDivisorFrom(101, 6);
      assert NoDivisorFrom(101, 5);
      assert NoDivisorFrom(101, 4);
      assert NoDivisorFrom(101, 3);
      assert NoDivisorFrom(101, 2);
      forall n | 97 < n < 101
        ensures !IsPrime(n)
      {
        if n == 98 {
          NotPrime(98, 2);
        } else if n == 99 {
          NotPrime(99, 3);
        } else {
          NotPrime(100, 2);
        }
      }
    } else if i == 26 {
      assert NoDivisorFrom(103, 11);
      assert NoDivisorFrom(103, 10);
      assert NoDivisorFrom(103, 9);
      assert NoDivisorFrom(103, 8);
      assert NoDivisorFrom(103, 7);
      assert NoDivisorFrom(103, 6);
      assert NoDivisorFrom(103, 5);
      assert NoDivisorFrom(103, 4);
      assert NoDivisorFrom(103, 3);
      assert NoDivisorFrom(103, 2);
      forall n | 101 < n < 103
        ensures !IsPrime(n)
      {
        NotPrime(102, 2);
      }
    } else {
      assert NoDivisorFrom(107, 11);
      assert NoDivisorFrom(107, 10);
      assert NoDivisorFrom(107, 9);
      assert NoDivisorFrom(107, 8);
      assert NoDivisorFrom(107, 7);
      assert NoDivisorFrom(107, 6);
      assert NoDivisorFrom(107, 5);
      assert NoDivisorFrom(107, 4);
      assert NoDivisorFrom(107, 3);
      assert NoDivisorFrom(107, 2);
      forall n | 103 < n < 107
        ensures !IsPrime(n)
      {
        if n == 104 {
          NotPrime(104, 2);
        } else if n == 105 {
          NotPrime(105, 3);
        } else {
          NotPrime(106, 2);
        }
      }
    }
  }

  lemma PrimesBlock7(i: nat)
    requires 28 <= i < 32
    ensures IsPrime(NthPrime(i))
    ensures NthPrime(i - 1) < NthPrime(i) && forall n :: NthPrime(i - 1) < n < NthPrime(i) ==> !IsPrime(n)
  {
    if i == 28 {
      assert NoDivisorFrom(109, 11);
      assert NoDivisorFrom(109, 10);
      assert NoDivisorFrom(109, 9);
      assert NoDivisorFrom(109, 8);
      assert NoDivisorFrom(109, 7);
      assert NoDivisorFrom(109, 6);
      assert NoDivisorFrom(109, 5);
      assert NoDivisorFrom(109, 4);
      assert NoDivisorFrom(109, 3);
      assert NoDivisorFrom(109, 2);
      forall n | 107 < n < 109
        ensures !IsPrime(n)
      {
        NotPrime(108, 2);
      }
    } else if i == 29 {
      assert NoDivisorFrom(113, 11);
      assert NoDivisorFrom(113, 10);
      assert NoDivisorFrom(113, 9);
      assert NoDivisorFrom(113, 8);
      assert NoDivisorFrom(113, 7);
      assert NoDivisorFrom(113, 6);
      assert NoDivisorFrom(113, 5);
      assert NoDivisorFrom(113, 4);
      assert NoDivisorFrom(113, 3);
      assert NoDivisorFrom(113, 2);
      forall n | 109 < n < 113
        ensures !IsPrime(n)
      {
        if n == 110 {
          NotPrime(110, 2);
        } else if n == 111 {
          NotPrime(111, 3);
        } else {
          NotPrime(112, 2);
        }
      }
    } else if i == 30 {
      assert NoDivisorFrom(127, 12);
      assert NoDivisorFrom(127, 11);
      assert NoDivisorFrom(127, 10);
      assert NoDivisorFrom(127, 9);
      assert NoDivisorFrom(127, 8);
      assert NoDivisorFrom(127, 7);
      assert NoDivisorFrom(127, 6);
      assert NoDivisorFrom(127, 5);
      assert NoDivisorFrom(127, 4);
      assert NoDivisorFrom(127, 3);
      assert NoDivisorFrom(127, 2);
      forall n | 113 < n < 127
        ensures !IsPrime(n)
      {
        if n == 114 {
          NotPrime(114, 2);
        } else if n == 115 {
          NotPrime(115, 5);
        } else if n == 116 {
          NotPrime(116, 2);
        } else if n == 117 {
          NotPrime(117, 3);
        } else if n == 118 {
          NotPrime(118, 2);
        } else if n == 119 {
          NotPrime(119, 7);
        } else if n == 120 {
          NotPrime(120, 2);
        } else if n == 121 {
          NotPrime(121, 11);
        } else if n == 122 {
          NotPrime(122, 2);
        } else if n == 123 {
          NotPrime(123, 3);
        } else if n == 124 {
          NotPrime(124, 2);
        } else if n == 125 {
          NotPrime(125, 5);
        } else {
          NotPrime(126, 2);
        }
      }
    } else {
      assert NoDivisorFrom(131, 12);
      assert NoDivisorFrom(131, 11);
      assert NoDivisorFrom(131, 10);
      assert NoDivisorFrom(131, 9);
      assert NoDivisorFrom(131, 8);
      assert NoDivisorFrom(131, 7);
      assert NoDivisorFrom(131, 6);
      assert NoDivisorFrom(131, 5);
      assert NoDivisorFrom(131, 4);
      assert NoDivisorFrom(131, 3);
      assert NoDivisorFrom(131, 2);
      forall n | 127 < n < 131
        ensures !IsPrime(n)
      {
        if n == 128 {
          NotPrime(128, 2);
        } else if n == 129 {
          NotPrime(129, 3);
        } else {
          NotPrime(130, 2);
        }
      }
    }
  }

  lemma PrimesBlock8(i: nat)
    requires 32 <= i < 36
    ensures IsPrime(NthPrime(i))
    ensures NthPrime(i - 1) < NthPrime(i) && forall n :: NthPrime(i - 1) < n < NthPrime(i) ==> !IsPrime(n)
  {
    if i == 32 {
      assert NoDivisorFrom(137, 12);
      assert NoDivisorFrom(137, 11);
      assert NoDivisorFrom(137, 10);
      assert NoDivisorFrom(137, 9);
      assert NoDivisorFrom(137, 8);
      assert NoDivisorFrom(137, 7);
      assert NoDivisorFrom(137, 6);
      assert NoDivisorFrom(137, 5);
      assert NoDivisorFrom(137, 4);
      assert NoDivisorFrom(137, 3);
      assert NoDivisorFrom(137, 2);
      forall n | 131 < n < 137
        ensures !IsPrime(n)
      {
        if n == 132 {
          NotPrime(132, 2);
        } else if n == 133 {
          NotPrime(133, 7);
        } else if n == 134 {
          NotPrime(134, 2);
        } else if n == 135 {
          NotPrime(135, 3);
        } else {
          NotPrime(136, 2);
        }
      }
    } else if i == 33 {
      assert NoDivisorFrom(139, 12);
      assert NoDivisorFrom(139, 11);
      assert NoDivisorFrom(139, 10);
      assert NoDivisorFrom(139, 9);
      assert NoDivisorFrom(139, 8);
      assert NoDivisorFrom(139, 7);
      assert NoDivisorFrom(139, 6);
      assert NoDivisorFrom(139, 5);
      assert NoDivisorFrom(139, 4);
      assert NoDivisorFrom(139, 3);
      assert NoDivisorFrom(139, 2);
      forall n | 137 < n < 139
        ensures !IsPrime(n)
      {
        NotPrime(138, 2);
      }
    } else if i == 34 {
      assert NoDivisorFrom(149, 13);
      assert NoDivisorFrom(149, 12);
      assert NoDivisorFrom(149, 11);
      assert NoDivisorFrom(149, 10);
      assert NoDivisorFrom(149, 9);
      assert NoDivisorFrom(149, 8);
      assert NoDivisorFrom(149, 7);
      assert NoDivisorFrom(149, 6);
      assert NoDivisorFrom(149, 5);
      assert NoDivisorFrom(149, 4);
      assert NoDivisorFrom(149, 3);
      assert NoDivisorFrom(149, 2);
      forall n | 139 < n < 149
        ensures !IsPrime(n)
      {
        if n == 140 {
          NotPrime(140, 2);
        } else if n == 141 {
          NotPrime(141, 3);
        } else if n == 142 {
          NotPrime(142, 2);
        } else if n == 143 {
          NotPrime(143, 11);
        } else if n == 144 {
          NotPrime(144, 2);
        } else if n == 145 {
          NotPrime(145, 5);
        } else if n == 146 {
          NotPrime(146, 2);
        } else if n == 147 {
          NotPrime(147, 3);
        } else {
          NotPrime(148, 2);
        }
      }
    } else {
      assert NoDivisorFrom(151, 13);
      assert NoDivisorFrom(151, 12);
      assert NoDivisorFrom(151, 11);
      assert NoDivisorFrom(151, 10);
      assert NoDivisorFrom(151, 9);
      assert NoDivisorFrom(151, 8);
      assert NoDivisorFrom(151, 7);
      assert NoDivisorFrom(151, 6);
      assert NoDivisorFrom(151, 5);
      assert NoDivisorFrom(151, 4);
      assert NoDivisorFrom(151, 3);
      assert NoDivisorFrom(151, 2);
      forall n | 149 < n < 151
        ensures !IsPrime(n)
      {
        NotPrime(150, 2);
      }
    }
  }

  lemma PrimesBlock9(i: nat)
    requires 36 <= i < 40
    ensures IsPrime(NthPrime(i))
    ensures NthPrime(i - 1) < NthPrime(i) && forall n :: NthPrime(i - 1) < n < NthPrime(i) ==> !IsPrime(n)
  {
    if i == 36 {
      assert NoDivisorFrom(157, 13);
      assert NoDivisorFrom(157, 12);
      assert NoDivisorFrom(157, 11);
      assert NoDivisorFrom(157, 10);
      assert NoDivisorFrom(157, 9);
      assert NoDivisorFrom(157, 8);
      assert NoDivisorFrom(157, 7);
      assert NoDivisorFrom(157, 6);
      assert NoDivisorFrom(157, 5);
      assert NoDivisorFrom(157, 4);
      assert NoDivisorFrom(157, 3);
      assert NoDivisorFrom(157, 2);
      forall n | 151 < n < 157
        ensures !IsPrime(n)
      {
        if n == 152 {
          NotPrime(152, 2);
        } else if n == 153 {
          NotPrime(153, 3);
        } else if n == 154 {
          NotPrime(154, 2);
        } else if n == 155 {
          NotPrime(155, 5);
        } else {
          NotPrime(156, 2);
        }
      }
    } else if i == 37 {
      assert NoDivisorFrom(163, 13);
      assert NoDivisorFrom(163, 12);
      assert NoDivisorFrom(163, 11);
      assert NoDivisorFrom(163, 10);
      assert NoDivisorFrom(163, 9);
      assert NoDivisorFrom(163, 8);
      assert NoDivisorFrom(163, 7);
      assert NoDivisorFrom(163, 6);
      assert NoDivisorFrom(163, 5);
      assert NoDivisorFrom(163, 4);
      assert NoDivisorFrom(163, 3);
      assert NoDivisorFrom(163, 2);
      forall n | 157 < n < 163
        ensures !IsPrime(n)
      {
        if n == 158 {
          NotPrime(158, 2);
        } else if n == 159 {
          NotPrime(159, 3);
        } else if n == 160 {
          NotPrime(160, 2);
        } else if n == 161 {
          NotPrime(161, 7);
        } else {
          NotPrime(162, 2);
        }
      }
    } else if i == 38 {
      assert NoDivisorFrom(167, 13);
      assert NoDivisorFrom(167, 12);
      assert NoDivisorFrom(167, 11);
      assert NoDivisorFrom(167, 10);
      assert NoDivisorFrom(167, 9);
      assert NoDivisorFrom(167, 8);
      assert NoDivisorFrom(167, 7);
      assert NoDivisorFrom(167, 6);
      assert NoDivisorFrom(167, 5);
      assert NoDivisorFrom(167, 4);
      assert NoDivisorFrom(167, 3);
      assert NoDivisorFrom(167, 2);
      forall n | 163 < n < 167
        ensures !IsPrime(n)
      {
        if n == 164 {
          NotPrime(164, 2);
        } else if n == 165 {
          NotPrime(165, 3);
        } else {
          NotPrime(166, 2);
        }
      }
    } else {
      assert NoDivisorFrom(173, 14);
      assert NoDivisorFrom(173, 13);
      assert NoDivisorFrom(173, 12);
      assert NoDivisorFrom(173, 11);
      assert NoDivisorFrom(173, 10);
      assert NoDivisorFrom(173, 9);
      assert NoDivisorFrom(173, 8);
      assert NoDivisorFrom(173, 7);
      assert NoDivisorFrom(173, 6);
      assert NoDivisorFrom(173, 5);
      assert NoDivisorFrom(173, 4);
      assert NoDivisorFrom(173, 3);
      assert NoDivisorFrom(173, 2);
      forall n | 167 < n < 173
        ensures !IsPrime(n)
      {
        if n == 168 {
          NotPrime(168, 2);
        } else if n == 169 {
          NotPrime(169, 13);
        } else if n == 170 {
          NotPrime(170, 2);
        } else if n == 171 {
          NotPrime(171, 3);
        } else {
          NotPrime(172, 2);
        }
      }
    }
  }

  lemma PrimesBlock10(i: nat)
    requires 40 <= i < 44
    ensures IsPrime(NthPrime(i))
    ensures NthPrime(i - 1) < NthPrime(i) && forall n :: NthPrime(i - 1) < n < NthPrime(i) ==> !IsPrime(n)
  {
    if i == 40 {
      assert NoDivisorFrom(179, 14);
      assert NoDivisorFrom(179, 13);
      assert NoDivisorFrom(179, 12);
      assert NoDivisorFrom(179, 11);
      assert NoDivisorFrom(179, 10);
      assert NoDivisorFrom(179, 9);
      assert NoDivisorFrom(179, 8);
      assert NoDivisorFrom(179, 7);
      assert NoDivisorFrom(179, 6);
      assert NoDivisorFrom(179, 5);
      assert NoDivisorFrom(179, 4);
      assert NoDivisorFrom(179, 3);
      assert NoDivisorFrom(179, 2);
      forall n | 173 < n < 179
        ensures !IsPrime(n)
      {
        if n == 174 {
          NotPrime(174, 2);
        } else if n == 175 {
          NotPrime(175, 5);
        } else if n == 176 {
          NotPrime(176, 2);
        } else if n == 177 {
          NotPrime(177, 3);
        } else {
          NotPrime(178, 2);
        }
      }
    } else if i == 41 {
      assert NoDivisorFrom(181, 14);
      assert NoDivisorFrom(181, 13);
      assert NoDivisorFrom(181, 12);
      assert NoDivisorFrom(181, 11);
      assert NoDivisorFrom(181, 10);
      assert NoDivisorFrom(181, 9);
      assert NoDivisorFrom(181, 8);
      assert NoDivisorFrom(181, 7);
      assert NoDivisorFrom(181, 6);
      assert NoDivisorFrom(181, 5);
      assert NoDivisorFrom(181, 4);
      assert NoDivisorFrom(181, 3);
      assert NoDivisorFrom(181, 2);
      forall n | 179 < n < 181
        ensures !IsPrime(n)
      {
        NotPrime(180, 2);
      }
    } else if i == 42 {
      assert NoDivisorFrom(191, 14);
      assert NoDivisorFrom(191, 13);
      assert NoDivisorFrom(191, 12);
      assert NoDivisorFrom(191, 11);
      assert NoDivisorFrom(191, 10);
      assert NoDivisorFrom(191, 9);
      assert NoDivisorFrom(191, 8);
      assert NoDivisorFrom(191, 7);
      assert NoDivisorFrom(191, 6);
      assert NoDivisorFrom(191, 5);
      assert NoDivisorFrom(191, 4);
      assert NoDivisorFrom(191, 3);
      assert NoDivisorFrom(191, 2);
      forall n | 181 < n < 191
        ensures !IsPrime(n)
      {
        if n == 182 {
          NotPrime(182, 2);
        } else if n == 183 {
          NotPrime(183, 3);
        } else if n == 184 {
          NotPrime(184, 2);
        } else if n == 185 {
          NotPrime(185, 5);
        } else if n == 186 {
          NotPrime(186, 2);
        } else if n == 187 {
          NotPrime(187, 11);
        } else if n == 188 {
          NotPrime(188, 2);
        } else if n == 189 {
          NotPrime(189, 3);
        } else {
          NotPrime(190, 2);
        }
      }
    } else {
      assert NoDivisorFrom(193, 14);
      assert NoDivisorFrom(193, 13);
      assert NoDivisorFrom(193, 12);
      assert NoDivisorFrom(193, 11);
      assert NoDivisorFrom(193, 10);
      assert NoDivisorFrom(193, 9);
      assert NoDivisorFrom(193, 8);
      assert NoDivisorFrom(193, 7);
      assert NoDivisorFrom(193, 6);
      assert NoDivisorFrom(193, 5);
      assert NoDivisorFrom(193, 4);
      assert NoDivisorFrom(193, 3);
      assert NoDivisorFrom(193, 2);
      forall n | 191 < n < 193
        ensures !IsPrime(n)
      {
        NotPrime(192, 2);
      }
    }
  }

  lemma PrimesBlock11(i: nat)
    requires 44 <= i < 48
    ensures IsPrime(NthPrime(i))
    ensures NthPrime(i - 1) < NthPrime(i) && forall n :: NthPrime(i - 1) < n < NthPrime(i) ==> !IsPrime(n)
  {
    if i == 44 {
      assert NoDivisorFrom(197, 15);
      assert NoDivisorFrom(197, 14);
      assert NoDivisorFrom(197, 13);
      assert NoDivisorFrom(197, 12);
      assert NoDivisorFrom(197, 11);
      assert NoDivisorFrom(197, 10);
      assert NoDivisorFrom(197, 9);
      assert NoDivisorFrom(197, 8);
      assert NoDivisorFrom(197, 7);
      assert NoDivisorFrom(197, 6);
      assert NoDivisorFrom(197, 5);
      assert NoDivisorFrom(197, 4);
      assert NoDivisorFrom(197, 3);
      assert NoDivisorFrom(197, 2);
      forall n | 193 < n < 197
        ensures !IsPrime(n)
      {
        if n == 194 {
          NotPrime(194, 2);
        } else if n == 195 {
          NotPrime(195, 3);
        } else {
          NotPrime(196, 2);
        }
      }
    } else if i == 45 {
      assert NoDivisorFrom(199, 15);
      assert NoDivisorFrom(199, 14);
      assert NoDivisorFrom(199, 13);
      assert NoDivisorFrom(199, 12);
      assert NoDivisorFrom(199, 11);
      assert NoDivisorFrom(199, 10);
      assert NoDivisorFrom(199, 9);
      assert NoDivisorFrom(199, 8);
      assert NoDivisorFrom(199, 7);
      assert NoDivisorFrom(199, 6);
      assert NoDivisorFrom(199, 5);
      assert NoDivisorFrom(199, 4);
      assert NoDivisorFrom(199, 3);
      assert NoDivisorFrom(199, 2);
      forall n | 197 < n < 199
        ensures !IsPrime(n)
      {
        NotPrime(198, 2);
      }
    } else if i == 46 {
      assert NoDivisorFrom(211, 15);
      assert NoDivisorFrom(211, 14);
      assert NoDivisorFrom(211, 13);
      assert NoDivisorFrom(211, 12);
      assert NoDivisorFrom(211, 11);
      assert NoDivisorFrom(211, 10);
      assert NoDivisorFrom(211, 9);
      assert NoDivisorFrom(211, 8);
      assert NoDivisorFrom(211, 7);
      assert NoDivisorFrom(211, 6);
      assert NoDivisorFrom(211, 5);
      assert NoDivisorFrom(211, 4);
      assert NoDivisorFrom(211, 3);
      assert NoDivisorFrom(211, 2);
      forall n | 199 < n < 211
        ensures !IsPrime(n)
      {
        if n == 200 {
          NotPrime(200, 2);
        } else if n == 201 {
          NotPrime(201, 3);
        } else if n == 202 {
          NotPrime(202, 2);
        } else if n == 203 {
          NotPrime(203, 7);
        } else if n == 204 {
          NotPrime(204, 2);
        } else if n == 205 {
          NotPrime(205, 5);
        } else if n == 206 {
          NotPrime(206, 2);
        } else if n == 207 {
          NotPrime(207, 3);
        } else if n == 208 {
          NotPrime(208, 2);
        } else if n == 209 {
          NotPrime(209, 11);
        } else {
          NotPrime(210, 2);
        }
      }
    } else {
      assert NoDivisorFrom(223, 15);
      assert NoDivisorFrom(223, 14);
      assert NoDivisorFrom(223, 13);
      assert NoDivisorFrom(223, 12);
      assert NoDivisorFrom(223, 11);
      assert NoDivisorFrom(223, 10);
      assert NoDivisorFrom(223, 9);
      assert NoDivisorFrom(223, 8);
      assert NoDivisorFrom(223, 7);
      assert NoDivisorFrom(223, 6);
      assert NoDivisorFrom(223, 5);
      assert NoDivisorFrom(223, 4);
      assert NoDivisorFrom(223, 3);
      assert NoDivisorFrom(223, 2);
      forall n | 211 < n < 223
        ensures !IsPrime(n)
      {
        if n == 212 {
          NotPrime(212, 2);
        } else if n == 213 {
          NotPrime(213, 3);
        } else if n == 214 {
          NotPrime(214, 2);
        } else if n == 215 {
          NotPrime(215, 5);
        } else if n == 216 {
          NotPrime(216, 2);
        } else if n == 217 {
          NotPrime(217, 7);
        } else if n == 218 {
          NotPrime(218, 2);
        } else if n == 219 {
          NotPrime(219, 3);
        } else if n == 220 {
          NotPrime(220, 2);
        } else if n == 221 {
          NotPrime(221, 13);
        } else {
          NotPrime(222, 2);
        }
      }
    }
  }

  lemma PrimesBlock12(i: nat)
    requires 48 <= i < 52
    ensures IsPrime(NthPrime(i))
    ensures NthPrime(i - 1) < NthPrime(i) && forall n :: NthPrime(i - 1) < n < NthPrime(i) ==> !IsPrime(n)
  {
    if i == 48 {
      assert NoDivisorFrom(227, 16);
      assert NoDivisorFrom(227, 15);
      assert NoDivisorFrom(227, 14);
      assert NoDivisorFrom(227, 13);
      assert NoDivisorFrom(227, 12);
      assert NoDivisorFrom(227, 11);
      assert NoDivisorFrom(227, 10);
      assert NoDivisorFrom(227, 9);
      assert NoDivisorFrom(227, 8);
      assert NoDivisorFrom(227, 7);
      assert NoDivisorFrom(227, 6);
      assert NoDivisorFrom(227, 5);
      assert NoDivisorFrom(227, 4);
      assert NoDivisorFrom(227, 3);
      assert NoDivisorFrom(227, 2);
      forall n | 223 < n < 227
        ensures !IsPrime(n)
      {
        if n == 224 {
          NotPrime(224, 2);
        } else if n == 225 {
          NotPrime(225, 3);
        } else {
          NotPrime(226, 2);
        }
      }
    } else if i == 49 {
      assert NoDivisorFrom(229, 16);
      assert NoDivisorFrom(229, 15);
      assert NoDivisorFrom(229, 14);
      assert NoDivisorFrom(229, 13);
      assert NoDivisorFrom(229, 12);
      assert NoDivisorFrom(229, 11);
      assert NoDivisorFrom(229, 10);
      assert NoDivisorFrom(229, 9);
      assert NoDivisorFrom(229, 8);
      assert NoDivisorFrom(229, 7);
      assert NoDivisorFrom(229, 6);
      assert NoDivisorFrom(229, 5);
      assert NoDivisorFrom(229, 4);
      assert NoDivisorFrom(229, 3);
      assert NoDivisorFrom(229, 2);
      forall n | 227 < n < 229
        ensures !IsPrime(n)
      {
        NotPrime(228, 2);
      }
    } else if i == 50 {
      assert NoDivisorFrom(233, 16);
      assert NoDivisorFrom(233, 15);
      assert NoDivisorFrom(233, 14);
      assert NoDivisorFrom(233, 13);
      assert NoDivisorFrom(233, 12);
      assert NoDivisorFrom(233, 11);
      assert NoDivisorFrom(233, 10);
      assert NoDivisorFrom(233, 9);
      assert NoDivisorFrom(233, 8);
      assert NoDivisorFrom(233, 7);
      assert NoDivisorFrom(233, 6);
      assert NoDivisorFrom(233, 5);
      assert NoDivisorFrom(233, 4);
      assert NoDivisorFrom(233, 3);
      assert NoDivisorFrom(233, 2);
      forall n | 229 < n < 233
        ensures !IsPrime(n)
      {
        if n == 230 {
          NotPrime(230, 2);
        } else if n == 231 {
          NotPrime(231, 3);
        } else {
          NotPrime(232, 2);
        }
      }
    } else {
      assert NoDivisorFrom(239, 16);
      assert NoDivisorFrom(239, 15);
      assert NoDivisorFrom(239, 14);
      assert NoDivisorFrom(239, 13);
      assert NoDivisorFrom(239, 12);
      assert NoDivisorFrom(239, 11);
      assert NoDivisorFrom(239, 10);
      assert NoDivisorFrom(239, 9);
      assert NoDivisorFrom(239, 8);
      assert NoDivisorFrom(239, 7);
      assert NoDivisorFrom(239, 6);
      assert NoDivisorFrom(239, 5);
      assert NoDivisorFrom(239, 4);
      assert NoDivisorFrom(239, 3);
      assert NoDivisorFrom(239, 2);
      forall n | 233 < n < 239
        ensures !IsPrime(n)
      {
        if n == 234 {
          NotPrime(234, 2);
        } else if n == 235 {
          NotPrime(235, 5);
        } else if n == 236 {
          NotPrime(236, 2);
        } else if n == 237 {
          NotPrime(237, 3);
        } else {
          NotPrime(238, 2);
        }
      }
    }
  }

  lemma PrimesBlock13(i: nat)
    requires 52 <= i < 56
    ensures IsPrime(NthPrime(i))
    ensures NthPrime(i - 1) < NthPrime(i) && forall n :: NthPrime(i - 1) < n < NthPrime(i) ==> !IsPrime(n)
  {
    if i == 52 {
      assert NoDivisorFrom(241, 16);
      assert NoDivisorFrom(241, 15);
      assert NoDivisorFrom(241, 14);
      assert NoDivisorFrom(241, 13);
      assert NoDivisorFrom(241, 12);
      assert NoDivisorFrom(241, 11);
      assert NoDivisorFrom(241, 10);
      assert NoDivisorFrom(241, 9);
      assert NoDivisorFrom(241, 8);
      assert NoDivisorFrom(241, 7);
      assert NoDivisorFrom(241, 6);
      assert NoDivisorFrom(241, 5);
      assert NoDivisorFrom(241, 4);
      assert NoDivisorFrom(241, 3);
      assert NoDivisorFrom(241, 2);
      forall n | 239 < n < 241
        ensures !IsPrime(n)
      {
        NotPrime(240, 2);
      }
    } else if i == 53 {
      assert NoDivisorFrom(251, 16);
      assert NoDivisorFrom(251, 15);
      assert NoDivisorFrom(251, 14);
      assert NoDivisorFrom(251, 13);
      assert NoDivisorFrom(251, 12);
      assert NoDivisorFrom(251, 11);
      assert NoDivisorFrom(251, 10);
      assert NoDivisorFrom(251, 9);
      assert NoDivisorFrom(251, 8);
      assert NoDivisorFrom(251, 7);
      assert NoDivisorFrom(251, 6);
      assert NoDivisorFrom(251, 5);
      assert NoDivisorFrom(251, 4);
      assert NoDivisorFrom(251, 3);
      assert NoDivisorFrom(251, 2);
      forall n | 241 < n < 251
        ensures !IsPrime(n)
      {
        if n == 242 {
          NotPrime(242, 2);
        } else if n == 243 {
          NotPrime(243, 3);
        } else if n == 244 {
          NotPrime(244, 2);
        } else if n == 245 {
          NotPrime(245, 5);
        } else if n == 246 {
          NotPrime(246, 2);
        } else if n == 247 {
          NotPrime(247, 13);
        } else if n == 248 {
          NotPrime(248, 2);
        } else if n == 249 {
          NotPrime(249, 3);
        } else {
          NotPrime(250, 2);
        }
      }
    } else if i == 54 {
      assert NoDivisorFrom(257, 17);
      assert NoDivisorFrom(257, 16);
      assert NoDivisorFrom(257, 15);
      assert NoDivisorFrom(257, 14);
      assert NoDivisorFrom(257, 13);
      assert NoDivisorFrom(257, 12);
      assert NoDivisorFrom(257, 11);
      assert NoDivisorFrom(257, 10);
      assert NoDivisorFrom(257, 9);
      assert NoDivisorFrom(257, 8);
      assert NoDivisorFrom(257, 7);
      assert NoDivisorFrom(257, 6);
      assert NoDivisorFrom(257, 5);
      assert NoDivisorFrom(257, 4);
      assert NoDivisorFrom(257, 3);
      assert NoDivisorFrom(257, 2);
      forall n | 251 < n < 257
        ensures !IsPrime(n)
      {
        if n == 252 {
          NotPrime(252, 2);
        } else if n == 253 {
          NotPrime(253, 11);
        } else if n == 254 {
          NotPrime(254, 2);
        } else if n == 255 {
          NotPrime(255, 3);
        } else {
          NotPrime(256, 2);
        }
      }
    } else {
      assert NoDivisorFrom(263, 17);
      assert NoDivisorFrom(263, 16);
      assert NoDivisorFrom(263, 15);
      assert NoDivisorFrom(263, 14);
      assert NoDivisorFrom(263, 13);
      assert NoDivisorFrom(263, 12);
      assert NoDivisorFrom(263, 11);
      assert NoDivisorFrom(263, 10);
      assert NoDivisorFrom(263, 9);
      assert NoDivisorFrom(263, 8);
      assert NoDivisorFrom(263, 7);
      assert NoDivisorFrom(263, 6);
      assert NoDivisorFrom(263, 5);
      assert NoDivisorFrom(263, 4);
      assert NoDivisorFrom(263, 3);
      assert NoDivisorFrom(263, 2);
      forall n | 257 < n < 263
        ensures !IsPrime(n)
      {
        if n == 258 {
          NotPrime(258, 2);
        } else if n == 259 {
          NotPrime(259, 7);
        } else if n == 260 {
          NotPrime(260, 2);
        } else if n == 261 {
          NotPrime(261, 3);
        } else {
          NotPrime(262, 2);
        }
      }
    }
  }

  lemma PrimesBlock14(i: nat)
    requires 56 <= i < 60
    ensures IsPrime(NthPrime(i))
    ensures NthPrime(i - 1) < NthPrime(i) && forall n :: NthPrime(i - 1) < n < NthPrime(i) ==> !IsPrime(n)
  {
    if i == 56 {
      assert NoDivisorFrom(269, 17);
      assert NoDivisorFrom(269, 16);
      assert NoDivisorFrom(269, 15);
      assert NoDivisorFrom(269, 14);
      assert NoDivisorFrom(269, 13);
      assert NoDivisorFrom(269, 12);
      assert NoDivisorFrom(269, 11);
      assert NoDivisorFrom(269, 10);
      assert NoDivisorFrom(269, 9);
      assert NoDivisorFrom(269, 8);
      assert NoDivisorFrom(269, 7);
      assert NoDivisorFrom(269, 6);
      assert NoDivisorFrom(269, 5);
      assert NoDivisorFrom(269, 4);
      assert NoDivisorFrom(269, 3);
      assert NoDivisorFrom(269, 2);
      forall n | 263 < n < 269
        ensures !IsPrime(n)
      {
        if n == 264 {
          NotPrime(264, 2);
        } else if n == 265 {
          NotPrime(265, 5);
        } else if n == 266 {
          NotPrime(266, 2);
        } else if n == 267 {
          NotPrime(267, 3);
        } else {
          NotPrime(268, 2);
        }
      }
    } else if i == 57 {
      assert NoDivisorFrom(271, 17);
      assert NoDivisorFrom(271, 16);
      assert NoDivisorFrom(271, 15);
      assert NoDivisorFrom(271, 14);
      assert NoDivisorFrom(271, 13);
      assert NoDivisorFrom(271, 12);
      assert NoDivisorFrom(271, 11);
      assert NoDivisorFrom(271, 10);
      assert NoDivisorFrom(271, 9);
      assert NoDivisorFrom(271, 8);
      assert NoDivisorFrom(271, 7);
      assert NoDivisorFrom(271, 6);
      assert NoDivisorFrom(271, 5);
      assert NoDivisorFrom(271, 4);
      assert NoDivisorFrom(271, 3);
      assert NoDivisorFrom(271, 2);
      forall n | 269 < n < 271
        ensures !IsPrime(n)
      {
        NotPrime(270, 2);
      }
    } else if i == 58 {
      assert NoDivisorFrom(277, 17);
      assert NoDivisorFrom(277, 16);
      assert NoDivisorFrom(277, 15);
      assert NoDivisorFrom(277, 14);
      assert NoDivisorFrom(277, 13);
      assert NoDivisorFrom(277, 12);
      assert NoDivisorFrom(277, 11);
      assert NoDivisorFrom(277, 10);
      assert NoDivisorFrom(277, 9);
      assert NoDivisorFrom(277, 8);
      assert NoDivisorFrom(277, 7);
      assert NoDivisorFrom(277, 6);
      assert NoDivisorFrom(277, 5);
      assert NoDivisorFrom(277, 4);
      assert NoDivisorFrom(277, 3);
      assert NoDivisorFrom(277, 2);
      forall n | 271 < n < 277
        ensures !IsPrime(n)
      {
        if n == 272 {
          NotPrime(272, 2);
        } else if n == 273 {
          NotPrime(273, 3);
        } else if n == 274 {
          NotPrime(274, 2);
        } else if n == 275 {
          NotPrime(275, 5);
        } else {
          NotPrime(276, 2);
        }
      }
    } else {
      assert NoDivisorFrom(281, 17);
      assert NoDivisorFrom(281, 16);
      assert NoDivisorFrom(281, 15);
      assert NoDivisorFrom(281, 14);
      assert NoDivisorFrom(281, 13);
      assert NoDivisorFrom(281, 12);
      assert NoDivisorFrom(281, 11);
      assert NoDivisorFrom(281, 10);
      assert NoDivisorFrom(281, 9);
      assert NoDivisorFrom(281, 8);
      assert NoDivisorFrom(281, 7);
      assert NoDivisorFrom(281, 6);
      assert NoDivisorFrom(281, 5);
      assert NoDivisorFrom(281, 4);
      assert NoDivisorFrom(281, 3);
      assert NoDivisorFrom(281, 2);
      forall n | 277 < n < 281
        ensures !IsPrime(n)
      {
        if n == 278 {
          NotPrime(278, 2);
        } else if n == 279 {
          NotPrime(279, 3);
        } else {
          NotPrime(280, 2);
        }
      }
    }
  }

  lemma PrimesBlock15(i: nat)
    requires 60 <= i < 64
    ensures IsPrime(NthPrime(i))
    ensures NthPrime(i - 1) < NthPrime(i) && forall n :: NthPrime(i - 1) < n < NthPrime(i) ==> !IsPrime(n)
  {
    if i == 60 {
      assert NoDivisorFrom(283, 17);
      assert NoDivisorFrom(283, 16);
      assert NoDivisorFrom(283, 15);
      assert NoDivisorFrom(283, 14);
      assert NoDivisorFrom(283, 13);
      assert NoDivisorFrom(283, 12);
      assert NoDivisorFrom(283, 11);
      assert NoDivisorFrom(283, 10);
      assert NoDivisorFrom(283, 9);
      assert NoDivisorFrom(283, 8);
      assert NoDivisorFrom(283, 7);
      assert NoDivisorFrom(283, 6);
      assert NoDivisorFrom(283, 5);
      assert NoDivisorFrom(283, 4);
      assert NoDivisorFrom(283, 3);
      assert NoDivisorFrom(283, 2);
      forall n | 281 < n < 283
        ensures !IsPrime(n)
      {
        NotPrime(282, 2);
      }
    } else if i == 61 {
      assert NoDivisorFrom(293, 18);
      assert NoDivisorFrom(293, 17);
      assert NoDivisorFrom(293, 16);
      assert NoDivisorFrom(293, 15);
      assert NoDivisorFrom(293, 14);
      assert NoDivisorFrom(293, 13);
      assert NoDivisorFrom(293, 12);
      assert NoDivisorFrom(293, 11);
      assert NoDivisorFrom(293, 10);
      assert NoDivisorFrom(293, 9);
      assert NoDivisorFrom(293, 8);
      assert NoDivisorFrom(293, 7);
      assert NoDivisorFrom(293, 6);
      assert NoDivisorFrom(293, 5);
      assert NoDivisorFrom(293, 4);
      assert NoDivisorFrom(293, 3);
      assert NoDivisorFrom(293, 2);
      forall n | 283 < n < 293
        ensures !IsPrime(n)
      {
        if n == 284 {
          NotPrime(284, 2);
        } else if n == 285 {
          NotPrime(285, 3);
        } else if n == 286 {
          NotPrime(286, 2);
        } else if n == 287 {
          NotPrime(287, 7);
        } else if n == 288 {
          NotPrime(288, 2);
        } else if n == 289 {
          NotPrime(289, 17);
        } else if n == 290 {
          NotPrime(290, 2);
        } else if n == 291 {
          NotPrime(291, 3);
        } else {
          NotPrime(292, 2);
        }
      }
    } else if i == 62 {
      assert NoDivisorFrom(307, 18);
      assert NoDivisorFrom(307, 17);
      assert NoDivisorFrom(307, 16);
      assert NoDivisorFrom(307, 15);
      assert NoDivisorFrom(307, 14);
      assert NoDivisorFrom(307, 13);
      assert NoDivisorFrom(307, 12);
      assert NoDivisorFrom(307, 11);
      assert NoDivisorFrom(307, 10);
      assert NoDivisorFrom(307, 9);
      assert NoDivisorFrom(307, 8);
      assert NoDivisorFrom(307, 7);
      assert NoDivisorFrom(307, 6);
      assert NoDivisorFrom(307, 5);
      assert NoDivisorFrom(307, 4);
      assert NoDivisorFrom(307, 3);
      assert NoDivisorFrom(307, 2);
      forall n | 293 < n < 307
        ensures !IsPrime(n)
      {
        if n == 294 {
          NotPrime(294, 2);
        } else if n == 295 {
          NotPrime(295, 5);
        } else if n == 296 {
          NotPrime(296, 2);
        } else if n == 297 {
          NotPrime(297, 3);
        } else if n == 298 {
          NotPrime(298, 2);
        } else if n == 299 {
          NotPrime(299, 13);
        } else if n == 300 {
          NotPrime(300, 2);
        } else if n == 301 {
          NotPrime(301, 7);
        } else if n == 302 {
          NotPrime(302, 2);
        } else if n == 303 {
          NotPrime(303, 3);
        } else if n == 304 {
          NotPrime(304, 2);
        } else if n == 305 {
          NotPrime(305, 5);
        } else {
          NotPrime(306, 2);
        }
      }
    } else {
      assert NoDivisorFrom(311, 18);
      assert NoDivisorFrom(311, 17);
      assert NoDivisorFrom(311, 16);
      assert NoDivisorFrom(311, 15);
      assert NoDivisorFrom(311, 14);
      assert NoDivisorFrom(311, 13);
      assert NoDivisorFrom(311, 12);
      assert NoDivisorFrom(311, 11);
      assert NoDivisorFrom(311, 10);
      assert NoDivisorFrom(311, 9);
      assert NoDivisorFrom(311, 8);
      assert NoDivisorFrom(311, 7);
      assert NoDivisorFrom(311, 6);
      assert NoDivisorFrom(311, 5);
      assert NoDivisorFrom(311, 4);
      assert NoDivisorFrom(311, 3);
      assert NoDivisorFrom(311, 2);
      forall n | 307 < n < 311
        ensures !IsPrime(n)
      {
        if n == 308 {
          NotPrime(308, 2);
        } else if n == 309 {
          NotPrime(309, 3);
        } else {
          NotPrime(310, 2);
        }
      }
    }
  }

  lemma PrimesBlock16(i: nat)
    requires 64 <= i < 68
    ensures IsPrime(NthPrime(i))
    ensures NthPrime(i - 1) < NthPrime(i) && forall n :: NthPrime(i - 1) < n < NthPrime(i) ==> !IsPrime(n)
  {
    if i == 64 {
      assert NoDivisorFrom(313, 18);
      assert NoDivisorFrom(313, 17);
      assert NoDivisorFrom(313, 16);
      assert NoDivisorFrom(313, 15);
      assert NoDivisorFrom(313, 14);
      assert NoDivisorFrom(313, 13);
      assert NoDivisorFrom(313, 12);
      assert NoDivisorFrom(313, 11);
      assert NoDivisorFrom(313, 10);
      assert NoDivisorFrom(313, 9);
      assert NoDivisorFrom(313, 8);
      assert NoDivisorFrom(313, 7);
      assert NoDivisorFrom(313, 6);
      assert NoDivisorFrom(313, 5);
      assert NoDivisorFrom(313, 4);
      assert NoDivisorFrom(313, 3);
      assert NoDivisorFrom(313, 2);
      forall n | 311 < n < 313
        ensures !IsPrime(n)
      {
        NotPrime(312, 2);
      }
    } else if i == 65 {
      assert NoDivisorFrom(317, 18);
      assert NoDivisorFrom(317, 17);
      assert NoDivisorFrom(317, 16);
      assert NoDivisorFrom(317, 15);
      assert NoDivisorFrom(317, 14);
      assert NoDivisorFrom(317, 13);
      assert NoDivisorFrom(317, 12);
      assert NoDivisorFrom(317, 11);
      assert NoDivisorFrom(317, 10);
      assert NoDivisorFrom(317, 9);
      assert NoDivisorFrom(317, 8);
      assert NoDivisorFrom(317, 7);
      assert NoDivisorFrom(317, 6);
      assert NoDivisorFrom(317, 5);
      assert NoDivisorFrom(317, 4);
      assert NoDivisorFrom(317, 3);
      assert NoDivisorFrom(317, 2);
      forall n | 313 < n < 317
        ensures !IsPrime(n)
      {
        if n == 314 {
          NotPrime(314, 2);
        } else if n == 315 {
          NotPrime(315, 3);
        } else {
          NotPrime(316, 2);
        }
      }
    } else if i == 66 {
      assert NoDivisorFrom(331, 19);
      assert NoDivisorFrom(331, 18);
      assert NoDivisorFrom(331, 17);
      assert NoDivisorFrom(331, 16);
      assert NoDivisorFrom(331, 15);
      assert NoDivisorFrom(331, 14);
      assert NoDivisorFrom(331, 13);
      assert NoDivisorFrom(331, 12);
      assert NoDivisorFrom(331, 11);
      assert NoDivisorFrom(331, 10);
      assert NoDivisorFrom(331, 9);
      assert NoDivisorFrom(331, 8);
      assert NoDivisorFrom(331, 7);
      assert NoDivisorFrom(331, 6);
      assert NoDivisorFrom(331, 5);
      assert NoDivisorFrom(331, 4);
      assert NoDivisorFrom(331, 3);
      assert NoDivisorFrom(331, 2);
      forall n | 317 < n < 331
        ensures !IsPrime(n)
      {
        if n == 318 {
          NotPrime(318, 2);
        } else if n == 319 {
          NotPrime(319, 11);
        } else if n == 320 {
          NotPrime(320, 2);
        } else if n == 321 {
          NotPrime(321, 3);
        } else if n == 322 {
          NotPrime(322, 2);
        } else if n == 323 {
          NotPrime(323, 17);
        } else if n == 324 {
          NotPrime(324, 2);
        } else if n == 325 {
          NotPrime(325, 5);
        } else if n == 326 {
          NotPrime(326, 2);
        } else if n == 327 {
          NotPrime(327, 3);
        } else if n == 328 {
          NotPrime(328, 2);
        } else if n == 329 {
          NotPrime(329, 7);
        } else {
          NotPrime(330, 2);
        }
      }
    } else {
      assert NoDivisorFrom(337, 19);
      assert NoDivisorFrom(337, 18);
      assert NoDivisorFrom(337, 17);
      assert NoDivisorFrom(337, 16);
      assert NoDivisorFrom(337, 15);
      assert NoDivisorFrom(337, 14);
      assert NoDivisorFrom(337, 13);
      assert NoDivisorFrom(337, 12);
      assert NoDivisorFrom(337, 11);
      assert NoDivisorFrom(337, 10);
      assert NoDivisorFrom(337, 9);
      assert NoDivisorFrom(337, 8);
      assert NoDivisorFrom(337, 7);
      assert NoDivisorFrom(337, 6);
      assert NoDivisorFrom(337, 5);
      assert NoDivisorFrom(337, 4);
      assert NoDivisorFrom(337, 3);
      assert NoDivisorFrom(337, 2);
      forall n | 331 < n < 337
        ensures !IsPrime(n)
      {
        if n == 332 {
          NotPrime(332, 2);
        } else if n == 333 {
          NotPrime(333, 3);
        } else if n == 334 {
          NotPrime(334, 2);
        } else if n == 335 {
          NotPrime(335, 5);
        } else {
          NotPrime(336, 2);
        }
      }
    }
  }

  lemma PrimesBlock17(i: nat)
    requires 68 <= i < 72
    ensures IsPrime(NthPrime(i))
    ensures NthPrime(i - 1) < NthPrime(i) && forall n :: NthPrime(i - 1) < n < NthPrime(i) ==> !IsPrime(n)
  {
    if i == 68 {
      assert NoDivisorFrom(347, 19);
      assert NoDivisorFrom(347, 18);
      assert NoDivisorFrom(347, 17);
      assert NoDivisorFrom(347, 16);
      assert NoDivisorFrom(347, 15);
      assert NoDivisorFrom(347, 14);
      assert NoDivisorFrom(347, 13);
      assert NoDivisorFrom(347, 12);
      assert NoDivisorFrom(347, 11);
      assert NoDivisorFrom(347, 10);
      assert NoDivisorFrom(347, 9);
      assert NoDivisorFrom(347, 8);
      assert NoDivisorFrom(347, 7);
      assert NoDivisorFrom(347, 6);
      assert NoDivisorFrom(347, 5);
      assert NoDivisorFrom(347, 4);
      assert NoDivisorFrom(347, 3);
      assert NoDivisorFrom(347, 2);
      forall n | 337 < n < 347
        ensures !IsPrime(n)
      {
        if n == 338 {
          NotPrime(338, 2);
        } else if n == 339 {
          NotPrime(339, 3);
        } else if n == 340 {
          NotPrime(340, 2);
        } else if n == 341 {
          NotPrime(341, 11);
        } else if n == 342 {
          NotPrime(342, 2);
        } else if n == 343 {
          NotPrime(343, 7);
        } else if n == 344 {
          NotPrime(344, 2);
        } else if n == 345 {
          NotPrime(345, 3);
        } else {
          NotPrime(346, 2);
        }
      }
    } else if i == 69 {
      assert NoDivisorFrom(349, 19);
      assert NoDivisorFrom(349, 18);
      assert NoDivisorFrom(349, 17);
      assert NoDivisorFrom(349, 16);
      assert NoDivisorFrom(349, 15);
      assert NoDivisorFrom(349, 14);
      assert NoDivisorFrom(349, 13);
      assert NoDivisorFrom(349, 12);
      assert NoDivisorFrom(349, 11);
      assert NoDivisorFrom(349, 10);
      assert NoDivisorFrom(349, 9);
      assert NoDivisorFrom(349, 8);
      assert NoDivisorFrom(349, 7);
      assert NoDivisorFrom(349, 6);
      assert NoDivisorFrom(349, 5);
      assert NoDivisorFrom(349, 4);
      assert NoDivisorFrom(349, 3);
      assert NoDivisorFrom(349, 2);
      forall n | 347 < n < 349
        ensures !IsPrime(n)
      {
        NotPrime(348, 2);
      }
    } else if i == 70 {
      assert NoDivisorFrom(353, 19);
      assert NoDivisorFrom(353, 18);
      assert NoDivisorFrom(353, 17);
      assert NoDivisorFrom(353, 16);
      assert NoDivisorFrom(353, 15);
      assert NoDivisorFrom(353, 14);
      assert NoDivisorFrom(353, 13);
      assert NoDivisorFrom(353, 12);
      assert NoDivisorFrom(353, 11);
      assert NoDivisorFrom(353, 10);
      assert NoDivisorFrom(353, 9);
      assert NoDivisorFrom(353, 8);
      assert NoDivisorFrom(353, 7);
      assert NoDivisorFrom(353, 6);
      assert NoDivisorFrom(353, 5);
      assert NoDivisorFrom(353, 4);
      assert NoDivisorFrom(353, 3);
      assert NoDivisorFrom(353, 2);
      forall n | 349 < n < 353
        ensures !IsPrime(n)
      {
        if n == 350 {
          NotPrime(350, 2);
        } else if n == 351 {
          NotPrime(351, 3);
        } else {
          NotPrime(352, 2);
        }
      }
    } else {
      assert NoDivisorFrom(359, 19);
      assert NoDivisorFrom(359, 18);
      assert NoDivisorFrom(359, 17);
      assert NoDivisorFrom(359, 16);
      assert NoDivisorFrom(359, 15);
      assert NoDivisorFrom(359, 14);
      assert NoDivisorFrom(359, 13);
      assert NoDivisorFrom(359, 12);
      assert NoDivisorFrom(359, 11);
      assert NoDivisorFrom(359, 10);
      assert NoDivisorFrom(359, 9);
      assert NoDivisorFrom(359, 8);
      assert NoDivisorFrom(359, 7);
      assert NoDivisorFrom(359, 6);
      assert NoDivisorFrom(359, 5);
      assert NoDivisorFrom(359, 4);
      assert NoDivisorFrom(359, 3);
      assert NoDivisorFrom(359, 2);
      forall n | 353 < n < 359
        ensures !IsPrime(n)
      {
        if n == 354 {
          NotPrime(354, 2);
        } else if n == 355 {
          NotPrime(355, 5);
        } else if n == 356 {
          NotPrime(356, 2);
        } else if n == 357 {
          NotPrime(357, 3);
        } else {
          NotPrime(358, 2);
        }
      }
    }
  }

  lemma PrimesBlock18(i: nat)
    requires 72 <= i < 76
    ensures IsPrime(NthPrime(i))
    ensures NthPrime(i - 1) < NthPrime(i) && forall n :: NthPrime(i - 1) < n < NthPrime(i) ==> !IsPrime(n)
  {
    if i == 72 {
      assert NoDivisorFrom(367, 20);
      assert NoDivisorFrom(367, 19);
      assert NoDivisorFrom(367, 18);
      assert NoDivisorFrom(367, 17);
      assert NoDivisorFrom(367, 16);
      assert NoDivisorFrom(367, 15);
      assert NoDivisorFrom(367, 14);
      assert NoDivisorFrom(367, 13);
      assert NoDivisorFrom(367, 12);
      assert NoDivisorFrom(367, 11);
      assert NoDivisorFrom(367, 10);
      assert NoDivisorFrom(367, 9);
      assert NoDivisorFrom(367, 8);
      assert NoDivisorFrom(367, 7);
      assert NoDivisorFrom(367, 6);
      assert NoDivisorFrom(367, 5);
      assert NoDivisorFrom(367, 4);
      assert NoDivisorFrom(367, 3);
      assert NoDivisorFrom(367, 2);
      forall n | 359 < n < 367
        ensures !IsPrime(n)
      {
        if n == 360 {
          NotPrime(360, 2);
        } else if n == 361 {
          NotPrime(361, 19);
        } else if n == 362 {
          NotPrime(362, 2);
        } else if n == 363 {
          NotPrime(363, 3);
        } else if n == 364 {
          NotPrime(364, 2);
        } else if n == 365 {
          NotPrime(365, 5);
        } else {
          NotPrime(366, 2);
        }
      }
    } else if i == 73 {
      assert NoDivisorFrom(373, 20);
      assert NoDivisorFrom(373, 19);
      assert NoDivisorFrom(373, 18);
      assert NoDivisorFrom(373, 17);
      assert NoDivisorFrom(373, 16);
      assert NoDivisorFrom(373, 15);
      assert NoDivisorFrom(373, 14);
      assert NoDivisorFrom(373, 13);
      assert NoDivisorFrom(373, 12);
      assert NoDivisorFrom(373, 11);
      assert NoDivisorFrom(373, 10);
      assert NoDivisorFrom(373, 9);
      assert NoDivisorFrom(373, 8);
      assert NoDivisorFrom(373, 7);
      assert NoDivisorFrom(373, 6);
      assert NoDivisorFrom(373, 5);
      assert NoDivisorFrom(373, 4);
      assert NoDivisorFrom(373, 3);
      assert NoDivisorFrom(373, 2);
      forall n | 367 < n < 373
        ensures !IsPrime(n)
      {
        if n == 368 {
          NotPrime(368, 2);
        } else if n == 369 {
          NotPrime(369, 3);
        } else if n == 370 {
          NotPrime(370, 2);
        } else if n == 371 {
          NotPrime(371, 7);
        } else {
          NotPrime(372, 2);
        }
      }
    } else if i == 74 {
      assert NoDivisorFrom(379, 20);
      assert NoDivisorFrom(379, 19);
      assert NoDivisorFrom(379, 18);
      assert NoDivisorFrom(379, 17);
      assert NoDivisorFrom(379, 16);
      assert NoDivisorFrom(379, 15);
      assert NoDivisorFrom(379, 14);
      assert NoDivisorFrom(379, 13);
      assert NoDivisorFrom(379, 12);
      assert NoDivisorFrom(379, 11);
      assert NoDivisorFrom(379, 10);
      assert NoDivisorFrom(379, 9);
      assert NoDivisorFrom(379, 8);
      assert NoDivisorFrom(379, 7);
      assert NoDivisorFrom(379, 6);
      assert NoDivisorFrom(379, 5);
      assert NoDivisorFrom(379, 4);
      assert NoDivisorFrom(379, 3);
      assert NoDivisorFrom(379, 2);
      forall n | 373 < n < 379
        ensures !IsPrime(n)
      {
        if n == 374 {
          NotPrime(374, 2);
        } else if n == 375 {
          NotPrime(375, 3);
        } else if n == 376 {
          NotPrime(376, 2);
        } else if n == 377 {
          NotPrime(377, 13);
        } else {
          NotPrime(378, 2);
        }
      }
    } else {
      assert NoDivisorFrom(383, 20);
      assert NoDivisorFrom(383, 19);
      assert NoDivisorFrom(383, 18);
      assert NoDivisorFrom(383, 17);
      assert NoDivisorFrom(383, 16);
      assert NoDivisorFrom(383, 15);
      assert NoDivisorFrom(383, 14);
      assert NoDivisorFrom(383, 13);
      assert NoDivisorFrom(383, 12);
      assert NoDivisorFrom(383, 11);
      assert NoDivisorFrom(383, 10);
      assert NoDivisorFrom(383, 9);
      assert NoDivisorFrom(383, 8);
      assert NoDivisorFrom(383, 7);
      assert NoDivisorFrom(383, 6);
      assert NoDivisorFrom(383, 5);
      assert NoDivisorFrom(383, 4);
      assert NoDivisorFrom(383, 3);
      assert NoDivisorFrom(383, 2);
      forall n | 379 < n < 383
        ensures !IsPrime(n)
      {
        if n == 380 {
          NotPrime(380, 2);
        } else if n == 381 {
          NotPrime(381, 3);
        } else {
          NotPrime(382, 2);
        }
      }
    }
  }

  lemma PrimesBlock19(i: nat)
    requires 76 <= i < 80
    ensures IsPrime(NthPrime(i))
    ensures NthPrime(i - 1) < NthPrime(i) && forall n :: NthPrime(i - 1) < n < NthPrime(i) ==> !IsPrime(n)
  {
    if i == 76 {
      assert NoDivisorFrom(389, 20);
      assert NoDivisorFrom(389, 19);
      assert NoDivisorFrom(389, 18);
      assert NoDivisorFrom(389, 17);
      assert NoDivisorFrom(389, 16);
      assert NoDivisorFrom(389, 15);
      assert NoDivisorFrom(389, 14);
      assert NoDivisorFrom(389, 13);
      assert NoDivisorFrom(389, 12);
      assert NoDivisorFrom(389, 11);
      assert NoDivisorFrom(389, 10);
      assert NoDivisorFrom(389, 9);
      assert NoDivisorFrom(389, 8);
      assert NoDivisorFrom(389, 7);
      assert NoDivisorFrom(389, 6);
      assert NoDivisorFrom(389, 5);
      assert NoDivisorFrom(389, 4);
      assert NoDivisorFrom(389, 3);
      assert NoDivisorFrom(389, 2);
      forall n | 383 < n < 389
        ensures !IsPrime(n)
      {
        if n == 384 {
          NotPrime(384, 2);
        } else if n == 385 {
          NotPrime(385, 5);
        } else if n == 386 {
          NotPrime(386, 2);
        } else if n == 387 {
          NotPrime(387, 3);
        } else {
          NotPrime(388, 2);
        }
      }
    } else if i == 77 {
      assert NoDivisorFrom(397, 20);
      assert NoDivisorFrom(397, 19);
      assert NoDivisorFrom(397, 18);
      assert NoDivisorFrom(397, 17);
      assert NoDivisorFrom(397, 16);
      assert NoDivisorFrom(397, 15);
      assert NoDivisorFrom(397, 14);
      assert NoDivisorFrom(397, 13);
      assert NoDivisorFrom(397, 12);
      assert NoDivisorFrom(397, 11);
      assert NoDivisorFrom(397, 10);
      assert NoDivisorFrom(397, 9);
      assert NoDivisorFrom(397, 8);
      assert NoDivisorFrom(397, 7);
      assert NoDivisorFrom(397, 6);
      assert NoDivisorFrom(397, 5);
      assert NoDivisorFrom(397, 4);
      assert NoDivisorFrom(397, 3);
      assert NoDivisorFrom(397, 2);
      forall n | 389 < n < 397
        ensures !IsPrime(n)
      {
        if n == 390 {
          NotPrime(390, 2);
        } else if n == 391 {
          NotPrime(391, 17);
        } else if n == 392 {
          NotPrime(392, 2);
        } else if n == 393 {
          NotPrime(393, 3);
        } else if n == 394 {
          NotPrime(394, 2);
        } else if n == 395 {
          NotPrime(395, 5);
        } else {
          NotPrime(396, 2);
        }
      }
    } else if i == 78 {
      assert NoDivisorFrom(401, 21);
      assert NoDivisorFrom(401, 20);
      assert NoDivisorFrom(401, 19);
      assert NoDivisorFrom(401, 18);
      assert NoDivisorFrom(401, 17);
      assert NoDivisorFrom(401, 16);
      assert NoDivisorFrom(401, 15);
      assert NoDivisorFrom(401, 14);
      assert NoDivisorFrom(401, 13);
      assert NoDivisorFrom(401, 12);
      assert NoDivisorFrom(401, 11);
      assert NoDivisorFrom(401, 10);
      assert NoDivisorFrom(401, 9);
      assert NoDivisorFrom(401, 8);
      assert NoDivisorFrom(401, 7);
      assert NoDivisorFrom(401, 6);
      assert NoDivisorFrom(401, 5);
      assert NoDivisorFrom(401, 4);
      assert NoDivisorFrom(401, 3);
      assert NoDivisorFrom(401, 2);
      forall n | 397 < n < 401
        ensures !IsPrime(n)
      {
        if n == 398 {
          NotPrime(398, 2);
        } else if n == 399 {
          NotPrime(399, 3);
        } else {
          NotPrime(400, 2);
        }
      }
    } else {
      assert NoDivisorFrom(409, 21);
      assert NoDivisorFrom(409, 20);
      assert NoDivisorFrom(409, 19);
      assert NoDivisorFrom(409, 18);
      assert NoDivisorFrom(409, 17);
      assert NoDivisorFrom(409, 16);
      assert NoDivisorFrom(409, 15);
      assert NoDivisorFrom(409, 14);
      assert NoDivisorFrom(409, 13);
      assert NoDivisorFrom(409, 12);
      assert NoDivisorFrom(409, 11);
      assert NoDivisorFrom(409, 10);
      assert NoDivisorFrom(409, 9);
      assert NoDivisorFrom(409, 8);
      assert NoDivisorFrom(409, 7);
      assert NoDivisorFrom(409, 6);
      assert NoDivisorFrom(409, 5);
      assert NoDivisorFrom(409, 4);
      assert NoDivisorFrom(409, 3);
      assert NoDivisorFrom(409, 2);
      forall n | 401 < n < 409
        ensures !IsPrime(n)
      {
        if n == 402 {
          NotPrime(402, 2);
        } else if n == 403 {
          NotPrime(403, 13);
        } else if n == 404 {
          NotPrime(404, 2);
        } else if n == 405 {
          NotPrime(405, 3);
        } else if n == 406 {
          NotPrime(406, 2);
        } else if n == 407 {
          NotPrime(407, 11);
        } else {
          NotPrime(408, 2);
        }
      }
    }
  }
}
