/** The field GF(2^8) of section 4 of FIPS 197: bytes added with exclusive or and multiplied
    modulo x^8 + x^4 + x^3 + x + 1. The powers of the byte 3 run through every non-zero
    byte exactly once, which is what makes logarithm and power tables possible. */
module GaloisField {
  import Sets

  function Add(a: bv8, b: bv8): bv8 {
    a ^ b
  }

  /** Multiplication by x. */
  function XTime(b: bv8): bv8 {
    (b << 1) ^ ((b >> 7) * 0x1b)
  }

  /** Multiplication by x + 1. */
  function Triple(b: bv8): bv8 {
    Add(b, XTime(b))
  }

  /** The product of two field elements: the sum of b * x^k over the bits k set in a. */
  function Mul(a: bv8, b: bv8): bv8
    decreases a
  {
    if a == 0 then 0
    else Add(if a & 1 != 0 then b else 0, Mul(a >> 1, XTime(b)))
  }

  /** The n-th power of 3. */
  function Pow(n: nat): bv8 {
    if n == 0 then 1 else Triple(Pow(n - 1))
  }

  // ----- addition

  lemma AddSwap(a: bv8, b: bv8, c: bv8, d: bv8)
    ensures Add(Add(a, b), Add(c, d)) == Add(Add(a, c), Add(b, d))
  {
    assert Add(a ^ b, c ^ d) == Add(a ^ c, b ^ d);
  }

  lemma XTimeAdd(a: bv8, b: bv8)
    ensures XTime(Add(a, b)) == Add(XTime(a), XTime(b))
  {
    assert XTime(a ^ b) == Add((a << 1) ^ ((a >> 7) * 0x1b), (b << 1) ^ ((b >> 7) * 0x1b));
  }

  lemma TripleAdd(a: bv8, b: bv8)
    ensures Triple(Add(a, b)) == Add(Triple(a), Triple(b))
  {
    XTimeAdd(a, b);
    AddSwap(a, b, XTime(a), XTime(b));
  }

  /** XTime is the conditional subtraction of section 4.2.1 of FIPS 197. */
  lemma XTimeIsConditional(b: bv8)
    ensures XTime(b) == (b << 1) ^ (if b & 0x80 != 0 then 0x1b else 0)
  {
    if b & 0x80 != 0 {
      assert b >> 7 == 1;
    } else {
      assert b >> 7 == 0;
    }
  }

  // ----- multiplication

  lemma {:induction false} MulRightAdd(a: bv8, b: bv8, c: bv8)
    ensures Mul(a, Add(b, c)) == Add(Mul(a, b), Mul(a, c))
    decreases a
  {
    if a != 0 {
      XTimeAdd(b, c);
      MulRightAdd(a >> 1, XTime(b), XTime(c));
      var p, q := Mul(a >> 1, XTime(b)), Mul(a >> 1, XTime(c));
      if a & 1 != 0 {
        AddSwap(b, c, p, q);
      } else {
        AddSwap(0, 0, p, q);
        assert Add(0, 0) == 0;
      }
    } else {
      assert Add(0, 0) == 0;
    }
  }

  lemma {:induction false} MulTriple(a: bv8, b: bv8)
    ensures Mul(a, Triple(b)) == Triple(Mul(a, b))
    decreases a
  {
    assert Triple(0) == 0;
    if a != 0 {
      assert XTime(Triple(b)) == Triple(XTime(b)) by { XTimeAdd(b, XTime(b)); }
      MulTriple(a >> 1, XTime(b));
      TripleAdd(if a & 1 != 0 then b else 0, Mul(a >> 1, XTime(b)));
    }
  }

  lemma {:induction false} MulOne(a: bv8)
    ensures Mul(a, 1) == a
  {
    assert Mul(a >> 1, 0x02) == a & 0xfe by {
      assert Mul(a >> 2, 0x04) == a & 0xfc by {
        assert Mul(a >> 3, 0x08) == a & 0xf8 by {
          assert Mul(a >> 4, 0x10) == a & 0xf0 by {
            assert Mul(a >> 5, 0x20) == a & 0xe0 by {
              assert Mul(a >> 6, 0x40) == a & 0xc0 by {
                assert Mul(a >> 7, 0x80) == a & 0x80;
              }
            }
          }
        }
      }
    }
  }

  /** Powers of 3 multiply by adding their exponents. */
  lemma {:induction false} MulPow(i: nat, j: nat)
    ensures Mul(Pow(i), Pow(j)) == Pow(i + j)
  {
    if j == 0 {
      MulOne(Pow(i));
    } else {
      MulPow(i, j - 1);
      MulTriple(Pow(i), Pow(j - 1));
    }
  }

  lemma MulPowAt(i: nat, j: nat, n: nat)
    requires n == i + j
    ensures Mul(Pow(i), Pow(j)) == Pow(n)
  {
    MulPow(i, j);
  }

  /** The r-fold product of c. */
  function Exp(c: bv8, r: nat): bv8 {
    if r == 0 then 1 else Mul(c, Exp(c, r - 1))
  }

  lemma {:induction false} PowExp(s: nat, r: nat)
    ensures Pow(s * r) == Exp(Pow(s), r)
  {
    if r != 0 {
      PowExp(s, r - 1);
      MulPow(s, s * (r - 1));
      assert s + s * (r - 1) == s * r;
    }
  }

  // ----- the order of 3

  lemma MulBy35(b: bv8)
    ensures var b2 := XTime(XTime(b)); var b4 := XTime(XTime(b2)); Mul(0x35, b) == b ^ b2 ^ b4 ^ XTime(b4)
  {
    var b2 := XTime(XTime(b));
    var b4 := XTime(XTime(b2));
    assert Mul(0x0d, b2) == b2 ^ b4 ^ XTime(b4) by {
      assert Mul(0x03, b4) == b4 ^ XTime(b4);
    }
  }

  lemma MulByC(b: bv8)
    ensures var b2 := XTime(XTime(b)); Mul(0x0c, b) == b2 ^ XTime(b2)
  {
    var b2 := XTime(XTime(b));
    assert Mul(0x03, b2) == b2 ^ XTime(b2);
  }

  lemma ExpFifteenthLow(c: bv8, n: nat)
    requires c == 0x35 && n == 0
    ensures Exp(c, n + 3) == 0xab && Exp(c, n + 5) == 0x08 && Exp(c, n + 8) == 0x2f
    ensures forall r :: n < r <= n + 8 ==> Exp(c, r) != 1
  {
    MulBy35(0x01);
    assert Exp(c, n + 1) == 0x35;
    MulBy35(0x35);
    assert Exp(c, n + 2) == 0x66;
    MulBy35(0x66);
    assert Exp(c, n + 3) == 0xab;
    MulBy35(0xab);
    assert Exp(c, n + 4) == 0xd3;
    MulBy35(0xd3);
    assert Exp(c, n + 5) == 0x08;
    MulBy35(0x08);
    assert Exp(c, n + 6) == 0xb3;
    MulBy35(0xb3);
    assert Exp(c, n + 7) == 0x1d;
    MulBy35(0x1d);
    assert Exp(c, n + 8) == 0x2f;
  }

  lemma ExpFifteenthHigh(c: bv8, n: nat)
    requires c == 0x35 && n == 8 && Exp(c, n) == 0x2f
    ensures Exp(c, n + 9) == 1
    ensures forall r :: n < r < n + 9 ==> Exp(c, r) != 1
  {
    MulBy35(0x2f);
    assert Exp(c, n + 1) == 0xc2;
    MulBy35(0xc2);
    assert Exp(c, n + 2) == 0x40;
    MulBy35(0x40);
    assert Exp(c, n + 3) == 0xef;
    MulBy35(0xef);
    assert Exp(c, n + 4) == 0xe8;
    MulBy35(0xe8);
    assert Exp(c, n + 5) == 0x63;
    MulBy35(0x63);
    assert Exp(c, n + 6) == 0x4a;
    MulBy35(0x4a);
    assert Exp(c, n + 7) == 0x36;
    MulBy35(0x36);
    assert Exp(c, n + 8) == 0x39;
    MulBy35(0x39);
    assert Exp(c, n + 9) == 0x01;
  }

  lemma ExpFiftyFirst(c: bv8, n: nat)
    requires c == 0x0c && n == 0
    ensures forall r :: n < r < n + 5 ==> Exp(c, r) != 1
  {
    MulByC(0x01);
    assert Exp(c, n + 1) == 0x0c;
    MulByC(0x0c);
    assert Exp(c, n + 2) == 0x50;
    MulByC(0x50);
    assert Exp(c, n + 3) == 0xed;
    MulByC(0xed);
    assert Exp(c, n + 4) == 0xb0;
  }

  lemma MulByBd(b: bv8)
    requires b == 0xbd
    ensures Mul(b, b) == 0xbc
  {
    var b2 := XTime(XTime(b));
    assert Mul(0x2f, b2) == 0xbc ^ b by {
      var b5 := XTime(XTime(XTime(b2)));
      assert Mul(0x05, b5) == b5 ^ XTime(XTime(b5)) by {
        assert Mul(0x02, XTime(b5)) == XTime(XTime(b5));
      }
      assert Mul(0x0b, XTime(XTime(b2))) == XTime(XTime(b2)) ^ b5 ^ XTime(XTime(b5));
    }
  }

  lemma ExpEightyFifth(c: bv8, n: nat)
    requires c == 0xbd && n == 0
    ensures forall r :: n < r < n + 3 ==> Exp(c, r) != 1
  {
    MulOne(c);
    MulByBd(c);
    assert Exp(c, n + 1) == c;
    assert Exp(c, n + 2) == 0xbc;
  }

  lemma PowFifteen(n: nat)
    requires n == 0
    ensures Pow(n + 15) == 0x35
  {
    assert Pow(n + 1) == 0x03 && Pow(n + 2) == 0x05 && Pow(n + 3) == 0x0f && Pow(n + 4) == 0x11 && Pow(n + 5) == 0x33;
    assert Pow(n + 6) == 0x55 && Pow(n + 7) == 0xff && Pow(n + 8) == 0x1a && Pow(n + 9) == 0x2e && Pow(n + 10) == 0x72;
    assert Pow(n + 11) == 0x96 && Pow(n + 12) == 0xa1 && Pow(n + 13) == 0xf8 && Pow(n + 14) == 0x13 && Pow(n + 15) == 0x35;
  }

  lemma PowFiftyOne(n: nat)
    requires n == 0
    ensures Pow(n + 51) == 0x0c
  {
    PowFifteen(n);
    PowExp(n + 15, 3);
    ExpFifteenthLow(0x35, n);
    assert Pow(n + 45) == 0xab;
    assert Pow(n + 46) == 0xe6 && Pow(n + 47) == 0x31 && Pow(n + 48) == 0x53 && Pow(n + 49) == 0xf5 && Pow(n + 50) == 0x04;
    assert Pow(n + 51) == 0x0c;
  }

  lemma PowEightyFive(n: nat)
    requires n == 0
    ensures Pow(n + 85) == 0xbd
  {
    PowFifteen(n);
    PowExp(n + 15, 5);
    ExpFifteenthLow(0x35, n);
    assert Pow(n + 75) == 0x08;
    assert Pow(n + 76) == 0x18 && Pow(n + 77) == 0x28 && Pow(n + 78) == 0x78 && Pow(n + 79) == 0x88 && Pow(n + 80) == 0x83;
    assert Pow(n + 81) == 0x9e && Pow(n + 82) == 0xb9 && Pow(n + 83) == 0xd0 && Pow(n + 84) == 0x6b && Pow(n + 85) == 0xbd;
  }

  lemma {:induction false} ExpOne(r: nat)
    ensures Exp(1, r) == 1
  {
    if r != 0 {
      ExpOne(r - 1);
      MulOne(1);
    }
  }

  /** n stands for 255; as a variable, it keeps the verifier from unfolding 255 steps. */
  lemma PowPeriod(n: nat)
    requires n == 255
    ensures Pow(n) == 1
  {
    PowFifteen(n - 255);
    ExpFifteenthLow(0x35, n - 255);
    ExpFifteenthHigh(0x35, n - 247);
    PowExp(n - 240, 17);
  }

  /** Adding multiples of 255 to an exponent changes nothing. */
  lemma PowReduce(q: nat, n: nat)
    ensures Pow(255 * q + n) == Pow(n)
  {
    PowPeriod(255);
    PowExp(255, q);
    ExpOne(q);
    MulPow(n, 255 * q);
    MulOne(Pow(n));
  }

  lemma PowWrap(n: nat, m: nat)
    requires n == m + 255
    ensures Pow(n) == Pow(m)
  {
    PowReduce(1, m);
  }

  lemma SplitExponent(k: nat, f: nat, d: nat)
    requires d != 0 && f * d == 255
    ensures k * f == 255 * (k / d) + f * (k % d)
  {
    var q, r := k / d, k % d;
    calc {
      k * f;
      (q * d + r) * f;
      q * (d * f) + r * f;
      255 * q + f * r;
    }
  }

  lemma UnitPower(k: nat, f: nat, d: nat)
    requires Pow(k) == 1 && d != 0 && f * d == 255
    ensures Exp(Pow(f), k % d) == 1
  {
    PowExp(k, f);
    ExpOne(f);
    SplitExponent(k, f, d);
    PowReduce(k / d, f * (k % d));
    PowExp(f, k % d);
  }

  lemma UnitPowerThree(k: nat, n: nat)
    requires Pow(k) == 1 && n == 0
    ensures k % 3 == 0
  {
    PowEightyFive(n);
    UnitPower(k, n + 85, 3);
    ExpEightyFifth(0xbd, n);
  }

  lemma UnitPowerFive(k: nat, n: nat)
    requires Pow(k) == 1 && n == 0
    ensures k % 5 == 0
  {
    PowFiftyOne(n);
    UnitPower(k, n + 51, 5);
    ExpFiftyFirst(0x0c, n);
  }

  lemma UnitPowerSeventeen(k: nat, n: nat)
    requires Pow(k) == 1 && n == 0
    ensures k % 17 == 0
  {
    PowFifteen(n);
    UnitPower(k, n + 15, 17);
    ExpFifteenthLow(0x35, n);
    ExpFifteenthHigh(0x35, n + 8);
  }

  /** 3 has order 255: for no prime factor p of 255 is 3^(255/p) equal to 1. */
  lemma PowNotUnit(k: nat)
    requires 0 < k < 255
    ensures Pow(k) != 1
  {
    if Pow(k) == 1 {
      UnitPowerThree(k, 0);
      UnitPowerFive(k, 0);
      UnitPowerSeventeen(k, 0);
      assert false;
    }
  }

  lemma PowInjective(i: nat, j: nat)
    requires i < j < 255
    ensures Pow(i) != Pow(j)
  {
    if Pow(i) == Pow(j) {
      var c, d, n := 255 - i, j - i, 255;
      MulPowAt(i, c, n);
      MulPowAt(j, c, n + d);
      PowPeriod(n);
      MulPowAt(d, n, n + d);
      MulOne(Pow(d));
      PowNotUnit(d);
    }
  }

  lemma TripleNonZero(b: bv8)
    requires b != 0
    ensures Triple(b) != 0
  {
    assert b ^ ((b << 1) ^ ((b >> 7) * 0x1b)) == 0 ==> b == 0;
  }

  lemma {:induction false} PowNonZero(i: nat)
    ensures Pow(i) != 0
  {
    if i != 0 {
      PowNonZero(i - 1);
      TripleNonZero(Pow(i - 1));
    }
  }

  // ----- every non-zero byte is a power of 3

  ghost function Powers(n: nat): (s: set<bv8>) {
    if n == 0 then {} else Powers(n - 1) + {Pow(n - 1)}
  }

  ghost function NonZero(n: nat): (s: set<bv8>)
    requires n < 256
  {
    if n == 0 then {} else NonZero(n - 1) + {n as bv8}
  }

  lemma {:induction false} PowersMembers(n: nat, b: bv8)
    ensures b in Powers(n) <==> exists i :: 0 <= i < n && Pow(i) == b
  {
    if n != 0 {
      PowersMembers(n - 1, b);
      assert b == Pow(n - 1) ==> exists i :: 0 <= i < n && Pow(i) == b;
    }
  }

  lemma {:induction false} PowersSize(n: nat)
    requires n <= 255
    ensures |Powers(n)| == n
  {
    if n != 0 {
      PowersSize(n - 1);
      PowersMembers(n - 1, Pow(n - 1));
      forall i | 0 <= i < n - 1 ensures Pow(i) != Pow(n - 1) { PowInjective(i, n - 1); }
    }
  }

  lemma ByteSuccessor(b: bv8)
    requires b != 255
    ensures (b + 1) as int == b as int + 1
  {
  }

  lemma {:induction false} ByteOfNat(n: nat)
    requires n < 256
    ensures n as bv8 as int == n
  {
    if n != 0 {
      var b := (n - 1) as bv8;
      ByteOfNat(n - 1);
      ByteSuccessor(b);
      assert (b + 1) as int as bv8 == b + 1;
    }
  }

  lemma {:induction false} NonZeroMembers(n: nat, b: bv8)
    requires n < 256
    ensures b in NonZero(n) <==> 0 < b as int <= n
  {
    if n != 0 {
      NonZeroMembers(n - 1, b);
      ByteOfNat(n);
      assert b == b as int as bv8;
    }
  }

  lemma {:induction false} NonZeroSize(n: nat)
    requires n < 256
    ensures |NonZero(n)| == n
  {
    hide *;
    if n == 0 {
      NoneNonZero();
    } else {
      NonZeroSize(n - 1);
      OneMoreNonZero(n);
    }
  }

  lemma NoneNonZero()
    ensures NonZero(0) == {}
  {
  }

  lemma OneMoreNonZero(n: nat)
    requires 0 < n < 256
    ensures |NonZero(n)| == |NonZero(n - 1)| + 1
  {
    ByteOfNat(n);
    NonZeroMembers(n - 1, n as bv8);
  }

  lemma PowersAreNonZero(n: nat, c: bv8)
    requires c in Powers(n)
    ensures c != 0
  {
    PowersMembers(n, c);
    var i :| 0 <= i < n && Pow(i) == c;
    PowNonZero(i);
  }

  lemma NonZeroOf(n: nat, c: bv8)
    requires n == 255 && c != 0
    ensures c in NonZero(n)
  {
    NonZeroMembers(n, c);
    assert c as int as bv8 == c;
  }

  /** n stands for 255; as a variable, it keeps the verifier from unfolding 255 steps. */
  lemma NonZeroArePowers(n: nat, b: bv8)
    requires n == 255 && b in NonZero(n)
    ensures b in Powers(n)
  {
    hide Powers, NonZero, Pow;
    if b !in Powers(n) {
      forall c | c in Powers(n) ensures c in NonZero(n) {
        PowersAreNonZero(n, c);
        NonZeroOf(n, c);
      }
      PowersSize(n);
      NonZeroSize(n);
      Sets.SubsetSize(Powers(n), NonZero(n) - {b});
    }
  }

  lemma LogExists(b: bv8)
    requires b != 0
    ensures exists i :: 0 <= i < 255 && Pow(i) == b
  {
    var n := 255;
    assert b in NonZero(n) by {
      NonZeroMembers(n, b);
      assert b as int as bv8 == b;
    }
    NonZeroArePowers(n, b);
    PowersMembers(n, b);
  }

  // ----- the field laws

  /** The discrete logarithm to base 3. */
  ghost function Log(b: bv8): (i: nat)
    requires b != 0
    ensures i < 255 && Pow(i) == b
  {
    LogExists(b);
    var i :| 0 <= i < 255 && Pow(i) == b;
    i
  }

  lemma MulLogs(a: bv8, b: bv8)
    requires a != 0 && b != 0
    ensures var n := Log(a) + Log(b); Mul(a, b) == Pow(if n < 256 then n else n - 255)
  {
    var n := Log(a) + Log(b);
    MulPowAt(Log(a), Log(b), n);
    if n >= 256 {
      PowWrap(n, n - 255);
    }
  }

  lemma {:induction false} MulZero(a: bv8)
    ensures Mul(a, 0) == 0
    ensures Mul(0, a) == 0
    decreases a
  {
    if a != 0 {
      assert XTime(0) == 0 && Add(0, 0) == 0;
      MulZero(a >> 1);
    }
  }

  lemma MulCommutes(a: bv8, b: bv8)
    ensures Mul(a, b) == Mul(b, a)
  {
    if a == 0 {
      MulZero(b);
    } else if b == 0 {
      MulZero(a);
    } else {
      MulPow(Log(a), Log(b));
      MulPow(Log(b), Log(a));
    }
  }

  lemma PowAssociates(i: nat, j: nat, k: nat)
    ensures Mul(Mul(Pow(i), Pow(j)), Pow(k)) == Mul(Pow(i), Mul(Pow(j), Pow(k)))
  {
    var ij, jk, n := i + j, j + k, i + j + k;
    MulPowAt(i, j, ij);
    MulPowAt(ij, k, n);
    MulPowAt(j, k, jk);
    MulPowAt(i, jk, n);
  }

  lemma MulAssociates(a: bv8, b: bv8, c: bv8)
    ensures Mul(Mul(a, b), c) == Mul(a, Mul(b, c))
  {
    if a == 0 {
      MulZero(b);
      MulZero(c);
      MulZero(Mul(b, c));
    } else if b == 0 {
      MulZero(a);
      MulZero(c);
    } else if c == 0 {
      MulZero(a);
      MulZero(b);
      MulZero(Mul(a, b));
    } else {
      PowAssociates(Log(a), Log(b), Log(c));
    }
  }

  lemma MulAdd(a: bv8, b: bv8, c: bv8)
    ensures Mul(a, Add(b, c)) == Add(Mul(a, b), Mul(a, c))
    ensures Mul(Add(b, c), a) == Add(Mul(b, a), Mul(c, a))
  {
    MulRightAdd(a, b, c);
    MulCommutes(a, Add(b, c));
    MulCommutes(a, b);
    MulCommutes(a, c);
  }

  /** The multiplicative inverse, with 0 mapped to itself as section 5.1.1 of FIPS 197 asks. */
  ghost function Inverse(b: bv8): bv8 {
    if b == 0 then 0 else Pow(255 - Log(b))
  }

  lemma InverseIsInverse(b: bv8)
    requires b != 0
    ensures Mul(b, Inverse(b)) == 1
    ensures Inverse(b) != 0
  {
    MulPow(Log(b), 255 - Log(b));
    PowPeriod(255);
    PowNonZero(255 - Log(b));
  }

  /** Only the inverse multiplies b to 1. */
  lemma InverseUnique(b: bv8, c: bv8)
    requires Mul(b, c) == 1
    ensures c == Inverse(b)
  {
    MulZero(c);
    assert b != 0;
    var d := Inverse(b);
    InverseIsInverse(b);
    MulCommutes(b, d);
    MulAssociates(d, b, c);
    MulCommutes(c, 1);
    MulOne(c);
    MulOne(d);
  }

  lemma InverseInvolution(b: bv8)
    ensures Inverse(Inverse(b)) == b
  {
    if b != 0 {
      InverseIsInverse(b);
      MulCommutes(b, Inverse(b));
      InverseUnique(Inverse(b), b);
    }
  }
}
