/** Bitwise operations and additions on words of any width, and how they agree on their low bits. */
module WideWords {

  function Pow2(n: nat): (p: nat)
    ensures p > 0
  {
    if n == 0 then 1 else 2 * Pow2(n - 1)
  }

  datatype Op = And | Or | Xor

  function OnBits(op: Op, x: nat, y: nat): (r: nat)
    requires x < 2 && y < 2
    ensures r < 2
  {
    match op
    case And => if x == 1 && y == 1 then 1 else 0
    case Or => if x == 1 || y == 1 then 1 else 0
    case Xor => if x != y then 1 else 0
  }

  /** The operation on the low n bits. */
  function Bitwise(op: Op, x: nat, y: nat, n: nat): (r: nat)
    ensures r < Pow2(n)
  {
    if n == 0 then 0 else 2 * Bitwise(op, x / 2, y / 2, n - 1) + OnBits(op, x % 2, y % 2)
  }

  function Not(x: nat, n: nat): (r: nat)
    ensures r < Pow2(n)
  {
    if n == 0 then 0 else 2 * Not(x / 2, n - 1) + 1 - x % 2
  }

  /** What a machine word of width n keeps of a number: its low n bits. */
  function Keep(x: nat, n: nat): (r: nat)
    ensures r < Pow2(n)
  {
    if n == 0 then 0 else 2 * Keep(x / 2, n - 1) + x % 2
  }

  function Shl(x: nat, s: nat): nat {
    if s == 0 then x else 2 * Shl(x, s - 1)
  }

  function Shr(x: nat, s: nat): nat {
    if s == 0 then x else Shr(x / 2, s - 1)
  }

  // ----- the low bits of a result depend on the low bits of the operands

  lemma KeepStep(x: nat, n: nat)
    requires n > 0
    ensures Keep(x, n) / 2 == Keep(x / 2, n - 1) && Keep(x, n) % 2 == x % 2
  {
  }

  /** Keeping the low bits is taking the remainder. */
  lemma {:induction false} KeepIsRemainder(x: nat, n: nat) returns (q: nat)
    ensures x == q * Pow2(n) + Keep(x, n)
  {
    if n == 0 {
      q := x;
    } else {
      q := KeepIsRemainder(x / 2, n - 1);
      assert x == 2 * (q * Pow2(n - 1)) + Keep(x, n);
      Associate(q, Pow2(n - 1));
    }
  }

  lemma Associate(q: nat, p: nat)
    ensures q * (2 * p) == 2 * (q * p)
  {
  }

  lemma Substitute(q: nat, p: nat, m: nat)
    requires p == m
    ensures q * p == q * m
  {
  }

  lemma Keep32(x: nat)
    ensures Keep(x, 32) == x % 0x1_0000_0000
  {
    hide Keep, Pow2;
    var q := KeepIsRemainder(x, 32);
    Pow2Of32();
    Substitute(q, Pow2(32), 0x1_0000_0000);
  }

  lemma Pow2Of32()
    ensures Pow2(32) == 0x1_0000_0000 && Pow2(8) == 256
  {
    assert Pow2(4) == 16;
    assert Pow2(8) == 256;
    assert Pow2(12) == 0x1000;
    assert Pow2(16) == 0x1_0000;
    assert Pow2(20) == 0x10_0000;
    assert Pow2(24) == 0x100_0000;
    assert Pow2(28) == 0x1000_0000;
  }

  lemma Keep8(x: nat)
    ensures Keep(x, 8) == x % 256
  {
    hide Keep, Pow2;
    var q := KeepIsRemainder(x, 8);
    Pow2Of32();
    Substitute(q, Pow2(8), 256);
  }

  lemma {:induction false} BitwiseKeep(op: Op, x: nat, y: nat, n: nat, k: nat)
    requires k <= n
    ensures Keep(Bitwise(op, x, y, n), k) == Bitwise(op, Keep(x, k), Keep(y, k), k)
  {
    hide Keep, Pow2, OnBits;
    if k == 0 {
      KeepNone(Bitwise(op, x, y, n));
    } else {
      KeepStep(x, k);
      KeepStep(y, k);
      KeepStep(Bitwise(op, x, y, n), k);
      Halves(op, x, y, n);
      BitwiseKeep(op, x / 2, y / 2, n - 1, k - 1);
    }
  }

  lemma KeepNone(x: nat)
    ensures Keep(x, 0) == 0
  {
  }

  /** A result is made of the results on the halves and on the last bits. */
  lemma Halves(op: Op, x: nat, y: nat, n: nat)
    requires n > 0
    ensures Bitwise(op, x, y, n) / 2 == Bitwise(op, x / 2, y / 2, n - 1)
    ensures Bitwise(op, x, y, n) % 2 == OnBits(op, x % 2, y % 2)
  {
  }

  lemma NotHalves(x: nat, n: nat)
    requires n > 0
    ensures Not(x, n) / 2 == Not(x / 2, n - 1) && Not(x, n) % 2 == 1 - x % 2
  {
  }

  lemma {:induction false} NotKeep(x: nat, n: nat, k: nat)
    requires k <= n
    ensures Keep(Not(x, n), k) == Not(Keep(x, k), k)
  {
    hide Keep, Pow2;
    if k == 0 {
      KeepNone(Not(x, n));
    } else {
      KeepStep(x, k);
      KeepStep(Not(x, n), k);
      NotHalves(x, n);
      NotKeep(x / 2, n - 1, k - 1);
    }
  }

  /** Keeping many bits first makes no difference to the low ones. */
  lemma {:induction false} KeepKeep(x: nat, n: nat, k: nat)
    requires k <= n
    ensures Keep(Keep(x, n), k) == Keep(x, k)
  {
    if k > 0 {
      KeepStep(x, n);
      KeepKeep(x / 2, n - 1, k - 1);
    }
  }

  lemma {:induction false} KeepSmall(x: nat, n: nat)
    requires x < Pow2(n)
    ensures Keep(x, n) == x
  {
    if n > 0 {
      KeepSmall(x / 2, n - 1);
    }
  }

  lemma {:induction false} AddCarry(x: nat, y: nat, carry: nat, k: nat)
    requires carry < 2
    ensures Keep(x + y + carry, k) == Keep(Keep(x, k) + Keep(y, k) + carry, k)
  {
    hide Keep;
    if k == 0 {
      KeepNone(x + y + carry);
      KeepNone(Keep(x, k) + Keep(y, k) + carry);
    } else {
      var next := (x % 2 + y % 2 + carry) / 2;
      KeepStep(x, k);
      KeepStep(y, k);
      HalfSum(x, y, carry);
      HalfSum(Keep(x, k), Keep(y, k), carry);
      AddCarry(x / 2, y / 2, next, k - 1);
      KeepMade(x + y + carry, k);
      KeepMade(Keep(x, k) + Keep(y, k) + carry, k);
    }
  }

  lemma KeepMade(x: nat, k: nat)
    requires k > 0
    ensures Keep(x, k) == 2 * Keep(x / 2, k - 1) + x % 2
  {
  }

  lemma HalfSum(x: nat, y: nat, carry: nat)
    ensures (x + y + carry) / 2 == x / 2 + y / 2 + (x % 2 + y % 2 + carry) / 2
    ensures (x + y + carry) % 2 == (x % 2 + y % 2 + carry) % 2
  {
  }

  /** Sums agree on the bits on which the terms agree. */
  lemma AddKeep(x: nat, y: nat, k: nat)
    ensures Keep(x + y, k) == Keep(Keep(x, k) + Keep(y, k), k)
  {
    AddCarry(x, y, 0, k);
  }

  /** So do numbers shifted up. */
  lemma {:induction false} ShlKeep(x: nat, s: nat, k: nat)
    ensures Keep(Shl(x, s), k) == Keep(Shl(Keep(x, k), s), k)
  {
    hide Keep;
    if s == 0 {
      KeepKeep(x, k, k);
    } else {
      AddKeep(Shl(x, s - 1), Shl(x, s - 1), k);
      AddKeep(Shl(Keep(x, k), s - 1), Shl(Keep(x, k), s - 1), k);
      ShlKeep(x, s - 1, k);
    }
  }

  // ----- disjoint bits

  /** Or puts numbers side by side whose bits do not meet. */
  lemma {:induction false} OrIsSum(x: nat, low: nat, s: nat, n: nat)
    requires s <= n && x < Pow2(n) && Keep(x, s) == 0 && low < Pow2(s)
    ensures Bitwise(Or, x, low, n) == x + low
  {
    if s == 0 {
      OrNothing(x, n);
    } else {
      hide Keep;
      KeepStep(x, s);
      OrIsSum(x / 2, low / 2, s - 1, n - 1);
    }
  }

  lemma {:induction false} OrNothing(x: nat, n: nat)
    requires x < Pow2(n)
    ensures Bitwise(Or, x, 0, n) == x
  {
    if n > 0 {
      OrNothing(x / 2, n - 1);
    }
  }
}
