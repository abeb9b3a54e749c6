/** MD5 on machine words of any width from 32 bits on, masked nowhere but in the rotation. */
module Md5Wide {
  import opened Blocks
  import opened Octets
  import opened WideWords
  import opened Rfc1321

  type Width = w: nat | w >= 32 witness 32

  // ----- the functions with fewer operations

  function WideF(x: nat, y: nat, z: nat, w: nat): nat {
    Bitwise(Xor, z, Bitwise(And, x, Bitwise(Xor, y, z, w), w), w)
  }

  function WideG(x: nat, y: nat, z: nat, w: nat): nat {
    Bitwise(Xor, y, Bitwise(And, z, Bitwise(Xor, x, y, w), w), w)
  }

  function WideH(x: nat, y: nat, z: nat, w: nat): nat {
    Bitwise(Xor, Bitwise(Xor, x, y, w), z, w)
  }

  function WideI(x: nat, y: nat, z: nat, w: nat): nat {
    Bitwise(Xor, y, Bitwise(Or, x, Not(z, w), w), w)
  }

  /** Choosing by masking the difference is choosing by both masks. */
  lemma {:induction false} ChoiceForm(x: nat, y: nat, z: nat, n: nat)
    ensures WideF(x, y, z, n) == Bitwise(Or, Bitwise(And, x, y, n), Bitwise(And, Not(x, n), z, n), n)
  {
    if n > 0 {
      ChoiceForm(x / 2, y / 2, z / 2, n - 1);
      ChoiceHalves(x, y, z, n);
    }
  }

  lemma ChoiceHalves(x: nat, y: nat, z: nat, n: nat)
    requires n > 0
    ensures WideF(x, y, z, n) == 2 * WideF(x / 2, y / 2, z / 2, n - 1) + OnBits(Xor, z % 2, OnBits(And, x % 2, OnBits(Xor, y % 2, z % 2)))
    ensures Bitwise(Or, Bitwise(And, x, y, n), Bitwise(And, Not(x, n), z, n), n)
            == 2 * Bitwise(Or, Bitwise(And, x / 2, y / 2, n - 1), Bitwise(And, Not(x / 2, n - 1), z / 2, n - 1), n - 1)
               + OnBits(Or, OnBits(And, x % 2, y % 2), OnBits(And, 1 - x % 2, z % 2))
  {
    hide OnBits;
    Halves(Xor, y, z, n);
    Halves(And, x, Bitwise(Xor, y, z, n), n);
    Halves(And, x, y, n);
    NotHalves(x, n);
    Halves(And, Not(x, n), z, n);
  }

  lemma FKeep(x: nat, y: nat, z: nat, w: Width)
    ensures Keep(WideF(x, y, z, w), 32) == F(Keep(x, 32), Keep(y, 32), Keep(z, 32))
  {
    hide Keep, Bitwise, Not;
    BitwiseKeep(Xor, y, z, w, 32);
    BitwiseKeep(And, x, Bitwise(Xor, y, z, w), w, 32);
    BitwiseKeep(Xor, z, Bitwise(And, x, Bitwise(Xor, y, z, w), w), w, 32);
    ChoiceForm(Keep(x, 32), Keep(y, 32), Keep(z, 32), 32);
  }

  lemma {:induction false} Commutes(op: Op, x: nat, y: nat, n: nat)
    ensures Bitwise(op, x, y, n) == Bitwise(op, y, x, n)
  {
    if n > 0 {
      Commutes(op, x / 2, y / 2, n - 1);
    }
  }

  /** G is F with its arguments turned round. */
  lemma GKeep(x: nat, y: nat, z: nat, w: Width)
    ensures Keep(WideG(x, y, z, w), 32) == G(Keep(x, 32), Keep(y, 32), Keep(z, 32))
  {
    hide Keep, Bitwise, Not;
    FKeep(z, x, y, w);
    Commutes(And, Keep(z, 32), Keep(x, 32), 32);
    Commutes(And, Not(Keep(z, 32), 32), Keep(y, 32), 32);
  }

  lemma HKeep(x: nat, y: nat, z: nat, w: Width)
    ensures Keep(WideH(x, y, z, w), 32) == H(Keep(x, 32), Keep(y, 32), Keep(z, 32))
  {
    hide Keep, Bitwise;
    BitwiseKeep(Xor, x, y, w, 32);
    BitwiseKeep(Xor, Bitwise(Xor, x, y, w), z, w, 32);
  }

  lemma IKeep(x: nat, y: nat, z: nat, w: Width)
    ensures Keep(WideI(x, y, z, w), 32) == I(Keep(x, 32), Keep(y, 32), Keep(z, 32))
  {
    hide Keep, Bitwise, Not;
    NotKeep(z, w, 32);
    BitwiseKeep(Or, x, Not(z, w), w, 32);
    BitwiseKeep(Xor, y, Bitwise(Or, x, Not(z, w), w), w, 32);
  }

  function WideMixed(i: nat, x: nat, y: nat, z: nat, w: nat): nat {
    if i < 16 then WideF(x, y, z, w) else if i < 32 then WideG(x, y, z, w)
    else if i < 48 then WideH(x, y, z, w) else WideI(x, y, z, w)
  }

  lemma MixedKeep(i: nat, x: nat, y: nat, z: nat, w: Width)
    ensures Keep(WideMixed(i, x, y, z, w), 32) == Mixed(i, Keep(x, 32), Keep(y, 32), Keep(z, 32))
  {
    hide Keep, WideF, WideG, WideH, WideI, F, G, H, I;
    FKeep(x, y, z, w);
    GKeep(x, y, z, w);
    HKeep(x, y, z, w);
    IKeep(x, y, z, w);
  }

  // ----- the rotation

  /** Shifted up by s, with the top s of the low 32 bits in the place left free. */
  function WideRotate(x: nat, s: nat, w: nat): nat
    requires s <= 32
  {
    Bitwise(Or, Keep(Shl(x, s), w), Shr(Keep(x, 32), 32 - s), w)
  }

  lemma {:induction false} ShlLow(x: nat, s: nat)
    ensures Keep(Shl(x, s), s) == 0
  {
    hide Keep;
    if s == 0 {
      KeepNone(Shl(x, s));
    } else {
      KeepMade(Shl(x, s), s);
      ShlLow(x, s - 1);
    }
  }

  lemma {:induction false} ShrSmall(x: nat, s: nat, n: nat)
    requires s <= n && x < Pow2(n)
    ensures Shr(x, s) < Pow2(n - s)
  {
    if s > 0 {
      ShrSmall(x / 2, s - 1, n - 1);
    }
  }

  lemma {:induction false} Pow2Monotone(a: nat, b: nat)
    requires a <= b
    ensures Pow2(a) <= Pow2(b)
  {
    if a < b {
      Pow2Monotone(a, b - 1);
    }
  }

  lemma RotateKeep(x: nat, s: nat, w: Width)
    requires s <= 32
    ensures Keep(WideRotate(x, s, w), 32) == Rotate(Keep(x, 32), s)
  {
    hide Keep, Bitwise, Shl, Shr, Pow2;
    var k := Keep(x, 32);
    var low := Shr(k, 32 - s);
    ShrSmall(k, 32 - s, 32);
    Pow2Monotone(s, 32);
    KeepSmall(low, 32);
    BitwiseKeep(Or, Keep(Shl(x, s), w), low, w, 32);
    KeepKeep(Shl(x, s), w, 32);
    ShlKeep(x, s, 32);
    ShlLow(k, s);
    KeepKeep(Shl(k, s), 32, s);
    OrIsSum(Keep(Shl(k, s), 32), low, s, 32);
  }

  // ----- one step and all of them

  /** The step as it is computed: nothing is masked but what the rotation takes from above. */
  function WideStep(r: Regs, i: nat, x: nat, w: nat): Regs
    requires i < 64
  {
    TableSize();
    var sum := Keep(r.a + (WideMixed(i, r.b, r.c, r.d, w) + x + T[i]), w);
    Regs(r.d, Keep(WideRotate(sum, S(i), w) + r.b, w), r.b, r.c)
  }

  function KeepRegs(r: Regs): Regs {
    Regs(Keep(r.a, 32), Keep(r.b, 32), Keep(r.c, 32), Keep(r.d, 32))
  }

  lemma SumKeep(a: nat, f: nat, x: nat, t: nat)
    ensures Keep(a + (f + x + t), 32) == Keep(Keep(a, 32) + Keep(f, 32) + x + t, 32)
  {
    hide Keep;
    AddKeep(a, f + x + t, 32);
    AddKeep(f, x + t, 32);
    AddKeep(Keep(f, 32), x + t, 32);
    KeepKeep(f, 32, 32);
    AddKeep(Keep(a, 32), Keep(f, 32) + x + t, 32);
    KeepKeep(a, 32, 32);
  }

  /** Every step agrees with the 32-bit step on the low 32 bits of every register. */
  lemma StepKeep(r: Regs, i: nat, x: nat, w: Width)
    requires i < 64
    ensures KeepRegs(WideStep(r, i, x, w)) == Step(KeepRegs(r), i, x)
  {
    hide Keep, WideMixed, Mixed, WideRotate, Rotate, T;
    TableSize();
    var full := r.a + (WideMixed(i, r.b, r.c, r.d, w) + x + T[i]);
    var sum := Keep(full, w);
    MixedKeep(i, r.b, r.c, r.d, w);
    SumKeep(r.a, WideMixed(i, r.b, r.c, r.d, w), x, T[i]);
    KeepKeep(full, w, 32);
    RotateKeep(sum, S(i), w);
    KeepKeep(WideRotate(sum, S(i), w) + r.b, w, 32);
    AddKeep(WideRotate(sum, S(i), w), r.b, 32);
    AddKeep(Rotate(Keep(sum, 32), S(i)), Keep(r.b, 32), 32);
    RotateSmall(Keep(sum, 32), S(i));
    KeepKeep(r.b, 32, 32);
  }

  lemma RotateSmall(x: nat, s: nat)
    requires s <= 32 && x < Pow2(32)
    ensures Keep(Rotate(x, s), 32) == Rotate(x, s)
  {
    hide Keep, Rotate, WideRotate, Pow2;
    KeepSmall(x, 32);
    RotateKeep(x, s, 32);
    KeepKeep(WideRotate(x, s, 32), 32, 32);
  }

  function WideSteps(x: seq<nat>, r: Regs, n: nat, w: nat): Regs
    requires |x| == 16 && n <= 64
    decreases n
  {
    if n == 0 then r else WideStep(WideSteps(x, r, n - 1, w), n - 1, x[X(n - 1)], w)
  }

  /** So do all steps. */
  lemma {:induction false} StepsKeep(x: seq<nat>, r: Regs, n: nat, w: Width)
    requires |x| == 16 && n <= 64
    ensures KeepRegs(WideSteps(x, r, n, w)) == Steps(x, KeepRegs(r), n)
    decreases n
  {
    hide KeepRegs, WideStep, Step;
    if n > 0 {
      StepsKeep(x, r, n - 1, w);
      StepKeep(WideSteps(x, r, n - 1, w), n - 1, x[X(n - 1)], w);
    }
  }

  function WideAdd(x: Regs, y: Regs, w: nat): Regs {
    Regs(Keep(x.a + y.a, w), Keep(x.b + y.b, w), Keep(x.c + y.c, w), Keep(x.d + y.d, w))
  }

  lemma WideAddKeep(x: Regs, y: Regs, w: Width)
    ensures KeepRegs(WideAdd(x, y, w)) == AddRegs(KeepRegs(x), KeepRegs(y))
  {
    hide Keep;
    KeepKeep(x.a + y.a, w, 32);
    KeepKeep(x.b + y.b, w, 32);
    KeepKeep(x.c + y.c, w, 32);
    KeepKeep(x.d + y.d, w, 32);
    AddKeep(x.a, y.a, 32);
    AddKeep(x.b, y.b, 32);
    AddKeep(x.c, y.c, 32);
    AddKeep(x.d, y.d, 32);
  }

  /** One block, on words of width w. */
  function WideCompress(r: Regs, x: seq<nat>, w: nat): Regs
    requires |x| == 16
  {
    WideAdd(WideSteps(x, r, 64, w), r, w)
  }

  /** What the low 32 bits of the registers become does not depend on the width of the words. */
  lemma CompressKeep(r: Regs, block: seq<Octet>, w: Width)
    requires |block| == 64
    ensures KeepRegs(WideCompress(r, BlockWords(block), w)) == Compress(KeepRegs(r), block)
  {
    hide KeepRegs, WideSteps, Steps, WideAdd, AddRegs;
    StepsKeep(BlockWords(block), r, 64, w);
    WideAddKeep(WideSteps(BlockWords(block), r, 64, w), r, w);
  }
}
