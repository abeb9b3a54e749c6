/** What the table lookups and the word arithmetic of the rounds compute, column by column. */
module AesRounds {
  import opened GaloisField
  import opened Fips197
  import opened AesTables

  // ----- one column of a round

  function Xor4(t0: bv32, t1: bv32, t2: bv32, t3: bv32): bv32 {
    t0 ^ t1 ^ t2 ^ t3
  }

  function Xor5(t0: bv32, t1: bv32, t2: bv32, t3: bv32, k: bv32): bv32 {
    t0 ^ t1 ^ t2 ^ t3 ^ k
  }

  lemma Xor5Column(t0: bv32, t1: bv32, t2: bv32, t3: bv32, k: bv32)
    ensures ToColumn(Xor5(t0, t1, t2, t3, k)) ==
      AddColumn(Column(Sum4(Byte(t0, 0), Byte(t1, 0), Byte(t2, 0), Byte(t3, 0)),
                       Sum4(Byte(t0, 1), Byte(t1, 1), Byte(t2, 1), Byte(t3, 1)),
                       Sum4(Byte(t0, 2), Byte(t1, 2), Byte(t2, 2), Byte(t3, 2)),
                       Sum4(Byte(t0, 3), Byte(t1, 3), Byte(t2, 3), Byte(t3, 3))),
                ToColumn(k))
  {
    hide Xor5, Add, Sum4, Byte;
    Xor5Byte0(t0, t1, t2, t3, k);
    Xor5Byte1(t0, t1, t2, t3, k);
    Xor5Byte2(t0, t1, t2, t3, k);
    Xor5Byte3(t0, t1, t2, t3, k);
  }

  lemma Xor5Byte0(t0: bv32, t1: bv32, t2: bv32, t3: bv32, k: bv32)
    ensures Byte(Xor5(t0, t1, t2, t3, k), 0) == Add(Sum4(Byte(t0, 0), Byte(t1, 0), Byte(t2, 0), Byte(t3, 0)), Byte(k, 0))
  {
  }

  lemma Xor5Byte1(t0: bv32, t1: bv32, t2: bv32, t3: bv32, k: bv32)
    ensures Byte(Xor5(t0, t1, t2, t3, k), 1) == Add(Sum4(Byte(t0, 1), Byte(t1, 1), Byte(t2, 1), Byte(t3, 1)), Byte(k, 1))
  {
  }

  lemma Xor5Byte2(t0: bv32, t1: bv32, t2: bv32, t3: bv32, k: bv32)
    ensures Byte(Xor5(t0, t1, t2, t3, k), 2) == Add(Sum4(Byte(t0, 2), Byte(t1, 2), Byte(t2, 2), Byte(t3, 2)), Byte(k, 2))
  {
  }

  lemma Xor5Byte3(t0: bv32, t1: bv32, t2: bv32, t3: bv32, k: bv32)
    ensures Byte(Xor5(t0, t1, t2, t3, k), 3) == Add(Sum4(Byte(t0, 3), Byte(t1, 3), Byte(t2, 3), Byte(t3, 3)), Byte(k, 3))
  {
  }

  /** Four lookups in the encryption tables give one column of a full round. */
  lemma MixLookup(s0: bv8, s1: bv8, s2: bv8, s3: bv8, t0: bv32, t1: bv32, t2: bv32, t3: bv32, k: bv32)
    requires ToColumn(t0) == MixShare(s0) && ToColumn(t1) == Down(MixShare(s1), 1)
    requires ToColumn(t2) == Down(MixShare(s2), 2) && ToColumn(t3) == Down(MixShare(s3), 3)
    ensures ToColumn(Xor5(t0, t1, t2, t3, k)) == AddColumn(MixColumn(Column(s0, s1, s2, s3)), ToColumn(k))
  {
    hide Xor5, Mul, Sum4, Byte, Add;
    Xor5Column(t0, t1, t2, t3, k);
    Sum4Rotate(Mul(2, s1), Mul(3, s2), s3, s0);
    Sum4Rotate(Mul(2, s2), Mul(3, s3), s0, s1);
    Sum4Rotate(s1, Mul(2, s2), Mul(3, s3), s0);
    Sum4Rotate(Mul(2, s3), Mul(3, s0), s1, s2);
    Sum4Rotate(s2, Mul(2, s3), Mul(3, s0), s1);
    Sum4Rotate(s1, s2, Mul(2, s3), Mul(3, s0));
  }

  /** Four lookups in the decryption tables give one column of a full inverse round. */
  lemma InvMixLookup(s0: bv8, s1: bv8, s2: bv8, s3: bv8, t0: bv32, t1: bv32, t2: bv32, t3: bv32, k: bv32)
    requires ToColumn(t0) == InvMixShare(s0) && ToColumn(t1) == Down(InvMixShare(s1), 1)
    requires ToColumn(t2) == Down(InvMixShare(s2), 2) && ToColumn(t3) == Down(InvMixShare(s3), 3)
    ensures ToColumn(Xor5(t0, t1, t2, t3, k)) == AddColumn(InvMixColumn(Column(s0, s1, s2, s3)), ToColumn(k))
  {
    hide Xor5, Mul, Sum4, Byte, Add;
    Xor5Column(t0, t1, t2, t3, k);
    Sum4Rotate(Mul(14, s1), Mul(11, s2), Mul(13, s3), Mul(9, s0));
    Sum4Rotate(Mul(14, s2), Mul(11, s3), Mul(13, s0), Mul(9, s1));
    Sum4Rotate(Mul(9, s1), Mul(14, s2), Mul(11, s3), Mul(13, s0));
    Sum4Rotate(Mul(14, s3), Mul(11, s0), Mul(13, s1), Mul(9, s2));
    Sum4Rotate(Mul(9, s2), Mul(14, s3), Mul(11, s0), Mul(13, s1));
    Sum4Rotate(Mul(13, s1), Mul(9, s2), Mul(14, s3), Mul(11, s0));
  }

  /** Four lookups in the last-round tables only move bytes into place. */
  lemma PlainLookup(s0: bv8, s1: bv8, s2: bv8, s3: bv8, t0: bv32, t1: bv32, t2: bv32, t3: bv32, k: bv32)
    requires ToColumn(t0) == Column(s0, 0, 0, 0) && ToColumn(t1) == Down(Column(s1, 0, 0, 0), 1)
    requires ToColumn(t2) == Down(Column(s2, 0, 0, 0), 2) && ToColumn(t3) == Down(Column(s3, 0, 0, 0), 3)
    ensures ToColumn(Xor5(t0, t1, t2, t3, k)) == AddColumn(Column(s0, s1, s2, s3), ToColumn(k))
  {
    hide Xor5, Byte, Add;
    Xor5Column(t0, t1, t2, t3, k);
    assert Sum4(s0, 0, 0, 0) == s0 && Sum4(0, s1, 0, 0) == s1 && Sum4(0, 0, s2, 0) == s2 && Sum4(0, 0, 0, s3) == s3;
  }

  lemma AddZeroColumn(c: Column)
    ensures AddColumn(c, ToColumn(0)) == c
  {
    assert Add(c.s0, 0) == c.s0 && Add(c.s1, 0) == c.s1 && Add(c.s2, 0) == c.s2 && Add(c.s3, 0) == c.s3;
    assert ToColumn(0) == Column(0, 0, 0, 0);
  }

  lemma PlainLookup4(s0: bv8, s1: bv8, s2: bv8, s3: bv8, t0: bv32, t1: bv32, t2: bv32, t3: bv32)
    requires ToColumn(t0) == Column(s0, 0, 0, 0) && ToColumn(t1) == Column(0, s1, 0, 0)
    requires ToColumn(t2) == Column(0, 0, s2, 0) && ToColumn(t3) == Column(0, 0, 0, s3)
    ensures ToColumn(Xor4(t0, t1, t2, t3)) == Column(s0, s1, s2, s3)
  {
    hide ToColumn, AddColumn;
    PlainLookup(s0, s1, s2, s3, t0, t1, t2, t3, 0);
    AddZeroColumn(Column(s0, s1, s2, s3));
    assert Xor5(t0, t1, t2, t3, 0) == Xor4(t0, t1, t2, t3);
  }

  // ----- one word of the decryption schedule

  /** Multiplies the four bytes of a word by x at once. */
  function StarX(x: bv32): bv32 {
    ((x & 0x7f7f7f7f) << 1) ^ (((x & 0x80808080) >> 7) * 0x1b)
  }

  function Xor(x: bv32, y: bv32): bv32 {
    x ^ y
  }

  lemma XorColumns(x: bv32, y: bv32)
    ensures ToColumn(Xor(x, y)) == AddColumn(ToColumn(x), ToColumn(y))
  {
    XorColumn(x, y);
  }

  /** The last two lines of the macro, given x and its multiples by x, x^2 and x^3. */
  function Combine(x: bv32, u: bv32, v: bv32, w: bv32): bv32 {
    var t := Xor(w, x);
    Xor(Xor(Xor(u, v), w), Xor(Xor(Rotr(Xor(u, t), 8), Rotr(Xor(v, t), 16)), Rotr(t, 24)))
  }

  function ImixCol(x: bv32): bv32 {
    var u := StarX(x);
    var v := StarX(u);
    var w := StarX(v);
    Combine(x, u, v, w)
  }

  lemma StarXColumn(x: bv32)
    ensures var c := ToColumn(x); ToColumn(StarX(x)) == Column(XTime(c.s0), XTime(c.s1), XTime(c.s2), XTime(c.s3))
  {
  }

  lemma SumOfFour(p: bv8, q: bv8, r: bv8, s: bv8)
    ensures Add(p, Add(Add(q, r), s)) == Sum4(p, q, r, s)
  {
    assert Add(p, q ^ r ^ s) == p ^ q ^ r ^ s;
  }

  function Sum3(p: bv8, q: bv8, r: bv8): bv8 {
    p ^ q ^ r
  }

  lemma Sum3Left(p: bv8, q: bv8, r: bv8)
    ensures Sum3(p, q, r) == Add(Add(p, q), r)
  {
    assert Add(p ^ q, r) == p ^ q ^ r;
  }

  lemma Sum3Right(p: bv8, q: bv8, r: bv8)
    ensures Sum3(p, q, r) == Add(p, Add(q, r))
  {
    assert Add(p, q ^ r) == p ^ q ^ r;
  }

  lemma MulUnfold(a: bv8, b: bv8)
    requires a != 0
    ensures Mul(a, b) == Add(if a & 1 != 0 then b else 0, Mul(a >> 1, XTime(b)))
  {
  }

  lemma MulByOne(b: bv8)
    ensures Mul(1, b) == b
  {
    MulUnfold(1, b);
    assert Mul(0, XTime(b)) == 0 && Add(b, 0) == b;
  }

  lemma AddNothing(b: bv8)
    ensures Add(0, b) == b
  {
  }

  lemma Turned(p: bv8, q: bv8, r: bv8)
    ensures Add(p, q) == Add(q, p) && Sum3(p, q, r) == Sum3(q, r, p)
  {
  }

  lemma TimesFourteen(b: bv8)
    ensures var u := XTime(b); var v := XTime(u); Mul(14, b) == Sum3(u, v, XTime(v))
  {
    hide Mul, XTime, Add, Sum3;
    var u := XTime(b);
    var v := XTime(u);
    var w := XTime(v);
    MulUnfold(14, b);
    MulUnfold(7, u);
    MulUnfold(3, v);
    MulByOne(w);
    AddNothing(Mul(7, u));
    Sum3Right(u, v, w);
  }

  lemma TimesEleven(b: bv8)
    ensures var u := XTime(b); Mul(11, b) == Sum3(u, XTime(XTime(u)), b)
  {
    hide Mul, XTime, Add, Sum3;
    var u := XTime(b);
    var v := XTime(u);
    var w := XTime(v);
    MulUnfold(11, b);
    MulUnfold(5, u);
    MulUnfold(2, v);
    MulByOne(w);
    AddNothing(w);
    Sum3Right(b, u, w);
    Turned(b, u, w);
  }

  lemma TimesThirteen(b: bv8)
    ensures var v := XTime(XTime(b)); Mul(13, b) == Sum3(v, XTime(v), b)
  {
    hide Mul, XTime, Add, Sum3;
    var u := XTime(b);
    var v := XTime(u);
    var w := XTime(v);
    MulUnfold(13, b);
    MulUnfold(6, u);
    MulUnfold(3, v);
    MulByOne(w);
    AddNothing(Mul(3, v));
    Sum3Right(b, v, w);
    Turned(b, v, w);
  }

  lemma TimesNine(b: bv8)
    ensures Mul(9, b) == Add(XTime(XTime(XTime(b))), b)
  {
    hide Mul, XTime, Add, Sum3;
    var u := XTime(b);
    var v := XTime(u);
    var w := XTime(v);
    MulUnfold(9, b);
    MulUnfold(4, u);
    MulUnfold(2, v);
    MulByOne(w);
    AddNothing(w);
    Turned(b, w, 0);
  }

  /** The constants of InvMixColumns as sums of doublings. */
  lemma SmallMultiples(b: bv8)
    ensures var u := XTime(b); var v := XTime(u); var w := XTime(v); var t := Add(w, b);
      && Mul(14, b) == Add(Add(u, v), w)
      && Mul(11, b) == Add(u, t)
      && Mul(13, b) == Add(v, t)
      && Mul(9, b) == t
  {
    hide Mul, XTime, Add, Sum3;
    var u := XTime(b);
    var v := XTime(u);
    var w := XTime(v);
    TimesFourteen(b);
    TimesEleven(b);
    TimesThirteen(b);
    TimesNine(b);
    Sum3Left(u, v, w);
    Sum3Right(u, w, b);
    Sum3Right(v, w, b);
  }

  lemma RotrColumns(x: bv32)
    ensures var c := ToColumn(x);
      && ToColumn(Rotr(x, 8)) == Column(c.s1, c.s2, c.s3, c.s0)
      && ToColumn(Rotr(x, 16)) == Column(c.s2, c.s3, c.s0, c.s1)
      && ToColumn(Rotr(x, 24)) == Column(c.s3, c.s0, c.s1, c.s2)
  {
    hide ToColumn;
    RotrColumn(x);
    RotrColumn16(x);
    RotrColumn24(x);
  }

  /** The word-parallel code of the decryption schedule is InvMixColumns. */
  lemma ImixColIsInvMixColumn(x: bv32)
    ensures ToColumn(ImixCol(x)) == InvMixColumn(ToColumn(x))
  {
    hide ToColumn, Xor, Rotr, StarX, XTime, Mul, Add, Sum4;
    var u := StarX(x);
    var v := StarX(u);
    var w := StarX(v);
    var t := Xor(w, x);
    StarXColumn(x);
    StarXColumn(u);
    StarXColumn(v);
    XorColumns(w, x);
    XorColumns(u, v);
    XorColumns(Xor(u, v), w);
    XorColumns(u, t);
    XorColumns(v, t);
    RotrColumns(Xor(u, t));
    RotrColumns(Xor(v, t));
    RotrColumns(t);
    XorColumns(Rotr(Xor(u, t), 8), Rotr(Xor(v, t), 16));
    XorColumns(Xor(Rotr(Xor(u, t), 8), Rotr(Xor(v, t), 16)), Rotr(t, 24));
    XorColumns(Xor(Xor(u, v), w), Xor(Xor(Rotr(Xor(u, t), 8), Rotr(Xor(v, t), 16)), Rotr(t, 24)));
    var c := ToColumn(x);
    SmallMultiples(c.s0);
    SmallMultiples(c.s1);
    SmallMultiples(c.s2);
    SmallMultiples(c.s3);
    SumOfFour(Mul(14, c.s0), Mul(11, c.s1), Mul(13, c.s2), Mul(9, c.s3));
    SumOfFour(Mul(14, c.s1), Mul(11, c.s2), Mul(13, c.s3), Mul(9, c.s0));
    SumOfFour(Mul(14, c.s2), Mul(11, c.s3), Mul(13, c.s0), Mul(9, c.s1));
    SumOfFour(Mul(14, c.s3), Mul(11, c.s0), Mul(13, c.s1), Mul(9, c.s2));
  }
}
