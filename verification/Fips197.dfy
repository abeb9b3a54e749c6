/** The block cipher of FIPS 197 as the standard writes it: bytes, columns and states, with
    no tables. Nothing here comes from the program; it is what the program is proved against. */
module Fips197 {
  import opened GaloisField

  /** One column of the state, or one word of a key schedule. */
  datatype Column = Column(s0: bv8, s1: bv8, s2: bv8, s3: bv8)

  datatype State = State(c0: Column, c1: Column, c2: Column, c3: Column)

  function Sum4(p: bv8, q: bv8, r: bv8, s: bv8): bv8 {
    p ^ q ^ r ^ s
  }

  // ----- the substitution box, section 5.1.1

  function RotateLeft(b: bv8, n: bv4): bv8
    requires 0 < n < 8
  {
    (b << n) | (b >> (8 - n))
  }

  /** Bit i of the result is the sum of bits i, i+4, i+5, i+6 and i+7 of b and bit i of 0x63. */
  function Affine(b: bv8): bv8 {
    b ^ RotateLeft(b, 4) ^ RotateLeft(b, 3) ^ RotateLeft(b, 2) ^ RotateLeft(b, 1) ^ 0x63
  }

  /** Bit i of the result is the sum of bits i+2, i+5 and i+7 of b and bit i of 0x05. */
  function InvAffine(b: bv8): bv8 {
    RotateLeft(b, 6) ^ RotateLeft(b, 3) ^ RotateLeft(b, 1) ^ 0x05
  }

  ghost function SBox(b: bv8): bv8 {
    Affine(Inverse(b))
  }

  ghost function InvSBox(b: bv8): bv8 {
    Inverse(InvAffine(b))
  }

  lemma AffineInverse(b: bv8)
    ensures InvAffine(Affine(b)) == b
    ensures Affine(InvAffine(b)) == b
  {
    assert InvAffine(b ^ ((b << 4) | (b >> 4)) ^ ((b << 3) | (b >> 5)) ^ ((b << 2) | (b >> 6)) ^ ((b << 1) | (b >> 7)) ^ 0x63) == b;
    assert Affine(((b << 6) | (b >> 2)) ^ ((b << 3) | (b >> 5)) ^ ((b << 1) | (b >> 7)) ^ 0x05) == b;
  }

  lemma SBoxInverse(b: bv8)
    ensures InvSBox(SBox(b)) == b
    ensures SBox(InvSBox(b)) == b
  {
    AffineInverse(Inverse(b));
    InverseInvolution(b);
    InverseInvolution(InvAffine(b));
    AffineInverse(b);
  }

  // ----- the four transformations, sections 5.1.1 to 5.1.4 and 5.3.1 to 5.3.4

  function AddColumn(a: Column, b: Column): Column {
    Column(Add(a.s0, b.s0), Add(a.s1, b.s1), Add(a.s2, b.s2), Add(a.s3, b.s3))
  }

  function AddRoundKey(s: State, k: State): State {
    State(AddColumn(s.c0, k.c0), AddColumn(s.c1, k.c1), AddColumn(s.c2, k.c2), AddColumn(s.c3, k.c3))
  }

  ghost function SubColumn(c: Column): Column {
    Column(SBox(c.s0), SBox(c.s1), SBox(c.s2), SBox(c.s3))
  }

  ghost function SubBytes(s: State): State {
    State(SubColumn(s.c0), SubColumn(s.c1), SubColumn(s.c2), SubColumn(s.c3))
  }

  ghost function InvSubColumn(c: Column): Column {
    Column(InvSBox(c.s0), InvSBox(c.s1), InvSBox(c.s2), InvSBox(c.s3))
  }

  ghost function InvSubBytes(s: State): State {
    State(InvSubColumn(s.c0), InvSubColumn(s.c1), InvSubColumn(s.c2), InvSubColumn(s.c3))
  }

  /** Row r moves r places to the left. */
  function ShiftRows(s: State): State {
    State(Column(s.c0.s0, s.c1.s1, s.c2.s2, s.c3.s3),
          Column(s.c1.s0, s.c2.s1, s.c3.s2, s.c0.s3),
          Column(s.c2.s0, s.c3.s1, s.c0.s2, s.c1.s3),
          Column(s.c3.s0, s.c0.s1, s.c1.s2, s.c2.s3))
  }

  /** Row r moves r places to the right. */
  function InvShiftRows(s: State): State {
    State(Column(s.c0.s0, s.c3.s1, s.c2.s2, s.c1.s3),
          Column(s.c1.s0, s.c0.s1, s.c3.s2, s.c2.s3),
          Column(s.c2.s0, s.c1.s1, s.c0.s2, s.c3.s3),
          Column(s.c3.s0, s.c2.s1, s.c1.s2, s.c0.s3))
  }

  function MixRow(a: bv8, b: bv8, c: bv8, d: bv8): bv8 {
    Sum4(Mul(2, a), Mul(3, b), c, d)
  }

  function MixColumn(c: Column): Column {
    Column(MixRow(c.s0, c.s1, c.s2, c.s3), MixRow(c.s1, c.s2, c.s3, c.s0),
           MixRow(c.s2, c.s3, c.s0, c.s1), MixRow(c.s3, c.s0, c.s1, c.s2))
  }

  function MixColumns(s: State): State {
    State(MixColumn(s.c0), MixColumn(s.c1), MixColumn(s.c2), MixColumn(s.c3))
  }

  function InvMixRow(a: bv8, b: bv8, c: bv8, d: bv8): bv8 {
    Sum4(Mul(14, a), Mul(11, b), Mul(13, c), Mul(9, d))
  }

  function InvMixColumn(c: Column): Column {
    Column(InvMixRow(c.s0, c.s1, c.s2, c.s3), InvMixRow(c.s1, c.s2, c.s3, c.s0),
           InvMixRow(c.s2, c.s3, c.s0, c.s1), InvMixRow(c.s3, c.s0, c.s1, c.s2))
  }

  function InvMixColumns(s: State): State {
    State(InvMixColumn(s.c0), InvMixColumn(s.c1), InvMixColumn(s.c2), InvMixColumn(s.c3))
  }

  // ----- sums of products

  lemma Sum4Transpose(a0: bv8, a1: bv8, a2: bv8, a3: bv8, b0: bv8, b1: bv8, b2: bv8, b3: bv8,
                      c0: bv8, c1: bv8, c2: bv8, c3: bv8, d0: bv8, d1: bv8, d2: bv8, d3: bv8)
    ensures Sum4(Sum4(a0, a1, a2, a3), Sum4(b0, b1, b2, b3), Sum4(c0, c1, c2, c3), Sum4(d0, d1, d2, d3)) ==
            Sum4(Sum4(a0, b0, c0, d0), Sum4(a1, b1, c1, d1), Sum4(a2, b2, c2, d2), Sum4(a3, b3, c3, d3))
  {
    assert Sum4(a0 ^ a1 ^ a2 ^ a3, b0 ^ b1 ^ b2 ^ b3, c0 ^ c1 ^ c2 ^ c3, d0 ^ d1 ^ d2 ^ d3) ==
           Sum4(a0 ^ b0 ^ c0 ^ d0, a1 ^ b1 ^ c1 ^ d1, a2 ^ b2 ^ c2 ^ d2, a3 ^ b3 ^ c3 ^ d3);
  }

  lemma Sum4Pairs(p: bv8, q: bv8, r: bv8, s: bv8)
    ensures Sum4(p, q, r, s) == Add(Add(p, q), Add(r, s))
  {
    assert Add(p ^ q, r ^ s) == p ^ q ^ r ^ s;
  }

  lemma Sum4Add(p: bv8, q: bv8, r: bv8, s: bv8, p': bv8, q': bv8, r': bv8, s': bv8)
    ensures Sum4(Add(p, p'), Add(q, q'), Add(r, r'), Add(s, s')) == Add(Sum4(p, q, r, s), Sum4(p', q', r', s'))
  {
    assert Sum4(p ^ p', q ^ q', r ^ r', s ^ s') == Add(p ^ q ^ r ^ s, p' ^ q' ^ r' ^ s');
  }

  lemma MulSum4(a: bv8, p: bv8, q: bv8, r: bv8, s: bv8)
    ensures Mul(a, Sum4(p, q, r, s)) == Sum4(Mul(a, p), Mul(a, q), Mul(a, r), Mul(a, s))
  {
    Sum4Pairs(p, q, r, s);
    MulAdd(a, Add(p, q), Add(r, s));
    MulAdd(a, p, q);
    MulAdd(a, r, s);
    Sum4Pairs(Mul(a, p), Mul(a, q), Mul(a, r), Mul(a, s));
  }

  lemma Sum4Mul(p: bv8, q: bv8, r: bv8, s: bv8, a: bv8)
    ensures Sum4(Mul(p, a), Mul(q, a), Mul(r, a), Mul(s, a)) == Mul(Sum4(p, q, r, s), a)
  {
    MulCommutes(p, a);
    MulCommutes(q, a);
    MulCommutes(r, a);
    MulCommutes(s, a);
    MulCommutes(Sum4(p, q, r, s), a);
    MulSum4(a, p, q, r, s);
  }

  lemma MulTwoThree(b: bv8)
    ensures Mul(2, b) == XTime(b) && Mul(3, b) == Triple(b)
  {
    assert Mul(1, XTime(b)) == XTime(b);
  }

  /** The coefficient of one byte in a row of InvMixColumn(MixColumn(c)). */
  lemma CoefficientSum(p: bv8, q: bv8, r: bv8, s: bv8, a: bv8)
    ensures Sum4(Mul(14, Mul(p, a)), Mul(11, Mul(q, a)), Mul(13, Mul(r, a)), Mul(9, Mul(s, a))) ==
            Mul(Sum4(Mul(p, 14), Mul(q, 11), Mul(r, 13), Mul(s, 9)), a)
  {
    MulAssociates(14, p, a);
    MulAssociates(11, q, a);
    MulAssociates(13, r, a);
    MulAssociates(9, s, a);
    MulCommutes(14, p);
    MulCommutes(11, q);
    MulCommutes(13, r);
    MulCommutes(9, s);
    Sum4Mul(Mul(14, p), Mul(11, q), Mul(13, r), Mul(9, s), a);
  }

  lemma Coefficients(a: bv8)
    ensures Sum4(Mul(14, Mul(2, a)), Mul(11, a), Mul(13, a), Mul(9, Mul(3, a))) == a
    ensures Sum4(Mul(14, Mul(3, a)), Mul(11, Mul(2, a)), Mul(13, a), Mul(9, a)) == 0
    ensures Sum4(Mul(14, a), Mul(11, Mul(3, a)), Mul(13, Mul(2, a)), Mul(9, a)) == 0
    ensures Sum4(Mul(14, a), Mul(11, a), Mul(13, Mul(3, a)), Mul(9, Mul(2, a))) == 0
  {
    assert Mul(1, a) == a;
    CoefficientSum(2, 1, 1, 3, a);
    CoefficientSum(3, 2, 1, 1, a);
    CoefficientSum(1, 3, 2, 1, a);
    CoefficientSum(1, 1, 3, 2, a);
    MulTwoThree(14);
    MulTwoThree(11);
    MulTwoThree(13);
    MulTwoThree(9);
    assert Sum4(Mul(2, 14), Mul(1, 11), Mul(1, 13), Mul(3, 9)) == 1;
    assert Sum4(Mul(3, 14), Mul(2, 11), Mul(1, 13), Mul(1, 9)) == 0;
    assert Sum4(Mul(1, 14), Mul(3, 11), Mul(2, 13), Mul(1, 9)) == 0;
    assert Sum4(Mul(1, 14), Mul(1, 11), Mul(3, 13), Mul(2, 9)) == 0;
  }

  lemma Sum4Rotate(p: bv8, q: bv8, r: bv8, s: bv8)
    ensures Sum4(p, q, r, s) == Sum4(s, p, q, r)
  {
    assert p ^ q ^ r ^ s == s ^ p ^ q ^ r;
  }

  lemma InvMixRowOfMixRows(a: bv8, b: bv8, c: bv8, d: bv8)
    ensures InvMixRow(MixRow(a, b, c, d), MixRow(b, c, d, a), MixRow(c, d, a, b), MixRow(d, a, b, c)) == a
  {
    Sum4Rotate(Mul(2, b), Mul(3, c), d, a);
    Sum4Rotate(Mul(2, c), Mul(3, d), a, b);
    Sum4Rotate(b, Mul(2, c), Mul(3, d), a);
    Sum4Rotate(Mul(2, d), Mul(3, a), b, c);
    Sum4Rotate(c, Mul(2, d), Mul(3, a), b);
    Sum4Rotate(b, c, Mul(2, d), Mul(3, a));
    MulSum4(14, Mul(2, a), Mul(3, b), c, d);
    MulSum4(11, a, Mul(2, b), Mul(3, c), d);
    MulSum4(13, a, b, Mul(2, c), Mul(3, d));
    MulSum4(9, Mul(3, a), b, c, Mul(2, d));
    Sum4Transpose(Mul(14, Mul(2, a)), Mul(14, Mul(3, b)), Mul(14, c), Mul(14, d),
                  Mul(11, a), Mul(11, Mul(2, b)), Mul(11, Mul(3, c)), Mul(11, d),
                  Mul(13, a), Mul(13, b), Mul(13, Mul(2, c)), Mul(13, Mul(3, d)),
                  Mul(9, Mul(3, a)), Mul(9, b), Mul(9, c), Mul(9, Mul(2, d)));
    Coefficients(a);
    Coefficients(b);
    Coefficients(c);
    Coefficients(d);
    assert Sum4(a, 0, 0, 0) == a;
  }

  /** InvMixColumns undoes MixColumns. */
  lemma InvMixColumnOfMixColumn(c: Column)
    ensures InvMixColumn(MixColumn(c)) == c
  {
    InvMixRowOfMixRows(c.s0, c.s1, c.s2, c.s3);
    InvMixRowOfMixRows(c.s1, c.s2, c.s3, c.s0);
    InvMixRowOfMixRows(c.s2, c.s3, c.s0, c.s1);
    InvMixRowOfMixRows(c.s3, c.s0, c.s1, c.s2);
  }

  lemma InvMixRowAdd(a: bv8, b: bv8, c: bv8, d: bv8, a': bv8, b': bv8, c': bv8, d': bv8)
    ensures InvMixRow(Add(a, a'), Add(b, b'), Add(c, c'), Add(d, d')) == Add(InvMixRow(a, b, c, d), InvMixRow(a', b', c', d'))
  {
    MulAdd(14, a, a');
    MulAdd(11, b, b');
    MulAdd(13, c, c');
    MulAdd(9, d, d');
    Sum4Add(Mul(14, a), Mul(11, b), Mul(13, c), Mul(9, d), Mul(14, a'), Mul(11, b'), Mul(13, c'), Mul(9, d'));
  }

  /** InvMixColumns is linear, which is what lets a round key pass through it. */
  lemma InvMixColumnAdd(c: Column, k: Column)
    ensures InvMixColumn(AddColumn(c, k)) == AddColumn(InvMixColumn(c), InvMixColumn(k))
  {
    InvMixRowAdd(c.s0, c.s1, c.s2, c.s3, k.s0, k.s1, k.s2, k.s3);
    InvMixRowAdd(c.s1, c.s2, c.s3, c.s0, k.s1, k.s2, k.s3, k.s0);
    InvMixRowAdd(c.s2, c.s3, c.s0, c.s1, k.s2, k.s3, k.s0, k.s1);
    InvMixRowAdd(c.s3, c.s0, c.s1, c.s2, k.s3, k.s0, k.s1, k.s2);
  }

  lemma AddCancels(a: bv8, b: bv8)
    ensures Add(Add(a, b), b) == a
  {
    assert Add(a ^ b, b) == a;
  }

  lemma AddColumnCancels(c: Column, k: Column)
    ensures AddColumn(AddColumn(c, k), k) == c
  {
    AddCancels(c.s0, k.s0);
    AddCancels(c.s1, k.s1);
    AddCancels(c.s2, k.s2);
    AddCancels(c.s3, k.s3);
  }

  // ----- the cipher, sections 5.1, 5.3 and 5.3.5

  /** The four words of a schedule that round r uses. */
  function RoundKey(w: seq<Column>, r: nat): State
    requires 4 * r + 4 <= |w|
  {
    State(w[4 * r], w[4 * r + 1], w[4 * r + 2], w[4 * r + 3])
  }

  ghost function Round(s: State, k: State): State {
    AddRoundKey(MixColumns(ShiftRows(SubBytes(s))), k)
  }

  ghost function LastRound(s: State, k: State): State {
    AddRoundKey(ShiftRows(SubBytes(s)), k)
  }

  /** The state of the cipher after its first key addition and r full rounds. */
  ghost function Rounds(s: State, w: seq<Column>, r: nat): State
    requires 4 * r + 4 <= |w|
  {
    if r == 0 then AddRoundKey(s, RoundKey(w, 0))
    else Round(Rounds(s, w, r - 1), RoundKey(w, r))
  }

  /** The cipher with n full rounds and a last one, so Nr of section 5 is n + 1. */
  ghost function Cipher(s: State, w: seq<Column>, n: nat): State
    requires |w| == 4 * n + 8
  {
    LastRound(Rounds(s, w, n), RoundKey(w, n + 1))
  }

  ghost function EqInvRound(s: State, k: State): State {
    AddRoundKey(InvMixColumns(InvShiftRows(InvSubBytes(s))), k)
  }

  ghost function EqInvLastRound(s: State, k: State): State {
    AddRoundKey(InvShiftRows(InvSubBytes(s)), k)
  }

  /** The state of the equivalent inverse cipher once it has used the round keys from n + 1 down to p + 1. */
  ghost function EqInvRounds(s: State, dw: seq<Column>, n: nat, p: nat): State
    requires p <= n && |dw| == 4 * n + 8
    decreases n - p
  {
    if p == n then AddRoundKey(s, RoundKey(dw, p + 1))
    else EqInvRound(EqInvRounds(s, dw, n, p + 1), RoundKey(dw, p + 1))
  }

  ghost function EqInvCipher(s: State, dw: seq<Column>, n: nat): State
    requires |dw| == 4 * n + 8
  {
    EqInvLastRound(EqInvRounds(s, dw, n, 0), RoundKey(dw, 0))
  }

  ghost function InvRound(s: State, k: State): State {
    InvMixColumns(AddRoundKey(InvSubBytes(InvShiftRows(s)), k))
  }

  ghost function InvRounds(s: State, w: seq<Column>, n: nat, p: nat): State
    requires p <= n && |w| == 4 * n + 8
    decreases n - p
  {
    if p == n then AddRoundKey(s, RoundKey(w, p + 1))
    else InvRound(InvRounds(s, w, n, p + 1), RoundKey(w, p + 1))
  }

  /** The straightforward inverse cipher of section 5.3. */
  ghost function InvCipher(s: State, w: seq<Column>, n: nat): State
    requires |w| == 4 * n + 8
  {
    AddRoundKey(InvSubBytes(InvShiftRows(InvRounds(s, w, n, 0))), RoundKey(w, 0))
  }

  /** dw is the decryption schedule of w: InvMixColumns applied to all but the first and last round keys. */
  ghost predicate DecryptionSchedule(w: seq<Column>, dw: seq<Column>, n: nat) {
    && |w| == |dw| == 4 * n + 8
    && (forall i :: 4 <= i < 4 * n + 4 ==> dw[i] == InvMixColumn(w[i]))
    && (forall i :: 0 <= i < 4 || 4 * n + 4 <= i < |w| ==> dw[i] == w[i])
  }

  // ----- decryption undoes encryption

  lemma SubBytesInverse(s: State)
    ensures InvSubBytes(SubBytes(s)) == s
  {
    forall b: bv8 ensures InvSBox(SBox(b)) == b { SBoxInverse(b); }
  }

  lemma ShiftRowsInverse(s: State)
    ensures InvShiftRows(ShiftRows(s)) == s
  {
  }

  lemma ShiftAndSubCommute(s: State)
    ensures InvShiftRows(InvSubBytes(s)) == InvSubBytes(InvShiftRows(s))
  {
  }

  lemma AddRoundKeyCancels(s: State, k: State)
    ensures AddRoundKey(AddRoundKey(s, k), k) == s
  {
    AddColumnCancels(s.c0, k.c0);
    AddColumnCancels(s.c1, k.c1);
    AddColumnCancels(s.c2, k.c2);
    AddColumnCancels(s.c3, k.c3);
  }

  lemma InvMixColumnsOfRound(s: State, k: State)
    ensures InvMixColumns(AddRoundKey(MixColumns(s), k)) == AddRoundKey(s, InvMixColumns(k))
  {
    InvMixColumnAdd(MixColumn(s.c0), k.c0);
    InvMixColumnAdd(MixColumn(s.c1), k.c1);
    InvMixColumnAdd(MixColumn(s.c2), k.c2);
    InvMixColumnAdd(MixColumn(s.c3), k.c3);
    InvMixColumnOfMixColumn(s.c0);
    InvMixColumnOfMixColumn(s.c1);
    InvMixColumnOfMixColumn(s.c2);
    InvMixColumnOfMixColumn(s.c3);
  }

  lemma SubAndShiftInverse(s: State)
    ensures InvShiftRows(InvSubBytes(ShiftRows(SubBytes(s)))) == s
  {
    ShiftAndSubCommute(ShiftRows(SubBytes(s)));
    ShiftRowsInverse(SubBytes(s));
    SubBytesInverse(s);
  }

  /** One round of the equivalent inverse cipher takes back one round of the cipher. */
  lemma EqInvRoundOfRound(s: State, k: State)
    ensures EqInvRound(ShiftRows(SubBytes(Round(s, k))), InvMixColumns(k)) == ShiftRows(SubBytes(s))
  {
    SubAndShiftInverse(Round(s, k));
    InvMixColumnsOfRound(ShiftRows(SubBytes(s)), k);
    AddRoundKeyCancels(ShiftRows(SubBytes(s)), InvMixColumns(k));
  }

  lemma DecryptionRoundKey(w: seq<Column>, dw: seq<Column>, n: nat, r: nat)
    requires r <= n + 1 && DecryptionSchedule(w, dw, n)
    ensures RoundKey(dw, r) == if r == 0 || r == n + 1 then RoundKey(w, r) else InvMixColumns(RoundKey(w, r))
  {
  }

  lemma EqInvRoundsStart(s: State, k: State, c: State, dw: seq<Column>, n: nat)
    requires |dw| == 4 * n + 8 && RoundKey(dw, n + 1) == k && c == LastRound(s, k)
    ensures EqInvRounds(c, dw, n, n) == ShiftRows(SubBytes(s))
  {
    AddRoundKeyCancels(ShiftRows(SubBytes(s)), k);
  }

  lemma EqInvRoundsStep(s: State, k: State, c: State, dw: seq<Column>, n: nat, p: nat)
    requires p < n && |dw| == 4 * n + 8 && RoundKey(dw, p + 1) == InvMixColumns(k)
    requires EqInvRounds(c, dw, n, p + 1) == ShiftRows(SubBytes(Round(s, k)))
    ensures EqInvRounds(c, dw, n, p) == ShiftRows(SubBytes(s))
  {
    EqInvRoundOfRound(s, k);
  }

  /** The inverse cipher meets, in reverse order, the states of the forward one, substituted and shifted. */
  lemma {:induction false} InverseRetraces(s: State, w: seq<Column>, dw: seq<Column>, n: nat, p: nat)
    requires p <= n && DecryptionSchedule(w, dw, n)
    ensures EqInvRounds(Cipher(s, w, n), dw, n, p) == ShiftRows(SubBytes(Rounds(s, w, p)))
    decreases n - p
  {
    hide AddRoundKey, SubBytes, ShiftRows, MixColumns, InvMixColumns, Round, LastRound, EqInvRound, InvMixColumn;
    var c := Cipher(s, w, n);
    DecryptionRoundKey(w, dw, n, p + 1);
    if p == n {
      EqInvRoundsStart(Rounds(s, w, p), RoundKey(w, p + 1), c, dw, p);
    } else {
      InverseRetraces(s, w, dw, n, p + 1);
      EqInvRoundsStep(Rounds(s, w, p), RoundKey(w, p + 1), c, dw, n, p);
    }
  }

  /** The equivalent inverse cipher undoes the cipher. */
  lemma EqInvCipherOfCipher(s: State, w: seq<Column>, dw: seq<Column>, n: nat)
    requires DecryptionSchedule(w, dw, n)
    ensures EqInvCipher(Cipher(s, w, n), dw, n) == s
  {
    InverseRetraces(s, w, dw, n, 0);
    DecryptionRoundKey(w, dw, n, 0);
    SubAndShiftInverse(Rounds(s, w, 0));
    AddRoundKeyCancels(s, RoundKey(w, 0));
  }

  lemma InvMixColumnsAdd(s: State, k: State)
    ensures InvMixColumns(AddRoundKey(s, k)) == AddRoundKey(InvMixColumns(s), InvMixColumns(k))
  {
    InvMixColumnAdd(s.c0, k.c0);
    InvMixColumnAdd(s.c1, k.c1);
    InvMixColumnAdd(s.c2, k.c2);
    InvMixColumnAdd(s.c3, k.c3);
  }

  lemma EqInvRoundIsInvRound(s: State, k: State)
    ensures EqInvRound(s, InvMixColumns(k)) == InvRound(s, k)
  {
    ShiftAndSubCommute(s);
    InvMixColumnsAdd(InvSubBytes(InvShiftRows(s)), k);
  }

  lemma {:induction false} EqInvRoundsAreInvRounds(s: State, w: seq<Column>, dw: seq<Column>, n: nat, p: nat)
    requires p <= n && DecryptionSchedule(w, dw, n)
    ensures EqInvRounds(s, dw, n, p) == InvRounds(s, w, n, p)
    decreases n - p
  {
    hide AddRoundKey, InvSubBytes, InvShiftRows, InvMixColumns, InvMixColumn, EqInvRound, InvRound;
    DecryptionRoundKey(w, dw, n, p + 1);
    if p != n {
      EqInvRoundsAreInvRounds(s, w, dw, n, p + 1);
      EqInvRoundIsInvRound(InvRounds(s, w, n, p + 1), RoundKey(w, p + 1));
    }
  }

  /** On every block, not only on blocks some encryption produced, the two inverse ciphers agree. */
  lemma EqInvCipherIsInvCipher(s: State, w: seq<Column>, dw: seq<Column>, n: nat)
    requires DecryptionSchedule(w, dw, n)
    ensures EqInvCipher(s, dw, n) == InvCipher(s, w, n)
  {
    EqInvRoundsAreInvRounds(s, w, dw, n, 0);
    DecryptionRoundKey(w, dw, n, 0);
    ShiftAndSubCommute(InvRounds(s, w, n, 0));
  }

  // ----- the key schedule, section 5.2

  /** x^n, the round constants of section 5.2 of FIPS 197. */
  function XPower(n: nat): bv8 {
    if n == 0 then 1 else XTime(XPower(n - 1))
  }

  function RotColumn(c: Column): Column {
    Column(c.s1, c.s2, c.s3, c.s0)
  }

  predicate KeySize(nk: nat) {
    nk == 4 || nk == 6 || nk == 8
  }

  /** What word i of the schedule adds to the word nk places before it. */
  ghost function KeyStep(nk: nat, i: nat, prev: Column): Column
    requires KeySize(nk) && nk <= i
  {
    if i % nk == 0 then AddColumn(SubColumn(RotColumn(prev)), Column(XPower(i / nk - 1), 0, 0, 0))
    else if nk > 6 && i % nk == 4 then SubColumn(prev)
    else prev
  }

  /** Word i of the key schedule. */
  ghost function KeyWord(key: seq<Column>, i: nat): Column
    requires KeySize(|key|)
  {
    if i < |key| then key[i]
    else AddColumn(KeyStep(|key|, i, KeyWord(key, i - 1)), KeyWord(key, i - |key|))
  }

  /** The number of full rounds, one less than Nr. */
  function FullRounds(nk: nat): nat {
    nk + 5
  }

  ghost function Schedule(key: seq<Column>): (w: seq<Column>)
    requires KeySize(|key|)
    ensures |w| == 4 * FullRounds(|key|) + 8
  {
    seq(4 * FullRounds(|key|) + 8, i requires 0 <= i => KeyWord(key, i))
  }

  ghost function InvSchedule(key: seq<Column>): (dw: seq<Column>)
    requires KeySize(|key|)
    ensures |dw| == 4 * FullRounds(|key|) + 8
  {
    var n := FullRounds(|key|);
    seq(4 * n + 8, i requires 0 <= i =>
      if 4 <= i < 4 * n + 4 then InvMixColumn(KeyWord(key, i)) else KeyWord(key, i))
  }

  lemma SchedulesMatch(key: seq<Column>)
    requires KeySize(|key|)
    ensures DecryptionSchedule(Schedule(key), InvSchedule(key), FullRounds(|key|))
  {
    hide InvMixColumn, KeyWord;
  }
}
