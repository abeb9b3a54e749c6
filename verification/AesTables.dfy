/** The lookup tables of the cipher and the loops that fill them. */
module AesTables {
  import opened GaloisField
  import opened Fips197

  // ----- words and bytes

  function Byte(x: bv32, n: bv6): bv8
    requires n < 4
  {
    ((x >> (n << 3)) & 0xff) as bv8
  }

  function Rotl(x: bv32, n: bv6): bv32
    requires 0 < n < 32
  {
    (x << n) | (x >> (32 - n))
  }

  function Rotr(x: bv32, n: bv6): bv32
    requires 0 < n < 32
  {
    (x >> n) | (x << (32 - n))
  }

  /** The column a little-endian word holds, first row in the low byte. */
  function ToColumn(x: bv32): Column {
    Column(Byte(x, 0), Byte(x, 1), Byte(x, 2), Byte(x, 3))
  }

  function Pack(a: bv8, b: bv8, c: bv8, d: bv8): bv32 {
    (a as bv32) | ((b as bv32) << 8) | ((c as bv32) << 16) | ((d as bv32) << 24)
  }

  lemma PackColumn(a: bv8, b: bv8, c: bv8, d: bv8)
    ensures ToColumn(Pack(a, b, c, d)) == Column(a, b, c, d)
  {
  }

  lemma RotlColumn8(x: bv32)
    ensures var c := ToColumn(x); ToColumn(Rotl(x, 8)) == Column(c.s3, c.s0, c.s1, c.s2)
  {
  }

  lemma RotlColumn16(x: bv32)
    ensures var c := ToColumn(x); ToColumn(Rotl(x, 16)) == Column(c.s2, c.s3, c.s0, c.s1)
  {
  }

  lemma RotlColumn24(x: bv32)
    ensures var c := ToColumn(x); ToColumn(Rotl(x, 24)) == Column(c.s1, c.s2, c.s3, c.s0)
  {
  }

  lemma RotrColumn(x: bv32)
    ensures var c := ToColumn(x); ToColumn(Rotr(x, 8)) == Column(c.s1, c.s2, c.s3, c.s0)
  {
  }

  lemma RotrColumn16(x: bv32)
    ensures var c := ToColumn(x); ToColumn(Rotr(x, 16)) == Column(c.s2, c.s3, c.s0, c.s1)
  {
  }

  lemma RotrColumn24(x: bv32)
    ensures var c := ToColumn(x); ToColumn(Rotr(x, 24)) == Column(c.s3, c.s0, c.s1, c.s2)
  {
  }

  lemma XorColumn(x: bv32, y: bv32)
    ensures ToColumn(x ^ y) == AddColumn(ToColumn(x), ToColumn(y))
  {
    assert Byte(x ^ y, 0) == Add((x & 0xff) as bv8, (y & 0xff) as bv8);
    assert Byte(x ^ y, 1) == Add(((x >> 8) & 0xff) as bv8, ((y >> 8) & 0xff) as bv8);
    assert Byte(x ^ y, 2) == Add(((x >> 16) & 0xff) as bv8, ((y >> 16) & 0xff) as bv8);
    assert Byte(x ^ y, 3) == Add(((x >> 24) & 0xff) as bv8, ((y >> 24) & 0xff) as bv8);
  }

  // ----- what the tables hold

  /** Rotates the rows of a column down by r places. */
  function Down(c: Column, r: nat): Column
    requires r < 4
  {
    if r == 0 then c
    else if r == 1 then Column(c.s3, c.s0, c.s1, c.s2)
    else if r == 2 then Column(c.s2, c.s3, c.s0, c.s1)
    else Column(c.s1, c.s2, c.s3, c.s0)
  }

  /** The share of a byte s of row 0 in a MixColumns result. */
  function MixShare(s: bv8): Column {
    Column(Mul(2, s), s, s, Mul(3, s))
  }

  /** The share of a byte s of row 0 in an InvMixColumns result. */
  function InvMixShare(s: bv8): Column {
    Column(Mul(14, s), Mul(9, s), Mul(13, s), Mul(11, s))
  }

  ghost predicate PowersUpTo(pow: array<bv8>, n: nat)
    requires pow.Length == 256 && n <= 256
    reads pow
  {
    forall k :: 0 <= k < n ==> pow[k] == Pow(k)
  }

  lemma PowZero()
    ensures Pow(0) == 1
  {
  }

  lemma PowNext(n: nat)
    ensures Pow(n + 1) == Triple(Pow(n))
  {
  }

  /** The values of an unsigned char. */
  type u8 = n: nat | n < 256

  /** Every exponent from lo up to n is the logarithm of its power. */
  ghost predicate LogsBetween(log: array<u8>, lo: nat, n: nat)
    requires log.Length == 256
    reads log
  {
    forall k {:trigger Pow(k)} :: lo <= k < n ==> log[Pow(k) as int] == k
  }

  /** The conversion of a loop counter to an unsigned char. */
  function Cast(k: u8): bv8 {
    k as bv8
  }

  lemma CastIndex(k: u8)
    ensures Cast(k) as int == k
  {
    ByteOfNat(k);
  }

  lemma IndexCast(b: bv8)
    ensures 0 <= b as int < 256 && Cast(b as int) == b
  {
  }

  lemma ByteIndex(a: bv8, b: bv8)
    ensures a as int == b as int ==> a == b
    ensures 0 <= a as int < 256
  {
    assert a as int as bv8 == a;
    assert b as int as bv8 == b;
  }

  lemma StepIsTriple(p: bv8)
    ensures p ^ (p << 1) ^ (if p & 0x80 != 0 then 0x1b else 0) == Triple(p)
  {
    if p & 0x80 != 0 {
      assert p >> 7 == 1;
      assert Triple(p) == p ^ (p << 1) ^ 0x1b;
    } else {
      assert p >> 7 == 0;
      assert Triple(p) == p ^ (p << 1);
    }
  }

  lemma PowIndices(i: nat, k: nat)
    requires k < i <= 255 && (i == 255 ==> k != 0)
    ensures Pow(k) as int != Pow(i) as int
  {
    ByteIndex(Pow(k), Pow(i));
    if i == 255 {
      PowPeriod(i);
      PowNotUnit(k);
    } else {
      PowInjective(k, i);
    }
  }

  class Tables {
    const powTab: array<bv8>
    const logTab: array<u8>
    const sbxTab: array<bv8>
    const isbTab: array<bv8>
    const rcoTab: array<bv32>
    const ftTab: array2<bv32>
    const itTab: array2<bv32>
    const flTab: array2<bv32>
    const ilTab: array2<bv32>

    ghost function Arrays(): set<object> {
      {powTab as object, logTab, sbxTab, isbTab, rcoTab, ftTab, itTab, flTab, ilTab}
    }

    ghost predicate Shape() {
      && powTab.Length == logTab.Length == sbxTab.Length == isbTab.Length == 256
      && rcoTab.Length == 10
      && ftTab.Length0 == itTab.Length0 == flTab.Length0 == ilTab.Length0 == 4
      && ftTab.Length1 == itTab.Length1 == flTab.Length1 == ilTab.Length1 == 256
      && powTab != sbxTab && powTab != isbTab && sbxTab != isbTab
      && logTab as object !in {powTab, sbxTab, isbTab}
      && ftTab != itTab && ftTab != flTab && ftTab != ilTab && itTab != flTab && itTab != ilTab && flTab != ilTab
    }

    ghost predicate LogsValid()
      requires Shape()
      reads powTab, logTab
    {
      && PowersUpTo(powTab, 256)
      && LogsBetween(logTab, 0, 255)
    }

    /** Multiplication by logarithms; aa and cc are unsigned chars, so their sum wraps at 256. */
    function FMult(a: bv8, b: bv8): bv8
      requires Shape()
      requires LogsValid() && a != 0 && b != 0
      reads powTab, logTab
    {
      var aa: int, bb: int := logTab[a as int], logTab[b as int];
      var cc := (aa + bb) % 256;
      powTab[cc + if cc < aa then 1 else 0]
    }

    function FFMult(a: bv8, b: bv8): bv8
      requires Shape() && LogsValid()
      reads powTab, logTab
    {
      if a != 0 && b != 0 then FMult(a, b) else 0
    }

    /** The logarithm tables multiply in the field. */
    lemma FMultIsMul(a: bv8, b: bv8)
      requires Shape()
      requires LogsValid() && a != 0 && b != 0
      ensures FMult(a, b) == Mul(a, b)
    {
      var i, j := Log(a), Log(b);
      LogAt(a);
      LogAt(b);
      FMultIndex(a, b, i, j);
      MulLogs(a, b);
    }

    lemma LogAt(a: bv8)
      requires Shape()
      requires LogsValid() && a != 0
      ensures logTab[a as int] == Log(a)
    {
      assert Pow(Log(a)) == a;
    }

    lemma FMultIndex(a: bv8, b: bv8, i: u8, j: u8)
      requires Shape()
      requires LogsValid() && a != 0 && b != 0
      requires logTab[a as int] == i && logTab[b as int] == j
      ensures FMult(a, b) == Pow(if i + j < 256 then i + j else i + j - 255)
    {
      hide Pow;
    }

    constructor ()
      ensures Shape()
      ensures fresh(powTab) && fresh(logTab) && fresh(sbxTab) && fresh(isbTab) && fresh(rcoTab)
      ensures fresh(ftTab) && fresh(itTab) && fresh(flTab) && fresh(ilTab)
    {
      powTab, logTab, sbxTab, isbTab := new bv8[256], new u8[256](_ => 0), new bv8[256], new bv8[256];
      rcoTab := new bv32[10];
      ftTab, itTab, flTab, ilTab := new bv32[4, 256], new bv32[4, 256], new bv32[4, 256], new bv32[4, 256];
    }

    method GenLogs()
      requires Shape()
      modifies powTab, logTab
      ensures LogsValid()
    {
      hide Triple, Pow;
      var p: bv8 := 1;
      PowZero();
      for i := 0 to 256
        invariant p == Pow(i)
        invariant PowersUpTo(powTab, i)
        invariant i < 256 ==> LogsBetween(logTab, 0, i)
        invariant i == 256 ==> LogsBetween(logTab, 1, 255) && logTab[1] == 255
      {
        ByteIndex(p, p);
        forall k | 0 <= k < i && (i == 255 ==> k != 0) ensures Pow(k) as int != p as int { PowIndices(i, k); }
        PowPeriod(255);
        StepIsTriple(p);
        PowNext(i);
        powTab[i] := p;
        logTab[p as int] := i;
        p := p ^ (p << 1) ^ (if p & 0x80 != 0 then 0x1b else 0);
      }
      forall k | 0 < k < 255 ensures Pow(k) as int != 1 { PowIndices(255, k); PowPeriod(255); }
      logTab[1] := 0;
    }

    ghost predicate RoundConstantsValid()
      requires Shape()
      reads rcoTab
    {
      forall k :: 0 <= k < 10 ==> ToColumn(rcoTab[k]) == Column(XPower(k), 0, 0, 0)
    }

    ghost predicate SBoxesValid()
      requires Shape()
      reads sbxTab, isbTab
    {
      && (forall b: bv8 :: sbxTab[b as int] == SBox(b))
      && (forall b: bv8 :: isbTab[b as int] == InvSBox(b))
    }

    method GenRoundConstants()
      requires Shape()
      modifies rcoTab
      ensures RoundConstantsValid()
    {
      hide XTime;
      var p: bv8 := 1;
      for i := 0 to 10
        invariant p == XPower(i)
        invariant forall k :: 0 <= k < i ==> ToColumn(rcoTab[k]) == Column(XPower(k), 0, 0, 0)
      {
        rcoTab[i] := p as bv32;
        WordOfByte(p);
        XTimeIsConditional(p);
        p := (p << 1) ^ (if p & 0x80 != 0 then 0x1b else 0);
      }
    }

    ghost predicate SBoxesUpTo(n: nat)
      requires Shape() && n <= 256
      reads sbxTab, isbTab
    {
      && (forall k {:trigger Cast(k)} :: 0 <= k < n ==> sbxTab[k] == SBox(Cast(k)))
      && (forall k {:trigger Cast(k)} :: 0 <= k < n ==> isbTab[SBox(Cast(k)) as int] == Cast(k))
    }

    method GenSBoxes()
      requires Shape() && LogsValid()
      modifies sbxTab, isbTab
      ensures LogsValid() && SBoxesValid()
    {
      hide Affine, ShiftSum, Inverse, SBox, InvSBox, Pow, Cast;
      for i := 0 to 256
        invariant LogsValid()
        invariant SBoxesUpTo(i)
      {
        CastIndex(i);
        var p: bv8 := if i != 0 then powTab[255 - logTab[i]] else 0;
        InverseByTables(Cast(i));
        BoxByShifts(Cast(i), p);
        p := ShiftSum(p);
        PutBox(i, p);
      }
      SBoxesFilled();
    }

    /** The last two lines of the loop over the boxes. */
    method PutBox(i: nat, p: bv8)
      requires Shape() && i < 256 && SBoxesUpTo(i) && p == SBox(Cast(i))
      modifies sbxTab, isbTab
      ensures SBoxesUpTo(i + 1)
    {
      hide SBox, Cast;
      ByteIndex(p, p);
      forall k {:trigger Cast(k)} | 0 <= k < i ensures SBox(Cast(k)) as int != p as int { SBoxIndices(k, i); }
      sbxTab[i] := p;
      isbTab[p as int] := Cast(i);
    }

    lemma BoxByShifts(b: bv8, p: bv8)
      requires p == Inverse(b)
      ensures ShiftSum(p) == SBox(b)
    {
      hide Affine, ShiftSum, Inverse;
      AffineByShifts(p);
    }

    lemma SBoxesFilled()
      requires Shape() && SBoxesUpTo(256)
      ensures SBoxesValid()
    {
      hide SBox, InvSBox;
      forall b: bv8 ensures sbxTab[b as int] == SBox(b) && isbTab[b as int] == InvSBox(b) {
        IndexCast(b);
        IndexCast(InvSBox(b));
        SBoxInverse(b);
      }
    }

    lemma InverseByTables(b: bv8)
      requires Shape() && LogsValid()
      ensures Inverse(b) == if b as int != 0 then powTab[255 - logTab[b as int]] else 0
    {
      if b != 0 {
        LogAt(b);
        ByteIndex(b, 0);
      }
    }

    lemma FFMultIsMul(a: bv8, b: bv8)
      requires Shape() && LogsValid()
      ensures FFMult(a, b) == Mul(a, b)
    {
      hide FMult;
      if a == 0 {
        MulZero(b);
      } else if b == 0 {
        MulZero(a);
      } else {
        FMultIsMul(a, b);
      }
    }

    ghost predicate RoundTablesUpTo(n: nat)
      requires Shape() && n <= 256
      reads ftTab, itTab, flTab, ilTab
    {
      && (forall k {:trigger Cast(k)} :: 0 <= k < n ==> Filled(flTab, k, Column(SBox(Cast(k)), 0, 0, 0)))
      && (forall k {:trigger Cast(k)} :: 0 <= k < n ==> Filled(ftTab, k, MixShare(SBox(Cast(k)))))
      && (forall k {:trigger Cast(k)} :: 0 <= k < n ==> Filled(ilTab, k, Column(InvSBox(Cast(k)), 0, 0, 0)))
      && (forall k {:trigger Cast(k)} :: 0 <= k < n ==> Filled(itTab, k, InvMixShare(InvSBox(Cast(k)))))
    }

    ghost predicate Valid()
      reads Arrays()
    {
      Shape() && LogsValid() && RoundConstantsValid() && SBoxesValid() && RoundTablesUpTo(256)
    }

    method GenRoundTables()
      requires Shape() && LogsValid() && SBoxesValid()
      modifies ftTab, itTab, flTab, ilTab
      ensures RoundTablesUpTo(256)
    {
      hide LogsValid, SBoxesValid, Shape, SBox, InvSBox, MixShare, InvMixShare;
      for i := 0 to 256
        invariant Shape() && LogsValid() && SBoxesValid()
        invariant RoundTablesUpTo(i)
      {
        GenEntry(i);
      }
    }

    /** One pass of the last loop. */
    method GenEntry(i: nat)
      requires i < 256 && Shape() && LogsValid() && SBoxesValid() && RoundTablesUpTo(i)
      modifies ftTab, itTab, flTab, ilTab
      ensures LogsValid() && SBoxesValid() && RoundTablesUpTo(i + 1)
    {
      hide SBox, InvSBox, MixShare, InvMixShare, ToColumn, Down, Pack, FFMult, Filled, Cast, LogsValid, SBoxesValid;
      BoxesAt(i);
      var p := sbxTab[i];
      WordOfByte(p);
      FillRow(flTab, i, p as bv32);
      MixWord(p);
      FillRow(ftTab, i, Pack(FFMult(2, p), p, p, FFMult(3, p)));
      p := isbTab[i];
      WordOfByte(p);
      FillRow(ilTab, i, p as bv32);
      InvMixWord(p);
      FillRow(itTab, i, Pack(FFMult(14, p), FFMult(9, p), FFMult(13, p), FFMult(11, p)));
    }

    lemma BoxesAt(i: nat)
      requires i < 256 && Shape() && SBoxesValid()
      ensures sbxTab[i] == SBox(Cast(i)) && isbTab[i] == InvSBox(Cast(i))
    {
      hide SBox, InvSBox, Cast;
      CastIndex(i);
    }

    lemma MixWord(p: bv8)
      requires Shape() && LogsValid()
      ensures ToColumn(Pack(FFMult(2, p), p, p, FFMult(3, p))) == MixShare(p)
    {
      hide Pack, ToColumn, FFMult, Mul;
      FFMultIsMul(2, p);
      FFMultIsMul(3, p);
      PackColumn(FFMult(2, p), p, p, FFMult(3, p));
    }

    lemma InvMixWord(p: bv8)
      requires Shape() && LogsValid()
      ensures ToColumn(Pack(FFMult(14, p), FFMult(9, p), FFMult(13, p), FFMult(11, p))) == InvMixShare(p)
    {
      hide Pack, ToColumn, FFMult, Mul;
      FFMultIsMul(14, p);
      FFMultIsMul(9, p);
      FFMultIsMul(13, p);
      FFMultIsMul(11, p);
      PackColumn(FFMult(14, p), FFMult(9, p), FFMult(13, p), FFMult(11, p));
    }

    /** Fills every table; the order is that of the program. */
    method GenTabs()
      requires Shape()
      modifies powTab, logTab, sbxTab, isbTab, rcoTab, ftTab, itTab, flTab, ilTab
      ensures Valid()
    {
      GenLogs();
      GenRoundConstants();
      GenSBoxes();
      GenRoundTables();
    }
  }

  /** Entry k of the four tables of a family: the word of c and its three rotations. */
  ghost predicate Filled(tab: array2<bv32>, k: nat, c: Column)
    requires tab.Length0 == 4 && k < tab.Length1
    reads tab
  {
    && ToColumn(tab[0, k]) == c
    && ToColumn(tab[1, k]) == Down(c, 1)
    && ToColumn(tab[2, k]) == Down(c, 2)
    && ToColumn(tab[3, k]) == Down(c, 3)
  }

  method FillRow(tab: array2<bv32>, k: nat, t: bv32)
    requires tab.Length0 == 4 && k < tab.Length1
    modifies tab
    ensures Filled(tab, k, ToColumn(t))
    ensures forall r, j :: 0 <= r < 4 && 0 <= j < tab.Length1 && j != k ==> tab[r, j] == old(tab[r, j])
    ensures forall j: nat, c {:trigger Filled(tab, j, c)} ::
              j < tab.Length1 && j != k && old(Filled(tab, j, c)) ==> Filled(tab, j, c)
  {
    hide ToColumn, Rotl;
    RotlColumn8(t);
    RotlColumn16(t);
    RotlColumn24(t);
    tab[0, k] := t;
    tab[1, k] := Rotl(t, 8);
    tab[2, k] := Rotl(t, 16);
    tab[3, k] := Rotl(t, 24);
  }

  lemma WordOfByte(p: bv8)
    ensures ToColumn(p as bv32) == Column(p, 0, 0, 0)
  {
  }

  function ShiftSum(p: bv8): bv8 {
    var q := ((p >> 7) | (p << 1)) ^ ((p >> 6) | (p << 2));
    p ^ (0x63 ^ q ^ ((q >> 6) | (q << 2)))
  }

  /** The two shifted sums of the program are the affine map of the standard. */
  lemma AffineByShifts(p: bv8)
    ensures ShiftSum(p) == Affine(p)
  {
  }

  lemma SBoxIndices(i: u8, j: u8)
    requires i < j
    ensures SBox(Cast(i)) as int != SBox(Cast(j)) as int
  {
    hide SBox, InvSBox;
    CastIndex(i);
    CastIndex(j);
    SBoxInverse(Cast(i));
    SBoxInverse(Cast(j));
    ByteIndex(SBox(Cast(i)), SBox(Cast(j)));
  }
}
