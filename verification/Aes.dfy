/** The cipher as the program runs it: key expansion into one region of words, table-driven rounds
    and the two loops over blocks. */
module Aes {
  import opened GaloisField
  import opened Fips197
  import opened AesTables
  import opened AesRounds

  /** A little-endian word read from memory. */
  function U32In(a: bv8, b: bv8, c: bv8, d: bv8): bv32 {
    (a as bv32) + ((b as bv32) << 8) + ((c as bv32) << 16) + ((d as bv32) << 24)
  }

  lemma U32InColumn(a: bv8, b: bv8, c: bv8, d: bv8)
    ensures ToColumn(U32In(a, b, c, d)) == Column(a, b, c, d)
  {
    assert U32In(a, b, c, d) == Pack(a, b, c, d);
    PackColumn(a, b, c, d);
  }

  /** The columns of a key or a block given as bytes. */
  function Columns(bytes: seq<bv8>): (c: seq<Column>)
    ensures |c| == |bytes| / 4
  {
    seq(|bytes| / 4, i requires 0 <= i < |bytes| / 4 =>
      Column(bytes[4 * i], bytes[4 * i + 1], bytes[4 * i + 2], bytes[4 * i + 3]))
  }

  // ----- table lookups of the macros

  /** An entry of a round table at the place a byte names. */
  function Look(tab: array2<bv32>, r: nat, b: bv8): bv32
    requires tab.Length0 == 4 && tab.Length1 == 256 && r < 4
    reads tab
  {
    tab[r, b as int]
  }

  function LsBox(tabs: Tables, x: bv32): bv32
    requires tabs.Shape()
    reads tabs.flTab
  {
    Xor4(Look(tabs.flTab, 0, Byte(x, 0)), Look(tabs.flTab, 1, Byte(x, 1)),
         Look(tabs.flTab, 2, Byte(x, 2)), Look(tabs.flTab, 3, Byte(x, 3)))
  }

  lemma Lookups(tabs: Tables, b: bv8)
    requires tabs.Valid()
    ensures var k := b as int;
      && 0 <= k < 256
      && Filled(tabs.flTab, k, Column(SBox(b), 0, 0, 0))
      && Filled(tabs.ftTab, k, MixShare(SBox(b)))
      && Filled(tabs.ilTab, k, Column(InvSBox(b), 0, 0, 0))
      && Filled(tabs.itTab, k, InvMixShare(InvSBox(b)))
  {
    hide SBox, InvSBox, MixShare, InvMixShare, Filled, Tables.LogsValid, Tables.SBoxesValid, Tables.RoundConstantsValid;
    IndexCast(b);
  }

  /** The key schedule's substitution of a word is SubWord of section 5.2 of FIPS 197. */
  lemma LsBoxColumn(tabs: Tables, x: bv32)
    requires tabs.Valid()
    ensures tabs.Shape() && ToColumn(LsBox(tabs, x)) == SubColumn(ToColumn(x))
  {
    hide Xor4, SBox, Byte, Look, Tables.Valid, AddColumn;
    var c := Column(Byte(x, 0), Byte(x, 1), Byte(x, 2), Byte(x, 3));
    FlLookups(tabs, c);
    PlainLookup4(SBox(c.s0), SBox(c.s1), SBox(c.s2), SBox(c.s3), Look(tabs.flTab, 0, c.s0), Look(tabs.flTab, 1, c.s1),
                 Look(tabs.flTab, 2, c.s2), Look(tabs.flTab, 3, c.s3));
  }

  function FRn(tabs: Tables, x0: bv32, x1: bv32, x2: bv32, x3: bv32, k: bv32): bv32
    requires tabs.Shape()
    reads tabs.ftTab
  {
    Xor5(Look(tabs.ftTab, 0, Byte(x0, 0)), Look(tabs.ftTab, 1, Byte(x1, 1)),
         Look(tabs.ftTab, 2, Byte(x2, 2)), Look(tabs.ftTab, 3, Byte(x3, 3)), k)
  }

  function FRl(tabs: Tables, x0: bv32, x1: bv32, x2: bv32, x3: bv32, k: bv32): bv32
    requires tabs.Shape()
    reads tabs.flTab
  {
    Xor5(Look(tabs.flTab, 0, Byte(x0, 0)), Look(tabs.flTab, 1, Byte(x1, 1)),
         Look(tabs.flTab, 2, Byte(x2, 2)), Look(tabs.flTab, 3, Byte(x3, 3)), k)
  }

  function IRn(tabs: Tables, x0: bv32, x1: bv32, x2: bv32, x3: bv32, k: bv32): bv32
    requires tabs.Shape()
    reads tabs.itTab
  {
    Xor5(Look(tabs.itTab, 0, Byte(x0, 0)), Look(tabs.itTab, 1, Byte(x1, 1)),
         Look(tabs.itTab, 2, Byte(x2, 2)), Look(tabs.itTab, 3, Byte(x3, 3)), k)
  }

  function IRl(tabs: Tables, x0: bv32, x1: bv32, x2: bv32, x3: bv32, k: bv32): bv32
    requires tabs.Shape()
    reads tabs.ilTab
  {
    Xor5(Look(tabs.ilTab, 0, Byte(x0, 0)), Look(tabs.ilTab, 1, Byte(x1, 1)),
         Look(tabs.ilTab, 2, Byte(x2, 2)), Look(tabs.ilTab, 3, Byte(x3, 3)), k)
  }

  lemma FtLookups(tabs: Tables, c: Column)
    requires tabs.Valid()
    ensures tabs.Shape()
    ensures ToColumn(Look(tabs.ftTab, 0, c.s0)) == MixShare(SBox(c.s0))
    ensures ToColumn(Look(tabs.ftTab, 1, c.s1)) == Down(MixShare(SBox(c.s1)), 1)
    ensures ToColumn(Look(tabs.ftTab, 2, c.s2)) == Down(MixShare(SBox(c.s2)), 2)
    ensures ToColumn(Look(tabs.ftTab, 3, c.s3)) == Down(MixShare(SBox(c.s3)), 3)
  {
    hide SBox, InvSBox, ToColumn, MixShare, InvMixShare, Down;
    Lookups(tabs, c.s0);
    Lookups(tabs, c.s1);
    Lookups(tabs, c.s2);
    Lookups(tabs, c.s3);
  }

  lemma ItLookups(tabs: Tables, c: Column)
    requires tabs.Valid()
    ensures tabs.Shape()
    ensures ToColumn(Look(tabs.itTab, 0, c.s0)) == InvMixShare(InvSBox(c.s0))
    ensures ToColumn(Look(tabs.itTab, 1, c.s1)) == Down(InvMixShare(InvSBox(c.s1)), 1)
    ensures ToColumn(Look(tabs.itTab, 2, c.s2)) == Down(InvMixShare(InvSBox(c.s2)), 2)
    ensures ToColumn(Look(tabs.itTab, 3, c.s3)) == Down(InvMixShare(InvSBox(c.s3)), 3)
  {
    hide SBox, InvSBox, ToColumn, MixShare, InvMixShare, Down;
    Lookups(tabs, c.s0);
    Lookups(tabs, c.s1);
    Lookups(tabs, c.s2);
    Lookups(tabs, c.s3);
  }

  lemma FlLookups(tabs: Tables, c: Column)
    requires tabs.Valid()
    ensures tabs.Shape()
    ensures ToColumn(Look(tabs.flTab, 0, c.s0)) == Column(SBox(c.s0), 0, 0, 0)
    ensures ToColumn(Look(tabs.flTab, 1, c.s1)) == Down(Column(SBox(c.s1), 0, 0, 0), 1)
    ensures ToColumn(Look(tabs.flTab, 2, c.s2)) == Down(Column(SBox(c.s2), 0, 0, 0), 2)
    ensures ToColumn(Look(tabs.flTab, 3, c.s3)) == Down(Column(SBox(c.s3), 0, 0, 0), 3)
  {
    hide SBox, InvSBox, ToColumn, MixShare, InvMixShare, Down;
    Lookups(tabs, c.s0);
    Lookups(tabs, c.s1);
    Lookups(tabs, c.s2);
    Lookups(tabs, c.s3);
  }

  lemma IlLookups(tabs: Tables, c: Column)
    requires tabs.Valid()
    ensures tabs.Shape()
    ensures ToColumn(Look(tabs.ilTab, 0, c.s0)) == Column(InvSBox(c.s0), 0, 0, 0)
    ensures ToColumn(Look(tabs.ilTab, 1, c.s1)) == Down(Column(InvSBox(c.s1), 0, 0, 0), 1)
    ensures ToColumn(Look(tabs.ilTab, 2, c.s2)) == Down(Column(InvSBox(c.s2), 0, 0, 0), 2)
    ensures ToColumn(Look(tabs.ilTab, 3, c.s3)) == Down(Column(InvSBox(c.s3), 0, 0, 0), 3)
  {
    hide SBox, InvSBox, ToColumn, MixShare, InvMixShare, Down;
    Lookups(tabs, c.s0);
    Lookups(tabs, c.s1);
    Lookups(tabs, c.s2);
    Lookups(tabs, c.s3);
  }

  lemma FRnColumn(tabs: Tables, x0: bv32, x1: bv32, x2: bv32, x3: bv32, k: bv32)
    requires tabs.Valid()
    ensures tabs.Shape() && ToColumn(FRn(tabs, x0, x1, x2, x3, k)) ==
      AddColumn(MixColumn(SubColumn(Column(Byte(x0, 0), Byte(x1, 1), Byte(x2, 2), Byte(x3, 3)))), ToColumn(k))
  {
    hide Xor5, SBox, InvSBox, Look, Byte, Tables.Valid, ToColumn, MixColumn, InvMixColumn, MixShare, InvMixShare, AddColumn, Down;
    var c := Column(Byte(x0, 0), Byte(x1, 1), Byte(x2, 2), Byte(x3, 3));
    FtLookups(tabs, c);
    var d := SubColumn(c);
    MixLookup(d.s0, d.s1, d.s2, d.s3, Look(tabs.ftTab, 0, c.s0), Look(tabs.ftTab, 1, c.s1),
      Look(tabs.ftTab, 2, c.s2), Look(tabs.ftTab, 3, c.s3), k);
  }

  lemma IRnColumn(tabs: Tables, x0: bv32, x1: bv32, x2: bv32, x3: bv32, k: bv32)
    requires tabs.Valid()
    ensures tabs.Shape() && ToColumn(IRn(tabs, x0, x1, x2, x3, k)) ==
      AddColumn(InvMixColumn(InvSubColumn(Column(Byte(x0, 0), Byte(x1, 1), Byte(x2, 2), Byte(x3, 3)))), ToColumn(k))
  {
    hide Xor5, SBox, InvSBox, Look, Byte, Tables.Valid, ToColumn, MixColumn, InvMixColumn, MixShare, InvMixShare, AddColumn, Down;
    var c := Column(Byte(x0, 0), Byte(x1, 1), Byte(x2, 2), Byte(x3, 3));
    ItLookups(tabs, c);
    var d := InvSubColumn(c);
    InvMixLookup(d.s0, d.s1, d.s2, d.s3, Look(tabs.itTab, 0, c.s0), Look(tabs.itTab, 1, c.s1),
      Look(tabs.itTab, 2, c.s2), Look(tabs.itTab, 3, c.s3), k);
  }

  lemma FRlColumn(tabs: Tables, x0: bv32, x1: bv32, x2: bv32, x3: bv32, k: bv32)
    requires tabs.Valid()
    ensures tabs.Shape() && ToColumn(FRl(tabs, x0, x1, x2, x3, k)) ==
      AddColumn(SubColumn(Column(Byte(x0, 0), Byte(x1, 1), Byte(x2, 2), Byte(x3, 3))), ToColumn(k))
  {
    hide Xor5, SBox, InvSBox, Look, Byte, Tables.Valid, ToColumn, MixColumn, InvMixColumn, MixShare, InvMixShare, AddColumn, Down;
    var c := Column(Byte(x0, 0), Byte(x1, 1), Byte(x2, 2), Byte(x3, 3));
    FlLookups(tabs, c);
    var d := SubColumn(c);
    PlainLookup(d.s0, d.s1, d.s2, d.s3, Look(tabs.flTab, 0, c.s0), Look(tabs.flTab, 1, c.s1),
      Look(tabs.flTab, 2, c.s2), Look(tabs.flTab, 3, c.s3), k);
  }

  lemma IRlColumn(tabs: Tables, x0: bv32, x1: bv32, x2: bv32, x3: bv32, k: bv32)
    requires tabs.Valid()
    ensures tabs.Shape() && ToColumn(IRl(tabs, x0, x1, x2, x3, k)) ==
      AddColumn(InvSubColumn(Column(Byte(x0, 0), Byte(x1, 1), Byte(x2, 2), Byte(x3, 3))), ToColumn(k))
  {
    hide Xor5, SBox, InvSBox, Look, Byte, Tables.Valid, ToColumn, MixColumn, InvMixColumn, MixShare, InvMixShare, AddColumn, Down;
    var c := Column(Byte(x0, 0), Byte(x1, 1), Byte(x2, 2), Byte(x3, 3));
    IlLookups(tabs, c);
    var d := InvSubColumn(c);
    PlainLookup(d.s0, d.s1, d.s2, d.s3, Look(tabs.ilTab, 0, c.s0), Look(tabs.ilTab, 1, c.s1),
      Look(tabs.ilTab, 2, c.s2), Look(tabs.ilTab, 3, c.s3), k);
  }

  class Context {
    var keyLength: nat
    /** The words E[0..60] and, from index 60 on, D[0..60]: one region, as the struct lays them out. */
    const keys: array<bv32>

    constructor ()
      ensures keys.Length == 120 && fresh(keys)
    {
      keyLength := 0;
      keys := new bv32[120];
    }

    /** The first n words of E are those of the key schedule. */
    ghost predicate Expanded(key: seq<Column>, n: nat)
      requires KeySize(|key|) && n <= keys.Length
      reads keys
    {
      forall i {:trigger KeyWord(key, i)} :: 0 <= i < n ==> ToColumn(keys[i]) == KeyWord(key, i)
    }

    /** The words of D from lo up to n are InvMixColumns of those of E. */
    ghost predicate Inverted(key: seq<Column>, n: nat)
      requires KeySize(|key|) && n + 60 <= keys.Length
      reads keys
    {
      && (forall i {:trigger KeyWord(key, i)} :: 0 <= i < n && i < 4 ==> ToColumn(keys[60 + i]) == KeyWord(key, i))
      && (forall i {:trigger KeyWord(key, i)} :: 4 <= i < n ==> ToColumn(keys[60 + i]) == InvMixColumn(KeyWord(key, i)))
    }

    /** The context is set to the given key. */
    ghost predicate Holds(key: seq<Column>)
      reads this, keys
    {
      && KeySize(|key|) && keys.Length == 120 && keyLength == 4 * |key|
      && Expanded(key, keyLength + 28)
      && Inverted(key, keyLength + 24)
    }

    lemma HeldKeySize(key: seq<Column>)
      requires Holds(key)
      ensures KeySize(|key|)
    {
    }

    /** One line of the expansion macros: t takes in the word nk places back and is stored. */
    method Store(ghost key: seq<Column>, nk: nat, j: nat, t: bv32) returns (t': bv32)
      requires KeySize(nk) && |key| == nk && nk <= j < 64 && keys.Length == 120
      requires Expanded(key, j) && ToColumn(t) == KeyStep(nk, j, KeyWord(key, j - 1))
      modifies keys
      ensures Expanded(key, j + 1) && ToColumn(t') == KeyWord(key, j)
    {
      hide ToColumn, AddColumn, KeyStep;
      XorColumns(t, keys[j - nk]);
      t' := Xor(t, keys[j - nk]);
      assert ToColumn(keys[j - nk]) == KeyWord(key, j - nk);
      keys[j] := t';
    }

    /** The first line of the expansion macros. */
    method Core(tabs: Tables, i: nat, t: bv32) returns (t': bv32)
      requires tabs.Valid() && i < 10
      ensures ToColumn(t') == AddColumn(SubColumn(RotColumn(ToColumn(t))), Column(XPower(i), 0, 0, 0))
    {
      hide ToColumn, AddColumn, SBox, SubColumn, RotColumn, Rotr, LsBox;
      var r := Rotr(t, 8);
      RotrIsRotColumn(t);
      LsBoxColumn(tabs, r);
      XorColumns(LsBox(tabs, r), tabs.rcoTab[i]);
      t' := Xor(LsBox(tabs, r), tabs.rcoTab[i]);
    }

    /** The five lines the three macros share. */
    method Head(tabs: Tables, ghost key: seq<Column>, nk: nat, i: nat, j: nat, t: bv32) returns (t': bv32)
      requires tabs.Valid() && keys !in tabs.Arrays() && keys.Length == 120
      requires KeySize(nk) && |key| == nk && i < 10 && nk <= j == nk * i + nk <= 60
      requires Expanded(key, j) && ToColumn(t) == KeyWord(key, j - 1)
      modifies keys
      ensures tabs.Valid()
      ensures Expanded(key, j + 4) && ToColumn(t') == KeyWord(key, j + 3)
    {
      hide ToColumn, AddColumn, SBox, SubColumn, RotColumn, KeyWord, KeyStep, XPower, Expanded, Tables.Valid, Tables.Shape;
      KeyStepHead(nk, i, j, KeyWord(key, j - 1));
      KeyStepTail(nk, i, 1, j + 1, KeyWord(key, j));
      KeyStepTail(nk, i, 2, j + 2, KeyWord(key, j + 1));
      KeyStepTail(nk, i, 3, j + 3, KeyWord(key, j + 2));
      t' := Core(tabs, i, t);
      t' := Store(key, nk, j, t');
      t' := Store(key, nk, j + 1, t');
      t' := Store(key, nk, j + 2, t');
      t' := Store(key, nk, j + 3, t');
    }

    method Loop6(tabs: Tables, ghost key: seq<Column>, i: nat, t: bv32) returns (t': bv32)
      requires tabs.Valid() && keys !in tabs.Arrays() && keys.Length == 120
      requires |key| == 6 && i < 8
      requires Expanded(key, 6 * i + 6) && ToColumn(t) == KeyWord(key, 6 * i + 5)
      modifies keys
      ensures tabs.Valid()
      ensures Expanded(key, 6 * i + 12) && ToColumn(t') == KeyWord(key, 6 * i + 11)
    {
      hide ToColumn, SBox, SubColumn, KeyWord, KeyStep, Expanded, Tables.Valid, Tables.Shape;
      var j := 6 * i + 10;
      KeyStepTail(6, i, 4, j, KeyWord(key, j - 1));
      KeyStepTail(6, i, 5, j + 1, KeyWord(key, j));
      t' := Head(tabs, key, 6, i, 6 * i + 6, t);
      t' := Store(key, 6, j, t');
      t' := Store(key, 6, j + 1, t');
    }

    method Loop8(tabs: Tables, ghost key: seq<Column>, i: nat, t: bv32) returns (t': bv32)
      requires tabs.Valid() && keys !in tabs.Arrays() && keys.Length == 120
      requires |key| == 8 && i < 7
      requires Expanded(key, 8 * i + 8) && ToColumn(t) == KeyWord(key, 8 * i + 7)
      modifies keys
      ensures tabs.Valid()
      ensures Expanded(key, 8 * i + 16) && ToColumn(t') == KeyWord(key, 8 * i + 15)
    {
      hide ToColumn, KeyWord, Tables.Valid, Tables.Shape;
      t' := Head(tabs, key, 8, i, 8 * i + 8, t);
      t' := SecondHalf(tabs, key, i, t');
    }

    /** The last four lines of Loop8, which substitute once more. */
    method SecondHalf(tabs: Tables, ghost key: seq<Column>, i: nat, t: bv32) returns (t': bv32)
      requires tabs.Valid() && keys !in tabs.Arrays() && keys.Length == 120
      requires |key| == 8 && i < 7
      requires Expanded(key, 8 * i + 12) && ToColumn(t) == KeyWord(key, 8 * i + 11)
      modifies keys
      ensures tabs.Valid()
      ensures Expanded(key, 8 * i + 16) && ToColumn(t') == KeyWord(key, 8 * i + 15)
    {
      hide ToColumn, AddColumn, SBox, SubColumn, KeyWord, KeyStep, LsBox, Expanded, Tables.Valid;
      var j := 8 * i + 12;
      KeyStepTail(8, i, 4, j, KeyWord(key, j - 1));
      KeyStepTail(8, i, 5, j + 1, KeyWord(key, j));
      KeyStepTail(8, i, 6, j + 2, KeyWord(key, j + 1));
      KeyStepTail(8, i, 7, j + 3, KeyWord(key, j + 2));
      LsBoxColumn(tabs, t);
      t' := Store(key, 8, j, LsBox(tabs, t));
      t' := Store(key, 8, j + 1, t');
      t' := Store(key, 8, j + 2, t');
      t' := Store(key, 8, j + 3, t');
    }

    method LoadWord(ghost key: seq<Column>, inKey: seq<bv8>, i: nat)
      requires keys.Length == 120 && key == Columns(inKey) && KeySize(|key|) && i < |key|
      requires Expanded(key, i)
      modifies keys
      ensures Expanded(key, i + 1)
    {
      hide ToColumn, U32In;
      U32InColumn(inKey[4 * i], inKey[4 * i + 1], inKey[4 * i + 2], inKey[4 * i + 3]);
      keys[i] := U32In(inKey[4 * i], inKey[4 * i + 1], inKey[4 * i + 2], inKey[4 * i + 3]);
    }

    method LoadFour(ghost key: seq<Column>, inKey: seq<bv8>)
      requires keys.Length == 120 && key == Columns(inKey) && KeySize(|key|)
      modifies keys
      ensures Expanded(key, 4)
    {
      LoadWord(key, inKey, 0);
      LoadWord(key, inKey, 1);
      LoadWord(key, inKey, 2);
      LoadWord(key, inKey, 3);
    }

    /** The switch: the rest of the key is read and t starts as its last word. */
    method Expand(tabs: Tables, ghost key: seq<Column>, inKey: seq<bv8>, keyLen: nat)
      requires tabs.Valid() && keys !in tabs.Arrays() && keys.Length == 120
      requires key == Columns(inKey) && KeySize(|key|) && keyLen == 4 * |key| == |inKey| && Expanded(key, 4)
      modifies keys
      ensures tabs.Valid() && Expanded(key, keyLen + 28)
    {
      hide ToColumn, KeyWord, Tables.Valid, Tables.Shape;
      var t;
      if keyLen == 16 {
        t := keys[3];
        for i := 0 to 10
          invariant tabs.Valid() && Expanded(key, 4 * i + 4) && ToColumn(t) == KeyWord(key, 4 * i + 3)
        {
          t := Head(tabs, key, 4, i, 4 * i + 4, t);
        }
      } else if keyLen == 24 {
        LoadWord(key, inKey, 4);
        LoadWord(key, inKey, 5);
        t := keys[5];
        for i := 0 to 8
          invariant tabs.Valid() && Expanded(key, 6 * i + 6) && ToColumn(t) == KeyWord(key, 6 * i + 5)
        {
          t := Loop6(tabs, key, i, t);
        }
      } else {
        LoadWord(key, inKey, 4);
        LoadWord(key, inKey, 5);
        LoadWord(key, inKey, 6);
        LoadWord(key, inKey, 7);
        t := keys[7];
        for i := 0 to 7
          invariant tabs.Valid() && Expanded(key, 8 * i + 8) && ToColumn(t) == KeyWord(key, 8 * i + 7)
        {
          t := Loop8(tabs, key, i, t);
        }
      }
    }

    /** Fills D. The last pass of Loop8 wrote E[60..64], which is D[0..4], and is overwritten here. */
    method Invert(ghost key: seq<Column>, keyLen: nat)
      requires keys.Length == 120 && KeySize(|key|) && keyLen == 4 * |key| && Expanded(key, keyLen + 28)
      modifies keys
      ensures Expanded(key, keyLen + 28) && Inverted(key, keyLen + 24)
    {
      hide ToColumn, KeyWord, InvMixColumn, ImixCol;
      keys[60] := keys[0];
      keys[61] := keys[1];
      keys[62] := keys[2];
      keys[63] := keys[3];
      for i := 4 to keyLen + 24
        invariant Expanded(key, keyLen + 28) && Inverted(key, i)
      {
        ImixColIsInvMixColumn(keys[i]);
        keys[60 + i] := ImixCol(keys[i]);
      }
    }

    /** Refuses every key length but 16, 24 and 32 and leaves the context as it was; otherwise sets the key. */
    method SetKey(tabs: Tables, inKey: seq<bv8>, keyLen: nat) returns (ok: bool)
      requires tabs.Valid() && keys !in tabs.Arrays() && keys.Length == 120
      requires keyLen <= |inKey|
      modifies this, keys
      ensures ok <==> keyLen in {16, 24, 32}
      ensures ok ==> Holds(Columns(inKey[..keyLen]))
      ensures !ok ==> keyLength == old(keyLength) && keys[..] == old(keys[..])
      ensures tabs.Valid()
    {
      hide ToColumn, KeyWord, InvMixColumn, Tables.Valid, Tables.Shape;
      if keyLen != 16 && keyLen != 24 && keyLen != 32 {
        return false;
      }
      ghost var key := Columns(inKey[..keyLen]);
      keyLength := keyLen;
      LoadFour(key, inKey[..keyLen]);
      Expand(tabs, key, inKey[..keyLen], keyLen);
      Invert(key, keyLen);
      ok := true;
    }

    // ----- rounds

    method FNRound(tabs: Tables, bo: array<bv32>, bi: array<bv32>, k: nat)
      requires tabs.Valid() && bo !in tabs.Arrays() && bo != bi && bo != keys
      requires bo.Length == bi.Length == 4 && keys.Length == 120 && k + 4 <= 120
      modifies bo
      ensures tabs.Valid()
      ensures StateOf(bo[..]) == Round(StateOf(bi[..]), StateOf(keys[k..k + 4]))
    {
      hide Byte, SBox, InvSBox, Tables.Valid, AddColumn, MixColumn, InvMixColumn, FRn;
      FRnColumn(tabs, bi[0], bi[1], bi[2], bi[3], keys[k]);
      FRnColumn(tabs, bi[1], bi[2], bi[3], bi[0], keys[k + 1]);
      FRnColumn(tabs, bi[2], bi[3], bi[0], bi[1], keys[k + 2]);
      FRnColumn(tabs, bi[3], bi[0], bi[1], bi[2], keys[k + 3]);
      bo[0], bo[1], bo[2], bo[3] :=
        FRn(tabs, bi[0], bi[1], bi[2], bi[3], keys[k]),
        FRn(tabs, bi[1], bi[2], bi[3], bi[0], keys[k + 1]),
        FRn(tabs, bi[2], bi[3], bi[0], bi[1], keys[k + 2]),
        FRn(tabs, bi[3], bi[0], bi[1], bi[2], keys[k + 3]);
    }

    method FLRound(tabs: Tables, bo: array<bv32>, bi: array<bv32>, k: nat)
      requires tabs.Valid() && bo !in tabs.Arrays() && bo != bi && bo != keys
      requires bo.Length == bi.Length == 4 && keys.Length == 120 && k + 4 <= 120
      modifies bo
      ensures tabs.Valid()
      ensures StateOf(bo[..]) == LastRound(StateOf(bi[..]), StateOf(keys[k..k + 4]))
    {
      hide Byte, SBox, InvSBox, Tables.Valid, AddColumn, MixColumn, InvMixColumn, FRl;
      FRlColumn(tabs, bi[0], bi[1], bi[2], bi[3], keys[k]);
      FRlColumn(tabs, bi[1], bi[2], bi[3], bi[0], keys[k + 1]);
      FRlColumn(tabs, bi[2], bi[3], bi[0], bi[1], keys[k + 2]);
      FRlColumn(tabs, bi[3], bi[0], bi[1], bi[2], keys[k + 3]);
      bo[0], bo[1], bo[2], bo[3] :=
        FRl(tabs, bi[0], bi[1], bi[2], bi[3], keys[k]),
        FRl(tabs, bi[1], bi[2], bi[3], bi[0], keys[k + 1]),
        FRl(tabs, bi[2], bi[3], bi[0], bi[1], keys[k + 2]),
        FRl(tabs, bi[3], bi[0], bi[1], bi[2], keys[k + 3]);
    }

    method INRound(tabs: Tables, bo: array<bv32>, bi: array<bv32>, k: nat)
      requires tabs.Valid() && bo !in tabs.Arrays() && bo != bi && bo != keys
      requires bo.Length == bi.Length == 4 && keys.Length == 120 && k + 4 <= 120
      modifies bo
      ensures tabs.Valid()
      ensures StateOf(bo[..]) == EqInvRound(StateOf(bi[..]), StateOf(keys[k..k + 4]))
    {
      hide Byte, SBox, InvSBox, Tables.Valid, AddColumn, MixColumn, InvMixColumn, IRn;
      IRnColumn(tabs, bi[0], bi[3], bi[2], bi[1], keys[k]);
      IRnColumn(tabs, bi[1], bi[0], bi[3], bi[2], keys[k + 1]);
      IRnColumn(tabs, bi[2], bi[1], bi[0], bi[3], keys[k + 2]);
      IRnColumn(tabs, bi[3], bi[2], bi[1], bi[0], keys[k + 3]);
      bo[0], bo[1], bo[2], bo[3] :=
        IRn(tabs, bi[0], bi[3], bi[2], bi[1], keys[k]),
        IRn(tabs, bi[1], bi[0], bi[3], bi[2], keys[k + 1]),
        IRn(tabs, bi[2], bi[1], bi[0], bi[3], keys[k + 2]),
        IRn(tabs, bi[3], bi[2], bi[1], bi[0], keys[k + 3]);
    }

    method ILRound(tabs: Tables, bo: array<bv32>, bi: array<bv32>, k: nat)
      requires tabs.Valid() && bo !in tabs.Arrays() && bo != bi && bo != keys
      requires bo.Length == bi.Length == 4 && keys.Length == 120 && k + 4 <= 120
      modifies bo
      ensures tabs.Valid()
      ensures StateOf(bo[..]) == EqInvLastRound(StateOf(bi[..]), StateOf(keys[k..k + 4]))
    {
      hide Byte, SBox, InvSBox, Tables.Valid, AddColumn, MixColumn, InvMixColumn, IRl;
      IRlColumn(tabs, bi[0], bi[3], bi[2], bi[1], keys[k]);
      IRlColumn(tabs, bi[1], bi[0], bi[3], bi[2], keys[k + 1]);
      IRlColumn(tabs, bi[2], bi[1], bi[0], bi[3], keys[k + 2]);
      IRlColumn(tabs, bi[3], bi[2], bi[1], bi[0], keys[k + 3]);
      bo[0], bo[1], bo[2], bo[3] :=
        IRl(tabs, bi[0], bi[3], bi[2], bi[1], keys[k]),
        IRl(tabs, bi[1], bi[0], bi[3], bi[2], keys[k + 1]),
        IRl(tabs, bi[2], bi[1], bi[0], bi[3], keys[k + 2]),
        IRl(tabs, bi[3], bi[2], bi[1], bi[0], keys[k + 3]);
    }

    lemma RoundKeyWords(key: seq<Column>, r: nat)
      requires Holds(key) && r <= FullRounds(|key|) + 1
      ensures StateOf(keys[4 * r..4 * r + 4]) == RoundKey(Schedule(key), r)
    {
      hide ToColumn, KeyWord, InvMixColumn;
      assert forall i :: 4 * r <= i < 4 * r + 4 ==> ToColumn(keys[i]) == KeyWord(key, i);
    }

    lemma InvRoundKeyWords(key: seq<Column>, r: nat)
      requires Holds(key) && r <= FullRounds(|key|)
      ensures StateOf(keys[60 + 4 * r..60 + 4 * r + 4]) == RoundKey(InvSchedule(key), r)
    {
      hide ToColumn, KeyWord, InvMixColumn;
      assert forall i :: 4 * r <= i < 4 * r + 4 ==> ToColumn(keys[60 + i]) == if i < 4 then KeyWord(key, i) else InvMixColumn(KeyWord(key, i));
    }

    /** A full round in the run of a block s: from r rounds done to r + 1. */
    method FNext(tabs: Tables, bo: array<bv32>, bi: array<bv32>, k: nat, ghost key: seq<Column>, ghost s: State, ghost r: nat)
      returns (k': nat)
      requires tabs.Valid() && bo !in tabs.Arrays() && bo != bi && bo != keys && bo.Length == bi.Length == 4
      requires Holds(key) && r < FullRounds(|key|) && k == 4 * r + 4
      requires StateOf(bi[..]) == Rounds(s, Schedule(key), r)
      modifies bo
      ensures tabs.Valid() && Holds(key) && k' == k + 4
      ensures StateOf(bo[..]) == Rounds(s, Schedule(key), r + 1)
    {
      hide Tables.Valid, StateOf, Round, RoundKey;
      RoundKeyWords(key, r + 1);
      FNRound(tabs, bo, bi, k);
      k' := k + 4;
    }

    /** A full round of decryption; p + 2 is the round key used last and p + 1 the one used now. */
    method INext(tabs: Tables, bo: array<bv32>, bi: array<bv32>, k: nat, ghost key: seq<Column>, ghost s: State, ghost p: nat)
      returns (k': int)
      requires tabs.Valid() && bo !in tabs.Arrays() && bo != bi && bo != keys && bo.Length == bi.Length == 4
      requires Holds(key) && p < FullRounds(|key|) && k == 60 + 4 * (p + 1)
      requires StateOf(bi[..]) == EqInvRounds(s, InvSchedule(key), FullRounds(|key|), p + 1)
      modifies bo
      ensures tabs.Valid() && Holds(key) && k' == k - 4
      ensures StateOf(bo[..]) == EqInvRounds(s, InvSchedule(key), FullRounds(|key|), p)
    {
      hide Tables.Valid, StateOf, EqInvRound, RoundKey;
      InvRoundKeyWords(key, p + 1);
      INRound(tabs, bo, bi, k);
      k' := k - 4;
    }

    /** Reads a block and adds the four words of E from index k on. */
    method Load(b: array<bv32>, inp: array<bv8>, inPos: nat, k: nat)
      requires b.Length == 4 && inPos + 16 <= inp.Length && keys.Length == 120 && k + 4 <= 120 && b != keys
      modifies b
      ensures StateOf(b[..]) == AddRoundKey(StateAt(inp[..], inPos), StateOf(keys[k..k + 4]))
    {
      hide ToColumn, U32In, AddColumn, Xor;
      var w0 := U32In(inp[inPos], inp[inPos + 1], inp[inPos + 2], inp[inPos + 3]);
      var w1 := U32In(inp[inPos + 4], inp[inPos + 5], inp[inPos + 6], inp[inPos + 7]);
      var w2 := U32In(inp[inPos + 8], inp[inPos + 9], inp[inPos + 10], inp[inPos + 11]);
      var w3 := U32In(inp[inPos + 12], inp[inPos + 13], inp[inPos + 14], inp[inPos + 15]);
      U32InColumn(inp[inPos], inp[inPos + 1], inp[inPos + 2], inp[inPos + 3]);
      U32InColumn(inp[inPos + 4], inp[inPos + 5], inp[inPos + 6], inp[inPos + 7]);
      U32InColumn(inp[inPos + 8], inp[inPos + 9], inp[inPos + 10], inp[inPos + 11]);
      U32InColumn(inp[inPos + 12], inp[inPos + 13], inp[inPos + 14], inp[inPos + 15]);
      XorColumns(w0, keys[k]);
      XorColumns(w1, keys[k + 1]);
      XorColumns(w2, keys[k + 2]);
      XorColumns(w3, keys[k + 3]);
      b[0], b[1], b[2], b[3] := Xor(w0, keys[k]), Xor(w1, keys[k + 1]), Xor(w2, keys[k + 2]), Xor(w3, keys[k + 3]);
    }

    /** The program's rounds come in pairs that go from b0 to b1 and back. */
    method FPair(tabs: Tables, b0: array<bv32>, b1: array<bv32>, k: nat, ghost key: seq<Column>, ghost s: State, ghost r: nat)
      returns (k': nat)
      requires tabs.Valid() && {b0, b1} !! tabs.Arrays() && b0 != b1 && keys !in {b0, b1} && b0.Length == b1.Length == 4
      requires Holds(key) && r + 2 <= FullRounds(|key|) && k == 4 * r + 4
      requires StateOf(b0[..]) == Rounds(s, Schedule(key), r)
      modifies b0, b1
      ensures tabs.Valid() && Holds(key) && k' == k + 8
      ensures StateOf(b0[..]) == Rounds(s, Schedule(key), r + 2)
    {
      hide StateOf, Rounds, Schedule, Holds, Tables.Valid;
      k' := FNext(tabs, b1, b0, k, key, s, r);
      k' := FNext(tabs, b0, b1, k', key, s, r + 1);
    }

    method FRounds(tabs: Tables, b0: array<bv32>, b1: array<bv32>, ghost key: seq<Column>, ghost s: State)
      requires tabs.Valid() && {b0, b1} !! tabs.Arrays() && b0 != b1 && keys !in {b0, b1} && b0.Length == b1.Length == 4
      requires Holds(key) && StateOf(b0[..]) == Rounds(s, Schedule(key), 0)
      modifies b0, b1
      ensures tabs.Valid() && Holds(key)
      ensures StateOf(b0[..]) == Cipher(s, Schedule(key), FullRounds(|key|))
    {
      hide StateOf, Rounds, Schedule, Tables.Valid, Expanded, Inverted, RoundKey, LastRound;
      ghost var r := 0;
      var k := 4;
      if keyLength > 24 {
        k := FPair(tabs, b0, b1, k, key, s, r);
        r := r + 2;
      }
      if keyLength > 16 {
        k := FPair(tabs, b0, b1, k, key, s, r);
        r := r + 2;
      }
      k := FPair(tabs, b0, b1, k, key, s, r);
      k := FPair(tabs, b0, b1, k, key, s, r + 2);
      k := FPair(tabs, b0, b1, k, key, s, r + 4);
      k := FPair(tabs, b0, b1, k, key, s, r + 6);
      k := FNext(tabs, b1, b0, k, key, s, r + 8);
      assert r + 9 == FullRounds(|key|);
      RoundKeyWords(key, r + 10);
      FLRound(tabs, b0, b1, k);
    }

    method Encrypt(tabs: Tables, out: array<bv8>, outPos: nat, inp: array<bv8>, inPos: nat, ghost key: seq<Column>)
      requires tabs.Valid() && Holds(key) && out !in tabs.Arrays() && out as object != keys
      requires outPos + 16 <= out.Length && inPos + 16 <= inp.Length
      modifies out
      ensures tabs.Valid() && Holds(key)
      ensures StateAt(out[..], outPos) == Cipher(old(StateAt(inp[..], inPos)), Schedule(key), FullRounds(|key|))
      ensures forall i :: 0 <= i < out.Length && !(outPos <= i < outPos + 16) ==> out[i] == old(out[i])
    {
      hide Tables.Valid, StateOf, StateAt, AddRoundKey, RoundKey, Schedule, Expanded, Inverted, Cipher;
      ghost var s := StateAt(inp[..], inPos);
      var b0, b1 := new bv32[4], new bv32[4];
      RoundKeyWords(key, 0);
      Load(b0, inp, inPos, 0);
      FRounds(tabs, b0, b1, key, s);
      WriteBlock(out, outPos, b0);
    }

    /** Two full rounds of decryption, taking the state from round key p + 2 to round key p. */
    method IPair(tabs: Tables, b0: array<bv32>, b1: array<bv32>, k: nat, ghost key: seq<Column>, ghost s: State, ghost p: nat)
      returns (k': int)
      requires tabs.Valid() && {b0, b1} !! tabs.Arrays() && b0 != b1 && keys !in {b0, b1} && b0.Length == b1.Length == 4
      requires Holds(key) && p + 2 <= FullRounds(|key|) && k == 60 + 4 * (p + 2)
      requires StateOf(b0[..]) == EqInvRounds(s, InvSchedule(key), FullRounds(|key|), p + 2)
      modifies b0, b1
      ensures tabs.Valid() && Holds(key) && k' == k - 8
      ensures StateOf(b0[..]) == EqInvRounds(s, InvSchedule(key), FullRounds(|key|), p)
    {
      hide StateOf, EqInvRounds, InvSchedule, Holds, Tables.Valid;
      k' := INext(tabs, b1, b0, k, key, s, p + 1);
      k' := INext(tabs, b0, b1, k', key, s, p);
    }

    method IRounds(tabs: Tables, b0: array<bv32>, b1: array<bv32>, ghost key: seq<Column>, ghost s: State)
      requires tabs.Valid() && {b0, b1} !! tabs.Arrays() && b0 != b1 && keys !in {b0, b1} && b0.Length == b1.Length == 4
      requires Holds(key)
      requires StateOf(b0[..]) == EqInvRounds(s, InvSchedule(key), FullRounds(|key|), FullRounds(|key|))
      modifies b0, b1
      ensures tabs.Valid() && Holds(key)
      ensures StateOf(b0[..]) == EqInvCipher(s, InvSchedule(key), FullRounds(|key|))
    {
      hide StateOf, EqInvRounds, InvSchedule, Tables.Valid, Expanded, Inverted, RoundKey, EqInvLastRound;
      ghost var p := FullRounds(|key|);
      var k := 60 + keyLength + 20;
      if keyLength > 24 {
        k := IPair(tabs, b0, b1, k, key, s, p - 2);
        p := p - 2;
      }
      if keyLength > 16 {
        k := IPair(tabs, b0, b1, k, key, s, p - 2);
        p := p - 2;
      }
      assert p == 9;
      k := IPair(tabs, b0, b1, k, key, s, 7);
      k := IPair(tabs, b0, b1, k, key, s, 5);
      k := IPair(tabs, b0, b1, k, key, s, 3);
      k := IPair(tabs, b0, b1, k, key, s, 1);
      k := INext(tabs, b1, b0, k, key, s, 0);
      InvRoundKeyWords(key, 0);
      ILRound(tabs, b0, b1, k);
    }

    /** Decryption starts with the last round key, which is the same in both schedules. */
    lemma LastRoundKey(key: seq<Column>, s: State)
      requires Holds(key)
      ensures var n := FullRounds(|key|);
        AddRoundKey(s, StateOf(keys[keyLength + 24..keyLength + 28])) == EqInvRounds(s, InvSchedule(key), n, n)
    {
      hide ToColumn, AddRoundKey, RoundKey, StateOf, InvMixColumn, Expanded, Inverted, Schedule, InvSchedule, InvMixColumns;
      var n := FullRounds(|key|);
      RoundKeyWords(key, n + 1);
      SchedulesMatch(key);
      DecryptionRoundKey(Schedule(key), InvSchedule(key), n, n + 1);
    }

    method Decrypt(tabs: Tables, out: array<bv8>, outPos: nat, inp: array<bv8>, inPos: nat, ghost key: seq<Column>)
      requires tabs.Valid() && Holds(key) && out !in tabs.Arrays() && out as object != keys
      requires outPos + 16 <= out.Length && inPos + 16 <= inp.Length
      modifies out
      ensures tabs.Valid() && Holds(key)
      ensures StateAt(out[..], outPos) == EqInvCipher(old(StateAt(inp[..], inPos)), InvSchedule(key), FullRounds(|key|))
      ensures forall i :: 0 <= i < out.Length && !(outPos <= i < outPos + 16) ==> out[i] == old(out[i])
    {
      hide Tables.Valid, StateOf, StateAt, AddRoundKey, RoundKey, InvSchedule, Expanded, Inverted, EqInvCipher, EqInvRounds;
      ghost var s := StateAt(inp[..], inPos);
      var b0, b1 := new bv32[4], new bv32[4];
      LastRoundKey(key, s);
      Load(b0, inp, inPos, keyLength + 24);
      IRounds(tabs, b0, b1, key, s);
      WriteBlock(out, outPos, b0);
    }
  }

  /** The state of the block of sixteen bytes at pos. */
  function StateAt(a: seq<bv8>, pos: nat): State
    requires pos + 16 <= |a|
  {
    State(Column(a[pos], a[pos + 1], a[pos + 2], a[pos + 3]),
          Column(a[pos + 4], a[pos + 5], a[pos + 6], a[pos + 7]),
          Column(a[pos + 8], a[pos + 9], a[pos + 10], a[pos + 11]),
          Column(a[pos + 12], a[pos + 13], a[pos + 14], a[pos + 15]))
  }

  /** Stores a word in little-endian order. */
  method U32Out(out: array<bv8>, pos: nat, x: bv32)
    requires pos + 4 <= out.Length
    modifies out
    ensures Column(out[pos], out[pos + 1], out[pos + 2], out[pos + 3]) == ToColumn(x)
    ensures forall i :: 0 <= i < out.Length && !(pos <= i < pos + 4) ==> out[i] == old(out[i])
  {
    hide Byte;
    out[pos], out[pos + 1], out[pos + 2], out[pos + 3] := Byte(x, 0), Byte(x, 1), Byte(x, 2), Byte(x, 3);
  }

  method WriteBlock(out: array<bv8>, pos: nat, b: array<bv32>)
    requires b.Length == 4 && pos + 16 <= out.Length && out as object != b
    modifies out
    ensures StateAt(out[..], pos) == StateOf(b[..])
    ensures forall i :: 0 <= i < out.Length && !(pos <= i < pos + 16) ==> out[i] == old(out[i])
  {
    hide ToColumn;
    U32Out(out, pos, b[0]);
    U32Out(out, pos + 4, b[1]);
    U32Out(out, pos + 8, b[2]);
    U32Out(out, pos + 12, b[3]);
  }

  /** The state four words hold. */
  function StateOf(b: seq<bv32>): State
    requires |b| == 4
  {
    State(ToColumn(b[0]), ToColumn(b[1]), ToColumn(b[2]), ToColumn(b[3]))
  }

  lemma KeyStepHead(nk: nat, i: nat, j: nat, c: Column)
    requires KeySize(nk) && j == nk * i + nk
    ensures KeyStep(nk, j, c) == AddColumn(SubColumn(RotColumn(c)), Column(XPower(i), 0, 0, 0))
  {
    hide AddColumn, SubColumn, RotColumn, XPower;
    assert j == nk * (i + 1);
    assert j % nk == 0 && j / nk == i + 1;
  }

  lemma KeyStepTail(nk: nat, i: nat, d: nat, j: nat, c: Column)
    requires KeySize(nk) && 0 < d < nk && j == nk * i + nk + d
    ensures KeyStep(nk, j, c) == if nk == 8 && d == 4 then SubColumn(c) else c
  {
    hide AddColumn, SubColumn, RotColumn, XPower;
    assert j == nk * (i + 1) + d;
    assert j % nk == d;
  }

  lemma RotrIsRotColumn(x: bv32)
    ensures ToColumn(Rotr(x, 8)) == RotColumn(ToColumn(x))
  {
    hide ToColumn, Rotr;
    RotrColumn(x);
  }
}
