/** The streaming SHA-256 context: unrolled rounds over registers that stay in place, and a bit count in two words. */
module Sha256 {
  import opened Blocks
  import opened HashWords
  import opened Fips180
  import opened Widths

  class Context {
    var count0: nat
    var count1: nat
    const state: array<bv32>
    const buf: array<Byte>
    /** Everything that has been hashed so far. */
    ghost var message: seq<Byte>

    ghost predicate Shape()
      reads this
    {
      state.Length == 8 && buf.Length == 128 && state as object != buf as object
    }

    function Regs(): Fips180.Regs
      requires Shape()
      reads this, state
    {
      Fips180.Regs(state[0], state[1], state[2], state[3], state[4], state[5], state[6], state[7])
    }

    /** How many bytes wait in the buffer. */
    function Index(): nat
      reads this
    {
      count0 / 8 % 64
    }

    ghost function View(): Stream<Fips180.Regs, Byte>
      requires Shape()
      reads this, state, buf
    {
      Stream(Regs(), buf[..Index()])
    }

    /** The context stands where hashing the message so far leads. */
    ghost predicate Valid()
      reads this, state, buf
    {
      && Shape() && count0 < WORD && count0 % 8 == 0 && count1 < WORD
      && View() == Absorb(Compress, Stream(INIT, []), message)
    }

    /** The number of bits counted. */
    function Counted(): nat
      reads this
    {
      count1 * WORD + count0
    }

    /** The count is right, up to what two words can hold. */
    ghost predicate Exact()
      reads this
    {
      Counted() == 8 * |message| % DOUBLE
    }

    constructor ()
      ensures Valid() && Exact() && message == [] && count0 == count1 == 0 && fresh(state) && fresh(buf)
    {
      state := new bv32[8];
      buf := new Byte[128];
      count0, count1, message := 0, 0, [];
      new;
      SetInitial();
      ViewOfNothing();
    }

    method SetInitial()
      requires Shape()
      modifies state
      ensures Regs() == INIT
    {
      state[0], state[1], state[2], state[3] := 0x6a09e667, 0xbb67ae85, 0x3c6ef372, 0xa54ff53a;
      state[4], state[5], state[6], state[7] := 0x510e527f, 0x9b05688c, 0x1f83d9ab, 0x5be0cd19;
    }

    lemma ViewOfNothing()
      requires Shape() && Regs() == INIT && count0 == count1 == 0 && message == []
      ensures Valid() && Exact()
    {
      hide Absorb, Fold, Compress, INIT, Regs;
      AbsorbNothing(Compress, INIT);
      assert buf[..Index()] == [];
    }

    // ----- one block

    /** The message schedule of a block. */
    method Load(input: seq<Byte>) returns (w: array<bv32>)
      requires |input| == 64
      ensures fresh(w) && w[..] == Schedule(input, 64)
    {
      hide BigEndian, Blend, ShiftIn;
      w := new bv32[64];
      var i := 0;
      while i < 16
        invariant 0 <= i <= 16 && w[..i] == Schedule(input, i)
      {
        var t1 := ShiftIn(ShiftIn(ShiftIn(ShiftIn(0, input[4 * i]), input[4 * i + 1]), input[4 * i + 2]), input[4 * i + 3]);
        ShiftInFour(0, input[4 * i], input[4 * i + 1], input[4 * i + 2], input[4 * i + 3]);
        w[i] := t1;
        i := i + 1;
      }
      while i < 64
        invariant 16 <= i <= 64 && w[..i] == Schedule(input, i)
      {
        w[i] := Blend(w[i - 2], w[i - 7], w[i - 15], w[i - 16]);
        i := i + 1;
      }
      assert w[..] == w[..64];
    }

    /** Eight rounds in which every register keeps its name, and the names move on instead. */
    static method EightRounds(w: seq<bv32>, r: Fips180.Regs, ghost r0: Fips180.Regs, i: nat) returns (s: Fips180.Regs)
      requires |w| == 64 && i + 8 <= 64 && r == Rounds(w, r0, i)
      ensures s == Rounds(w, r0, i + 8)
    {
      hide T1, T2, Plus, K, Rounds;
      KSize();
      RoundStep(w, r0, i);
      RoundStep(w, r0, i + 1);
      RoundStep(w, r0, i + 2);
      RoundStep(w, r0, i + 3);
      RoundStep(w, r0, i + 4);
      RoundStep(w, r0, i + 5);
      RoundStep(w, r0, i + 6);
      RoundStep(w, r0, i + 7);
      var a, b, c, d, e, f, g, h := r.a, r.b, r.c, r.d, r.e, r.f, r.g, r.h;
      var t1, t2;
      t1 := T1(h, e, f, g, K[i], w[i]);
      t2 := T2(a, b, c);
      d := Plus(d, t1);
      h := Plus(t1, t2);
      t1 := T1(g, d, e, f, K[i + 1], w[i + 1]);
      t2 := T2(h, a, b);
      c := Plus(c, t1);
      g := Plus(t1, t2);
      t1 := T1(f, c, d, e, K[i + 2], w[i + 2]);
      t2 := T2(g, h, a);
      b := Plus(b, t1);
      f := Plus(t1, t2);
      t1 := T1(e, b, c, d, K[i + 3], w[i + 3]);
      t2 := T2(f, g, h);
      a := Plus(a, t1);
      e := Plus(t1, t2);
      t1 := T1(d, a, b, c, K[i + 4], w[i + 4]);
      t2 := T2(e, f, g);
      h := Plus(h, t1);
      d := Plus(t1, t2);
      t1 := T1(c, h, a, b, K[i + 5], w[i + 5]);
      t2 := T2(d, e, f);
      g := Plus(g, t1);
      c := Plus(t1, t2);
      t1 := T1(b, g, h, a, K[i + 6], w[i + 6]);
      t2 := T2(c, d, e);
      f := Plus(f, t1);
      b := Plus(t1, t2);
      t1 := T1(a, f, g, h, K[i + 7], w[i + 7]);
      t2 := T2(b, c, d);
      e := Plus(e, t1);
      a := Plus(t1, t2);
      s := Fips180.Regs(a, b, c, d, e, f, g, h);
    }

    method Transform(input: seq<Byte>)
      requires Shape() && |input| == 64
      modifies state
      ensures Regs() == Compress(old(Regs()), input)
    {
      hide Schedule, Rounds, Plus;
      var w := Load(input);
      var r := Regs();
      ghost var r0 := r;
      var i := 0;
      NoRounds(w[..], r0);
      while i < 64
        invariant 0 <= i <= 64 && i % 8 == 0 && w[..] == Schedule(input, 64) && r == Rounds(w[..], r0, i)
        invariant Regs() == old(Regs())
      {
        r := EightRounds(w[..], r, r0, i);
        i := i + 8;
      }
      state[0], state[1], state[2], state[3] := Plus(state[0], r.a), Plus(state[1], r.b), Plus(state[2], r.c), Plus(state[3], r.d);
      state[4], state[5], state[6], state[7] := Plus(state[4], r.e), Plus(state[5], r.f), Plus(state[6], r.g), Plus(state[7], r.h);
    }

    // ----- the stream

    method Copy(index: nat, data: seq<Byte>)
      requires Shape() && index + |data| <= 128
      modifies buf
      ensures buf[..index] == old(buf[..index]) && buf[index..index + |data|] == data
    {
      var i := 0;
      while i < |data|
        invariant 0 <= i <= |data|
        invariant buf[..index] == old(buf[..index]) && buf[index..index + i] == data[..i]
      {
        buf[index + i] := data[i];
        i := i + 1;
      }
    }

    method Count(len: nat)
      requires count0 < WORD && count1 < WORD && len < WORD
      modifies this`count0, this`count1
      ensures count0 == (old(count0) + len * 8 % WORD) % WORD && count1 == HighAfter(old(count0), old(count1), len)
    {
      count0 := (count0 + len * 8 % WORD) % WORD;
      if count0 < len * 8 % WORD {
        count1 := (count1 + 1) % WORD;
        count1 := (count1 + len / 0x2000_0000) % WORD;
      }
    }

    /** Hashes every whole block of the data from index i on. */
    method TransformAll(data: seq<Byte>, from: nat) returns (i: nat)
      requires Shape() && from <= |data|
      modifies state
      ensures from <= i <= |data| && |data| - i < 64
      ensures Regs() == Fold(Compress, old(Regs()), data[from..]) && data[i..] == Rest(data[from..])
    {
      hide Compress, Fold;
      i := from;
      while i + 63 < |data|
        invariant from <= i <= |data|
        invariant Fold(Compress, Regs(), data[i..]) == Fold(Compress, old(Regs()), data[from..])
        invariant Rest(data[i..]) == Rest(data[from..])
      {
        assert data[i..] == data[i..i + 64] + data[i + 64..];
        FoldOne(Compress, Regs(), data[i..i + 64], data[i + 64..]);
        Transform(data[i..i + 64]);
        i := i + 64;
      }
      FoldShort(Compress, Regs(), data[i..]);
    }

    /** Hashes data behind the index bytes that wait in the buffer. */
    method Feed(data: seq<Byte>, index: nat)
      requires Shape() && index < 64
      modifies state, buf
      ensures Stream(Regs(), buf[..(index + |data|) % 64]) == Absorb(Compress, Stream(old(Regs()), old(buf[..index])), data)
    {
      hide Compress, Fold, Absorb;
      ghost var before := Stream(Regs(), buf[..index]);
      var partLen := 64 - index;
      if |data| >= partLen {
        Copy(index, data[..partLen]);
        assert buf[..64] == before.pending + data[..partLen];
        Transform(buf[..64]);
        var i := TransformAll(data, partLen);
        Copy(0, data[i..]);
        AbsorbLong(Compress, before, data, partLen);
        assert buf[..|data| - i] == data[i..];
      } else {
        Copy(index, data);
        AbsorbShort(Compress, before, data);
        SmallMod(index + |data|);
        assert buf[..index + |data|] == before.pending + data;
      }
    }

    /** Hashes more of the message. */
    method Update(data: seq<Byte>)
      requires Valid() && |data| < 0x8000_0000
      modifies this`count0, this`count1, this`message, state, buf
      ensures Valid() && message == old(message) + data
      ensures count1 == HighAfter(old(count0), old(count1), |data|)
      ensures count0 == (old(count0) + |data| * 8 % WORD) % WORD
    {
      hide Compress, Fold, Absorb, HighAfter;
      var index := count0 / 8 % 64;
      CountIndex(count0, |data|);
      Count(|data|);
      Feed(data, index);
      AbsorbConcat(Compress, Stream(INIT, []), message, data);
      message := message + data;
    }

    /** The count stays right exactly if the data is under 2^29 bytes or its length carries over. */
    twostate lemma ExactIff(data: seq<Byte>)
      requires old(Exact()) && old(count0) < WORD && old(count1) < WORD && |data| < WORD && message == old(message) + data
      requires count1 == HighAfter(old(count0), old(count1), |data|)
      requires count0 == (old(count0) + |data| * 8 % WORD) % WORD
      ensures Exact() <==> |data| < 0x2000_0000 || Carries(old(count0), |data|)
    {
      hide HighAfter, Carries;
      CountIff(old(count0), old(count1), |data|);
      CountSum(old(Counted()), |old(message)|, |data|);
    }

    /** The bits counted, byte by byte. */
    method Bits() returns (bits: seq<Byte>)
      requires count0 < WORD && count1 < WORD
      ensures bits == NumberBytes(Counted(), 8)
    {
      hide NatByte;
      var t := count0;
      var b7 := NatByte(t);
      t := t / 256;
      var b6 := NatByte(t);
      t := t / 256;
      var b5 := NatByte(t);
      t := t / 256;
      var b4 := NatByte(t);
      t := count1;
      var b3 := NatByte(t);
      t := t / 256;
      var b2 := NatByte(t);
      t := t / 256;
      var b1 := NatByte(t);
      t := t / 256;
      var b0 := NatByte(t);
      bits := [b0, b1, b2, b3, b4, b5, b6, b7];
      BitsOfWords(count0, count1);
    }

    lemma IndexIsLength()
      requires Valid()
      ensures Index() == |message| % 64
    {
      hide Fold, Compress, Whole;
      var none: seq<Byte> := [];
      assert none + message == message;
      RestIsMod(message);
    }

    method Output() returns (out: seq<Byte>)
      requires Shape()
      ensures out == Digest(Regs())
    {
      hide WordBytes;
      out := [];
      var i := 0;
      while i < 8
        invariant 0 <= i <= 8
        invariant out == AllBytes(state[..i])
      {
        out := out + WordBytes(state[i]);
        assert state[..i + 1][..i] == state[..i];
        i := i + 1;
      }
      assert state[..] == [state[0], state[1], state[2], state[3], state[4], state[5], state[6], state[7]];
      assert state[..8] == state[..];
    }

    /** Pads the message with its length in so many bits. */
    method Finish(bits: seq<Byte>)
      requires Valid() && |bits| == 8
      modifies this`count0, this`count1, this`message, state, buf
      ensures Valid() && message == old(message) + Pad(|old(message)|, 0x80 as Byte, 0 as Byte, bits)
    {
      hide Fold, Compress, INIT, Absorb, HighAfter;
      ghost var m := message;
      var index := count0 / 8 % 64;
      IndexIsLength();
      var padLen := if index < 56 then 56 - index else 120 - index;
      PadLength(|m|, index);
      var padding := [0x80 as Byte] + seq(63, i => 0 as Byte);
      Update(padding[..padLen]);
      Update(bits);
      assert padding[..padLen] + bits == Pad(|m|, 0x80 as Byte, 0 as Byte, bits);
      assert message == m + Pad(|m|, 0x80 as Byte, 0 as Byte, bits);
    }

    /** Pads the message with the bits counted and gives the digest. */
    method Final() returns (out: seq<Byte>)
      requires Valid()
      modifies this`count0, this`count1, this`message, state, buf
      ensures out == Sha256Counting(old(message), old(Counted()))
      ensures old(Exact()) ==> out == Sha256(old(message))
    {
      hide Fold, Compress, INIT, Absorb, Digest, NumberBytes, HighAfter, Pad;
      ghost var m := message;
      LengthBytes(8 * |m|);
      var bits := Bits();
      Finish(bits);
      FinalState(Compress, INIT, m, 0x80 as Byte, 0 as Byte, bits);
      out := Output();
    }
  }

  // ----- counting

  /** The low word of the count says where in a block the message ends. */
  lemma CountIndex(count: nat, len: nat)
    requires count < WORD && count % 8 == 0
    ensures var c := (count + len * 8 % WORD) % WORD;
            c % 8 == 0 && c / 8 % 64 == (count / 8 % 64 + len) % 64
  {
    var c := (count + len * 8 % WORD) % WORD;
    var q := (count + len * 8 - c) / WORD;
    assert count + len * 8 == q * WORD + c by { ModOfSum(count, len * 8); }
    assert c / 8 == count / 8 + len - q * (WORD / 8);
    ModShift(count / 8, len, q);
  }

  lemma ModOfSum(a: nat, b: nat)
    ensures ((a + b % WORD) % WORD) == (a + b) % WORD
    ensures a + b == (a + b) / WORD * WORD + (a + b % WORD) % WORD
  {
  }

  lemma ModShift(a: nat, len: nat, q: int)
    requires a + len - q * (WORD / 8) >= 0
    ensures (a + len - q * (WORD / 8)) % 64 == (a % 64 + len) % 64
  {
    var k := WORD / 8 / 64;
    assert q * (WORD / 8) == 64 * (q * k);
    Mod64(a + len, q * k);
    Mod64(a % 64 + len, -(a / 64));
    assert a % 64 + len - 64 * -(a / 64) == a + len;
  }

  lemma Mod64(x: int, k: int)
    ensures (x - 64 * k) % 64 == x % 64
  {
  }

  /** The digest of a message whose length has been counted as so many bits. */
  function Sha256Counting(message: seq<Byte>, bits: nat): seq<Byte> {
    Digest(Fold(Compress, INIT, message + Pad(|message|, 0x80 as Byte, 0 as Byte, NumberBytes(bits, 8))))
  }

  lemma PadLength(n: nat, index: nat)
    requires index == n % 64
    ensures 1 + Zeros(n) == if index < 56 then 56 - index else 120 - index
  {
  }

  lemma RoundStep(w: seq<bv32>, r: Regs, n: nat)
    requires |w| == 64 && n < 64
    ensures |K| == 64 && Rounds(w, r, n + 1) == Round(Rounds(w, r, n), K[n], w[n])
  {
    hide Round, K;
    KSize();
  }

  /** Whether adding the low word of a length carries over. */
  predicate Carries(count0: nat, len: nat) {
    (count0 + len * 8 % WORD) % WORD < len * 8 % WORD
  }

  /** The high word after more bytes: the part of the length it takes up is added only along with a carry. */
  function HighAfter(count0: nat, count1: nat, len: nat): (r: nat)
    ensures count1 < WORD ==> r < WORD
  {
    if Carries(count0, len) then ((count1 + 1) % WORD + len / 0x2000_0000) % WORD else count1
  }

  lemma SplitBits(count0: nat, len: nat)
    requires count0 < WORD && len < WORD
    ensures len * 8 == len / 0x2000_0000 * WORD + len * 8 % WORD
    ensures count0 + len * 8 % WORD == (if Carries(count0, len) then WORD else 0) + (count0 + len * 8 % WORD) % WORD
  {
  }

  /** The two words count right exactly if the length fits the low word or its low part carries over. */
  lemma CountIff(count0: nat, count1: nat, len: nat)
    requires count0 < WORD && count1 < WORD && len < WORD
    ensures HighAfter(count0, count1, len) * WORD + (count0 + len * 8 % WORD) % WORD == (count1 * WORD + count0 + len * 8) % DOUBLE
            <==> len < 0x2000_0000 || Carries(count0, len)
  {
    SplitBits(count0, len);
    var n0 := (count0 + len * 8 % WORD) % WORD;
    var hi, carry := len / 0x2000_0000, if Carries(count0, len) then 1 else 0;
    hide Carries;
    assert count1 * WORD + count0 + len * 8 == (count1 + hi + carry) * WORD + n0;
    var exact := if count1 + hi + carry < WORD then count1 + hi + carry else count1 + hi + carry - WORD;
    DoubleMod(count1 + hi + carry, n0, exact);
    assert carry == 1 ==> HighAfter(count0, count1, len) == exact by { if carry == 1 { ModOnce(count1, hi); } }
    assert hi == 0 && carry == 0 ==> exact == count1;
    assert hi > 0 && carry == 0 ==> exact != count1;
  }

  lemma DoubleMod(high: nat, low: nat, exact: nat)
    requires low < WORD && exact < WORD && (high == exact || high == exact + WORD)
    ensures (high * WORD + low) % DOUBLE == exact * WORD + low
  {
  }

  lemma ModOnce(count: nat, hi: nat)
    requires count < WORD && hi < 8
    ensures ((count + 1) % WORD + hi) % WORD == if count + hi + 1 < WORD then count + hi + 1 else count + hi + 1 - WORD
  {
  }

  lemma CountSum(counted: nat, length: nat, len: nat)
    requires counted == 8 * length % DOUBLE
    ensures (counted + len * 8) % DOUBLE == 8 * (length + len) % DOUBLE
  {
  }

  lemma NoRounds(w: seq<bv32>, r: Regs)
    requires |w| == 64
    ensures Rounds(w, r, 0) == r
  {
  }

  /** The digest of a message in one call. */
  method Sha256Block(data: seq<Byte>) returns (out: seq<Byte>)
    requires |data| < 0x8000_0000
    ensures out == Sha256Counting(data, 8 * |data| % WORD)
    ensures |data| < 0x2000_0000 ==> out == Sha256(data)
  {
    hide Sha256Counting, Sha256, Absorb, Carries;
    var ctx := new Context();
    NoCarry(|data|);
    Calls(|data|);
    ctx.Update(data);
    assert ctx.message == data;
    out := ctx.Final();
  }

  lemma Calls(len: nat)
    requires len < 0x8000_0000
    ensures len < 0x2000_0000 ==> 8 * len % WORD == 8 * len % DOUBLE
  {
  }

  lemma NoCarry(len: nat)
    requires len < WORD
    ensures !Carries(0, len) && (0 + len * 8 % WORD) % WORD == 8 * len % WORD
  {
  }

  /** One call pads with the length of the message exactly if that is under 2^29 bytes. */
  lemma OneCallIff(len: nat)
    requires len < 0x8000_0000
    ensures NumberBytes(8 * len % WORD, 8) == NumberBytes(8 * len, 8) <==> len < 0x2000_0000
  {
    hide NatByte, NumberBytes;
    var low, high := 8 * len % WORD, len / 0x2000_0000;
    assert 8 * len == high * WORD + low;
    LowFour(low, low / 256, low / 256 / 256, low / 256 / 256 / 256, high);
    LowFour(low, low / 256, low / 256 / 256, low / 256 / 256 / 256, 0);
    FourBytes(high);
    FourBytes(0);
    assert NumberBytes(8 * len, 8)[3] == NatByte(high) && NumberBytes(low, 8)[3] == NatByte(0);
    SmallByte(high);
    assert high == 0 <==> len < 0x2000_0000;
  }

  lemma SmallByte(n: nat)
    requires n < 256
    ensures NatByte(n) == NatByte(0) <==> n == 0
  {
  }
}
