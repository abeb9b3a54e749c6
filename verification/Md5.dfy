/** The streaming MD5 context on machine words of some width. */
module Md5 {
  import opened Blocks
  import opened Octets
  import opened WideWords
  import opened Rfc1321
  import opened Md5Wide

  const LIMIT := 0x2000_0000

  class Context {
    const width: Width
    var lo: nat
    var hi: nat
    var a: nat
    var b: nat
    var c: nat
    var d: nat
    const buffer: array<Octet>
    const block: array<nat>
    /** Everything that has been hashed so far. */
    ghost var message: seq<Octet>

    ghost predicate Shape() {
      buffer.Length == 64 && block.Length == 16 && buffer as object != block as object
    }

    function Registers(): Regs
      reads this
    {
      Regs(a, b, c, d)
    }

    ghost function View(): Stream<Regs, Octet>
      requires Shape()
      reads this, buffer
    {
      Stream(KeepRegs(Registers()), buffer[..lo % 64])
    }

    /** The low 32 bits stand where hashing the message so far leads, and the count is right in 64 bits. */
    ghost predicate Valid()
      reads this, buffer
    {
      && Shape() && View() == Absorb(Compress, Stream(INIT, []), message)
      && lo == |message| % LIMIT && Keep(hi, 32) == Keep(|message| / LIMIT, 32)
    }

    constructor (width: Width)
      ensures Valid() && message == [] && this.width == width && fresh(buffer) && fresh(block)
    {
      this.width := width;
      a, b, c, d := 0x67452301, 0xefcdab89, 0x98badcfe, 0x10325476;
      lo, hi := 0, 0;
      buffer := new Octet[64];
      block := new nat[16];
      message := [];
      new;
      hide Fold, Compress, Absorb, Keep;
      AbsorbNothing(Compress, INIT);
      InitKept();
      assert buffer[..0] == [];
    }

    // ----- blocks

    /** Stores the words of a block. */
    method SetWords(ptr: seq<Octet>)
      requires Shape() && |ptr| == 64
      modifies block
      ensures block[..] == BlockWords(ptr)
    {
      hide LittleEndian;
      var n := 0;
      while n < 16
        invariant 0 <= n <= 16 && forall k :: 0 <= k < n ==> block[k] == Word(ptr, k)
      {
        block[n] := SetWord(ptr[4 * n], ptr[4 * n + 1], ptr[4 * n + 2], ptr[4 * n + 3], width);
        SetWordIsSum(ptr[4 * n], ptr[4 * n + 1], ptr[4 * n + 2], ptr[4 * n + 3], width);
        n := n + 1;
      }
    }

    /** Four steps in which every register keeps its name. */
    method FourSteps(i: nat, ghost r0: Regs)
      requires Shape() && i % 4 == 0 && i + 4 <= 64 && Registers() == WideSteps(block[..], r0, i, width)
      modifies this`a, this`b, this`c, this`d
      ensures Registers() == WideSteps(block[..], r0, i + 4, width)
    {
      hide WideMixed, WideRotate, Keep, S, X, T, WideSteps;
      ghost var x := block[..];
      TableSize();
      StepMore(x, r0, i, width);
      StepMore(x, r0, i + 1, width);
      StepMore(x, r0, i + 2, width);
      StepMore(x, r0, i + 3, width);
      a := Stepped(WideMixed(i, b, c, d, width), a, b, block[X(i)], T[i], S(i), width);
      d := Stepped(WideMixed(i + 1, a, b, c, width), d, a, block[X(i + 1)], T[i + 1], S(i + 1), width);
      c := Stepped(WideMixed(i + 2, d, a, b, width), c, d, block[X(i + 2)], T[i + 2], S(i + 2), width);
      b := Stepped(WideMixed(i + 3, c, d, a, width), b, c, block[X(i + 3)], T[i + 3], S(i + 3), width);
    }

    method OneBlock(ptr: seq<Octet>)
      requires Shape() && |ptr| == 64
      modifies this`a, this`b, this`c, this`d, block
      ensures KeepRegs(Registers()) == Compress(KeepRegs(old(Registers())), ptr)
    {
      hide KeepRegs, WideSteps, Compress, BlockWords, Keep;
      var saved := Registers();
      SetWords(ptr);
      NoSteps(block[..], saved, width);
      var i := 0;
      while i < 64
        invariant 0 <= i <= 64 && i % 4 == 0
        invariant block[..] == BlockWords(ptr) && Registers() == WideSteps(block[..], saved, i, width)
      {
        FourSteps(i, saved);
        i := i + 4;
      }
      a, b, c, d := Keep(a + saved.a, width), Keep(b + saved.b, width), Keep(c + saved.c, width), Keep(d + saved.d, width);
      CompressKeep(saved, ptr, width);
    }

    /** One or more blocks. */
    method Body(data: seq<Octet>)
      requires Shape() && |data| >= 64 && |data| % 64 == 0
      modifies this`a, this`b, this`c, this`d, block
      ensures KeepRegs(Registers()) == Fold(Compress, KeepRegs(old(Registers())), data)
    {
      hide KeepRegs, Compress, Fold, Registers;
      var ptr, size := 0, |data|;
      assert data[0..] == data;
      while size != 0
        invariant 0 <= size && ptr + size == |data| && size % 64 == 0
        invariant Fold(Compress, KeepRegs(Registers()), data[ptr..]) == Fold(Compress, KeepRegs(old(Registers())), data)
        decreases size
      {
        assert data[ptr..] == data[ptr..ptr + 64] + data[ptr + 64..];
        FoldOne(Compress, KeepRegs(Registers()), data[ptr..ptr + 64], data[ptr + 64..]);
        OneBlock(data[ptr..ptr + 64]);
        ptr := ptr + 64;
        size := size - 64;
      }
      FoldShort(Compress, KeepRegs(Registers()), data[ptr..]);
    }

    // ----- the stream

    method Copy(index: nat, data: seq<Octet>)
      requires Shape() && index + |data| <= 64
      modifies buffer
      ensures buffer[..index] == old(buffer[..index]) && buffer[index..index + |data|] == data
    {
      var i := 0;
      while i < |data|
        invariant 0 <= i <= |data|
        invariant buffer[..index] == old(buffer[..index]) && buffer[index..index + i] == data[..i]
      {
        buffer[index + i] := data[i];
        i := i + 1;
      }
    }

    /** Hashes all whole blocks and keeps what is left. */
    method Tail(data: seq<Octet>)
      requires Shape()
      modifies this`a, this`b, this`c, this`d, buffer, block
      ensures KeepRegs(Registers()) == Fold(Compress, KeepRegs(old(Registers())), data)
      ensures buffer[..|Rest(data)|] == Rest(data)
    {
      hide Compress, Fold, KeepRegs, Registers;
      var size := |data|;
      var rest := data;
      FoldWhole(Compress, KeepRegs(Registers()), data);
      if size >= 64 {
        WholeUnique(size, size / 64 * 64);
        Body(data[..size / 64 * 64]);
        rest := data[size / 64 * 64..];
      } else {
        FoldShort(Compress, KeepRegs(Registers()), data);
      }
      Copy(0, rest);
    }

    method Count(size: nat)
      requires lo < LIMIT
      modifies this`lo, this`hi
      ensures lo == (old(lo) + size) % LIMIT
      ensures Keep(hi, 32) == Keep(old(hi) + (old(lo) + size) / LIMIT, 32)
    {
      hide Keep;
      var savedLo := lo;
      CountParts(lo, size);
      lo := (savedLo + size) % LIMIT;
      if lo < savedLo {
        KeepKeep(hi + 1, width, 32);
        hi := Keep(hi + 1, width);
      }
      KeepKeep(hi + size / LIMIT, width, 32);
      AddKeep(hi, size / LIMIT, 32);
      AddKeep(old(hi) + 1, size / LIMIT, 32);
      hi := Keep(hi + size / LIMIT, width);
    }

    /** Hashes more of the message. */
    method Update(data: seq<Octet>)
      requires Valid()
      modifies this`lo, this`hi, this`a, this`b, this`c, this`d, this`message, buffer, block
      ensures Valid() && message == old(message) + data
    {
      hide Compress, Fold, Absorb, Keep, KeepRegs;
      ghost var length, before := |message|, View();
      var used := lo % 64;
      Count(|data|);
      CountOn(length, |data|, old(hi));
      Feed(data, used);
      AbsorbConcat(Compress, Stream(INIT, []), message, data);
      message := message + data;
    }

    /** Hashes data behind the bytes in use. */
    method Feed(data: seq<Octet>, used: nat)
      requires Shape() && used < 64
      modifies this`a, this`b, this`c, this`d, buffer, block
      ensures Stream(KeepRegs(Registers()), buffer[..(used + |data|) % 64])
              == Absorb(Compress, Stream(KeepRegs(old(Registers())), old(buffer[..used])), data)
    {
      hide Compress, Fold, Absorb, KeepRegs, Registers;
      ghost var before := Stream(KeepRegs(Registers()), buffer[..used]);
      var rest := data;
      if used != 0 {
        var free := 64 - used;
        if |data| < free {
          Copy(used, data);
          AbsorbShort(Compress, before, data);
          SmallMod(used + |data|);
          assert buffer[..used + |data|] == before.pending + data;
          return;
        }
        Copy(used, data[..free]);
        assert buffer[..64] == buffer[..] == before.pending + data[..free];
        AbsorbLong(Compress, before, data, free);
        FoldOnly(before.state, buffer[..]);
        rest := data[free..];
        Body(buffer[..]);
      } else {
        AbsorbAll(before, data);
      }
      Tail(rest);
    }

    // ----- the end

    /** Ends the message with a one, and with zeros if the length finds no room in this block. */
    method Close(ghost length: seq<Octet>) returns (used: nat)
      requires Valid() && length == Pack(8 * |message|, 8)
      modifies this`a, this`b, this`c, this`d, buffer, block
      ensures used <= 56
      ensures Fold(Compress, INIT, Padded(message))
              == Fold(Compress, KeepRegs(Registers()), buffer[..used] + ZeroOctets(56 - used) + length)
    {
      hide Compress, Fold, Absorb, KeepRegs, Registers, Pack, INIT, Padded;
      ghost var before := View();
      PaddedFold(message, before);
      used := lo % 64;
      UsedIsLength(message, before, lo);
      buffer[used] := 0x80;
      used := used + 1;
      var free := 64 - used;
      if free < 8 {
        Copy(used, ZeroOctets(free));
        assert buffer[..] == before.pending + ONE + ZeroOctets(free);
        TwoBlocks(before, length);
        FoldOnly(before.state, buffer[..]);
        Body(buffer[..]);
        used := 0;
        assert buffer[..0] + ZeroOctets(56) == ZeroOctets(56);
      } else {
        OneBlockLeft(before, length);
        assert buffer[..used] == before.pending + ONE;
      }
    }

    /** Pads the message with a one, zeros and its length. */
    method Finish()
      requires Valid()
      modifies this`lo, this`a, this`b, this`c, this`d, buffer, block
      ensures KeepRegs(Registers()) == Fold(Compress, INIT, Padded(message))
    {
      hide Compress, Fold, Absorb, KeepRegs, Keep, Pack, INIT, Padded;
      LengthOctets(|message|, lo, hi, width);
      ghost var length := Pack(8 * |message|, 8);
      var used := Close(length);
      ghost var start := buffer[..used];
      Copy(used, ZeroOctets(56 - used));
      assert buffer[..56] == start + ZeroOctets(56 - used);
      lo := Keep(Shl(lo, 3), width);
      Copy(56, Pack(lo, 4));
      Copy(60, Pack(hi, 4));
      assert buffer[..] == start + ZeroOctets(56 - used) + length;
      Body(buffer[..]);
    }

    /** Pads the message and gives the digest. */
    method Final() returns (result: seq<Octet>)
      requires Valid()
      modifies this`lo, this`a, this`b, this`c, this`d, buffer, block
      ensures result == Md5(message)
    {
      hide Fold, Compress, Absorb, Pack, Keep, Padded, INIT;
      Finish();
      OctetsKeep(a, 4);
      OctetsKeep(b, 4);
      OctetsKeep(c, 4);
      OctetsKeep(d, 4);
      result := Pack(a, 4) + Pack(b, 4) + Pack(c, 4) + Pack(d, 4);
    }
  }

  /** The digest does not depend on the width of the words. */
  method Md5Block(data: seq<Octet>, width: Width) returns (hashout: seq<Octet>)
    ensures hashout == Md5(data)
  {
    hide Md5;
    var ctx := new Context(width);
    ctx.Update(data);
    assert ctx.message == data;
    hashout := ctx.Final();
  }

  lemma InitKept()
    ensures KeepRegs(INIT) == INIT
  {
    hide Keep;
    Keep32(0x67452301);
    Keep32(0xefcdab89);
    Keep32(0x98badcfe);
    Keep32(0x10325476);
  }

  /** Four bytes put side by side. */
  function SetWord(b0: Octet, b1: Octet, b2: Octet, b3: Octet, w: nat): nat {
    Bitwise(Or, Bitwise(Or, Bitwise(Or, b0, Shl(b1, 8), w), Shl(b2, 16), w), Shl(b3, 24), w)
  }

  lemma {:induction false} ShlSmall(x: nat, n: nat, s: nat)
    requires x < Pow2(n)
    ensures Shl(x, s) < Pow2(n + s)
  {
    if s > 0 {
      ShlSmall(x, n, s - 1);
    }
  }

  lemma BesideLow(low: nat, x: nat, s: nat, w: Width)
    requires low < Pow2(s) && x < 256 && s + 8 <= 32
    ensures Bitwise(Or, low, Shl(x, s), w) == low + Shl(x, s)
    ensures low + Shl(x, s) < Pow2(s + 8)
  {
    hide Bitwise, Keep, Shl, Pow2;
    Pow2Of32();
    ShlSmall(x, 8, s);
    Pow2Monotone(s + 8, w);
    ShlLow(x, s);
    Commutes(Or, low, Shl(x, s), w);
    OrIsSum(Shl(x, s), low, s, w);
    SumFits(low, x, s);
  }

  lemma {:induction false} SumFits(low: nat, x: nat, s: nat)
    requires low < Pow2(s) && x < 256
    ensures low + Shl(x, s) < Pow2(s + 8)
  {
    if s == 0 {
      Pow2Of32();
    } else {
      SumFits(low / 2, x, s - 1);
    }
  }

  lemma SetWordIsSum(b0: Octet, b1: Octet, b2: Octet, b3: Octet, w: Width)
    ensures SetWord(b0, b1, b2, b3, w) == LittleEndian(b0, b1, b2, b3)
  {
    hide Bitwise, Shl, Pow2;
    Pow2Of32();
    BesideLow(b0, b1, 8, w);
    BesideLow(b0 + Shl(b1, 8), b2, 16, w);
    BesideLow(b0 + Shl(b1, 8) + Shl(b2, 16), b3, 24, w);
  }

  /** What a step leaves in its register. */
  function Stepped(mixed: nat, a: nat, b: nat, x: nat, t: nat, s: nat, w: nat): nat
    requires s <= 32
  {
    Keep(WideRotate(Keep(a + (mixed + x + t), w), s, w) + b, w)
  }

  lemma StepMore(x: seq<nat>, r: Regs, n: nat, w: Width)
    requires |x| == 16 && n < 64
    ensures |T| == 64
    ensures var p := WideSteps(x, r, n, w);
            WideSteps(x, r, n + 1, w)
            == Regs(p.d, Stepped(WideMixed(n, p.b, p.c, p.d, w), p.a, p.b, x[X(n)], T[n], S(n), w), p.b, p.c)
  {
    hide WideMixed, WideRotate, Keep, S, X, T;
    TableSize();
  }

  lemma NoSteps(x: seq<nat>, r: Regs, w: nat)
    requires |x| == 16
    ensures WideSteps(x, r, 0, w) == r
  {
  }

  // ----- counting and padding

  const ONE: seq<Octet> := [0x80]

  function ZeroOctets(n: nat): (z: seq<Octet>)
    ensures |z| == n
  {
    seq(n, i => 0)
  }

  lemma PadIs(n: nat, length: seq<Octet>)
    ensures Pad(n, 0x80 as Octet, 0 as Octet, length) == ONE + ZeroOctets(Zeros(n)) + length
  {
  }

  lemma CountParts(lo: nat, size: nat)
    requires lo < LIMIT
    ensures (lo + size) / LIMIT == size / LIMIT + if (lo + size) % LIMIT < lo then 1 else 0
  {
  }

  /** The count goes on with the length of the message. */
  lemma CountOn(length: nat, size: nat, hi: nat)
    requires Keep(hi, 32) == Keep(length / LIMIT, 32)
    ensures var lo := length % LIMIT;
            (lo + size) % LIMIT == (length + size) % LIMIT
            && Keep(hi + (lo + size) / LIMIT, 32) == Keep((length + size) / LIMIT, 32)
            && (lo + size) % LIMIT % 64 == (lo % 64 + size) % 64
  {
    hide Keep;
    var lo, q := length % LIMIT, length / LIMIT;
    assert length + size == q * LIMIT + (lo + size);
    Split(q, lo + size);
    Low6(lo, size);
    AddKeep(hi, (lo + size) / LIMIT, 32);
    AddKeep(q, (lo + size) / LIMIT, 32);
  }

  lemma Split(q: nat, n: nat)
    ensures (q * LIMIT + n) % LIMIT == n % LIMIT && (q * LIMIT + n) / LIMIT == q + n / LIMIT
  {
  }

  lemma Low6(lo: nat, size: nat)
    ensures (lo + size) % LIMIT % 64 == (lo % 64 + size) % 64
  {
    var n := lo + size;
    var q, p := n / LIMIT, lo / 64;
    assert n == q * LIMIT + n % LIMIT && lo == p * 64 + lo % 64;
    Multiple(n % LIMIT, q * (LIMIT / 64));
    Multiple(lo % 64 + size, p);
  }

  lemma Multiple(n: nat, k: nat)
    ensures (k * 64 + n) % 64 == n % 64
  {
  }

  lemma FoldOnly(s: Regs, block: seq<Octet>)
    requires |block| == 64
    ensures Fold(Compress, s, block) == Compress(s, block)
  {
    hide Compress;
    FoldOne(Compress, s, block, []);
    assert block + [] == block;
    FoldShort(Compress, Compress(s, block), []);
  }

  lemma AbsorbAll(st: Stream<Regs, Octet>, data: seq<Octet>)
    requires st.pending == []
    ensures Absorb(Compress, st, data) == Stream(Fold(Compress, st.state, data), Rest(data))
    ensures |data| % 64 == |Rest(data)|
  {
    hide Compress, Fold;
    assert st.pending + data == data;
  }

  /** Padding a message goes on from where hashing it has led. */
  lemma PaddedFold(m: seq<Octet>, before: Stream<Regs, Octet>)
    requires before == Absorb(Compress, Stream(INIT, []), m)
    ensures |before.pending| == |m| % 64
    ensures Fold(Compress, INIT, Padded(m))
            == Fold(Compress, before.state, before.pending + (ONE + ZeroOctets(Zeros(|m|)) + Pack(8 * |m|, 8)))
  {
    hide Compress, Fold, INIT, Pack, Whole, Pad, Rest;
    var pad := Pad(|m|, 0x80 as Octet, 0 as Octet, Pack(8 * |m|, 8));
    PadIs(|m|, Pack(8 * |m|, 8));
    PadFills(m, 0x80 as Octet, 0 as Octet, Pack(8 * |m|, 8));
    FoldPadded(Compress, INIT, m, pad);
    var none: seq<Octet> := [];
    assert none + m == m;
    RestIsMod(m);
  }

  lemma UsedIsLength(m: seq<Octet>, before: Stream<Regs, Octet>, lo: nat)
    requires |before.pending| == |m| % 64 && lo == |m| % LIMIT
    ensures lo % 64 == |before.pending|
    ensures Zeros(|m|) == if |before.pending| < 56 then 55 - |before.pending| else 119 - |before.pending|
  {
    Low6(|m|, 0);
  }


  /** The padding ends the block that is begun. */
  lemma OneBlockLeft(before: Stream<Regs, Octet>, length: seq<Octet>)
    requires |before.pending| < 56 && |length| == 8
    ensures before.pending + (ONE + ZeroOctets(55 - |before.pending|) + length)
            == before.pending + ONE + ZeroOctets(55 - |before.pending|) + length
  {
  }

  /** The padding ends the block that is begun and fills another. */
  lemma TwoBlocks(before: Stream<Regs, Octet>, length: seq<Octet>)
    requires 56 <= |before.pending| < 64 && |length| == 8
    ensures var first := before.pending + ONE + ZeroOctets(63 - |before.pending|);
            Fold(Compress, before.state, before.pending + (ONE + ZeroOctets(119 - |before.pending|) + length))
            == Fold(Compress, Fold(Compress, before.state, first), ZeroOctets(56) + length)
  {
    hide Compress, Fold;
    var first := before.pending + ONE + ZeroOctets(63 - |before.pending|);
    var second := ZeroOctets(56) + length;
    assert before.pending + (ONE + ZeroOctets(119 - |before.pending|) + length) == first + second;
    FoldOne(Compress, before.state, first, second);
    FoldOnly(before.state, first);
  }

  // ----- bytes of words

  lemma {:induction false} ShrKeep(x: nat, s: nat, k: nat)
    ensures Keep(Shr(x, s), k) == Shr(Keep(x, s + k), s)
  {
    if s > 0 {
      ShrKeep(x / 2, s - 1, k);
      KeepStep(x, s + k);
    }
  }

  /** Splitting off a byte is shifting by eight. */
  lemma PackStep(x: nat, k: nat)
    requires k > 0
    ensures Pack(x, k) == [x % 256] + Pack(Shr(x, 8), k - 1) && x % 256 == Keep(x, 8)
  {
    hide Keep;
    Keep8(x);
    Shr8(x);
  }

  lemma Shr2(x: nat)
    ensures Shr(x, 2) == x / 4
  {
    assert Shr(x / 2, 1) == Shr(x / 2 / 2, 0);
  }

  lemma Shr8(x: nat)
    ensures Shr(x, 8) == x / 256
  {
    hide Shr;
    ShrShr(x, 2, 6);
    ShrShr(x / 4, 2, 4);
    ShrShr(x / 4 / 4, 2, 2);
    Shr2(x);
    Shr2(x / 4);
    Shr2(x / 4 / 4);
    Shr2(x / 4 / 4 / 4);
  }

  /** The bytes of a word lie in its low bits. */
  lemma {:induction false} OctetsLow(x: nat, y: nat, k: nat)
    requires Keep(x, 8 * k) == Keep(y, 8 * k)
    ensures Pack(x, k) == Pack(y, k)
    decreases k
  {
    hide Keep, Shr, Pack;
    if k == 0 {
      NoBytes(x, y);
    } else {
      PackStep(x, k);
      PackStep(y, k);
      KeepKeep(x, 8 * k, 8);
      KeepKeep(y, 8 * k, 8);
      ShrKeep(x, 8, 8 * (k - 1));
      ShrKeep(y, 8, 8 * (k - 1));
      OctetsLow(Shr(x, 8), Shr(y, 8), k - 1);
    }
  }

  lemma NoBytes(x: nat, y: nat)
    ensures Pack(x, 0) == Pack(y, 0) == []
  {
  }

  lemma OctetsKeep(x: nat, k: nat)
    requires k == 4
    ensures Pack(Keep(x, 32), k) == Pack(x, k)
  {
    hide Pack, Keep;
    KeepKeep(x, 32, 32);
    OctetsLow(Keep(x, 32), x, k);
  }

  lemma {:induction false} OctetsSplit(n: nat, j: nat, k: nat)
    ensures Pack(n, j + k) == Pack(n, j) + Pack(Shr(n, 8 * j), k)
    decreases j
  {
    hide Pack, Shr, Keep;
    if j == 0 {
      NoBytes(n, n);
      assert Shr(n, 8 * j) == n by { ShrNone(n); }
      assert [] + Pack(n, k) == Pack(n, k);
    } else {
      PackStep(n, j + k);
      PackStep(n, j);
      OctetsSplit(Shr(n, 8), j - 1, k);
      ShrShr(n, 8, 8 * (j - 1));
      Join(n % 256, Pack(Shr(n, 8), j - 1), Pack(Shr(n, 8 * j), k));
    }
  }

  lemma ShrNone(n: nat)
    ensures Shr(n, 0) == n
  {
  }

  lemma Join(b: Octet, s: seq<Octet>, t: seq<Octet>)
    ensures [b] + (s + t) == [b] + s + t
  {
  }

  lemma {:induction false} ShrShr(n: nat, a: nat, b: nat)
    ensures Shr(Shr(n, a), b) == Shr(n, a + b)
  {
    if a > 0 {
      ShrShr(n / 2, a - 1, b);
    }
  }

  lemma {:induction false} ShlIsProduct(x: nat, s: nat)
    ensures Shl(x, s) == x * Pow2(s)
  {
    if s > 0 {
      ShlIsProduct(x, s - 1);
    }
  }

  lemma {:induction false} ShrKeepSplit(x: nat, s: nat)
    ensures x == Shl(Shr(x, s), s) + Keep(x, s)
  {
    if s > 0 {
      ShrKeepSplit(x / 2, s - 1);
    }
  }

  lemma Shr32(x: nat)
    ensures Shr(x, 32) == x / 0x1_0000_0000
  {
    hide Shr, Shl, Keep, Pow2;
    ShrKeepSplit(x, 32);
    ShlIsProduct(Shr(x, 32), 32);
    Pow2Of32();
    Substitute(Shr(x, 32), Pow2(32), 0x1_0000_0000);
  }

  /** The two parts of the count give the length in bits, in eight bytes. */
  lemma LengthOctets(n: nat, lo: nat, hi: nat, w: Width)
    requires lo == n % LIMIT && Keep(hi, 32) == Keep(n / LIMIT, 32)
    ensures Pack(8 * n, 8) == Pack(Keep(Shl(lo, 3), w), 4) + Pack(hi, 4)
  {
    hide Pack, Keep, Shr, Shl, Pow2;
    var bits := 8 * n;
    Shl3(lo);
    assert bits == n / LIMIT * 0x1_0000_0000 + 8 * lo;
    Pow2Of32();
    Pow2Monotone(32, w);
    KeepSmall(8 * lo, w);
    OctetsSplit(bits, 4, 4);
    Keep32(bits);
    Keep32(8 * lo);
    HighPart(n / LIMIT, 8 * lo);
    OctetsLow(bits, 8 * lo, 4);
    Shr32(bits);
    OctetsLow(n / LIMIT, hi, 4);
  }

  lemma Shl3(x: nat)
    ensures Shl(x, 3) == 8 * x
  {
    assert Shl(x, 1) == 2 * x;
    assert Shl(x, 2) == 4 * x;
  }

  lemma HighPart(q: nat, low: nat)
    requires low < 0x1_0000_0000
    ensures (q * 0x1_0000_0000 + low) % 0x1_0000_0000 == low && (q * 0x1_0000_0000 + low) / 0x1_0000_0000 == q
  {
  }
}
