/** The streaming SHA-1 context: every byte is shifted into the word that waits for it. */
module Sha1 {
  import opened Blocks
  import opened HashLogic
  import opened HashWords
  import opened Fips180Sha1
  import opened Widths

  /** Shifts bytes in, one after the other. */
  function ShiftInAll(w: bv32, bytes: seq<Byte>): bv32 {
    if bytes == [] then w else ShiftIn(ShiftInAll(w, bytes[..|bytes| - 1]), bytes[|bytes| - 1])
  }

  class Context {
    const H: array<bv32>
    const W: array<bv32>
    var lenW: nat
    var sizeHi: nat
    var sizeLo: nat
    /** Everything hashed so far, what of it waits for its block, and what the word in work held before its bytes. */
    ghost var message: seq<Byte>
    ghost var pending: seq<Byte>
    ghost var before: bv32

    ghost predicate Shape()
      reads this
    {
      H.Length == 5 && W.Length == 80 && H != W
    }

    function Regs(): Fips180Sha1.Regs
      requires Shape()
      reads this, H
    {
      Fips180Sha1.Regs(H[0], H[1], H[2], H[3], H[4])
    }

    /** The first words hold what waits. */
    ghost predicate Holds()
      requires Shape()
      reads this, W
    {
      |pending| == lenW < 64 && InWords(W[..], before, pending)
    }

    ghost predicate Valid()
      reads this, H, W
    {
      && Shape() && Holds()
      && Stream(Regs(), pending) == Absorb(Compress, Stream(INIT, []), message)
      && sizeLo < WORD && sizeHi < WORD && sizeHi * WORD + sizeLo == 8 * |message| % DOUBLE
    }

    // ----- one block

    /** Fills in the rest of the message schedule. */
    method Expand(ghost block: seq<Byte>)
      requires Shape() && |block| == 64 && W[..16] == Schedule(block, 16)
      modifies W
      ensures W[..] == Schedule(block, 80)
    {
      hide BigEndian, Blend;
      var t := 16;
      while t <= 79
        invariant 16 <= t <= 80 && W[..t] == Schedule(block, t)
      {
        W[t] := Blend(W[t - 3], W[t - 8], W[t - 14], W[t - 16]);
        t := t + 1;
      }
      assert W[..] == W[..80];
    }

    /** Twenty rounds of one kind. */
    method TwentyRounds(r: Fips180Sha1.Regs, from: nat, ghost r0: Fips180Sha1.Regs) returns (s: Fips180Sha1.Regs)
      requires Shape() && from in {0, 20, 40, 60} && r == Rounds(W[..], r0, from)
      ensures s == Rounds(W[..], r0, from + 20)
    {
      hide Rotl, Temp, Ch, Parity, Maj;
      var A, B, C, D, E := r.a, r.b, r.c, r.d, r.e;
      var t := from;
      while t < from + 20
        invariant from <= t <= from + 20
        invariant Fips180Sha1.Regs(A, B, C, D, E) == Rounds(W[..], r0, t)
      {
        var mixed := if from == 0 then ChFast(B, C, D) else if from == 40 then MajFast(B, C, D) else Parity(B, C, D);
        FastForms(B, C, D);
        var temp := Temp(Rotl(A, 5), mixed, E, W[t], K(t));
        E := D;
        D := C;
        C := Rotl(B, 30);
        B := A;
        A := temp;
        t := t + 1;
      }
      s := Fips180Sha1.Regs(A, B, C, D, E);
    }

    method HashBlock(ghost block: seq<Byte>)
      requires Shape() && |block| == 64 && W[..16] == Schedule(block, 16)
      modifies H, W
      ensures Regs() == Compress(old(Regs()), block)
    {
      hide Schedule, Rounds, Plus;
      Expand(block);
      ghost var r0 := Regs();
      NoRounds(W[..], r0);
      var r := TwentyRounds(Regs(), 0, r0);
      r := TwentyRounds(r, 20, r0);
      r := TwentyRounds(r, 40, r0);
      r := TwentyRounds(r, 60, r0);
      H[0], H[1], H[2], H[3], H[4] := Plus(H[0], r.a), Plus(H[1], r.b), Plus(H[2], r.c), Plus(H[3], r.d), Plus(H[4], r.e);
    }

    // ----- the stream

    constructor ()
      ensures Valid() && message == [] && fresh(H) && fresh(W)
    {
      H := new bv32[5];
      W := new bv32[80];
      lenW, sizeHi, sizeLo := 0, 0, 0;
      message, pending, before := [], [], 0;
      new;
      Init();
    }

    /** Starts over with no message. */
    method Init()
      requires Shape()
      modifies H, W, this`lenW, this`pending, this`before, this`message, this`sizeHi, this`sizeLo
      ensures Valid() && message == []
    {
      hide Fold, Compress, Absorb, InWords;
      lenW := 0;
      sizeHi, sizeLo := 0, 0;
      H[0], H[1], H[2], H[3], H[4] := 0x67452301, 0xefcdab89, 0x98badcfe, 0x10325476, 0xc3d2e1f0;
      for i := 0 to 80
        modifies W
      {
        W[i] := 0;
      }
      message, pending, before := [], [], 0;
      NothingIn(W[..], before);
      AbsorbNothing(Compress, INIT);
    }

    /** Shifts one byte into the word in work. */
    method Take(b: Byte)
      requires Shape() && Holds()
      modifies W, this`lenW, this`pending, this`before
      ensures pending == old(pending) + [b] && lenW == |pending|
      ensures InWords(W[..], before, pending)
    {
      hide InWords, ShiftIn;
      OneMoreIn(W[..], before, pending, b);
      var j := lenW / 4;
      if lenW % 4 == 0 {
        before := W[j];
      }
      W[j] := ShiftIn(W[j], b);
      assert W[..] == old(W[..])[j := W[j]];
      pending := pending + [b];
      lenW := lenW + 1;
    }

    lemma FilledIsSchedule(full: seq<Byte>)
      requires Shape() && |full| == 64 && InWords(W[..], before, full)
      ensures W[..16] == Schedule(full, 16)
    {
      hide Schedule, WordAt;
      ScheduleStart(full, 16);
    }

    method AddByte(b: Byte)
      requires Valid()
      modifies H, W, this`lenW, this`pending, this`before, this`message, this`sizeHi, this`sizeLo
      ensures Valid() && message == old(message) + [b]
    {
      hide Fold, Compress, Absorb, INIT, Schedule, InWords;
      Take(b);
      ghost var full := pending;
      AbsorbConcat(Compress, Stream(INIT, []), message, [b]);
      if lenW % 64 == 0 {
        FilledIsSchedule(full);
        AbsorbLast(Regs(), old(pending), b);
        HashBlock(full);
        lenW := 0;
        pending := [];
        NothingIn(W[..], before);
      } else {
        AbsorbShort(Compress, Stream(Regs(), old(pending)), [b]);
      }
      Count();
      message := message + [b];
    }

    method Count()
      requires sizeLo < WORD && sizeHi < WORD && sizeHi * WORD + sizeLo == 8 * |message| % DOUBLE
      modifies this`sizeHi, this`sizeLo
      ensures sizeLo < WORD && sizeHi < WORD && sizeHi * WORD + sizeLo == 8 * (|message| + 1) % DOUBLE
    {
      CountByte(sizeHi, sizeLo, |message|);
      sizeLo := (sizeLo + 8) % WORD;
      sizeHi := (sizeHi + if sizeLo < 8 then 1 else 0) % WORD;
    }

    method Update(data: seq<Byte>)
      requires Valid()
      modifies H, W, this`lenW, this`pending, this`before, this`message, this`sizeHi, this`sizeLo
      ensures Valid() && message == old(message) + data
    {
      hide Valid;
      var i := 0;
      while i < |data|
        invariant 0 <= i <= |data| && Valid() && message == old(message) + data[..i]
      {
        AddByte(data[i]);
        i := i + 1;
      }
    }

    /** Pads the message with a one, zeros and its length. */
    method Finish()
      requires Valid()
      modifies H, W, this`lenW, this`pending, this`before, this`message, this`sizeHi, this`sizeLo
      ensures Valid()
      ensures message == old(message) + Pad(|old(message)|, 0x80 as Byte, 0 as Byte, NumberBytes(8 * |old(message)| % DOUBLE, 8))
    {
      hide Fold, Compress, Absorb, INIT, NumberBytes, Holds;
      ghost var m := message;
      var padLen := Length();
      AddByte(0x80);
      ghost var zeros: seq<Byte> := [];
      LengthPending(this);
      while lenW != 56
        invariant Valid() && message == m + [0x80] + zeros && zeros == seq(|zeros|, i => 0 as Byte)
        invariant lenW == |message| % 64 && |zeros| <= Zeros(|m|)
        decreases Zeros(|m|) - |zeros|
      {
        AddByte(0x00);
        zeros := zeros + [0];
        LengthPending(this);
      }
      ZerosLeast(|m|, |zeros|);
      Update(padLen);
    }

    method Length() returns (padLen: seq<Byte>)
      requires Valid()
      ensures padLen == NumberBytes(8 * |message| % DOUBLE, 8)
    {
      hide NatByte, Fold, Compress, Absorb, INIT, Holds;
      padLen := [NatByte(sizeHi / 256 / 256 / 256), NatByte(sizeHi / 256 / 256), NatByte(sizeHi / 256), NatByte(sizeHi),
                 NatByte(sizeLo / 256 / 256 / 256), NatByte(sizeLo / 256 / 256), NatByte(sizeLo / 256), NatByte(sizeLo)];
      BitsOfWords(sizeLo, sizeHi);
    }

    /** Writes out the words of the hash, shifting each one out. */
    method Output() returns (out: seq<Byte>)
      requires Shape()
      modifies H
      ensures out == Digest(old(Regs()))
    {
      hide Low, AllBytes, WordBytes;
      ghost var h := H[..];
      NoBytes(h[..0]);
      out := [];
      var i := 0;
      while i < 5
        invariant 0 <= i <= 5 && out == AllBytes(h[..i]) && forall k :: i <= k < 5 ==> H[k] == h[k]
      {
        var w := H[i];
        ShiftedOut(w);
        out := out + [Low(w >> 24), Low((w << 8) >> 24), Low((w << 8 << 8) >> 24), Low((w << 8 << 8 << 8) >> 24)];
        H[i] := w << 8 << 8 << 8 << 8;
        BytesNext(h, i);
        i := i + 1;
      }
      assert h[..5] == [h[0], h[1], h[2], h[3], h[4]];
    }

    method Final() returns (out: seq<Byte>)
      requires Valid()
      modifies H, W, this`lenW, this`pending, this`before, this`message, this`sizeHi, this`sizeLo
      ensures out == Sha1(old(message))
      ensures Valid() && message == []
    {
      hide Fold, Compress, Absorb, INIT, Digest, NumberBytes, Pad, Holds;
      ghost var m := message;
      LengthBytes(8 * |m|);
      Finish();
      FinalState(Compress, INIT, m, 0x80 as Byte, 0 as Byte, NumberBytes(8 * |m| % DOUBLE, 8));
      out := Output();
      Init();
    }
  }

  /** The digest of a message in one call. */
  method Sha1Block(data: seq<Byte>) returns (out: seq<Byte>)
    requires |data| < 0x8000_0000
    ensures out == Sha1(data)
  {
    hide Sha1;
    var ctx := new Context();
    ctx.Update(data);
    assert ctx.message == data;
    out := ctx.Final();
  }

  lemma NoRounds(w: seq<bv32>, r: Regs)
    requires |w| == 80
    ensures Rounds(w, r, 0) == r
  {
  }

  /** The word at place j of some bytes. */
  function WordAt(bytes: seq<Byte>, j: nat): bv32
    requires 4 * j + 4 <= |bytes|
  {
    BigEndian(bytes[4 * j], bytes[4 * j + 1], bytes[4 * j + 2], bytes[4 * j + 3])
  }

  /** The bytes fill the first words; what the word in work held before its bytes is shifted up. */
  predicate InWords(w: seq<bv32>, before: bv32, bytes: seq<Byte>) {
    && |w| == 80 && |bytes| <= 64
    && (forall j :: 0 <= j < |bytes| / 4 ==> w[j] == WordAt(bytes, j))
    && (|bytes| % 4 > 0 ==> w[|bytes| / 4] == ShiftInAll(before, bytes[|bytes| / 4 * 4..]))
  }

  lemma NothingIn(w: seq<bv32>, before: bv32)
    requires |w| == 80
    ensures InWords(w, before, [])
  {
  }

  lemma OneMoreIn(w: seq<bv32>, before: bv32, bytes: seq<Byte>, b: Byte)
    requires InWords(w, before, bytes) && |bytes| < 64
    ensures var j := |bytes| / 4;
            InWords(w[j := ShiftIn(w[j], b)], if |bytes| % 4 == 0 then w[j] else before, bytes + [b])
  {
    hide ShiftInAll, ShiftIn, WordAt;
    var j := |bytes| / 4;
    var start, tail, all := if |bytes| % 4 == 0 then w[j] else before, bytes[4 * j..], bytes + [b];
    ShiftOne(start, tail, b);
    assert all[4 * j..] == tail + [b];
    if |all| % 4 == 0 {
      WordFilled(start, all, j);
    }
    forall k | 0 <= k < j ensures WordAt(all, k) == WordAt(bytes, k) {
      SameWord(all, bytes, k);
    }
  }

  lemma SameWord(a: seq<Byte>, b: seq<Byte>, k: nat)
    requires 4 * k + 4 <= |b| && b <= a
    ensures WordAt(a, k) == WordAt(b, k)
  {
    hide BigEndian;
  }

  lemma ShiftOne(w: bv32, tail: seq<Byte>, b: Byte)
    ensures ShiftInAll(w, tail + [b]) == ShiftIn(ShiftInAll(w, tail), b)
    ensures ShiftInAll(w, []) == w
  {
    hide ShiftIn;
    assert (tail + [b])[..|tail|] == tail;
  }

  /** Four bytes fill a word, whatever it held before. */
  lemma WordFilled(w: bv32, bytes: seq<Byte>, j: nat)
    requires |bytes| == 4 * j + 4
    ensures ShiftInAll(w, bytes[4 * j..]) == WordAt(bytes, j)
  {
    hide ShiftInAll, ShiftIn, BigEndian;
    var a, b, c, d := bytes[4 * j], bytes[4 * j + 1], bytes[4 * j + 2], bytes[4 * j + 3];
    var none: seq<Byte> := [];
    ShiftOne(w, none, a);
    ShiftOne(w, none + [a], b);
    ShiftOne(w, none + [a] + [b], c);
    ShiftOne(w, none + [a] + [b] + [c], d);
    assert bytes[4 * j..] == none + [a] + [b] + [c] + [d];
    ShiftInFour(w, a, b, c, d);
  }

  lemma {:induction false} ScheduleStart(block: seq<Byte>, n: nat)
    requires |block| == 64 && n <= 16
    ensures forall j :: 0 <= j < n ==> Schedule(block, n)[j] == WordAt(block, j)
  {
    hide BigEndian, Blend;
    if n > 0 {
      ScheduleStart(block, n - 1);
    }
  }

  lemma AbsorbLast(r: Regs, pending: seq<Byte>, b: Byte)
    requires |pending| == 63
    ensures Absorb(Compress, Stream(r, pending), [b]) == Stream(Compress(r, pending + [b]), [])
  {
    hide Compress, Fold;
    AbsorbLong(Compress, Stream(r, pending), [b], 1);
    assert [b][..1] == [b] && [b][1..] == [];
    FoldShort(Compress, Compress(r, pending + [b]), []);
  }

  lemma CountByte(hi: nat, lo: nat, n: nat)
    requires lo < WORD && hi < WORD && hi * WORD + lo == 8 * n % DOUBLE
    ensures var lo1 := (lo + 8) % WORD;
            var hi1 := (hi + if lo1 < 8 then 1 else 0) % WORD;
            hi1 * WORD + lo1 == 8 * (n + 1) % DOUBLE
  {
    var q := 8 * n / DOUBLE;
    assert 8 * (n + 1) == q * DOUBLE + hi * WORD + lo + 8;
    var sum := hi * WORD + lo + 8;
    assert 8 * (n + 1) % DOUBLE == if sum < DOUBLE then sum else sum - DOUBLE by { ModOf(q, sum); }
  }

  lemma ModOf(q: nat, sum: nat)
    requires sum < 2 * DOUBLE
    ensures (q * DOUBLE + sum) % DOUBLE == if sum < DOUBLE then sum else sum - DOUBLE
  {
  }

  lemma LengthPending(ctx: Context)
    requires ctx.Valid()
    ensures ctx.lenW == |ctx.message| % 64
  {
    hide Fold, Compress, INIT, Whole;
    var none: seq<Byte> := [];
    assert none + ctx.message == ctx.message;
    RestIsMod(ctx.message);
  }

  lemma ShiftedOut(w: bv32)
    ensures [Low(w >> 24), Low((w << 8) >> 24), Low((w << 8 << 8) >> 24), Low((w << 8 << 8 << 8) >> 24)] == WordBytes(w)
  {
  }
}
