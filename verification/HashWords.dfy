/** Words and bytes as the hashes read and write them. */
module HashWords {
  import opened Widths

  type Byte = bv8

  /** A word from its bytes, the most significant first. */
  function BigEndian(b0: Byte, b1: Byte, b2: Byte, b3: Byte): bv32 {
    (b0 as bv32 << 24) | (b1 as bv32 << 16) | (b2 as bv32 << 8) | b3 as bv32
  }

  /** The same, gathered by shifting one byte in after the other. */
  function ShiftIn(w: bv32, b: Byte): bv32 {
    (w << 8) | b as bv32
  }

  /** Whatever the word held before, four bytes fill it. */
  lemma ShiftInFour(w: bv32, b0: Byte, b1: Byte, b2: Byte, b3: Byte)
    ensures ShiftIn(ShiftIn(ShiftIn(ShiftIn(w, b0), b1), b2), b3) == BigEndian(b0, b1, b2, b3)
  {
  }

  function Low(w: bv32): Byte {
    (w & 0xff) as bv8
  }

  /** The bytes of a word, the most significant first. */
  function WordBytes(w: bv32): seq<Byte> {
    [Low(w >> 24), Low(w >> 16), Low(w >> 8), Low(w)]
  }

  /** The low byte of a number. */
  function NatByte(n: nat): Byte {
    (n % 256) as bv8
  }

  /** A number in k bytes, the most significant first; what does not fit is lost. */
  function NumberBytes(n: nat, k: nat): (r: seq<Byte>)
    ensures |r| == k
  {
    if k == 0 then [] else NumberBytes(n / 256, k - 1) + [NatByte(n)]
  }

  /** Splitting off the last byte of a number. */
  lemma NumberBytesStep(n: nat, q: nat, low: nat, k: nat)
    requires n == 256 * q + low
    ensures NumberBytes(n, k + 1) == NumberBytes(q + low / 256, k) + [NatByte(low)]
  {
    hide NatByte;
    DivMod(q, low);
    SameByte(n, low);
  }

  lemma SameByte(n: nat, m: nat)
    requires n % 256 == m % 256
    ensures NatByte(n) == NatByte(m)
  {
  }

  lemma DivMod(q: nat, low: nat)
    ensures (256 * q + low) / 256 == q + low / 256 && (256 * q + low) % 256 == low % 256
  {
  }

  /** Only the part of a number counts that k bytes can hold. */
  lemma {:induction false} NumberBytesWrap(n: nat, q: nat, m: nat, k: nat)
    requires n == q * Pow256(k) + m
    ensures NumberBytes(n, k) == NumberBytes(m, k)
  {
    hide NatByte;
    if k > 0 {
      var p := q * Pow256(k - 1);
      assert n == 256 * p + m;
      DivMod(p, m);
      SameByte(n, m);
      NumberBytesWrap(n / 256, q, m / 256, k - 1);
    }
  }

  lemma LengthBytes(n: nat)
    ensures NumberBytes(n % DOUBLE, 8) == NumberBytes(n, 8)
  {
    hide NumberBytes, Pow256;
    Powers();
    NumberBytesWrap(n, n / DOUBLE, n % DOUBLE, 8);
  }

  /** The bytes of all words in turn. */
  function AllBytes(ws: seq<bv32>): seq<Byte> {
    if ws == [] then [] else AllBytes(ws[..|ws| - 1]) + WordBytes(ws[|ws| - 1])
  }

  lemma NoBytes(ws: seq<bv32>)
    requires ws == []
    ensures AllBytes(ws) == []
  {
  }

  lemma BytesNext(ws: seq<bv32>, i: nat)
    requires i < |ws|
    ensures AllBytes(ws[..i + 1]) == AllBytes(ws[..i]) + WordBytes(ws[i])
  {
    assert ws[..i + 1][..i] == ws[..i];
  }

  /** A count kept in two words, byte by byte. */
  lemma BitsOfWords(count0: nat, count1: nat)
    requires count0 < WORD && count1 < WORD
    ensures NumberBytes(count1 * WORD + count0, 8)
            == [NatByte(count1 / 256 / 256 / 256), NatByte(count1 / 256 / 256), NatByte(count1 / 256), NatByte(count1),
                NatByte(count0 / 256 / 256 / 256), NatByte(count0 / 256 / 256), NatByte(count0 / 256), NatByte(count0)]
  {
    hide NatByte, NumberBytes;
    FourBytes(count1);
    LowFour(count0, count0 / 256, count0 / 256 / 256, count0 / 256 / 256 / 256, count1);
    Join(NatByte(count1 / 256 / 256 / 256), NatByte(count1 / 256 / 256), NatByte(count1 / 256), NatByte(count1),
         NatByte(count0 / 256 / 256 / 256), NatByte(count0 / 256 / 256), NatByte(count0 / 256), NatByte(count0));
  }

  lemma Join(a: Byte, b: Byte, c: Byte, d: Byte, e: Byte, f: Byte, g: Byte, h: Byte)
    ensures [a, b, c, d] + [e, f, g, h] == [a, b, c, d, e, f, g, h]
  {
  }

  lemma LowFour(d0: nat, d1: nat, d2: nat, d3: nat, high: nat)
    requires d1 == d0 / 256 && d2 == d1 / 256 && d3 == d2 / 256 && d0 < WORD
    ensures NumberBytes(high * WORD + d0, 8) == NumberBytes(high, 4) + [NatByte(d3), NatByte(d2), NatByte(d1), NatByte(d0)]
  {
    hide NatByte, NumberBytes;
    LowTwo(d0, d1, high * 0x1_0000, high * WORD + d0, 6);
    LowTwo(d2, d3, high, high * 0x1_0000 + d2, 4);
    assert d1 < 0x100_0000;
    assert d2 < 0x1_0000;
    assert d3 < 0x100;
    assert d3 / 256 == 0;
  }

  /** Splitting off the last two bytes of a number. */
  lemma LowTwo(low: nat, d: nat, q: nat, n: nat, k: nat)
    requires n == 0x1_0000 * q + low && d == low / 256
    ensures NumberBytes(n, k + 2) == NumberBytes(q + d / 256, k) + [NatByte(d), NatByte(low)]
  {
    hide NatByte, NumberBytes;
    NumberBytesStep(n, 256 * q, low, k + 1);
    NumberBytesStep(256 * q + d, q, d, k);
    var x := NumberBytes(q + d / 256, k);
    assert x + [NatByte(d)] + [NatByte(low)] == x + [NatByte(d), NatByte(low)];
  }

  lemma FourBytes(n: nat)
    ensures NumberBytes(n, 4) == [NatByte(n / 256 / 256 / 256), NatByte(n / 256 / 256), NatByte(n / 256), NatByte(n)]
  {
    hide NatByte, NumberBytes;
    NumberBytesStep(n, 0, n, 3);
    NumberBytesStep(n / 256, 0, n / 256, 2);
    NumberBytesStep(n / 256 / 256, 0, n / 256 / 256, 1);
    NumberBytesStep(n / 256 / 256 / 256, 0, n / 256 / 256 / 256, 0);
    assert |NumberBytes(n / 256 / 256 / 256 / 256, 0)| == 0;
  }
}
