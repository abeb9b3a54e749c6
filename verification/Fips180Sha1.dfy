/** The SHA-1 hash as sections 4.1.1, 4.2.1, 5.1.1 and 6.1.2 of FIPS 180-4 define it. */
module Fips180Sha1 {
  import opened Blocks
  import opened HashLogic
  import opened HashWords

  function Plus(x: bv32, y: bv32): bv32 {
    x + y
  }

  function Rotl(x: bv32, n: nat): bv32
    requires n <= 32
  {
    (x << n) | (x >> (32 - n))
  }

  function Mix(t: nat, x: bv32, y: bv32, z: bv32): bv32 {
    if t < 20 then Ch(x, y, z) else if t < 40 then Parity(x, y, z) else if t < 60 then Maj(x, y, z) else Parity(x, y, z)
  }

  function K(t: nat): bv32 {
    if t < 20 then 0x5a827999 else if t < 40 then 0x6ed9eba1 else if t < 60 then 0x8f1bbcdc else 0xca62c1d6
  }

  datatype Regs = Regs(a: bv32, b: bv32, c: bv32, d: bv32, e: bv32)

  const INIT := Regs(0x67452301, 0xefcdab89, 0x98badcfe, 0x10325476, 0xc3d2e1f0)

  function Temp(a5: bv32, mixed: bv32, e: bv32, w: bv32, k: bv32): bv32 {
    a5 + mixed + e + w + k
  }

  function Round(r: Regs, t: nat, w: bv32): Regs {
    Regs(Temp(Rotl(r.a, 5), Mix(t, r.b, r.c, r.d), r.e, w, K(t)), r.a, Rotl(r.b, 30), r.c, r.d)
  }

  /** The first n rounds. */
  function Rounds(w: seq<bv32>, r: Regs, n: nat): Regs
    requires |w| == 80 && n <= 80
  {
    if n == 0 then r else Round(Rounds(w, r, n - 1), n - 1, w[n - 1])
  }

  function Blend(w3: bv32, w8: bv32, w14: bv32, w16: bv32): bv32 {
    Rotl(w3 ^ w8 ^ w14 ^ w16, 1)
  }

  /** The first n words of the message schedule. */
  function Schedule(block: seq<Byte>, n: nat): (w: seq<bv32>)
    requires |block| == 64
    ensures |w| == n
  {
    if n == 0 then []
    else
      var w := Schedule(block, n - 1);
      var t := n - 1;
      w + [if t < 16 then BigEndian(block[4 * t], block[4 * t + 1], block[4 * t + 2], block[4 * t + 3])
           else Blend(w[t - 3], w[t - 8], w[t - 14], w[t - 16])]
  }

  function AddRegs(x: Regs, y: Regs): Regs {
    Regs(Plus(x.a, y.a), Plus(x.b, y.b), Plus(x.c, y.c), Plus(x.d, y.d), Plus(x.e, y.e))
  }

  function Compress(r: Regs, block: seq<Byte>): Regs {
    if |block| == 64 then AddRegs(r, Rounds(Schedule(block, 80), r, 80)) else r
  }

  function Digest(r: Regs): seq<Byte> {
    AllBytes([r.a, r.b, r.c, r.d, r.e])
  }

  function Padded(message: seq<Byte>): seq<Byte> {
    message + Pad(|message|, 0x80 as Byte, 0 as Byte, NumberBytes(8 * |message|, 8))
  }

  function Sha1(message: seq<Byte>): seq<Byte> {
    Digest(Fold(Compress, INIT, Padded(message)))
  }
}
