/** The SHA-256 hash as sections 4.1.2, 4.2.2, 5.1.1 and 6.2.2 of FIPS 180-4 define it. */
module Fips180 {
  import opened Blocks
  import opened HashLogic
  import opened HashWords

  function Plus(x: bv32, y: bv32): bv32 {
    x + y
  }

  function Rotr(x: bv32, n: nat): bv32
    requires n <= 32
  {
    (x >> n) | (x << (32 - n))
  }

  function Sum0(x: bv32): bv32 {
    Rotr(x, 2) ^ Rotr(x, 13) ^ Rotr(x, 22)
  }

  function Sum1(x: bv32): bv32 {
    Rotr(x, 6) ^ Rotr(x, 11) ^ Rotr(x, 25)
  }

  function Sigma0(x: bv32): bv32 {
    Rotr(x, 7) ^ Rotr(x, 18) ^ (x >> 3)
  }

  function Sigma1(x: bv32): bv32 {
    Rotr(x, 17) ^ Rotr(x, 19) ^ (x >> 10)
  }

  const K: seq<bv32> := [
    0x428a2f98, 0x71374491, 0xb5c0fbcf, 0xe9b5dba5, 0x3956c25b, 0x59f111f1, 0x923f82a4, 0xab1c5ed5,
    0xd807aa98, 0x12835b01, 0x243185be, 0x550c7dc3, 0x72be5d74, 0x80deb1fe, 0x9bdc06a7, 0xc19bf174,
    0xe49b69c1, 0xefbe4786, 0x0fc19dc6, 0x240ca1cc, 0x2de92c6f, 0x4a7484aa, 0x5cb0a9dc, 0x76f988da,
    0x983e5152, 0xa831c66d, 0xb00327c8, 0xbf597fc7, 0xc6e00bf3, 0xd5a79147, 0x06ca6351, 0x14292967,
    0x27b70a85, 0x2e1b2138, 0x4d2c6dfc, 0x53380d13, 0x650a7354, 0x766a0abb, 0x81c2c92e, 0x92722c85,
    0xa2bfe8a1, 0xa81a664b, 0xc24b8b70, 0xc76c51a3, 0xd192e819, 0xd6990624, 0xf40e3585, 0x106aa070,
    0x19a4c116, 0x1e376c08, 0x2748774c, 0x34b0bcb5, 0x391c0cb3, 0x4ed8aa4a, 0x5b9cca4f, 0x682e6ff3,
    0x748f82ee, 0x78a5636f, 0x84c87814, 0x8cc70208, 0x90befffa, 0xa4506ceb, 0xbef9a3f7, 0xc67178f2]

  lemma KSize()
    ensures |K| == 64
  {
  }

  datatype Regs = Regs(a: bv32, b: bv32, c: bv32, d: bv32, e: bv32, f: bv32, g: bv32, h: bv32)

  const INIT := Regs(0x6a09e667, 0xbb67ae85, 0x3c6ef372, 0xa54ff53a, 0x510e527f, 0x9b05688c, 0x1f83d9ab, 0x5be0cd19)

  function T1(h: bv32, e: bv32, f: bv32, g: bv32, k: bv32, w: bv32): bv32 {
    h + Sum1(e) + Ch(e, f, g) + k + w
  }

  function T2(a: bv32, b: bv32, c: bv32): bv32 {
    Sum0(a) + Maj(a, b, c)
  }

  /** One round: every register moves on by one place. */
  function Round(r: Regs, k: bv32, w: bv32): Regs {
    var t1 := T1(r.h, r.e, r.f, r.g, k, w);
    Regs(Plus(t1, T2(r.a, r.b, r.c)), r.a, r.b, r.c, Plus(r.d, t1), r.e, r.f, r.g)
  }

  /** The first n rounds. */
  function Rounds(w: seq<bv32>, r: Regs, n: nat): Regs
    requires |w| == 64 && n <= 64
  {
    KSize();
    if n == 0 then r else Round(Rounds(w, r, n - 1), K[n - 1], w[n - 1])
  }

  function Blend(w2: bv32, w7: bv32, w15: bv32, w16: bv32): bv32 {
    Sigma1(w2) + w7 + Sigma0(w15) + w16
  }

  /** The first n words of the message schedule. */
  function Schedule(block: seq<Byte>, n: nat): (w: seq<bv32>)
    requires |block| == 64
    ensures |w| == n
  {
    if n == 0 then []
    else
      var w := Schedule(block, n - 1);
      var t := n - 1;
      w + [if t < 16 then BigEndian(block[4 * t], block[4 * t + 1], block[4 * t + 2], block[4 * t + 3])
           else Blend(w[t - 2], w[t - 7], w[t - 15], w[t - 16])]
  }

  function AddRegs(x: Regs, y: Regs): Regs {
    Regs(Plus(x.a, y.a), Plus(x.b, y.b), Plus(x.c, y.c), Plus(x.d, y.d), Plus(x.e, y.e), Plus(x.f, y.f), Plus(x.g, y.g), Plus(x.h, y.h))
  }

  function Compress(r: Regs, block: seq<Byte>): Regs {
    if |block| == 64 then AddRegs(r, Rounds(Schedule(block, 64), r, 64)) else r
  }

  function Digest(r: Regs): seq<Byte> {
    AllBytes([r.a, r.b, r.c, r.d, r.e, r.f, r.g, r.h])
  }

  function Padded(message: seq<Byte>): seq<Byte> {
    message + Pad(|message|, 0x80 as Byte, 0 as Byte, NumberBytes(8 * |message|, 8))
  }

  function Sha256(message: seq<Byte>): seq<Byte> {
    Digest(Fold(Compress, INIT, Padded(message)))
  }
}
