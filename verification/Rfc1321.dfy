/** The MD5 hash as section 3 of RFC 1321 defines it, on words of 32 bits. */
module Rfc1321 {
  import opened Blocks
  import opened Octets
  import opened WideWords

  function Both(x: nat, y: nat): nat {
    Bitwise(And, x, y, 32)
  }

  function Either(x: nat, y: nat): nat {
    Bitwise(Or, x, y, 32)
  }

  function F(x: nat, y: nat, z: nat): nat {
    Either(Both(x, y), Both(Not(x, 32), z))
  }

  function G(x: nat, y: nat, z: nat): nat {
    Either(Both(x, z), Both(y, Not(z, 32)))
  }

  function H(x: nat, y: nat, z: nat): nat {
    Bitwise(Xor, Bitwise(Xor, x, y, 32), z, 32)
  }

  function I(x: nat, y: nat, z: nat): nat {
    Bitwise(Xor, y, Either(x, Not(z, 32)), 32)
  }

  /** The function of step i. */
  function Mixed(i: nat, x: nat, y: nat, z: nat): nat {
    if i < 16 then F(x, y, z) else if i < 32 then G(x, y, z) else if i < 48 then H(x, y, z) else I(x, y, z)
  }

  /** Circular shift left by s. */
  function Rotate(x: nat, s: nat): nat
    requires s <= 32
  {
    Keep(Shl(x, s), 32) + Shr(x, 32 - s)
  }

  const T: seq<nat> := [
    0xd76aa478, 0xe8c7b756, 0x242070db, 0xc1bdceee, 0xf57c0faf, 0x4787c62a, 0xa8304613, 0xfd469501,
    0x698098d8, 0x8b44f7af, 0xffff5bb1, 0x895cd7be, 0x6b901122, 0xfd987193, 0xa679438e, 0x49b40821,
    0xf61e2562, 0xc040b340, 0x265e5a51, 0xe9b6c7aa, 0xd62f105d, 0x02441453, 0xd8a1e681, 0xe7d3fbc8,
    0x21e1cde6, 0xc33707d6, 0xf4d50d87, 0x455a14ed, 0xa9e3e905, 0xfcefa3f8, 0x676f02d9, 0x8d2a4c8a,
    0xfffa3942, 0x8771f681, 0x6d9d6122, 0xfde5380c, 0xa4beea44, 0x4bdecfa9, 0xf6bb4b60, 0xbebfbc70,
    0x289b7ec6, 0xeaa127fa, 0xd4ef3085, 0x04881d05, 0xd9d4d039, 0xe6db99e5, 0x1fa27cf8, 0xc4ac5665,
    0xf4292244, 0x432aff97, 0xab9423a7, 0xfc93a039, 0x655b59c3, 0x8f0ccc92, 0xffeff47d, 0x85845dd1,
    0x6fa87e4f, 0xfe2ce6e0, 0xa3014314, 0x4e0811a1, 0xf7537e82, 0xbd3af235, 0x2ad7d2bb, 0xeb86d391]

  lemma TableSize()
    ensures |T| == 64
  {
  }

  /** By how much step i rotates. */
  function S(i: nat): (s: nat)
    ensures 0 < s < 32
  {
    if i < 16 then [7, 12, 17, 22][i % 4]
    else if i < 32 then [5, 9, 14, 20][i % 4]
    else if i < 48 then [4, 11, 16, 23][i % 4]
    else [6, 10, 15, 21][i % 4]
  }

  /** Which word of the block step i adds. */
  function X(i: nat): (k: nat)
    ensures k < 16
  {
    if i < 16 then i
    else if i < 32 then (5 * i + 1) % 16
    else if i < 48 then (3 * i + 5) % 16
    else 7 * i % 16
  }

  datatype Regs = Regs(a: nat, b: nat, c: nat, d: nat)

  const INIT := Regs(0x67452301, 0xefcdab89, 0x98badcfe, 0x10325476)

  /** Step i sets one register and lets all four move on by one place. */
  function Step(r: Regs, i: nat, x: nat): Regs
    requires i < 64
  {
    TableSize();
    var sum := Keep(r.a + Mixed(i, r.b, r.c, r.d) + x + T[i], 32);
    Regs(r.d, Keep(r.b + Rotate(sum, S(i)), 32), r.b, r.c)
  }

  /** The first n steps on a block of sixteen words. */
  function Steps(x: seq<nat>, r: Regs, n: nat): Regs
    requires |x| == 16 && n <= 64
  {
    if n == 0 then r else Step(Steps(x, r, n - 1), n - 1, x[X(n - 1)])
  }

  /** A word from its bytes, the least significant first. */
  function LittleEndian(b0: Octet, b1: Octet, b2: Octet, b3: Octet): nat {
    b0 + Shl(b1, 8) + Shl(b2, 16) + Shl(b3, 24)
  }

  function Word(block: seq<Octet>, n: nat): nat
    requires |block| == 64 && n < 16
  {
    LittleEndian(block[4 * n], block[4 * n + 1], block[4 * n + 2], block[4 * n + 3])
  }

  function BlockWords(block: seq<Octet>): (x: seq<nat>)
    requires |block| == 64
    ensures |x| == 16
  {
    seq(16, n requires 0 <= n < 16 => Word(block, n))
  }

  function AddRegs(x: Regs, y: Regs): Regs {
    Regs(Keep(x.a + y.a, 32), Keep(x.b + y.b, 32), Keep(x.c + y.c, 32), Keep(x.d + y.d, 32))
  }

  function Compress(r: Regs, block: seq<Octet>): Regs {
    if |block| == 64 then AddRegs(Steps(BlockWords(block), r, 64), r) else r
  }

  function Digest(r: Regs): seq<Octet> {
    Pack(r.a, 4) + Pack(r.b, 4) + Pack(r.c, 4) + Pack(r.d, 4)
  }

  function Padded(message: seq<Octet>): seq<Octet> {
    message + Pad(|message|, 0x80 as Octet, 0 as Octet, Pack(8 * |message|, 8))
  }

  function Md5(message: seq<Octet>): seq<Octet> {
    Digest(Fold(Compress, INIT, Padded(message)))
  }
}
