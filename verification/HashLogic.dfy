/** The bitwise functions of SHA-1 and SHA-256, as the standard writes them and with fewer operations. */
module HashLogic {

  function Ch(x: bv32, y: bv32, z: bv32): bv32 {
    (x & y) ^ (!x & z)
  }

  function Parity(x: bv32, y: bv32, z: bv32): bv32 {
    x ^ y ^ z
  }

  function Maj(x: bv32, y: bv32, z: bv32): bv32 {
    (x & y) ^ (x & z) ^ (y & z)
  }

  function ChFast(x: bv32, y: bv32, z: bv32): bv32 {
    ((y ^ z) & x) ^ z
  }

  function MajFast(x: bv32, y: bv32, z: bv32): bv32 {
    (x & y) | (z & (x | y))
  }

  /** Choosing by masking the difference is choosing by both masks. */
  lemma ChForm(x: bv32, y: bv32, z: bv32)
    ensures ChFast(x, y, z) == (x & y) ^ (!x & z)
  {
  }

  lemma MajForm(x: bv32, y: bv32, z: bv32)
    ensures MajFast(x, y, z) == (x & y) ^ (x & z) ^ (y & z)
  {
  }

  /** The forms with fewer operations mean the same. */
  lemma FastForms(x: bv32, y: bv32, z: bv32)
    ensures ChFast(x, y, z) == Ch(x, y, z) && MajFast(x, y, z) == Maj(x, y, z)
  {
    hide ChFast, MajFast;
    ChForm(x, y, z);
    MajForm(x, y, z);
  }
}
