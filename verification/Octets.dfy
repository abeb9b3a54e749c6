/** Bytes on the wire, and numbers in little-endian order. */
module Octets {
  import opened Widths

  type Octet = n: nat | n < 256

  /** A number in k bytes, the least significant first; what does not fit is lost. */
  function Pack(n: nat, k: nat): (s: seq<Octet>)
    ensures |s| == k
    decreases k
  {
    if k == 0 then [] else [n % 256] + Pack(n / 256, k - 1)
  }

  /** The number that some bytes stand for, the least significant first. */
  function Unpack(s: seq<Octet>): (n: nat)
    ensures n < Pow256(|s|)
  {
    if s == [] then 0 else s[0] + 256 * Unpack(s[1..])
  }

  /** A number that fits comes back. */
  lemma {:induction false} UnpackPack(n: nat, k: nat)
    requires n < Pow256(k)
    ensures Unpack(Pack(n, k)) == n
  {
    if k > 0 {
      UnpackPack(n / 256, k - 1);
      assert Pack(n, k)[1..] == Pack(n / 256, k - 1);
    }
  }

  lemma PackUnpack32(n: nat)
    requires n < WORD
    ensures Unpack(Pack(n, 4)) == n
  {
    Powers();
    UnpackPack(n, 4);
  }

  /** Byte i of a number is its digit i in base 256, so the least significant byte comes first. */
  lemma {:induction false} PackAt(n: nat, k: nat, i: nat)
    requires i < k
    ensures Pack(n, k)[i] == n / Pow256(i) % 256
    decreases i
  {
    if i > 0 {
      PackAt(n / 256, k - 1, i - 1);
      DivideTwice(n, Pow256(i - 1));
    }
  }

  lemma DivideTwice(n: nat, p: nat)
    requires p > 0
    ensures n / 256 / p == n / (256 * p)
  {
    var q, r := n / (256 * p), n % (256 * p);
    assert n == q * (256 * p) + r;
    assert n / 256 == q * p + r / 256 by { Carried(n, q * p, r); }
    assert r / 256 < p;
    Quotient(n / 256, p, q, r / 256);
  }

  lemma Carried(n: nat, m: nat, r: nat)
    requires n == 256 * m + r
    ensures n / 256 == m + r / 256
  {
  }

  lemma Quotient(n: nat, p: nat, q: nat, r: nat)
    requires p > 0 && n == q * p + r && r < p
    ensures n / p == q
  {
    var d := n / p;
    assert n == d * p + n % p;
    OneMoreTime(d, q, p);
    OneMoreTime(q, d, p);
  }

  lemma OneMoreTime(a: nat, b: nat, p: nat)
    ensures a < b ==> a * p + p <= b * p
  {
    if a < b {
      Distributes(a, 1, p);
      Distributes(a + 1, b - a - 1, p);
    }
  }

  lemma Distributes(a: nat, b: nat, p: nat)
    ensures (a + b) * p == a * p + b * p
  {
  }

  /** Two numbers of four bytes read as one of eight. */
  lemma UnpackHalves(low: seq<Octet>, high: seq<Octet>)
    requires |low| == 4 && |high| == 4
    ensures Unpack(low + high) == Unpack(low) + WORD * Unpack(high)
  {
    hide Unpack;
    var l1, l2, l3 := low[1..], low[1..][1..], low[1..][1..][1..];
    UnpackFirst(low, high);
    UnpackFirst(l1, high);
    UnpackFirst(l2, high);
    UnpackFirst(l3, high);
    assert l3[1..] == [] && [] + high == high;
    UnpackNothing();
  }

  lemma UnpackFirst(s: seq<Octet>, t: seq<Octet>)
    requires s != []
    ensures Unpack(s + t) == s[0] + 256 * Unpack(s[1..] + t) && Unpack(s) == s[0] + 256 * Unpack(s[1..])
  {
    assert (s + t)[1..] == s[1..] + t;
  }

  lemma UnpackNothing()
    ensures Unpack([]) == 0
  {
  }
}
