/** Reducing random words to a range without favouring any number. */
module ArcUniform {
  import opened Octets
  import opened Widths

  /** 2^32 mod n without 64-bit arithmetic: every operation wraps at 32 bits. */
  function MinOf(n: nat): nat
    requires 2 <= n < WORD
  {
    if n > 0x8000_0000 then (1 + (0xffff_ffff - n)) % WORD
    else ((0xffff_ffff - n * 2 % WORD) + 1) % WORD % n
  }

  /** The words below the remainder are drawn again. */
  method Uniform(upperBound: nat, words: seq<nat>) returns (found: bool, r: nat, drawn: nat)
    requires upperBound < WORD && forall k :: 0 <= k < |words| ==> words[k] < WORD
    ensures upperBound < 2 ==> found && r == 0 && drawn == 0
    ensures upperBound >= 2 && found ==> 0 < drawn <= |words| && words[drawn - 1] >= WORD % upperBound
                                         && r == words[drawn - 1] % upperBound
    ensures upperBound >= 2 ==> forall k :: 0 <= k < (if found then drawn - 1 else |words|) ==> words[k] < WORD % upperBound
  {
    found, r, drawn := true, 0, 0;
    if upperBound < 2 {
      return;
    }
    var min := MinOf(upperBound);
    MinIsRemainder(upperBound);
    while drawn < |words|
      invariant 0 <= drawn <= |words| && forall k :: 0 <= k < drawn ==> words[k] < min
    {
      r := words[drawn];
      drawn := drawn + 1;
      if r >= min {
        r := r % upperBound;
        return;
      }
    }
    found := false;
  }

  /** The formula gives the remainder for every bound, also where doubling the bound wraps to nothing. */
  lemma MinIsRemainder(n: nat)
    requires 2 <= n < WORD
    ensures MinOf(n) == WORD % n
  {
    hide MinOf;
    if n > 0x8000_0000 {
      LargeBound(n);
    } else if n == 0x8000_0000 {
      HalfBound(n);
    } else {
      SmallBound(n);
    }
  }

  lemma LargeBound(n: nat)
    requires 0x8000_0000 < n < WORD
    ensures MinOf(n) == WORD % n
  {
    Quotient(WORD, n, 1, WORD - n);
  }

  lemma HalfBound(n: nat)
    requires n == 0x8000_0000
    ensures MinOf(n) == WORD % n
  {
  }

  lemma SmallBound(n: nat)
    requires 2 <= n < 0x8000_0000
    ensures MinOf(n) == WORD % n
  {
    SmallForm(n, n * 2 % WORD, ((0xffff_ffff - n * 2 % WORD) + 1) % WORD);
    TwoMore(WORD - 2 * n, n);
  }

  lemma SmallForm(n: nat, twice: nat, rest: nat)
    requires 2 <= n < 0x8000_0000 && twice == n * 2 % WORD && rest == ((0xffff_ffff - twice) + 1) % WORD
    ensures rest == WORD - 2 * n
  {
  }

  lemma TwoMore(rest: nat, n: nat)
    requires n > 0
    ensures (rest + 2 * n) % n == rest % n
  {
    var q := rest / n;
    assert (q + 2) * n == q * n + 2 * n;
    Quotient(rest + 2 * n, n, q + 2, rest % n);
  }

  lemma Quotient(x: nat, n: nat, q: nat, r: nat)
    requires r < n && x == q * n + r
    ensures x % n == r
  {
    var d := x / n;
    var e := x % n;
    assert x == d * n + e;
    if d < q {
      Scale(q - d, n);
    } else if q < d {
      Scale(d - q, n);
    }
  }

  lemma Scale(k: nat, n: nat)
    requires k >= 1
    ensures k * n >= n
  {
  }

  /** More than half of all words are accepted. */
  lemma MoreThanHalf(n: nat)
    requires 2 <= n < WORD
    ensures WORD - MinOf(n) > WORD / 2
  {
    MinIsRemainder(n);
  }

  // ----- no number is favoured

  /** The words from a on, q times n of them, that leave the remainder r. */
  ghost function Accepted(a: nat, n: nat, q: nat, r: nat): set<nat>
    requires n > 0
  {
    set w: nat | a <= w < a + q * n && w % n == r
  }

  /** In n words that follow each other every remainder occurs once. */
  lemma OneInBlock(a: nat, n: nat, r: nat) returns (w: nat)
    requires r < n
    ensures a <= w < a + n && w % n == r
    ensures forall v: nat :: a <= v < a + n && v % n == r ==> v == w
  {
    var q, e := a / n, a % n;
    assert a == q * n + e;
    w := if e <= r then q * n + r else q * n + n + r;
    if e <= r {
      Quotient(w, n, q, r);
    } else {
      assert (q + 1) * n == q * n + n;
      Quotient(w, n, q + 1, r);
    }
    forall v: nat | a <= v < a + n && v % n == r ensures v == w {
      SameRemainder(v, w, n);
    }
  }

  lemma SameRemainder(v: nat, w: nat, n: nat)
    requires n > 0 && v % n == w % n && v < w + n && w < v + n
    ensures v == w
  {
    var d := v / n - w / n;
    assert v - w == d * n by {
      assert v == v / n * n + v % n;
      assert w == w / n * n + w % n;
      assert d * n == v / n * n - w / n * n;
    }
    if d >= 1 {
      Scale(d, n);
    } else if d <= -1 {
      Scale(-d, n);
    }
  }

  lemma {:induction false} EachAsOften(a: nat, n: nat, q: nat, r: nat)
    requires r < n
    ensures |Accepted(a, n, q, r)| == q
    decreases q
  {
    if q == 0 {
      assert Accepted(a, n, q, r) == {};
    } else {
      EachAsOften(a, n, q - 1, r);
      assert q * n == (q - 1) * n + n;
      var w := OneInBlock(a + (q - 1) * n, n, r);
      assert Accepted(a, n, q, r) == Accepted(a, n, q - 1, r) + {w};
    }
  }

  /** Of the accepted words exactly (2^32 - min) / n leave each remainder below n. */
  lemma ExactlyUniform(n: nat, r: nat)
    requires 2 <= n < WORD && r < n
    ensures |set w: nat | MinOf(n) <= w < WORD && w % n == r| == (WORD - MinOf(n)) / n
  {
    MinIsRemainder(n);
    var q := WORD / n;
    assert WORD == q * n + MinOf(n);
    EachAsOften(MinOf(n), n, q, r);
    assert (set w: nat | MinOf(n) <= w < WORD && w % n == r) == Accepted(MinOf(n), n, q, r);
    DivExact(q, n);
  }

  lemma DivExact(q: nat, n: nat)
    requires n > 0
    ensures q * n / n == q
  {
    var x := q * n;
    Quotient(x, n, q, 0);
    SameMultiple(x / n, q, n);
  }

  lemma SameMultiple(a: nat, b: nat, n: nat)
    requires n > 0 && a * n == b * n
    ensures a == b
  {
    if a < b {
      Scale(b - a, n);
    } else if b < a {
      Scale(a - b, n);
    }
  }
}
