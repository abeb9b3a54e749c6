/** Hashing a message in blocks of 64 bytes, all at once or as it arrives. */
module Blocks {

  const BLOCK := 64

  /** Feeds every whole block of the data to a compression function, in order. */
  function Fold<S, B>(compress: (S, seq<B>) -> S, s: S, data: seq<B>): S
    decreases |data|
  {
    if |data| < BLOCK then s else Fold(compress, compress(s, data[..BLOCK]), data[BLOCK..])
  }

  /** The length of the whole blocks in n bytes. */
  function Whole(n: nat): (w: nat)
    ensures w <= n < w + BLOCK && w % BLOCK == 0
  {
    n / BLOCK * BLOCK
  }

  /** What is left over. */
  function Rest<B>(data: seq<B>): (r: seq<B>)
    ensures |r| < BLOCK
  {
    data[Whole(|data|)..]
  }

  /** A hash on its way: the state after all whole blocks, and the bytes that wait for more. */
  datatype Stream<S, B> = Stream(state: S, pending: seq<B>)

  function Absorb<S, B>(compress: (S, seq<B>) -> S, st: Stream<S, B>, data: seq<B>): Stream<S, B> {
    Stream(Fold(compress, st.state, st.pending + data), Rest(st.pending + data))
  }

  lemma {:induction false} FoldConcat<S, B>(compress: (S, seq<B>) -> S, s: S, a: seq<B>, b: seq<B>)
    requires |a| % BLOCK == 0
    ensures Fold(compress, s, a + b) == Fold(compress, Fold(compress, s, a), b)
    decreases |a|
  {
    if a == [] {
      assert a + b == b;
    } else {
      assert (a + b)[..BLOCK] == a[..BLOCK] && (a + b)[BLOCK..] == a[BLOCK..] + b;
      FoldConcat(compress, compress(s, a[..BLOCK]), a[BLOCK..], b);
    }
  }

  lemma FoldShort<S, B>(compress: (S, seq<B>) -> S, s: S, data: seq<B>)
    requires |data| < BLOCK
    ensures Fold(compress, s, data) == s && Rest(data) == data
  {
    WholeUnique(|data|, 0);
  }

  lemma WholeUnique(n: nat, w: nat)
    requires w <= n < w + BLOCK && w % BLOCK == 0
    ensures Whole(n) == w
  {
  }

  lemma RestLonger<B>(a: seq<B>, b: seq<B>)
    requires |a| % BLOCK == 0
    ensures Rest(a + b) == Rest(b)
  {
    WholeUnique(|a + b|, |a| + Whole(|b|));
    assert (a + b)[|a| + Whole(|b|)..] == b[Whole(|b|)..];
  }

  lemma FoldOne<S, B>(compress: (S, seq<B>) -> S, s: S, block: seq<B>, data: seq<B>)
    requires |block| == BLOCK
    ensures Fold(compress, s, block + data) == Fold(compress, compress(s, block), data) && Rest(block + data) == Rest(data)
  {
    assert (block + data)[..BLOCK] == block && (block + data)[BLOCK..] == data;
    RestLonger(block, data);
  }

  /** Only the whole blocks count. */
  lemma FoldWhole<S, B>(compress: (S, seq<B>) -> S, s: S, data: seq<B>)
    ensures Fold(compress, s, data) == Fold(compress, s, data[..Whole(|data|)])
  {
    hide Fold, Whole;
    var n := Whole(|data|);
    assert data == data[..n] + data[n..];
    FoldConcat(compress, s, data[..n], data[n..]);
    FoldShort(compress, Fold(compress, s, data[..n]), data[n..]);
  }

  /** It makes no difference where the data is cut. */
  lemma AbsorbConcat<S, B>(compress: (S, seq<B>) -> S, st: Stream<S, B>, a: seq<B>, b: seq<B>)
    ensures Absorb(compress, Absorb(compress, st, a), b) == Absorb(compress, st, a + b)
  {
    hide Fold, Whole;
    var all := st.pending + a;
    var n := Whole(|all|);
    assert st.pending + (a + b) == all[..n] + (Rest(all) + b);
    FoldConcat(compress, st.state, all[..n], Rest(all) + b);
    FoldWhole(compress, st.state, all);
    RestLonger(all[..n], Rest(all) + b);
  }

  lemma AbsorbNothing<S, B>(compress: (S, seq<B>) -> S, s: S)
    ensures Absorb(compress, Stream(s, []), []) == Stream(s, [])
  {
    hide Fold, Whole;
    var none: seq<B> := [];
    assert none + [] == none;
    FoldShort(compress, s, none);
  }

  /** Data that does not fill the block only waits. */
  lemma AbsorbShort<S, B>(compress: (S, seq<B>) -> S, st: Stream<S, B>, data: seq<B>)
    requires |st.pending| + |data| < BLOCK
    ensures Absorb(compress, st, data) == Stream(st.state, st.pending + data)
  {
    hide Fold, Whole;
    FoldShort(compress, st.state, st.pending + data);
  }

  lemma SmallMod(n: nat)
    requires n < BLOCK
    ensures n % BLOCK == n
  {
  }

  /** Data that fills the block is taken in turn: the filled block, further whole blocks, and what is left. */
  lemma AbsorbLong<S, B>(compress: (S, seq<B>) -> S, st: Stream<S, B>, data: seq<B>, k: nat)
    requires |st.pending| + k == BLOCK && k <= |data|
    ensures Absorb(compress, st, data)
            == Stream(Fold(compress, compress(st.state, st.pending + data[..k]), data[k..]), Rest(data[k..]))
    ensures (|st.pending| + |data|) % BLOCK == |Rest(data[k..])|
  {
    hide Fold;
    assert st.pending + data == (st.pending + data[..k]) + data[k..];
    FoldOne(compress, st.state, st.pending + data[..k], data[k..]);
  }

  // ----- padding

  /** The least number of zeros that leaves room for eight bytes in the last block. */
  function Zeros(n: nat): (z: nat)
    ensures z < BLOCK && (n + 1 + z) % BLOCK == BLOCK - 8
  {
    (BLOCK - 9 + BLOCK - n % BLOCK) % BLOCK
  }

  lemma ZerosLeast(n: nat, k: nat)
    requires (n + 1 + k) % BLOCK == BLOCK - 8
    ensures Zeros(n) <= k
  {
  }

  function Pad<B>(n: nat, one: B, zero: B, length: seq<B>): seq<B> {
    [one] + seq(Zeros(n), i => zero) + length
  }

  lemma PadFills<B>(message: seq<B>, one: B, zero: B, length: seq<B>)
    requires |length| == 8
    ensures |message + Pad(|message|, one, zero, length)| % BLOCK == 0
  {
  }

  /** The blocks of a padded message leave nothing pending. */
  lemma FoldPadded<S, B>(compress: (S, seq<B>) -> S, s: S, message: seq<B>, pad: seq<B>)
    requires |message + pad| % BLOCK == 0
    ensures Absorb(compress, Absorb(compress, Stream(s, []), message), pad) == Stream(Fold(compress, s, message + pad), [])
  {
    hide Fold, Whole;
    AbsorbConcat(compress, Stream(s, []), message, pad);
    WholeUnique(|message + pad|, |message + pad|);
    assert [] + (message + pad) == message + pad;
  }

  lemma RestIsMod<B>(data: seq<B>)
    ensures |Rest(data)| == |data| % BLOCK
  {
  }

  /** Hashing a message and then its padding ends with the fold over both. */
  lemma FinalState<S, B>(compress: (S, seq<B>) -> S, s: S, m: seq<B>, one: B, zero: B, length: seq<B>)
    requires |length| == 8
    ensures var all := m + Pad(|m|, one, zero, length);
            Absorb(compress, Stream(s, []), all) == Stream(Fold(compress, s, all), [])
  {
    hide Fold, Absorb, Pad;
    PadFills(m, one, zero, length);
    FoldPadded(compress, s, m, Pad(|m|, one, zero, length));
    AbsorbConcat(compress, Stream(s, []), m, Pad(|m|, one, zero, length));
  }
}
