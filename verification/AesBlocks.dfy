/** Enciphering and deciphering of whole buffers, block by block, with the last block padded. */
module AesBlocks {
  import opened GaloisField
  import opened Fips197
  import opened AesTables
  import opened Aes

  /** The number of bytes length bytes take once padded: the least multiple of 16 that holds them. */
  function CipherBlock(length: nat): (n: nat)
    ensures n % 16 == 0 && length <= n < length + 16
  {
    (length / 16 + if length % 16 != 0 then 1 else 0) * 16
  }

  /** data followed by as many pad bytes as the last block needs: the pad byte at place i of that block is pad[i]. */
  function Padded(data: seq<bv8>, pad: seq<bv8>): (p: seq<bv8>)
    requires |pad| == 16
    ensures |p| == CipherBlock(|data|) && p[..|data|] == data
  {
    if |data| % 16 == 0 then data else data + pad[|data| % 16..]
  }

  lemma PaddedEnd(data: seq<bv8>, pad: seq<bv8>, n: nat)
    requires |pad| == 16 && n % 16 == 0 && n < |data| < n + 16
    ensures var p := Padded(data, pad);
            |p| == n + 16 && forall k :: n <= k < n + 16 ==> p[k] == if k < |data| then data[k] else pad[k - n]
  {
  }

  ghost predicate Enciphered(key: seq<Column>, p: seq<bv8>, c: seq<bv8>)
    requires KeySize(|key|)
  {
    && |p| == |c|
    && forall i: nat :: 16 * i + 16 <= |p| ==>
         StateAt(c, 16 * i) == Cipher(StateAt(p, 16 * i), Schedule(key), FullRounds(|key|))
  }

  ghost predicate Deciphered(key: seq<Column>, c: seq<bv8>, d: seq<bv8>)
    requires KeySize(|key|)
  {
    && |c| == |d|
    && forall i: nat :: 16 * i + 16 <= |c| ==>
         StateAt(d, 16 * i) == EqInvCipher(StateAt(c, 16 * i), InvSchedule(key), FullRounds(|key|))
  }

  lemma SameStatesSameBytes(a: seq<bv8>, b: seq<bv8>)
    requires |a| == |b| && |a| % 16 == 0
    requires forall i: nat :: 16 * i + 16 <= |a| ==> StateAt(a, 16 * i) == StateAt(b, 16 * i)
    ensures a == b
  {
    forall j | 0 <= j < |a| ensures a[j] == b[j] {
      var i := j / 16;
      assert StateAt(a, 16 * i) == StateAt(b, 16 * i);
    }
  }

  /** Deciphering gives back every byte that was enciphered, for every key and every choice of pad bytes. */
  lemma DecipherUndoesEncipher(key: seq<Column>, p: seq<bv8>, c: seq<bv8>, d: seq<bv8>)
    requires KeySize(|key|) && |p| % 16 == 0
    requires Enciphered(key, p, c) && Deciphered(key, c, d)
    ensures d == p
  {
    hide StateAt, Cipher, EqInvCipher, Schedule, InvSchedule;
    SchedulesMatch(key);
    forall i: nat | 16 * i + 16 <= |p| ensures StateAt(d, 16 * i) == StateAt(p, 16 * i) {
      EqInvCipherOfCipher(StateAt(p, 16 * i), Schedule(key), InvSchedule(key), FullRounds(|key|));
    }
    SameStatesSameBytes(d, p);
  }

  /** The round trip of a buffer of any length: the data comes back in its first bytes. */
  lemma BufferRoundTrip(key: seq<Column>, data: seq<bv8>, pad: seq<bv8>, c: seq<bv8>, d: seq<bv8>)
    requires KeySize(|key|) && |pad| == 16
    requires Enciphered(key, Padded(data, pad), c) && Deciphered(key, c, d)
    ensures |d| == CipherBlock(|data|) && d[..|data|] == data
  {
    hide *;
    DecipherUndoesEncipher(key, Padded(data, pad), c, d);
  }

  lemma StateOfPart(a: seq<bv8>, b: seq<bv8>, pos: nat, from: nat)
    requires pos + 16 <= |a| && from + 16 <= |b|
    requires forall k :: pos <= k < pos + 16 ==> a[k] == b[k - pos + from]
    ensures StateAt(a, pos) == StateAt(b, from)
  {
  }

  lemma EncipheredExtends(key: seq<Column>, p: seq<bv8>, before: seq<bv8>, after: seq<bv8>, n: nat)
    requires KeySize(|key|) && n % 16 == 0 && n + 16 <= |p| && n + 16 <= |before| == |after|
    requires Enciphered(key, p[..n], before[..n])
    requires forall k :: 0 <= k < n ==> after[k] == before[k]
    requires StateAt(after, n) == Cipher(StateAt(p, n), Schedule(key), FullRounds(|key|))
    ensures Enciphered(key, p[..n + 16], after[..n + 16])
  {
    hide StateAt, Cipher, Schedule;
    forall i: nat | 16 * i + 16 <= n + 16
      ensures StateAt(after[..n + 16], 16 * i) == Cipher(StateAt(p[..n + 16], 16 * i), Schedule(key), FullRounds(|key|))
    {
      if 16 * i == n {
        StateOfPart(after[..n + 16], after, n, n);
        StateOfPart(p[..n + 16], p, n, n);
      } else {
        assert 16 * i + 16 <= n;
        StateOfPart(after[..n + 16], before[..n], 16 * i, 16 * i);
        StateOfPart(p[..n + 16], p[..n], 16 * i, 16 * i);
      }
    }
  }

  lemma DecipheredExtends(key: seq<Column>, c: seq<bv8>, before: seq<bv8>, after: seq<bv8>, n: nat)
    requires KeySize(|key|) && n % 16 == 0 && n + 16 <= |c| && n + 16 <= |before| == |after|
    requires Deciphered(key, c[..n], before[..n])
    requires forall k :: 0 <= k < n ==> after[k] == before[k]
    requires StateAt(after, n) == EqInvCipher(StateAt(c, n), InvSchedule(key), FullRounds(|key|))
    ensures Deciphered(key, c[..n + 16], after[..n + 16])
  {
    hide StateAt, EqInvCipher, InvSchedule;
    forall i: nat | 16 * i + 16 <= n + 16
      ensures StateAt(after[..n + 16], 16 * i) == EqInvCipher(StateAt(c[..n + 16], 16 * i), InvSchedule(key), FullRounds(|key|))
    {
      if 16 * i == n {
        StateOfPart(after[..n + 16], after, n, n);
        StateOfPart(c[..n + 16], c, n, n);
      } else {
        assert 16 * i + 16 <= n;
        StateOfPart(after[..n + 16], before[..n], 16 * i, 16 * i);
        StateOfPart(c[..n + 16], c[..n], 16 * i, 16 * i);
      }
    }
  }

  /** The last, short block in a buffer of its own: its bytes, then pad bytes. */
  method PadBlock(dataIn: array<bv8>, start: nat, n: nat, pad: seq<bv8>) returns (block: array<bv8>)
    requires start + n <= dataIn.Length && n < 16 == |pad|
    ensures fresh(block) && block.Length == 16
    ensures forall k :: 0 <= k < 16 ==> block[k] == if k < n then dataIn[start + k] else pad[k]
  {
    block := new bv8[16];
    for i := 0 to n
      invariant forall k :: 0 <= k < i ==> block[k] == dataIn[start + k]
    {
      block[i] := dataIn[start + i];
    }
    for i := n to 16
      invariant forall k :: 0 <= k < i ==> block[k] == if k < n then dataIn[start + k] else pad[k]
    {
      block[i] := pad[i];
    }
  }

  /** Enciphers length bytes; pad stands for the random bytes drawn for the last block. Input and output may be one buffer. */
  method BlockCipher(tabs: Tables, ctx: Context, dataIn: array<bv8>, length: nat, dataOut: array<bv8>, pad: seq<bv8>, ghost key: seq<Column>)
    requires tabs.Valid() && ctx.Holds(key) && dataOut !in tabs.Arrays() && dataOut as object != ctx.keys
    requires length <= dataIn.Length && CipherBlock(length) <= dataOut.Length && |pad| == 16
    modifies dataOut
    ensures tabs.Valid() && ctx.Holds(key)
    ensures Enciphered(key, Padded(old(dataIn[..length]), pad), dataOut[..CipherBlock(length)])
    ensures forall k :: CipherBlock(length) <= k < dataOut.Length ==> dataOut[k] == old(dataOut[k])
  {
    hide StateAt, Cipher, Schedule, Enciphered, Padded, Tables.Valid, Context.Holds;
    ghost var p := Padded(dataIn[..length], pad);
    ctx.HeldKeySize(key);
    assert Enciphered(key, p[..0], dataOut[..0]) by { EncipheredNothing(key, p[..0], dataOut[..0]); }
    for i := 0 to length / 16
      invariant tabs.Valid() && ctx.Holds(key)
      invariant forall k :: 16 * i <= k < length ==> dataIn[k] == old(dataIn[k])
      invariant Enciphered(key, p[..16 * i], dataOut[..16 * i])
      invariant forall k :: 16 * i <= k < dataOut.Length ==> dataOut[k] == old(dataOut[k])
    {
      ghost var before := dataOut[..];
      assert before[..16 * i] == dataOut[..16 * i];
      StateOfPart(dataIn[..], p, 16 * i, 16 * i);
      ctx.Encrypt(tabs, dataOut, 16 * i, dataIn, 16 * i, key);
      EncipheredExtends(key, p, before, dataOut[..], 16 * i);
      assert dataOut[..][..16 * i + 16] == dataOut[..16 * (i + 1)];
    }
    if length % 16 != 0 {
      PaddedEnd(old(dataIn[..length]), pad, 16 * (length / 16));
      CipherRest(tabs, ctx, dataIn, length, dataOut, pad, key, p);
    } else {
      assert p[..16 * (length / 16)] == p;
    }
  }

  /** The bytes that do not fill a block, and the pad bytes behind them. */
  method CipherRest(tabs: Tables, ctx: Context, dataIn: array<bv8>, length: nat, dataOut: array<bv8>, pad: seq<bv8>,
                    ghost key: seq<Column>, ghost p: seq<bv8>)
    requires tabs.Valid() && ctx.Holds(key) && dataOut !in tabs.Arrays() && dataOut as object != ctx.keys
    requires length <= dataIn.Length && CipherBlock(length) <= dataOut.Length && |pad| == 16 && length % 16 != 0
    requires var n := 16 * (length / 16);
             |p| == n + 16 && Enciphered(key, p[..n], dataOut[..n])
             && forall k :: n <= k < n + 16 ==> p[k] == if k < length then dataIn[k] else pad[k - n]
    modifies dataOut
    ensures tabs.Valid() && ctx.Holds(key) && Enciphered(key, p, dataOut[..CipherBlock(length)])
    ensures forall k :: CipherBlock(length) <= k < dataOut.Length ==> dataOut[k] == old(dataOut[k])
  {
    hide StateAt, Cipher, Schedule, Enciphered, Tables.Valid, Context.Holds;
    ctx.HeldKeySize(key);
    var n := 16 * (length / 16);
    var block := PadBlock(dataIn, n, length % 16, pad);
    ghost var before := dataOut[..];
    assert before[..n] == dataOut[..n];
    StateOfPart(block[..], p, 0, n);
    ctx.Encrypt(tabs, dataOut, n, block, 0, key);
    EncipheredExtends(key, p, before, dataOut[..], n);
    assert dataOut[..][..n + 16] == dataOut[..CipherBlock(length)];
    assert p[..n + 16] == p;
  }

  lemma EncipheredNothing(key: seq<Column>, p: seq<bv8>, c: seq<bv8>)
    requires KeySize(|key|) && |p| == |c| == 0
    ensures Enciphered(key, p, c) && Deciphered(key, p, c)
  {
  }

  /** Deciphers as many whole blocks as length bytes were enciphered into. */
  method BlockDecipher(tabs: Tables, ctx: Context, dataIn: array<bv8>, length: nat, dataOut: array<bv8>, ghost key: seq<Column>)
    requires tabs.Valid() && ctx.Holds(key) && dataOut !in tabs.Arrays() && dataOut as object != ctx.keys
    requires CipherBlock(length) <= dataIn.Length && CipherBlock(length) <= dataOut.Length
    modifies dataOut
    ensures tabs.Valid() && ctx.Holds(key)
    ensures Deciphered(key, old(dataIn[..CipherBlock(length)]), dataOut[..CipherBlock(length)])
    ensures forall k :: CipherBlock(length) <= k < dataOut.Length ==> dataOut[k] == old(dataOut[k])
  {
    hide StateAt, EqInvCipher, InvSchedule, Deciphered, Tables.Valid, Context.Holds;
    var whole := CipherBlock(length);
    ghost var c := dataIn[..whole];
    ctx.HeldKeySize(key);
    assert Deciphered(key, c[..0], dataOut[..0]) by { EncipheredNothing(key, c[..0], dataOut[..0]); }
    for i := 0 to whole / 16
      invariant tabs.Valid() && ctx.Holds(key)
      invariant forall k :: 16 * i <= k < whole ==> dataIn[k] == old(dataIn[k])
      invariant Deciphered(key, c[..16 * i], dataOut[..16 * i])
      invariant forall k :: 16 * i <= k < dataOut.Length ==> dataOut[k] == old(dataOut[k])
    {
      ghost var before := dataOut[..];
      assert before[..16 * i] == dataOut[..16 * i];
      StateOfPart(dataIn[..], c, 16 * i, 16 * i);
      ctx.Decrypt(tabs, dataOut, 16 * i, dataIn, 16 * i, key);
      DecipheredExtends(key, c, before, dataOut[..], 16 * i);
      assert dataOut[..][..16 * i + 16] == dataOut[..16 * (i + 1)];
    }
    assert c[..whole] == c;
  }
}
