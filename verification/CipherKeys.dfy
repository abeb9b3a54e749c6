/** Setting a cipher's key from a pass phrase of any length: the phrase is hashed, and the digest is the key. */
module CipherKeys {
  import opened Aes
  import opened AesTables
  import opened Octets
  import opened Widths
  import Fips180
  import HashWords
  import Md5
  import Md5Wide
  import Rfc1321
  import Sha256

  /** The tables are filled when they are needed first. */
  class CipherTables {
    const tabs: Tables
    var tabsGenned: bool

    ghost predicate Valid()
      reads this, tabs.Arrays()
    {
      tabs.Shape() && (tabsGenned ==> tabs.Valid())
    }

    constructor ()
      ensures Valid() && !tabsGenned && fresh(tabs) && fresh(tabs.Arrays())
    {
      tabs := new Tables();
      tabsGenned := false;
    }

    method NeedTables()
      requires Valid()
      modifies this`tabsGenned, tabs.Arrays()
      ensures tabsGenned && tabs.Valid()
    {
      if !tabsGenned {
        tabs.GenTabs();
        tabsGenned := true;
      }
    }

    method SetDigest(ctx: Context, digest: seq<bv8>)
      requires tabs.Valid() && ctx.keys !in tabs.Arrays() && ctx.keys.Length == 120 && |digest| in {16, 32}
      modifies ctx, ctx.keys
      ensures tabs.Valid() && ctx.Holds(Columns(digest))
    {
      hide Context.Holds, Tables.Valid, Columns;
      var ok := ctx.SetKey(tabs, digest, |digest|);
      assert digest[..|digest|] == digest;
    }

    /** A key of 32 bytes; it is the SHA-256 hash of the phrase if that has less than 2^29 bytes. */
    method CipherKeySha256(ctx: Context, phrase: seq<HashWords.Byte>)
      requires Valid() && ctx.keys !in tabs.Arrays() && ctx.keys.Length == 120 && |phrase| < 0x8000_0000
      modifies this`tabsGenned, tabs.Arrays(), ctx, ctx.keys
      ensures tabs.Valid() && ctx.Holds(Columns(Sha256.Sha256Counting(phrase, 8 * |phrase| % WORD)))
      ensures |phrase| < 0x2000_0000 ==> ctx.Holds(Columns(Fips180.Sha256(phrase)))
    {
      hide Sha256.Sha256Counting, Fips180.Sha256, Context.Holds, Tables.Valid, Columns;
      NeedTables();
      var digest := Sha256.Sha256Block(phrase);
      Sha256Size(phrase);
      SetDigest(ctx, digest);
    }

    /** A key of 16 bytes, the MD5 hash of the phrase. */
    method CipherKeyMd5(ctx: Context, phrase: seq<Octet>, width: Md5Wide.Width)
      requires Valid() && ctx.keys !in tabs.Arrays() && ctx.keys.Length == 120
      modifies this`tabsGenned, tabs.Arrays(), ctx, ctx.keys
      ensures tabs.Valid() && ctx.Holds(Columns(AsBytes(Rfc1321.Md5(phrase))))
    {
      hide Rfc1321.Md5, Context.Holds, Tables.Valid, Columns;
      NeedTables();
      var digest := Md5.Md5Block(phrase, width);
      Md5Size(phrase);
      SetDigest(ctx, AsBytes(digest));
    }
  }

  function AsBytes(octets: seq<Octet>): (b: seq<bv8>)
    ensures |b| == |octets|
  {
    seq(|octets|, i requires 0 <= i < |octets| => octets[i] as bv8)
  }

  lemma Sha256Size(phrase: seq<HashWords.Byte>)
    ensures |Sha256.Sha256Counting(phrase, 8 * |phrase| % WORD)| == 32
  {
    forall ws: seq<bv32> | |ws| == 8 ensures |HashWords.AllBytes(ws)| == 32 {
      WordsSize(ws);
    }
  }

  lemma {:induction false} WordsSize(ws: seq<bv32>)
    ensures |HashWords.AllBytes(ws)| == 4 * |ws|
  {
    if ws != [] {
      WordsSize(ws[..|ws| - 1]);
    }
  }

  lemma Md5Size(phrase: seq<Octet>)
    ensures |Rfc1321.Md5(phrase)| == 16
  {
  }
}
