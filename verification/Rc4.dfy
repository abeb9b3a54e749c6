/** RC4's generation of bytes, and how far the bytes of the arc4 generator are those of RC4. */
module Rc4 {
  import opened Arc4
  import opened Octets

  /** What one round makes of a table: the entries at both indices are read, then exchanged, and the byte is the one that
      then stands at their sum. */
  datatype Round = Round(table: seq<Octet>, j: Octet, byte: Octet)

  function OneRound(s: seq<Octet>, i: Octet, j: Octet): (r: Round)
    requires |s| == 256
    ensures |r.table| == 256
  {
    var x := s[i];
    var b := Sum(j, x);
    var y := s[b];
    var exchanged := s[i := y][b := x];
    Round(exchanged, b, exchanged[Sum(x, y)])
  }

  /** The table, the second index and all bytes so far. */
  datatype Generation = Generation(table: seq<Octet>, j: Octet, bytes: seq<Octet>)

  /** The first n rounds of RC4's loop over a table, with its indices at i and j before. */
  function Generated(s: seq<Octet>, i: Octet, j: Octet, n: nat): (g: Generation)
    requires |s| == 256
    ensures |g.table| == 256 && |g.bytes| == n
  {
    if n == 0 then Generation(s, j, [])
    else
      var g := Generated(s, i, j, n - 1);
      var r := OneRound(g.table, (i + n) % 256, g.j);
      Generation(r.table, r.j, g.bytes + [r.byte])
  }

  /** RC4 starts with both indices at 0. */
  function Rc4Bytes(s: seq<Octet>, n: nat): seq<Octet>
    requires |s| == 256
  {
    Generated(s, 0, 0, n).bytes
  }

  // ----- what calls draw

  function Fresh(): (st: State)
    ensures |st.s| == 256
  {
    State(0, 0, Identity())
  }

  /** The bytes drawn in any state are those of RC4's loop with its indices where they are. */
  lemma {:induction false} DrawnIsGenerated(st: State, n: nat)
    requires |st.s| == 256
    ensures Drawn(st, n) == Generated(st.s, st.i, st.j, n).bytes
    ensures var g := Generated(st.s, st.i, st.j, n); After(st, n) == State((st.i + n) % 256, g.j, g.table)
  {
    hide OneRound, Next, Output;
    if n > 0 {
      DrawnIsGenerated(st, n - 1);
      NextIsRound(After(st, n - 1));
      IndexStep(st.i, n - 1);
    }
  }

  lemma IndexStep(i: Octet, n: nat)
    ensures ((i + n) % 256 + 1) % 256 == (i + n + 1) % 256
  {
  }

  lemma NextIsRound(st: State)
    requires |st.s| == 256
    ensures var r := OneRound(st.s, (st.i + 1) % 256, st.j);
            Next(st) == State((st.i + 1) % 256, r.j, r.table) && Output(Next(st)) == r.byte
  {
    var a: Octet := (st.i + 1) % 256;
    var x := st.s[a];
    var b: Octet := (st.j + x) % 256;
    var exchanged := Swap(st.s, a, b);
    assert exchanged[b] == x && exchanged[a] == st.s[b];
  }

  /** Before any key, the generator is RC4 on the unmixed table. */
  lemma FreshStream(n: nat)
    ensures Drawn(Fresh(), n) == Rc4Bytes(Identity(), n)
  {
    DrawnIsGenerated(Fresh(), n);
  }

  lemma FreshBytes(n: nat)
    requires n == 2
    ensures Drawn(Fresh(), n) == [2, 5]
  {
    hide Identity;
    FreshStream(n);
    FreshTwo(n);
  }

  lemma FreshTwo(n: nat)
    requires n == 2
    ensures Rc4Bytes(Identity(), n) == [2, 5]
  {
    assert Generated(Identity(), 0, 0, n - 2) == Generation(Identity(), 0, []);
    assert Generated(Identity(), 0, 0, n - 1).bytes == [2];
    assert Generated(Identity(), 0, 0, n - 1).table == Identity();
  }

  /** After a key has been mixed into a fresh table, the bytes are those of RC4's loop on the table of the key schedule, but
      with both indices at 255. */
  lemma KeyedStream(key: seq<Octet>, n: nat)
    requires key != []
    ensures AddRandom(Fresh(), key) == State(255, 255, Ksa(key, 256).0)
    ensures Drawn(AddRandom(Fresh(), key), n) == Generated(Ksa(key, 256).0, 255, 255, n).bytes
  {
    hide Ksa, Mixed, Identity, Drawn;
    MixedIsKsa(key, 256);
    DrawnIsGenerated(AddRandom(Fresh(), key), n);
  }

  /** The four bytes of a word are drawn in turn, the most significant first. */
  lemma WordIsDrawn(st: State, n: nat)
    requires |st.s| == 256 && n == 4
    ensures var w := Drawn(st, n);
            var a := Next(st); var b := Next(a); var c := Next(b); var d := Next(c);
            After(st, n) == d && WordOf(Output(a), Output(b), Output(c), Output(d)) == Unpack([w[3], w[2], w[1], w[0]])
  {
    hide Next, Output, WordOf, Unpack;
    var a := Next(st);
    var b := Next(a);
    var c := Next(b);
    var d := Next(c);
    assert After(st, n - 4) == st;
    assert After(st, n - 3) == a;
    assert After(st, n - 2) == b;
    assert After(st, n - 1) == c;
    assert Drawn(st, n - 4) == [];
    assert Drawn(st, n - 3) == [Output(a)];
    assert Drawn(st, n - 2) == [Output(a), Output(b)];
    assert Drawn(st, n - 1) == [Output(a), Output(b), Output(c)];
    assert Drawn(st, n) == [Output(a), Output(b), Output(c), Output(d)];
    BigEndianWord(Output(a), Output(b), Output(c), Output(d));
  }

  lemma BigEndianWord(a: Octet, b: Octet, c: Octet, d: Octet)
    ensures WordOf(a, b, c, d) == Unpack([d, c, b, a])
  {
    assert [d, c, b, a][1..] == [c, b, a] && [c, b, a][1..] == [b, a] && [b, a][1..] == [a];
    assert Unpack([a]) == a;
    assert Unpack([b, a]) == b + 256 * a;
    assert Unpack([c, b, a]) == c + 256 * (b + 256 * a);
  }

  // ----- when the bytes are those of RC4

  /** Whether all bytes drawn with both indices at c are those of RC4, whatever the table. */
  ghost predicate AlwaysRc4(c: Octet) {
    forall s, n :: Permutation(s) ==> Drawn(State(c, c, s), n) == Rc4Bytes(s, n)
  }

  /** Mixing leaves both indices at the same place; the bytes that follow are those of RC4 if and only if that is 0. */
  lemma AlwaysRc4Iff(c: Octet)
    ensures AlwaysRc4(c) <==> c == 0
  {
    hide Drawn, Generated, Permutation, Identity;
    if c == 0 {
      forall s: seq<Octet>, n | Permutation(s)
        ensures |s| == 256 && Drawn(State(c, c, s), n) == Rc4Bytes(s, n)
      {
        Size(s);
        DrawnIsGenerated(State(c, c, s), n);
      }
    } else {
      IdentityPermutes();
      DrawnIsGenerated(State(c, c, Identity()), 1);
      FirstByte(Identity(), c, 1);
      FirstByte(Identity(), 0, 1);
      OtherByte(c);
      assert Drawn(State(c, c, Identity()), 1) != Rc4Bytes(Identity(), 1);
    }
  }

  lemma IdentityPermutes()
    ensures Permutation(Identity())
  {
  }

  lemma FirstByte(s: seq<Octet>, c: Octet, n: nat)
    requires |s| == 256 && n == 1
    ensures Generated(s, c, c, n).bytes == [OneRound(s, (c + 1) % 256, c).byte]
  {
    assert Generated(s, c, c, n - 1) == Generation(s, c, []);
  }

  lemma OtherByte(c: Octet)
    requires c != 0
    ensures OneRound(Identity(), (c + 1) % 256, c).byte != 2 && OneRound(Identity(), (0 + 1) % 256, 0).byte == 2
  {
    hide OneRound, Sum;
    IdentityRound((c + 1) % 256, c);
    IdentityRound(1, 0);
    Wrapped(c, 1);
    Wrapped(c, (c + 1) % 256);
    Wrapped((c + 1) % 256, Sum(c, (c + 1) % 256));
    Wrapped(0, 1);
    Wrapped(1, 1);
  }

  lemma Wrapped(x: Octet, y: Octet)
    ensures Sum(x, y) == (if x + y < 256 then x + y else x + y - 256) && (x + y) % 256 == Sum(x, y)
  {
  }

  lemma IdentityRound(i: Octet, j: Octet)
    ensures var b := Sum(j, i);
            var m := Sum(i, b);
            OneRound(Identity(), i, j).byte == if m == b then i else if m == i then b else m
  {
    hide Sum;
  }

  // ----- a key after which they are not

  /** The key that mixes nothing: the table stays as it was made. */
  function NeutralKey(): (key: seq<Octet>)
    ensures |key| == 256
  {
    seq(256, k requires 0 <= k < 256 => if k == 0 then 0 else (257 - k) % 256)
  }

  lemma {:induction false} NeutralMixes(n: nat)
    requires n <= 256
    ensures Ksa(NeutralKey(), n) == (Identity(), if n == 0 then 0 else n - 1)
  {
    hide NeutralKey, Identity, Swap, Sum;
    if n > 0 {
      NeutralMixes(n - 1);
      NeutralStep(n - 1);
      assert (n - 1) % 256 == n - 1;
    }
  }

  lemma NeutralStep(k: Octet)
    ensures Sum(Sum(if k == 0 then 0 else k - 1, Identity()[k]), NeutralKey()[k]) == k
    ensures Swap(Identity(), k, k) == Identity()
  {
  }

  /** With it the first byte drawn is 0, where RC4 makes a 2 of the same table. */
  lemma FirstByteDiffers(n: nat)
    requires n == 1
    ensures Drawn(AddRandom(Fresh(), NeutralKey()), n) == [0] && Rc4Bytes(Ksa(NeutralKey(), 256).0, n) == [2]
  {
    hide Ksa, Drawn, Generated, AddRandom, NeutralKey;
    KeyedStream(NeutralKey(), n);
    NeutralMixes(256);
    FirstByte(Identity(), 255, n);
    FirstByte(Identity(), 0, n);
    OtherByte(255);
    LastByte();
  }

  lemma LastByte()
    ensures OneRound(Identity(), (255 + 1) % 256, 255).byte == 0
  {
  }

  // ----- runs

  /** Calls that draw n bytes. */
  function Draws(n: nat): (calls: seq<Call>)
    ensures |calls| == n && Callable(calls)
  {
    seq(n, _ => CallGetByte)
  }

  lemma {:induction false} RunDraws(st: State, n: nat)
    requires Arc4.Good(st)
    ensures |st.s| == 256 && Run(st, Draws(n)) == After(st, n)
    decreases n
  {
    hide Permutation, Next;
    GoodSize(st);
    if n > 0 {
      CallKeeps(st, CallGetByte);
      RunDraws(Next(st), n - 1);
      assert Draws(n)[1..] == Draws(n - 1);
      AfterNext(st, n - 1);
    }
  }

  lemma {:induction false} AfterNext(st: State, n: nat)
    requires |st.s| == 256
    ensures After(Next(st), n) == After(st, n + 1)
  {
    hide Next;
    if n > 0 {
      AfterNext(st, n - 1);
    }
  }

  /** A run that starts the generator anew, mixes a key in and draws n bytes ends where RC4's loop over the table of the key
      schedule does, whatever the state before. */
  lemma KeyedRun(st: State, key: seq<Octet>, n: nat)
    requires Arc4.Good(st) && key != []
    ensures var g := Generated(Ksa(key, 256).0, 255, 255, n);
            Run(st, [CallInit, CallAddRandom(key)] + Draws(n)) == State((255 + n) % 256, g.j, g.table)
  {
    hide Permutation, Ksa, Mixed, Identity, AddRandom, Generated, Draws, Do;
    var calls := [CallInit, CallAddRandom(key)] + Draws(n);
    GoodSize(st);
    CallKeeps(st, CallInit);
    var start := Fresh();
    DoEach(st, key);
    CallKeeps(start, CallAddRandom(key));
    var mixed := AddRandom(start, key);
    assert calls[1..][1..] == Draws(n);
    RunDraws(mixed, n);
    KeyedStream(key, n);
    DrawnIsGenerated(mixed, n);
  }

  lemma DoEach(st: State, key: seq<Octet>)
    requires |st.s| == 256 && key != []
    ensures Do(st, CallInit) == Fresh() && Do(Fresh(), CallAddRandom(key)) == AddRandom(Fresh(), key)
  {
  }
}
