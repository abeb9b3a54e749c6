/** The arc4 generator: its state stays a permutation, and mixing in a key is RC4's key schedule. */
module Arc4 {
  import opened Octets
  import Sets

  /** Every byte stands at exactly one place. */
  predicate Permutation(s: seq<Octet>) {
    |s| == 256 && forall a, b :: 0 <= a < b < 256 ==> s[a] != s[b]
  }

  /** Both bytes at their places exchanged. */
  function Swap(s: seq<Octet>, a: nat, b: nat): (r: seq<Octet>)
    requires a < |s| && b < |s|
    ensures |r| == |s|
  {
    s[a := s[b]][b := s[a]]
  }

  lemma SwapKeeps(s: seq<Octet>, a: nat, b: nat)
    requires Permutation(s) && a < 256 && b < 256
    ensures Permutation(Swap(s, a, b))
  {
  }

  /** The numbers below n. */
  function Below(n: nat): (r: set<nat>)
    ensures forall k :: k in r <==> 0 <= k < n
    ensures |r| == n
  {
    if n == 0 then {} else Below(n - 1) + {n - 1}
  }

  /** The first n bytes of a table. */
  function Seen(s: seq<Octet>, n: nat): (r: set<nat>)
    requires n <= |s|
    ensures forall v :: v in r <==> v in s[..n]
  {
    if n == 0 then {} else Seen(s, n - 1) + {s[n - 1]}
  }

  lemma {:induction false} SeenSize(s: seq<Octet>, n: nat)
    requires Permutation(s) && n <= 256
    ensures |Seen(s, n)| == n
  {
    if n > 0 {
      SeenSize(s, n - 1);
      assert s[n - 1] !in s[..n - 1];
    }
  }

  /** So every byte is there. */
  lemma EveryByteThere(s: seq<Octet>, v: Octet)
    requires Permutation(s)
    ensures v in s
  {
    hide Permutation, Seen, Below;
    assert |s| == 256 by { Size(s); }
    SeenSize(s, 256);
    assert s[..256] == s;
    if v !in s {
      assert Seen(s, 256) <= Below(256) - {v};
      Sets.SubsetSize(Seen(s, 256), Below(256) - {v});
    }
  }

  lemma Size(s: seq<Octet>)
    requires Permutation(s)
    ensures |s| == 256
  {
  }

  function Sum(a: int, b: int): Octet {
    (a + b) % 256
  }

  // ----- the generator as a value

  datatype State = State(i: Octet, j: Octet, s: seq<Octet>)

  predicate Good(st: State) {
    Permutation(st.s)
  }

  function Identity(): (s: seq<Octet>)
    ensures |s| == 256
  {
    seq(256, k requires 0 <= k < 256 => k)
  }

  /** One round of mixing a byte in. */
  function Mix(st: State, b: Octet): State
    requires |st.s| == 256
  {
    var i := Sum(st.i, 1);
    var j := Sum(Sum(st.j, st.s[i]), b);
    State(i, j, Swap(st.s, i, j))
  }

  /** The first n rounds of mixing data in, round and round. */
  function Mixed(st: State, dat: seq<Octet>, n: nat): (r: State)
    requires |st.s| == 256 && dat != []
    ensures |r.s| == 256
  {
    if n == 0 then st else Mix(Mixed(st, dat, n - 1), dat[(n - 1) % |dat|])
  }

  function AddRandom(st: State, dat: seq<Octet>): (r: State)
    requires |st.s| == 256 && dat != []
    ensures |r.s| == 256
  {
    var m := Mixed(st.(i := Sum(st.i, 255)), dat, 256);
    m.(j := m.i)
  }

  /** The next state; its byte is the one at the sum of the two that have changed places. */
  function Next(st: State): (r: State)
    requires |st.s| == 256
    ensures |r.s| == 256
  {
    var i := Sum(st.i, 1);
    var j := Sum(st.j, st.s[i]);
    State(i, j, Swap(st.s, i, j))
  }

  function Output(st: State): Octet
    requires |st.s| == 256
  {
    st.s[Sum(st.s[st.i], st.s[st.j])]
  }

  /** The state after n calls. */
  function After(st: State, n: nat): (r: State)
    requires |st.s| == 256
    ensures |r.s| == 256
  {
    if n == 0 then st else Next(After(st, n - 1))
  }

  /** The bytes that n calls draw. */
  function Drawn(st: State, n: nat): (bytes: seq<Octet>)
    requires |st.s| == 256
    ensures |bytes| == n
  {
    if n == 0 then [] else Drawn(st, n - 1) + [Output(After(st, n))]
  }

  /** Four bytes as a word, the first one the most significant. */
  function WordOf(a: int, b: int, c: int, d: int): int {
    a * 0x100_0000 + b * 0x1_0000 + c * 0x100 + d
  }

  lemma DrawnNext(st: State, n: nat)
    requires |st.s| == 256
    ensures After(st, n + 1) == Next(After(st, n)) && Drawn(st, n + 1) == Drawn(st, n) + [Output(After(st, n + 1))]
  {
    hide Next, Output;
  }

  // ----- the generator in place

  class Arc4Stream {
    var i: Octet
    var j: Octet
    const s: array<Octet>

    ghost predicate Valid()
      reads this, s
    {
      s.Length == 256 && Permutation(s[..])
    }

    function AsState(): (st: State)
      requires s.Length == 256
      reads this, s
      ensures |st.s| == 256
    {
      State(i, j, s[..])
    }

    constructor ()
      ensures Valid() && fresh(s) && AsState() == State(0, 0, Identity())
    {
      s := new Octet[256];
      i, j := 0, 0;
      new;
      Init();
    }

    method Init()
      requires s.Length == 256
      modifies this, s
      ensures Valid() && AsState() == State(0, 0, Identity())
    {
      var n := 0;
      while n < 256
        invariant 0 <= n <= 256 && forall k :: 0 <= k < n ==> s[k] == k
      {
        s[n] := n;
        n := n + 1;
      }
      i := 0;
      j := 0;
    }

    method MixIn(dat: seq<Octet>)
      requires Valid() && dat != []
      modifies this, s
      ensures Valid() && AsState() == AddRandom(old(AsState()), dat)
    {
      hide Mix, Permutation;
      ghost var start := AsState().(i := Sum(i, 255));
      i := Sum(i, 255);
      var n := 0;
      while n < 256
        invariant 0 <= n <= 256 && Valid() && AsState() == Mixed(start, dat, n)
      {
        MixByte(dat[n % |dat|]);
        n := n + 1;
      }
      j := i;
    }

    method MixByte(b: Octet)
      requires Valid()
      modifies this, s
      ensures Valid() && AsState() == Mix(old(AsState()), b)
    {
      hide Permutation;
      i := Sum(i, 1);
      var si := s[i];
      j := Sum(Sum(j, si), b);
      SwapKeeps(s[..], i, j);
      s[i] := s[j];
      s[j] := si;
      assert s[..] == Swap(old(s[..]), i, j);
    }

    method GetByte() returns (b: Octet)
      requires Valid()
      modifies this, s
      ensures Valid() && AsState() == Next(old(AsState())) && b == Output(AsState())
    {
      hide Permutation;
      i := Sum(i, 1);
      var si := s[i];
      j := Sum(j, si);
      var sj := s[j];
      SwapKeeps(s[..], i, j);
      s[i] := sj;
      s[j] := si;
      assert s[..] == Swap(old(s[..]), i, j);
      return s[Sum(si, sj)];
    }

    /** Fills a buffer from its end on. */
    method Fill(buf: array<Octet>)
      requires Valid() && buf != s
      modifies this, s, buf
      ensures Valid() && AsState() == After(old(AsState()), buf.Length)
      ensures forall k :: 0 <= k < buf.Length ==> buf[k] == Drawn(old(AsState()), buf.Length)[buf.Length - 1 - k]
    {
      hide Next, Output, Permutation, Drawn;
      ghost var st := AsState();
      var n := buf.Length;
      while n > 0
        invariant 0 <= n <= buf.Length && Valid() && AsState() == After(st, buf.Length - n)
        invariant forall k :: n <= k < buf.Length ==> buf[k] == Drawn(st, buf.Length - n)[buf.Length - 1 - k]
      {
        DrawnNext(st, buf.Length - n);
        n := n - 1;
        var b := GetByte();
        buf[n] := b;
      }
    }

    /** Throws bytes away, as is done after stirring. */
    method Discard(count: nat)
      requires Valid()
      modifies this, s
      ensures Valid() && AsState() == After(old(AsState()), count)
    {
      hide Next, Output, Permutation;
      var n := 0;
      while n < count
        invariant 0 <= n <= count && Valid() && AsState() == After(old(AsState()), n)
      {
        var _ := GetByte();
        n := n + 1;
      }
    }

    method GetWord() returns (val: nat)
      requires Valid()
      modifies this, s
      ensures Valid() && val < 0x1_0000_0000
      ensures var a := Next(old(AsState())); var b := Next(a); var c := Next(b); var d := Next(c);
              AsState() == d && val == WordOf(Output(a), Output(b), Output(c), Output(d))
    {
      hide Next, Output, Permutation;
      var a := GetByte();
      var b := GetByte();
      var c := GetByte();
      var d := GetByte();
      val := WordOf(a, b, c, d);
    }
  }

  // ----- what every run keeps

  datatype Call = CallInit | CallAddRandom(dat: seq<Octet>) | CallGetByte

  function Do(st: State, c: Call): State
    requires |st.s| == 256 && (c.CallAddRandom? ==> c.dat != [])
  {
    match c
    case CallInit => State(0, 0, Identity())
    case CallAddRandom(dat) => AddRandom(st, dat)
    case CallGetByte => Next(st)
  }

  lemma MixKeeps(st: State, b: Octet)
    requires Good(st)
    ensures Good(Mix(st, b))
  {
    hide Swap;
    SwapKeeps(st.s, Sum(st.i, 1), Sum(Sum(st.j, st.s[Sum(st.i, 1)]), b));
  }

  lemma {:induction false} MixedKeeps(st: State, dat: seq<Octet>, n: nat)
    requires Good(st) && dat != []
    ensures Good(Mixed(st, dat, n))
    decreases n
  {
    hide Good, Mix, Permutation;
    assert |st.s| == 256 by { GoodSize(st); }
    if n > 0 {
      MixedKeeps(st, dat, n - 1);
      MixKeeps(Mixed(st, dat, n - 1), dat[(n - 1) % |dat|]);
    }
  }

  lemma GoodSize(st: State)
    requires Good(st)
    ensures |st.s| == 256
  {
  }

  lemma CallKeeps(st: State, c: Call)
    requires Good(st) && (c.CallAddRandom? ==> c.dat != [])
    ensures Good(Do(st, c))
  {
    hide Swap, Mixed;
    match c
    case CallInit =>
    case CallAddRandom(dat) => MixedKeeps(st.(i := Sum(st.i, 255)), dat, 256);
    case CallGetByte => SwapKeeps(st.s, Sum(st.i, 1), Sum(st.j, st.s[Sum(st.i, 1)]));
  }

  predicate Callable(calls: seq<Call>) {
    forall k :: 0 <= k < |calls| && calls[k].CallAddRandom? ==> calls[k].dat != []
  }

  ghost function Run(st: State, calls: seq<Call>): State
    requires Good(st) && Callable(calls)
    decreases |calls|
  {
    if calls == [] then st
    else
      CallKeeps(st, calls[0]);
      Run(Do(st, calls[0]), calls[1..])
  }

  /** In every run the table stays a permutation of all bytes. */
  lemma {:induction false} RunKeeps(st: State, calls: seq<Call>)
    requires Good(st) && Callable(calls)
    ensures Good(Run(st, calls))
    decreases |calls|
  {
    hide Permutation, Do;
    GoodSize(st);
    if calls != [] {
      CallKeeps(st, calls[0]);
      RunKeeps(Do(st, calls[0]), calls[1..]);
    }
  }

  // ----- the key schedule of RC4

  /** The first n rounds of RC4's key schedule. */
  function Ksa(key: seq<Octet>, n: nat): (p: (seq<Octet>, Octet))
    requires key != [] && n <= 256
    ensures |p.0| == 256
  {
    if n == 0 then (Identity(), 0)
    else
      var (s, j0) := Ksa(key, n - 1);
      var j := Sum(Sum(j0, s[n - 1]), key[(n - 1) % |key|]);
      (Swap(s, n - 1, j), j)
  }

  lemma {:induction false} MixedIsKsa(key: seq<Octet>, n: nat)
    requires key != [] && n <= 256
    ensures var m := Mixed(State(255, 0, Identity()), key, n);
            m == State(Sum(n, 255), Ksa(key, n).1, Ksa(key, n).0)
    decreases n
  {
    hide Identity, Swap, Sum;
    if n == 0 {
      assert Sum(0, 255) == 255 by { SumStep(0); }
    } else {
      MixedIsKsa(key, n - 1);
      SumStep(n);
    }
  }

  lemma SumStep(n: nat)
    requires n <= 256
    ensures n == 0 ==> Sum(n, 255) == 255
    ensures n > 0 ==> Sum(Sum(n - 1, 255), 1) == n - 1 && Sum(n, 255) == n - 1
  {
  }

  /** A fresh table into which a key is mixed is the one RC4 makes of the key. */
  lemma FirstMixIsKeySchedule(key: seq<Octet>)
    requires key != []
    ensures AddRandom(State(0, 0, Identity()), key).s == Ksa(key, 256).0
  {
    hide Mixed, Ksa, Identity;
    MixedIsKsa(key, 256);
  }
}
