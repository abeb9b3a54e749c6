/** The tree of shared folders, and how it is saved to bytes and loaded again. */
module ShareTree {
  import opened FileEntries
  import opened KeyMaps
  import opened Octets
  import opened Widths

  type NamedFile = Entry<File>

  /** A folder under its key. */
  type Child = Entry<Tree>

  datatype Tree = Tree(path: Text, mtime: nat, folders: seq<Child>, files: seq<NamedFile>)

  datatype Result<T> = Ok(value: T, rest: seq<Octet>) | Fail

  // ----- saving

  function PackNumbers(ns: seq<nat>): seq<Octet> {
    if ns == [] then [] else Pack(ns[0], 4) + PackNumbers(ns[1..])
  }

  function PackFile(f: NamedFile): seq<Octet> {
    PackText(f.key) + Pack(f.value.size, 8) + PackText(f.value.extension)
    + Pack(|f.value.attributes|, 4) + PackNumbers(f.value.attributes)
  }

  function PackFiles(fs: seq<NamedFile>): seq<Octet> {
    if fs == [] then [] else PackFile(fs[0]) + PackFiles(fs[1..])
  }

  function PackTree(t: Tree): seq<Octet>
    decreases t
  {
    PackText(t.path) + Pack(t.mtime, 4) + Pack(|t.folders|, 4) + PackFolders(t.folders)
    + Pack(|t.files|, 4) + PackFiles(t.files)
  }

  /** Keys are not saved. */
  function PackFolders(fs: seq<Child>): seq<Octet>
    decreases fs
  {
    if fs == [] then [] else PackTree(fs[0].value) + PackFolders(fs[1..])
  }

  // ----- loading

  function UnpackInt(data: seq<Octet>): (r: Result<nat>)
    ensures r.Ok? ==> |r.rest| + 4 == |data|
  {
    if |data| < 4 then Fail else Ok(Unpack(data[..4]), data[4..])
  }

  /** A byte shifted up by 8 * j places as a machine shifts an int: the count is taken modulo 32 and the result is signed. */
  function ShiftedInt(b: Octet, j: nat): int {
    SignedInt(b * Pow256(j % 4))
  }

  function SignedInt(v: nat): int {
    if v >= 0x8000_0000 then v - WORD else v
  }

  /** What the bytes from place j on add to a sum kept in 64 bits. */
  function OffSum(s: seq<Octet>, j: nat, sum: nat): nat {
    if s == [] then sum else OffSum(s[1..], j + 1, (sum + ShiftedInt(s[0], j)) % DOUBLE)
  }

  /** A size of eight bytes, each of them shifted as an int. */
  function UnpackOff(data: seq<Octet>): (r: Result<nat>)
    ensures r.Ok? ==> |r.rest| + 8 == |data|
  {
    if |data| < 8 then Fail else Ok(OffSum(data[..8], 0, 0), data[8..])
  }

  function UnpackText(data: seq<Octet>): (r: Result<Text>)
    ensures r.Ok? ==> |r.rest| + 4 <= |data|
  {
    var l := UnpackInt(data);
    if l.Fail? || |l.rest| < l.value then Fail else Ok(l.rest[..l.value], l.rest[l.value..])
  }

  function UnpackNumbers(data: seq<Octet>, k: nat): (r: Result<seq<nat>>)
    ensures r.Ok? ==> |r.rest| <= |data|
    decreases k
  {
    if k == 0 then Ok([], data)
    else
      var n := UnpackInt(data);
      if n.Fail? then Fail
      else
        var ns := UnpackNumbers(n.rest, k - 1);
        if ns.Fail? then Fail else Ok([n.value] + ns.value, ns.rest)
  }

  function UnpackFile(data: seq<Octet>): (r: Result<NamedFile>)
    ensures r.Ok? ==> |r.rest| < |data|
  {
    var name := UnpackText(data);
    if name.Fail? then Fail else
    var size := UnpackOff(name.rest);
    if size.Fail? then Fail else
    var ext := UnpackText(size.rest);
    if ext.Fail? then Fail else
    var k := UnpackInt(ext.rest);
    if k.Fail? then Fail else
    var attrs := UnpackNumbers(k.rest, k.value);
    if attrs.Fail? then Fail else Ok(Entry(name.value, File(size.value, ext.value, attrs.value)), attrs.rest)
  }

  function UnpackFiles(data: seq<Octet>, n: nat, done: seq<NamedFile>): (r: Result<seq<NamedFile>>)
    ensures r.Ok? ==> |r.rest| <= |data|
    decreases n
  {
    if n == 0 then Ok(done, data)
    else
      var f := UnpackFile(data);
      if f.Fail? then Fail else UnpackFiles(f.rest, n - 1, Put(done, f.value.key, f.value.value))
  }

  function UnpackTree(data: seq<Octet>): (r: Result<Tree>)
    ensures r.Ok? ==> |r.rest| < |data|
    decreases |data|, 0
  {
    var path := UnpackText(data);
    if path.Fail? then Fail else
    var mtime := UnpackInt(path.rest);
    if mtime.Fail? then Fail else
    var n := UnpackInt(mtime.rest);
    if n.Fail? then Fail else
    var folders := UnpackFolders(n.rest, n.value, []);
    if folders.Fail? then Fail else
    var k := UnpackInt(folders.rest);
    if k.Fail? then Fail else
    var files := UnpackFiles(k.rest, k.value, []);
    if files.Fail? then Fail else Ok(Tree(path.value, mtime.value, folders.value, files.value), files.rest)
  }

  /** Each folder goes into the map under its own path. */
  function UnpackFolders(data: seq<Octet>, n: nat, done: seq<Child>): (r: Result<seq<Child>>)
    ensures r.Ok? ==> |r.rest| <= |data|
    decreases |data|, n + 1
  {
    if n == 0 then Ok(done, data)
    else
      var t := UnpackTree(data);
      if t.Fail? then Fail else UnpackFolders(t.rest, n - 1, Put(done, t.value.path, t.value))
  }

  // ----- trees that can be saved

  predicate FileFits(f: NamedFile) {
    && TextFits(f.key) && f.value.size < DOUBLE && TextFits(f.value.extension) && |f.value.attributes| < WORD
    && forall i :: 0 <= i < |f.value.attributes| ==> f.value.attributes[i] < WORD
  }

  /** Keys in order and equal to the paths, sizes within 64 bits, and everything else but the time within a word. */
  predicate TreeFits(t: Tree)
    decreases t
  {
    && TextFits(t.path) && |t.folders| < WORD && |t.files| < WORD
    && Sorted(t.folders) && FoldersFit(t.folders)
    && Sorted(t.files) && (forall i :: 0 <= i < |t.files| ==> FileFits(t.files[i]))
  }

  predicate FoldersFit(fs: seq<Child>)
    decreases fs
  {
    fs == [] || (fs[0].key == fs[0].value.path && TreeFits(fs[0].value) && FoldersFit(fs[1..]))
  }

  // ----- a saved tree comes back

  lemma IntBack(n: nat, rest: seq<Octet>)
    requires n < WORD
    ensures UnpackInt(Pack(n, 4) + rest) == Ok(n, rest)
  {
    PackUnpack32(n);
    assert (Pack(n, 4) + rest)[..4] == Pack(n, 4) && (Pack(n, 4) + rest)[4..] == rest;
  }

  // ----- sizes

  /** What is loaded of a saved size. */
  function OffLoaded(n: nat): nat {
    OffSum(Pack(n, 8), 0, 0)
  }

  lemma OffBack(n: nat, rest: seq<Octet>)
    ensures UnpackOff(Pack(n, 8) + rest) == Ok(OffLoaded(n), rest)
  {
    hide Pack, OffSum;
    assert (Pack(n, 8) + rest)[..8] == Pack(n, 8) && (Pack(n, 8) + rest)[8..] == rest;
  }

  /** The two halves of a size are added up as two signed ints. */
  lemma OffLoadedForm(n: nat)
    requires n < DOUBLE
    ensures OffLoaded(n) == (SignedInt(n % WORD) + SignedInt(n / WORD)) % DOUBLE
  {
    hide Pack, OffSum, SignedInt;
    var low, high := Pack(n % WORD, 4), Pack(n / WORD, 4);
    PackHalves(n);
    OffSumConcat(low, high, 0, 0);
    HalfSum(n % WORD, 0, 0);
    var sum := OffSum(low, 0, 0);
    HalfSum(n / WORD, 4, sum);
    ModAdd(SignedInt(n % WORD), SignedInt(n / WORD));
  }

  lemma PackHalves(n: nat)
    requires n < DOUBLE
    ensures Pack(n, 8) == Pack(n % WORD, 4) + Pack(n / WORD, 4)
  {
    PackEight(n);
    PackQuarter(n % WORD);
    PackQuarter(n / WORD);
    Digits(n);
  }

  lemma PackQuarter(n: nat)
    ensures Pack(n, 4) == [n % 256, n / 256 % 256, n / 256 / 256 % 256, n / 256 / 256 / 256 % 256]
  {
    assert Pack(n, 4) == [n % 256] + Pack(n / 256, 3);
    assert Pack(n / 256, 3) == [n / 256 % 256] + Pack(n / 256 / 256, 2);
    assert Pack(n / 256 / 256, 2) == [n / 256 / 256 % 256] + Pack(n / 256 / 256 / 256, 1);
    assert Pack(n / 256 / 256 / 256, 1) == [n / 256 / 256 / 256 % 256] + Pack(n / 256 / 256 / 256 / 256, 0);
  }

  lemma PackEight(n: nat)
    ensures Pack(n, 8) == Pack(n, 4) + Pack(n / 256 / 256 / 256 / 256, 4)
  {
    hide Pack;
    PackMore(n, 7);
    PackMore(n / 256, 6);
    PackMore(n / 256 / 256, 5);
    PackMore(n / 256 / 256 / 256, 4);
    PackQuarter(n);
    FourInFront(n % 256, n / 256 % 256, n / 256 / 256 % 256, n / 256 / 256 / 256 % 256, Pack(n / 256 / 256 / 256 / 256, 4));
  }

  lemma FourInFront<T>(a: T, b: T, c: T, d: T, rest: seq<T>)
    ensures [a] + ([b] + ([c] + ([d] + rest))) == [a, b, c, d] + rest
  {
  }

  lemma PackMore(n: nat, k: nat)
    ensures Pack(n, k + 1) == [n % 256] + Pack(n / 256, k)
  {
  }

  /** The low four digits of a number are those of its low word, and the others those of its high word. */
  lemma Digits(n: nat)
    ensures n / 256 / 256 / 256 / 256 == n / WORD
    ensures Pack(n, 4) == Pack(n % WORD, 4)
  {
    hide Pack;
    PackQuarter(n);
    PackQuarter(n % WORD);
    DigitsOf(n, n % WORD, n / WORD);
  }

  lemma DigitsOf(n: nat, m: nat, q: nat)
    requires n == m + WORD * q && m < WORD
    ensures n / 256 / 256 / 256 / 256 == q && n % 256 == m % 256 && n / 256 % 256 == m / 256 % 256
    ensures n / 256 / 256 % 256 == m / 256 / 256 % 256 && n / 256 / 256 / 256 % 256 == m / 256 / 256 / 256 % 256
  {
    Drop(n, m, 0x100_0000 * q);
    Drop(n / 256, m / 256, 0x1_0000 * q);
    Drop(n / 256 / 256, m / 256 / 256, 0x100 * q);
    Drop(n / 256 / 256 / 256, m / 256 / 256 / 256, q);
    assert m / 256 < 0x100_0000;
    assert m / 256 / 256 < 0x1_0000;
    assert m / 256 / 256 / 256 < 0x100;
  }

  lemma Drop(n: nat, m: nat, q: nat)
    requires n == m + 256 * q
    ensures n % 256 == m % 256 && n / 256 == m / 256 + q
  {
  }

  lemma {:induction false} OffSumConcat(a: seq<Octet>, b: seq<Octet>, j: nat, sum: nat)
    ensures OffSum(a + b, j, sum) == OffSum(b, j + |a|, OffSum(a, j, sum))
    decreases |a|
  {
    hide ShiftedInt;
    if a == [] {
      assert a + b == b;
    } else {
      assert (a + b)[0] == a[0] && (a + b)[1..] == a[1..] + b;
      OffSumConcat(a[1..], b, j + 1, (sum + ShiftedInt(a[0], j)) % DOUBLE);
    }
  }

  /** Four bytes of a word add the word as a signed int. */
  lemma HalfSum(v: nat, j: nat, sum: nat)
    requires v < WORD && j % 4 == 0 && sum < DOUBLE
    ensures OffSum(Pack(v, 4), j, sum) == (sum + SignedInt(v)) % DOUBLE
  {
    hide *;
    PackQuarter(v);
    HalfSumOf(v, v % 256, v / 256 % 256, v / 256 / 256 % 256, v / 256 / 256 / 256 % 256, j, sum);
  }

  lemma HalfSumOf(v: nat, b0: Octet, b1: Octet, b2: Octet, b3: Octet, j: nat, sum: nat)
    requires v < WORD && b0 == v % 256 && b1 == v / 256 % 256 && b2 == v / 256 / 256 % 256 && b3 == v / 256 / 256 / 256 % 256
    requires j % 4 == 0
    ensures OffSum([b0, b1, b2, b3], j, sum) == (sum + SignedInt(v)) % DOUBLE
  {
    hide *;
    Word(v, b0, b1, b2, b3);
    FourOctets(b0, b1, b2, b3, j, sum);
  }

  lemma FourOctets(b0: Octet, b1: Octet, b2: Octet, b3: Octet, j: nat, sum: nat)
    requires j % 4 == 0
    ensures OffSum([b0, b1, b2, b3], j, sum)
            == (sum + (b0 + 256 * b1 + 0x1_0000 * b2 + SignedInt(0x100_0000 * b3))) % DOUBLE
  {
    hide *;
    Shifts(b0, b1, b2, b3, j);
    Unfold(b0, b1, b2, b3, j, sum);
    FourAdded(sum, b0, 256 * b1, 0x1_0000 * b2, SignedInt(0x100_0000 * b3));
  }

  lemma FourAdded(sum: int, x0: int, x1: int, x2: int, x3: int)
    ensures ((((sum + x0) % DOUBLE + x1) % DOUBLE + x2) % DOUBLE + x3) % DOUBLE == (sum + (x0 + x1 + x2 + x3)) % DOUBLE
  {
    ModAdd(sum + x0, x1);
    ModAdd(sum + x0 + x1, x2);
    ModAdd(sum + x0 + x1 + x2, x3);
  }

  lemma Word(v: nat, b0: Octet, b1: Octet, b2: Octet, b3: Octet)
    requires v < WORD && b0 == v % 256 && b1 == v / 256 % 256 && b2 == v / 256 / 256 % 256 && b3 == v / 256 / 256 / 256 % 256
    ensures b0 + 256 * b1 + 0x1_0000 * b2 + SignedInt(0x100_0000 * b3) == SignedInt(v)
  {
    assert v == b0 + 256 * (v / 256);
    assert v / 256 == b1 + 256 * (v / 256 / 256);
    assert v / 256 / 256 == b2 + 256 * (v / 256 / 256 / 256);
  }

  lemma Shifts(b0: Octet, b1: Octet, b2: Octet, b3: Octet, j: nat)
    requires j % 4 == 0
    ensures ShiftedInt(b0, j) == b0 && ShiftedInt(b1, j + 1) == 256 * b1 && ShiftedInt(b2, j + 2) == 0x1_0000 * b2
    ensures ShiftedInt(b3, j + 3) == SignedInt(0x100_0000 * b3)
  {
    assert (j + 1) % 4 == 1 && (j + 2) % 4 == 2 && (j + 3) % 4 == 3;
    assert Pow256(0) == 1 && Pow256(1) == 256 && Pow256(2) == 0x1_0000 && Pow256(3) == 0x100_0000;
  }

  lemma Unfold(b0: Octet, b1: Octet, b2: Octet, b3: Octet, j: nat, sum: nat)
    requires ShiftedInt(b0, j) == b0 && ShiftedInt(b1, j + 1) == 256 * b1 && ShiftedInt(b2, j + 2) == 0x1_0000 * b2
    ensures OffSum([b0, b1, b2, b3], j, sum)
            == ((((sum + b0) % DOUBLE + 256 * b1) % DOUBLE + 0x1_0000 * b2) % DOUBLE + ShiftedInt(b3, j + 3)) % DOUBLE
  {
    hide ShiftedInt;
    var s := [b0, b1, b2, b3];
    assert s[1..] == [b1, b2, b3];
    assert [b1, b2, b3][1..] == [b2, b3];
    assert [b2, b3][1..] == [b3];
    assert [b3][1..] == [];
    assert OffSum([b3], j + 3, (((sum + b0) % DOUBLE + 256 * b1) % DOUBLE + 0x1_0000 * b2) % DOUBLE)
           == ((((sum + b0) % DOUBLE + 256 * b1) % DOUBLE + 0x1_0000 * b2) % DOUBLE + ShiftedInt(b3, j + 3)) % DOUBLE;
    assert OffSum([b2, b3], j + 2, ((sum + b0) % DOUBLE + 256 * b1) % DOUBLE)
           == OffSum([b3], j + 3, (((sum + b0) % DOUBLE + 256 * b1) % DOUBLE + 0x1_0000 * b2) % DOUBLE);
  }

  lemma ModAdd(a: int, b: int)
    ensures (a % DOUBLE + b) % DOUBLE == (a + b) % DOUBLE
  {
  }

  /** A size that fits eight bytes comes back if and only if it is below 2^31: at that bit the lower int turns negative,
      and what the upper four bytes add never makes up for it. */
  lemma OffBackIff(n: nat, rest: seq<Octet>)
    requires n < DOUBLE
    ensures UnpackOff(Pack(n, 8) + rest) == Ok(n, rest) <==> n < 0x8000_0000
  {
    hide OffLoaded, UnpackOff, Pack;
    OffBack(n, rest);
    OffLoadedForm(n);
    HalvesBackIff(n % WORD, n / WORD);
  }

  lemma HalvesBackIff(low: nat, high: nat)
    requires low < WORD && high < WORD
    ensures (SignedInt(low) + SignedInt(high)) % DOUBLE == high * WORD + low <==> high == 0 && low < 0x8000_0000
  {
  }

  lemma TextBack(s: Text, rest: seq<Octet>)
    requires TextFits(s)
    ensures UnpackText(PackText(s) + rest) == Ok(s, rest)
  {
    assert PackText(s) + rest == Pack(|s|, 4) + (s + rest);
    IntBack(|s|, s + rest);
    assert (s + rest)[..|s|] == s && (s + rest)[|s|..] == rest;
  }

  lemma {:induction false} NumbersBack(ns: seq<nat>, rest: seq<Octet>)
    requires forall i :: 0 <= i < |ns| ==> ns[i] < WORD
    ensures UnpackNumbers(PackNumbers(ns) + rest, |ns|) == Ok(ns, rest)
    decreases |ns|
  {
    if ns == [] {
      assert PackNumbers(ns) + rest == rest;
    } else {
      var tail := PackNumbers(ns[1..]) + rest;
      assert PackNumbers(ns) + rest == Pack(ns[0], 4) + tail;
      IntBack(ns[0], tail);
      NumbersBack(ns[1..], rest);
      assert [ns[0]] + ns[1..] == ns;
    }
  }

  // ----- what is loaded of a saved tree

  function ReloadedFile(f: NamedFile): NamedFile {
    Entry(f.key, File(OffLoaded(f.value.size), f.value.extension, f.value.attributes))
  }

  function ReloadedFiles(fs: seq<NamedFile>): seq<NamedFile> {
    if fs == [] then [] else [ReloadedFile(fs[0])] + ReloadedFiles(fs[1..])
  }

  /** The tree with the sizes and times that are loaded. */
  function Reloaded(t: Tree): Tree
    decreases t
  {
    Tree(t.path, t.mtime % WORD, ReloadedFolders(t.folders), ReloadedFiles(t.files))
  }

  function ReloadedFolders(fs: seq<Child>): seq<Child>
    decreases fs
  {
    if fs == [] then [] else [Entry(fs[0].key, Reloaded(fs[0].value))] + ReloadedFolders(fs[1..])
  }

  lemma FileBack(f: NamedFile, rest: seq<Octet>)
    requires FileFits(f)
    ensures UnpackFile(PackFile(f) + rest) == Ok(ReloadedFile(f), rest)
  {
    hide PackText, Pack, PackNumbers, UnpackText, UnpackInt, UnpackOff, UnpackNumbers, OffLoaded;
    var r4 := PackNumbers(f.value.attributes) + rest;
    var r3 := Pack(|f.value.attributes|, 4) + r4;
    var r2 := PackText(f.value.extension) + r3;
    var r1 := Pack(f.value.size, 8) + r2;
    assert PackFile(f) + rest == PackText(f.key) + r1;
    TextBack(f.key, r1);
    OffBack(f.value.size, r2);
    TextBack(f.value.extension, r3);
    IntBack(|f.value.attributes|, r4);
    NumbersBack(f.value.attributes, rest);
  }

  /** Entries with the keys of a sorted rest go behind what is there. */
  lemma PutBehind<V>(done: seq<Entry<V>>, fs: seq<Entry<V>>, e: Entry<V>)
    requires fs != [] && Sorted(done + fs) && e.key == fs[0].key
    ensures Put(done, e.key, e.value) == done + [e] && Sorted((done + [e]) + fs[1..])
  {
    hide Less, Put;
    var all := done + fs;
    assert all[|done|] == fs[0];
    assert forall i :: 0 <= i < |done| ==> all[i] == done[i];
    PutLast(done, e.key, e.value);
    var next := (done + [e]) + fs[1..];
    assert |next| == |all| && forall i :: 0 <= i < |all| ==> next[i].key == all[i].key;
  }

  lemma {:induction false} FilesBack(done: seq<NamedFile>, fs: seq<NamedFile>, rest: seq<Octet>)
    requires Sorted(done + fs) && forall i :: 0 <= i < |fs| ==> FileFits(fs[i])
    ensures UnpackFiles(PackFiles(fs) + rest, |fs|, done) == Ok(done + ReloadedFiles(fs), rest)
    decreases |fs|
  {
    hide PackFile, UnpackFile, FileFits, Put, Sorted, OffLoaded;
    if fs == [] {
      assert PackFiles(fs) + rest == rest && done + ReloadedFiles(fs) == done;
    } else {
      var f := ReloadedFile(fs[0]);
      var tail := PackFiles(fs[1..]) + rest;
      assert PackFiles(fs) + rest == PackFile(fs[0]) + tail;
      FileBack(fs[0], tail);
      PutBehind(done, fs, f);
      FilesBack(done + [f], fs[1..], rest);
      assert done + ReloadedFiles(fs) == (done + [f]) + ReloadedFiles(fs[1..]);
    }
  }

  lemma {:induction false} FoldersBack(done: seq<Child>, fs: seq<Child>, rest: seq<Octet>)
    requires Sorted(done + fs) && FoldersFit(fs)
    ensures UnpackFolders(PackFolders(fs) + rest, |fs|, done) == Ok(done + ReloadedFolders(fs), rest)
    decreases fs
  {
    hide *;
    if fs == [] {
      NoFoldersBack(done, rest);
    } else {
      var c := Entry(fs[0].key, Reloaded(fs[0].value));
      var tail := PackFolders(fs[1..]) + rest;
      FirstFolder(fs, rest);
      TreeReloads(fs[0].value, tail);
      FolderUnpacked(PackTree(fs[0].value) + tail, |fs| - 1, done, c.value, tail);
      PutBehind(done, fs, c);
      FoldersBack(done + [c], fs[1..], rest);
      assert done + ([c] + ReloadedFolders(fs[1..])) == (done + [c]) + ReloadedFolders(fs[1..]);
    }
  }

  lemma NoFoldersBack(done: seq<Child>, rest: seq<Octet>)
    ensures UnpackFolders(PackFolders([]) + rest, 0, done) == Ok(done + ReloadedFolders([]), rest)
  {
    assert PackFolders([]) + rest == rest && done + ReloadedFolders([]) == done;
  }

  lemma FirstFolder(fs: seq<Child>, rest: seq<Octet>)
    requires fs != [] && FoldersFit(fs)
    ensures PackFolders(fs) + rest == PackTree(fs[0].value) + (PackFolders(fs[1..]) + rest)
    ensures ReloadedFolders(fs) == [Entry(fs[0].key, Reloaded(fs[0].value))] + ReloadedFolders(fs[1..])
    ensures TreeFits(fs[0].value) && FoldersFit(fs[1..]) && Reloaded(fs[0].value).path == fs[0].key
  {
    hide PackTree, TreeFits;
  }

  lemma FolderUnpacked(data: seq<Octet>, n: nat, done: seq<Child>, t: Tree, rest: seq<Octet>)
    requires UnpackTree(data) == Ok(t, rest)
    ensures UnpackFolders(data, n + 1, done) == UnpackFolders(rest, n, Put(done, t.path, t))
  {
    hide UnpackTree, Put;
  }

  /** A saved tree is loaded with the sizes and times that come back, and exactly what followed it is left. */
  lemma {:induction false} TreeReloads(t: Tree, rest: seq<Octet>)
    requires TreeFits(t)
    ensures UnpackTree(PackTree(t) + rest) == Ok(Reloaded(t), rest)
    decreases t
  {
    hide PackText, Pack, PackFiles, PackFolders, UnpackText, UnpackInt, UnpackFiles, UnpackFolders, FoldersFit,
         ReloadedFiles, ReloadedFolders;
    var r5 := PackFiles(t.files) + rest;
    var r4 := Pack(|t.files|, 4) + r5;
    var r3 := PackFolders(t.folders) + r4;
    var r2 := Pack(|t.folders|, 4) + r3;
    var r1 := Pack(t.mtime, 4) + r2;
    assert PackTree(t) + rest == PackText(t.path) + r1;
    TextBack(t.path, r1);
    Digits(t.mtime);
    IntBack(t.mtime % WORD, r2);
    IntBack(|t.folders|, r3);
    assert [] + t.folders == t.folders;
    FoldersBack([], t.folders, r4);
    assert [] + ReloadedFolders(t.folders) == ReloadedFolders(t.folders);
    IntBack(|t.files|, r5);
    assert [] + t.files == t.files;
    FilesBack([], t.files, rest);
    assert [] + ReloadedFiles(t.files) == ReloadedFiles(t.files);
  }

  // ----- which trees come back

  /** Sizes below 2^31 and times below 2^32, in all folders. */
  predicate Small(t: Tree)
    decreases t
  {
    t.mtime < WORD && AllSmall(t.folders) && forall i :: 0 <= i < |t.files| ==> t.files[i].value.size < 0x8000_0000
  }

  predicate AllSmall(fs: seq<Child>)
    decreases fs
  {
    fs == [] || (Small(fs[0].value) && AllSmall(fs[1..]))
  }

  lemma OffSameIff(n: nat)
    requires n < DOUBLE
    ensures OffLoaded(n) == n <==> n < 0x8000_0000
  {
    hide OffLoaded, UnpackOff, Pack;
    OffBack(n, []);
    OffBackIff(n, []);
  }

  lemma {:induction false} FilesSameIff(fs: seq<NamedFile>)
    requires forall i :: 0 <= i < |fs| ==> FileFits(fs[i])
    ensures ReloadedFiles(fs) == fs <==> forall i :: 0 <= i < |fs| ==> fs[i].value.size < 0x8000_0000
  {
    hide OffLoaded;
    if fs != [] {
      OffSameIff(fs[0].value.size);
      FilesSameIff(fs[1..]);
      assert fs == [fs[0]] + fs[1..];
      assert forall i :: 0 < i < |fs| ==> fs[i] == fs[1..][i - 1];
      SameStep(ReloadedFile(fs[0]), ReloadedFiles(fs[1..]), fs);
    }
  }

  lemma SameStep<V>(e: V, rest: seq<V>, fs: seq<V>)
    requires fs != []
    ensures [e] + rest == fs <==> e == fs[0] && rest == fs[1..]
  {
    assert ([e] + rest)[1..] == rest && fs == [fs[0]] + fs[1..];
  }

  lemma {:induction false} TreeSameIff(t: Tree)
    requires TreeFits(t)
    ensures Reloaded(t) == t <==> Small(t)
    decreases t
  {
    hide FileFits, Sorted, ReloadedFiles, ReloadedFolders, AllSmall, FoldersFit;
    FilesSameIff(t.files);
    FoldersSameIff(t.folders);
  }

  lemma {:induction false} FoldersSameIff(fs: seq<Child>)
    requires FoldersFit(fs)
    ensures ReloadedFolders(fs) == fs <==> AllSmall(fs)
    decreases fs
  {
    hide TreeFits, Reloaded, Small;
    if fs != [] {
      TreeSameIff(fs[0].value);
      FoldersSameIff(fs[1..]);
      SameStep(Entry(fs[0].key, Reloaded(fs[0].value)), ReloadedFolders(fs[1..]), fs);
    }
  }

  /** A tree is loaded as it was saved if and only if all its sizes are below 2^31 and its times below 2^32. */
  lemma TreeBackIff(t: Tree, rest: seq<Octet>)
    requires TreeFits(t)
    ensures UnpackTree(PackTree(t) + rest) == Ok(t, rest) <==> Small(t)
  {
    hide UnpackTree, PackTree, TreeFits, Reloaded, Small;
    TreeReloads(t, rest);
    TreeSameIff(t);
  }
}
