/** The nested lists of files in messages between peers: how they are made and how they are parsed, from any bytes. */
module PeerMessages {
  import opened FileEntries
  import opened KeyMaps
  import opened Octets
  import opened Widths

  type Folder = seq<Entry<File>>
  type Shares = seq<Entry<Folder>>
  type Folders = seq<Entry<Shares>>

  // ----- single values

  datatype Taken<T> = Taken(value: T, rest: seq<Octet>)

  /** Too few bytes give 0, and stay. */
  function TakeNumber(data: seq<Octet>, k: nat): (t: Taken<nat>)
    ensures |data| >= k ==> |t.rest| + k == |data|
    ensures |t.rest| <= |data|
  {
    if |data| < k then Taken(0, data) else Taken(Unpack(data[..k]), data[k..])
  }

  function TakeChar(data: seq<Octet>): (t: Taken<nat>)
    ensures data != [] ==> |t.rest| + 1 == |data|
    ensures |t.rest| <= |data|
  {
    TakeNumber(data, 1)
  }

  /** A text that is not all there is left out, but its length has been taken. */
  function TakeText(data: seq<Octet>): (t: Taken<Text>)
    ensures |data| >= 4 ==> |t.rest| + 4 <= |data|
    ensures |t.rest| <= |data|
  {
    if |data| < 4 then Taken([], data)
    else
      var l := TakeNumber(data, 4);
      if |l.rest| < l.value then Taken([], l.rest) else Taken(l.rest[..l.value], l.rest[l.value..])
  }

  const SLASH: Octet := '/' as int
  const BACKSLASH: Octet := '\\' as int

  /** The path as the network writes it. */
  function Backslashed(s: Text): (r: Text)
    ensures |r| == |s|
  {
    seq(|s|, i requires 0 <= i < |s| => if s[i] == SLASH then BACKSLASH else s[i])
  }

  // ----- lists

  /** What a loop of the parser has gathered, what it leaves, how many passes it still wants and how many all loops have made. */
  datatype Parsed<T> = Parsed(value: T, rest: seq<Octet>, wanted: nat, passes: nat)

  function ParseAttributes(data: seq<Octet>, q: nat, done: seq<nat>): (p: Parsed<seq<nat>>)
    ensures p.passes + |p.rest| <= |data| && p.wanted <= q
    decreases q
  {
    if q == 0 || |data| < 4 then Parsed(done, data, q, 0)
    else
      var number := TakeNumber(data, 4);
      var value := TakeNumber(number.rest, 4);
      var p := ParseAttributes(value.rest, q - 1, done + [value.value]);
      p.(passes := p.passes + 1)
  }

  /** One file: a character, its name, its size in so many bytes, its extension and its attributes. */
  function ParseFile(data: seq<Octet>, sizeBytes: nat): (p: Parsed<Entry<File>>)
    requires data != []
    ensures p.passes + |p.rest| < |data|
  {
    var name := TakeText(TakeChar(data).rest);
    var size := TakeNumber(name.rest, sizeBytes);
    var ext := TakeText(size.rest);
    var q := TakeNumber(ext.rest, 4);
    var attrs := ParseAttributes(q.rest, q.value, []);
    Parsed(Entry(name.value, File(size.value, ext.value, attrs.value)), attrs.rest, 0, attrs.passes)
  }

  function ParseFiles(data: seq<Octet>, n: nat, sizeBytes: nat, done: Folder): (p: Parsed<Folder>)
    ensures p.passes + |p.rest| <= |data| && p.wanted <= n
    decreases n
  {
    if n == 0 || data == [] then Parsed(done, data, n, 0)
    else
      var f := ParseFile(data, sizeBytes);
      var p := ParseFiles(f.rest, n - 1, sizeBytes, Put(done, f.value.key, f.value.value));
      p.(passes := p.passes + f.passes + 1)
  }

  /** The directories of one folder, each of them cleared before its files are put in. */
  function ParseDirs(data: seq<Octet>, o: nat, done: Shares): (p: Parsed<Shares>)
    ensures p.passes + |p.rest| <= |data| && p.wanted <= o
    decreases o
  {
    if o == 0 || |data| < 4 then Parsed(done, data, o, 0)
    else
      var dir := TakeText(data);
      var n := TakeNumber(dir.rest, 4);
      var files := ParseFiles(n.rest, n.value, 8, []);
      var p := ParseDirs(files.rest, o - 1, Put(done, dir.value, files.value));
      p.(passes := p.passes + files.passes + 1)
  }

  /** What the folders so far hold under a name; a folder is there once a directory has been put into it. */
  function Under(m: Folders, key: Text): Shares {
    if m == [] then [] else if m[0].key == key then m[0].value else Under(m[1..], key)
  }

  function PutDirs(m: Folders, key: Text, dirs: Shares): Folders {
    if dirs == [] then m else Put(m, key, dirs)
  }

  function ParseFolders(data: seq<Octet>, n: nat, done: Folders): (p: Parsed<Folders>)
    ensures p.passes + |p.rest| <= |data| && p.wanted <= n
    decreases n
  {
    if n == 0 || |data| < 4 then Parsed(done, data, n, 0)
    else
      var folder := TakeText(data);
      var o := TakeNumber(folder.rest, 4);
      var dirs := ParseDirs(o.rest, o.value, Under(done, folder.value));
      var p := ParseFolders(dirs.rest, n - 1, PutDirs(done, folder.value, dirs.value));
      p.(passes := p.passes + dirs.passes + 1)
  }

  // ----- making

  /** Attributes are numbered from j on. */
  function PackAttributes(attrs: seq<nat>, j: nat): seq<Octet>
    decreases |attrs|
  {
    if attrs == [] then [] else Pack(j, 4) + Pack(attrs[0], 4) + PackAttributes(attrs[1..], j + 1)
  }

  /** One file, its size in so many bytes. */
  function PackFileIn(name: Text, f: File, sizeBytes: nat): seq<Octet> {
    [1] + PackText(name) + Pack(f.size, sizeBytes) + PackText(f.extension) + Pack(|f.attributes|, 4)
    + PackAttributes(f.attributes, 0)
  }

  function PackFile(name: Text, f: File): seq<Octet> {
    PackFileIn(name, f, 8)
  }

  /** Files as some clients send them, with sizes in four bytes. */
  function PackFilesShort(fs: Folder): seq<Octet> {
    if fs == [] then [] else PackFileIn(fs[0].key, fs[0].value, 4) + PackFilesShort(fs[1..])
  }

  function PackFiles(fs: Folder): seq<Octet> {
    if fs == [] then [] else PackFile(fs[0].key, fs[0].value) + PackFiles(fs[1..])
  }

  /** The map under the names that the network writes. */
  function Translated<V>(m: seq<Entry<V>>): (r: seq<Entry<V>>)
    ensures |r| == |m|
  {
    seq(|m|, i requires 0 <= i < |m| => Entry(Backslashed(m[i].key), m[i].value))
  }

  function PackDirs(ds: Shares): seq<Octet> {
    if ds == [] then []
    else PackText(Backslashed(ds[0].key)) + Pack(|ds[0].value|, 4) + PackFiles(ds[0].value) + PackDirs(ds[1..])
  }

  function PackFolders(fs: Folders): seq<Octet> {
    if fs == [] then []
    else PackText(fs[0].key) + Pack(|fs[0].value|, 4) + PackDirs(fs[0].value) + PackFolders(fs[1..])
  }

  function MakeFolderReply(fs: Folders): seq<Octet> {
    Pack(|fs|, 4) + PackFolders(fs)
  }

  function ParseFolderReply(data: seq<Octet>): Parsed<Folders> {
    var n := TakeNumber(data, 4);
    ParseFolders(n.rest, n.value, [])
  }

  datatype SearchReply = SearchReply(user: Text, ticket: nat, results: Folder, slotFree: bool, avgSpeed: nat, queueLength: nat)

  function MakeSearchReply(r: SearchReply): seq<Octet> {
    PackText(r.user) + Pack(r.ticket, 4) + Pack(|r.results|, 4) + PackFiles(Translated(r.results))
    + [if r.slotFree then 1 else 0] + Pack(r.avgSpeed, 4) + Pack(r.queueLength, 8)
  }

  /** The values behind the files; some clients send the length of their queue in four bytes. */
  function ParseEnd(user: Text, ticket: nat, results: Folder, data: seq<Octet>): SearchReply {
    var free := TakeChar(data);
    var speed := TakeNumber(free.rest, 4);
    var queue := if |speed.rest| >= 8 then TakeNumber(speed.rest, 8) else TakeNumber(speed.rest, 4);
    SearchReply(user, ticket, results, free.value != 0, speed.value, queue.value)
  }

  /** A message that runs out of bytes before its files is parsed again with sizes in four bytes. */
  function ParseSearchReply(data: seq<Octet>): Parsed<SearchReply> {
    var user := TakeText(data);
    var ticket := TakeNumber(user.rest, 4);
    var n := TakeNumber(ticket.rest, 4);
    var files := ParseFiles(n.rest, n.value, 8, []);
    if files.wanted == 0 then
      Parsed(ParseEnd(user.value, ticket.value, files.value, files.rest), files.rest, 0, files.passes)
    else
      var again := ParseFiles(n.rest, n.value, 4, []);
      Parsed(ParseEnd(user.value, ticket.value, again.value, again.rest), again.rest, files.wanted, files.passes + again.passes)
  }

  /** A list of shared directories, as the store of shares writes it. */
  function MakeSharesReply(ds: Shares): seq<Octet> {
    Pack(|ds|, 4) + PackDirs(ds)
  }

  /** A list of shared directories, as it comes from other clients. */
  function ParseSharesReply(data: seq<Octet>): Parsed<Shares> {
    var n := TakeNumber(data, 4);
    ParseDirs(n.rest, n.value, [])
  }

  // ----- whatever a message claims

  /** All loops over a list of folders together make no more passes than the message has bytes. */
  lemma FolderReplyBounded(data: seq<Octet>)
    ensures ParseFolderReply(data).passes <= |data|
  {
  }

  /** So do those over shares, and those of each of the two parses of a search reply. */
  lemma OtherRepliesBounded(data: seq<Octet>)
    ensures ParseSharesReply(data).passes <= |data| && ParseSearchReply(data).passes <= 2 * |data|
    ensures ParseSearchReply(data).wanted == 0 ==> ParseSearchReply(data).passes <= |data|
  {
  }

  // ----- where a loop stops short

  /** A loop over attributes stops before its count is up only where fewer than four bytes are left. */
  lemma {:induction false} AttributesStop(data: seq<Octet>, q: nat, done: seq<nat>)
    ensures var p := ParseAttributes(data, q, done);
            (p.wanted > 0 ==> |p.rest| < 4) && p.passes == q - p.wanted && |p.value| == |done| + p.passes
    decreases q
  {
    hide TakeNumber;
    if q != 0 && |data| >= 4 {
      var number := TakeNumber(data, 4);
      var value := TakeNumber(number.rest, 4);
      AttributesStop(value.rest, q - 1, done + [value.value]);
    }
  }

  /** A loop over files stops before its count is up only where no byte is left. */
  lemma {:induction false} FilesStop(data: seq<Octet>, n: nat, sizeBytes: nat, done: Folder)
    ensures var p := ParseFiles(data, n, sizeBytes, done); (p.wanted > 0 ==> p.rest == []) && p.passes >= n - p.wanted
    decreases n
  {
    hide ParseFile, Put;
    if n != 0 && data != [] {
      var f := ParseFile(data, sizeBytes);
      FilesStop(f.rest, n - 1, sizeBytes, Put(done, f.value.key, f.value.value));
    }
  }

  /** Those over directories and folders stop so where fewer than four bytes are left. */
  lemma {:induction false} DirsStop(data: seq<Octet>, o: nat, done: Shares)
    ensures var p := ParseDirs(data, o, done); (p.wanted > 0 ==> |p.rest| < 4) && p.passes >= o - p.wanted
    decreases o
  {
    hide TakeNumber, TakeText, ParseFiles, Put;
    if o != 0 && |data| >= 4 {
      var dir := TakeText(data);
      var n := TakeNumber(dir.rest, 4);
      var files := ParseFiles(n.rest, n.value, 8, []);
      DirsStop(files.rest, o - 1, Put(done, dir.value, files.value));
    }
  }

  lemma {:induction false} FoldersStop(data: seq<Octet>, n: nat, done: Folders)
    ensures var p := ParseFolders(data, n, done); (p.wanted > 0 ==> |p.rest| < 4) && p.passes >= n - p.wanted
    decreases n
  {
    hide TakeNumber, TakeText, ParseDirs, PutDirs, Under;
    if n != 0 && |data| >= 4 {
      var folder := TakeText(data);
      var o := TakeNumber(folder.rest, 4);
      var dirs := ParseDirs(o.rest, o.value, Under(done, folder.value));
      FoldersStop(dirs.rest, n - 1, PutDirs(done, folder.value, dirs.value));
    }
  }

  // ----- made messages come back

  predicate FileFits(f: File) {
    && f.size < DOUBLE && TextFits(f.extension) && |f.attributes| < WORD
    && forall i :: 0 <= i < |f.attributes| ==> f.attributes[i] < WORD
  }

  predicate FolderFits(fs: Folder) {
    |fs| < WORD && forall i :: 0 <= i < |fs| ==> TextFits(fs[i].key) && FileFits(fs[i].value)
  }

  predicate SharesFit(ds: Shares) {
    && |ds| < WORD && Sorted(ds)
    && forall i :: 0 <= i < |ds| ==> TextFits(ds[i].key) && FolderFits(ds[i].value) && Sorted(ds[i].value)
  }

  predicate FoldersFit(fs: Folders) {
    && |fs| < WORD && Sorted(fs)
    && forall i :: 0 <= i < |fs| ==> TextFits(fs[i].key) && SharesFit(fs[i].value)
  }

  lemma NumberBack(n: nat, k: nat, rest: seq<Octet>)
    requires n < Pow256(k)
    ensures TakeNumber(Pack(n, k) + rest, k) == Taken(n, rest)
  {
    UnpackPack(n, k);
    assert (Pack(n, k) + rest)[..k] == Pack(n, k) && (Pack(n, k) + rest)[k..] == rest;
  }

  lemma WordBack(n: nat, rest: seq<Octet>)
    requires n < WORD
    ensures TakeNumber(Pack(n, 4) + rest, 4) == Taken(n, rest)
  {
    Powers();
    NumberBack(n, 4, rest);
  }

  lemma CharBack(n: Octet, rest: seq<Octet>)
    ensures TakeChar([n] + rest) == Taken(n, rest)
  {
    Powers();
    assert Pack(n, 1) == [n % 256] + Pack(n / 256, 0) == [n];
    NumberBack(n, 1, rest);
  }

  lemma TextBack(s: Text, rest: seq<Octet>)
    requires TextFits(s)
    ensures TakeText(PackText(s) + rest) == Taken(s, rest)
  {
    hide Pack, TakeNumber;
    assert PackText(s) + rest == Pack(|s|, 4) + (s + rest);
    WordBack(|s|, s + rest);
    assert (s + rest)[..|s|] == s && (s + rest)[|s|..] == rest;
  }

  lemma {:induction false} AttributesBack(attrs: seq<nat>, j: nat, done: seq<nat>, rest: seq<Octet>)
    requires j + |attrs| <= WORD && forall i :: 0 <= i < |attrs| ==> attrs[i] < WORD
    ensures var p := ParseAttributes(PackAttributes(attrs, j) + rest, |attrs|, done);
            p.value == done + attrs && p.rest == rest && p.wanted == 0 && p.passes == |attrs|
    decreases |attrs|
  {
    hide Pack, TakeNumber;
    if attrs == [] {
      assert PackAttributes(attrs, j) + rest == rest && done + attrs == done;
    } else {
      var tail := PackAttributes(attrs[1..], j + 1) + rest;
      assert PackAttributes(attrs, j) + rest == Pack(j, 4) + (Pack(attrs[0], 4) + tail);
      WordBack(j, Pack(attrs[0], 4) + tail);
      WordBack(attrs[0], tail);
      AttributesBack(attrs[1..], j + 1, done + [attrs[0]], rest);
      assert done + attrs == (done + [attrs[0]]) + attrs[1..];
    }
  }

  /** The attributes are numbered in turn, and each number stands in front of its attribute. */
  lemma {:induction false} AttributesAt(attrs: seq<nat>, j: nat, k: nat)
    requires k < |attrs|
    ensures |PackAttributes(attrs, j)| == 8 * |attrs|
    ensures PackAttributes(attrs, j)[8 * k..8 * k + 4] == Pack(j + k, 4)
    ensures PackAttributes(attrs, j)[8 * k + 4..8 * k + 8] == Pack(attrs[k], 4)
    decreases |attrs|
  {
    hide Pack;
    var tail := PackAttributes(attrs[1..], j + 1);
    var all := Pack(j, 4) + Pack(attrs[0], 4) + tail;
    AttributesSize(attrs, j);
    if k > 0 {
      AttributesAt(attrs[1..], j + 1, k - 1);
      assert all[8 * k..8 * k + 4] == tail[8 * (k - 1)..8 * (k - 1) + 4];
      assert all[8 * k + 4..8 * k + 8] == tail[8 * (k - 1) + 4..8 * (k - 1) + 8];
    }
  }

  lemma {:induction false} AttributesSize(attrs: seq<nat>, j: nat)
    ensures |PackAttributes(attrs, j)| == 8 * |attrs|
    decreases |attrs|
  {
    hide Pack;
    if attrs != [] {
      AttributesSize(attrs[1..], j + 1);
    }
  }

  /** A file begins with a 1, and ends with its attributes numbered from 0. */
  lemma FileEnds(name: Text, f: File)
    ensures var bytes := PackFile(name, f);
            |bytes| > 8 * |f.attributes| && bytes[0] == 1
            && forall k :: 0 <= k < |f.attributes| ==>
                 bytes[|bytes| - 8 * (|f.attributes| - k)..][..8] == Pack(k, 4) + Pack(f.attributes[k], 4)
  {
    hide Pack, PackText, PackAttributes;
    var head := [1] + PackText(name) + Pack(f.size, 8) + PackText(f.extension) + Pack(|f.attributes|, 4);
    var tail := PackAttributes(f.attributes, 0);
    var bytes := PackFile(name, f);
    assert bytes == head + tail;
    AttributesSize(f.attributes, 0);
    forall k | 0 <= k < |f.attributes|
      ensures bytes[|bytes| - 8 * (|f.attributes| - k)..][..8] == Pack(k, 4) + Pack(f.attributes[k], 4)
    {
      AttributesAt(f.attributes, 0, k);
      Stretch(head, tail, 8 * k);
      assert |head| + 8 * k == |bytes| - 8 * (|f.attributes| - k);
    }
  }

  lemma Stretch(head: seq<Octet>, tail: seq<Octet>, from: nat)
    requires from + 8 <= |tail|
    ensures (head + tail)[|head| + from..][..8] == tail[from..from + 4] + tail[from + 4..from + 8]
  {
  }

  lemma FileBackIn(name: Text, f: File, sizeBytes: nat, rest: seq<Octet>)
    requires TextFits(name) && FileFits(f) && f.size < Pow256(sizeBytes)
    ensures PackFileIn(name, f, sizeBytes) + rest != []
    ensures var p := ParseFile(PackFileIn(name, f, sizeBytes) + rest, sizeBytes);
            p.value == Entry(name, f) && p.rest == rest && p.passes == |f.attributes|
  {
    hide Pack, PackText, PackAttributes, TakeNumber, TakeChar, TakeText, ParseAttributes;
    var r5 := PackAttributes(f.attributes, 0) + rest;
    var r4 := Pack(|f.attributes|, 4) + r5;
    var r3 := PackText(f.extension) + r4;
    var r2 := Pack(f.size, sizeBytes) + r3;
    var r1 := PackText(name) + r2;
    assert PackFileIn(name, f, sizeBytes) + rest == [1] + r1;
    CharBack(1, r1);
    TextBack(name, r2);
    NumberBack(f.size, sizeBytes, r3);
    TextBack(f.extension, r4);
    WordBack(|f.attributes|, r5);
    AttributesBack(f.attributes, 0, [], rest);
    assert [] + f.attributes == f.attributes;
  }

  lemma FileBack(name: Text, f: File, rest: seq<Octet>)
    requires TextFits(name) && FileFits(f)
    ensures PackFile(name, f) + rest != []
    ensures var p := ParseFile(PackFile(name, f) + rest, 8); p.value == Entry(name, f) && p.rest == rest && p.passes == |f.attributes|
  {
    hide PackFileIn, ParseFile;
    Powers();
    FileBackIn(name, f, 8, rest);
  }

  /** How many files and attributes there are. */
  function FilesWork(fs: Folder): nat {
    if fs == [] then 0 else 1 + |fs[0].value.attributes| + FilesWork(fs[1..])
  }

  function DirsWork(ds: Shares): nat {
    if ds == [] then 0 else 1 + FilesWork(ds[0].value) + DirsWork(ds[1..])
  }

  /** How many folders, directories, files and attributes there are. */
  function FoldersWork(fs: Folders): nat {
    if fs == [] then 0 else 1 + DirsWork(fs[0].value) + FoldersWork(fs[1..])
  }

  lemma {:induction false} FilesBack(fs: Folder, done: Folder, rest: seq<Octet>)
    requires FolderFits(fs)
    ensures var p := ParseFiles(PackFiles(fs) + rest, |fs|, 8, done);
            p.value == PutAll(done, fs) && p.rest == rest && p.wanted == 0 && p.passes == FilesWork(fs)
    decreases |fs|
  {
    hide PackFile, ParseFile, Put, TextFits, FileFits;
    if fs == [] {
      assert PackFiles(fs) + rest == rest;
    } else {
      var tail := PackFiles(fs[1..]) + rest;
      assert PackFiles(fs) + rest == PackFile(fs[0].key, fs[0].value) + tail;
      FileBack(fs[0].key, fs[0].value, tail);
      FilesBack(fs[1..], Put(done, fs[0].key, fs[0].value), rest);
    }
  }

  lemma {:induction false} DirsBack(ds: Shares, done: Shares, rest: seq<Octet>)
    requires |ds| < WORD
    requires forall i :: 0 <= i < |ds| ==> TextFits(ds[i].key) && FolderFits(ds[i].value) && Sorted(ds[i].value)
    ensures var p := ParseDirs(PackDirs(ds) + rest, |ds|, done);
            p.value == PutAll(done, Translated(ds)) && p.rest == rest && p.wanted == 0 && p.passes == DirsWork(ds)
    decreases |ds|
  {
    hide Pack, PackFiles, ParseFiles, Put, PackText, TakeText, TakeNumber, FolderFits, Sorted;
    if ds == [] {
      assert PackDirs(ds) + rest == rest;
    } else {
      var d := ds[0];
      var r3 := PackDirs(ds[1..]) + rest;
      var r2 := PackFiles(d.value) + r3;
      var r1 := Pack(|d.value|, 4) + r2;
      assert PackDirs(ds) + rest == PackText(Backslashed(d.key)) + r1;
      TextBack(Backslashed(d.key), r1);
      assert |d.value| < WORD by { FolderSize(d.value); }
      WordBack(|d.value|, r2);
      FilesBack(d.value, [], r3);
      assert [] + d.value == d.value;
      PutAllSorted([], d.value);
      assert Translated(ds)[1..] == Translated(ds[1..]);
      PackTextLength(Backslashed(d.key), r1);
      DirsBack(ds[1..], Put(done, Backslashed(d.key), d.value), rest);
    }
  }

  lemma FolderSize(fs: Folder)
    requires FolderFits(fs)
    ensures |fs| < WORD
  {
  }

  lemma PackTextLength(s: Text, rest: seq<Octet>)
    ensures |PackText(s) + rest| >= 4
  {
  }

  /** What a made list of folders comes back as: folders without directories are lost, and slashes have turned. */
  function Received(fs: Folders): Folders {
    if fs == [] then []
    else (if fs[0].value == [] then [] else [Entry(fs[0].key, PutAll([], Translated(fs[0].value)))]) + Received(fs[1..])
  }

  lemma {:induction false} UnderAbsent(m: Folders, key: Text)
    requires forall i :: 0 <= i < |m| ==> Less(m[i].key, key)
    ensures Under(m, key) == []
  {
    if m != [] {
      LessOneWay(m[0].key, key);
      UnderAbsent(m[1..], key);
    }
  }

  lemma {:induction false} PutAllSome<V>(done: seq<Entry<V>>, m: seq<Entry<V>>)
    ensures |PutAll(done, m)| >= |done| && (done != [] || m != [] ==> PutAll(done, m) != [])
    decreases |m|
  {
    if m != [] {
      PutGrows(done, m[0].key, m[0].value);
      PutAllSome(Put(done, m[0].key, m[0].value), m[1..]);
    }
  }

  lemma {:induction false} PutGrows<V>(m: seq<Entry<V>>, key: Text, value: V)
    ensures |Put(m, key, value)| >= |m| && Put(m, key, value) != []
  {
    if m != [] {
      PutGrows(m[1..], key, value);
    }
  }

  /** All keys so far stand before all that are still to come. */
  predicate Before(done: Folders, fs: Folders) {
    forall i, j :: 0 <= i < |done| && 0 <= j < |fs| ==> Less(done[i].key, fs[j].key)
  }

  lemma {:induction false} FoldersBack(fs: Folders, done: Folders, rest: seq<Octet>)
    requires FoldersFit(fs) && Before(done, fs)
    ensures var p := ParseFolders(PackFolders(fs) + rest, |fs|, done);
            p.value == done + Received(fs) && p.rest == rest && p.wanted == 0 && p.passes == FoldersWork(fs)
    decreases |fs|
  {
    hide Pack, PackDirs, ParseDirs, Put, PackText, TakeText, TakeNumber, SharesFit, Sorted, PutAll, Less, Under, PutDirs;
    if fs == [] {
      assert PackFolders(fs) + rest == rest && done + Received(fs) == done;
    } else {
      var f := fs[0];
      var r3 := PackFolders(fs[1..]) + rest;
      var r2 := PackDirs(f.value) + r3;
      var r1 := Pack(|f.value|, 4) + r2;
      assert PackFolders(fs) + rest == PackText(f.key) + r1;
      TextBack(f.key, r1);
      DirsBackIn(f, r2, r3);
      UnderAbsent(done, f.key);
      PackTextLength(f.key, r1);
      var dirs := PutAll([], Translated(f.value));
      var next := PutDirs(done, f.key, dirs);
      FolderPut(fs, done, dirs);
      RestFits(fs);
      FoldersBack(fs[1..], next, rest);
    }
  }

  lemma DirsBackIn(f: Entry<Shares>, r2: seq<Octet>, r3: seq<Octet>)
    requires SharesFit(f.value) && r2 == PackDirs(f.value) + r3
    ensures TakeNumber(Pack(|f.value|, 4) + r2, 4) == Taken(|f.value|, r2)
    ensures var p := ParseDirs(r2, |f.value|, []);
            p.value == PutAll([], Translated(f.value)) && p.rest == r3 && p.passes == DirsWork(f.value)
  {
    hide Pack, PackDirs, ParseDirs, TakeNumber, PutAll, FolderFits, Sorted;
    WordBack(|f.value|, r2);
    DirsBack(f.value, [], r3);
  }

  lemma RestFits(fs: Folders)
    requires fs != [] && FoldersFit(fs)
    ensures FoldersFit(fs[1..])
  {
    hide Less, SharesFit;
  }

  /** The next folder goes behind the others, if it has directories. */
  lemma FolderPut(fs: Folders, done: Folders, dirs: Shares)
    requires fs != [] && Before(done, fs) && Sorted(fs) && dirs == PutAll([], Translated(fs[0].value))
    ensures var next := PutDirs(done, fs[0].key, dirs);
            Before(next, fs[1..]) && next + Received(fs[1..]) == done + Received(fs)
  {
    hide Less, PutAll, Put, Before, Sorted, Received, Translated;
    PutAllSome([], Translated(fs[0].value));
    BeforeNext(fs, done, Entry(fs[0].key, dirs));
    ReceivedStep(fs, dirs);
    if fs[0].value == [] {
      NothingPut<Folder>();
    } else {
      BeforeFirst(fs, done);
      PutLast(done, fs[0].key, dirs);
      var e := Entry(fs[0].key, dirs);
      assert done + ([e] + Received(fs[1..])) == done + [e] + Received(fs[1..]);
    }
  }

  lemma ReceivedStep(fs: Folders, dirs: Shares)
    requires fs != [] && dirs == PutAll([], Translated(fs[0].value))
    ensures Translated(fs[0].value) == [] <==> fs[0].value == []
    ensures Received(fs) == if fs[0].value == [] then Received(fs[1..]) else [Entry(fs[0].key, dirs)] + Received(fs[1..])
  {
    hide Less, PutAll;
  }

  lemma BeforeFirst(fs: Folders, done: Folders)
    requires fs != [] && Before(done, fs)
    ensures forall i :: 0 <= i < |done| ==> Less(done[i].key, fs[0].key)
  {
    hide Less;
  }

  lemma BeforeNext(fs: Folders, done: Folders, e: Entry<Shares>)
    requires fs != [] && Before(done, fs) && Sorted(fs) && e.key == fs[0].key
    ensures Before(done, fs[1..]) && Before(done + [e], fs[1..])
  {
    hide Less;
  }

  lemma NothingPut<V>()
    ensures PutAll<V>([], Translated([])) == []
  {
  }

  lemma {:induction false} UnderPut(m: Folders, key: Text, dirs: Shares, other: Text)
    ensures Under(Put(m, key, dirs), other) == if other == key then dirs else Under(m, other)
  {
    hide Less;
    if m != [] && m[0].key != key && !Less(key, m[0].key) {
      UnderPut(m[1..], key, dirs, other);
    }
  }

  /** A folder with its directories, as a folder reply writes it. */
  function PackFolder(f: Entry<Shares>): seq<Octet> {
    PackText(f.key) + Pack(|f.value|, 4) + PackDirs(f.value)
  }

  /** The directories of a folder are added to those that the message has named under it before. */
  lemma FolderAdds(f: Entry<Shares>, n: nat, done: Folders, rest: seq<Octet>)
    requires TextFits(f.key) && SharesFit(f.value) && n > 0
    ensures var p := ParseFolders(PackFolder(f) + rest, n, done);
            var q := ParseFolders(rest, n - 1, PutDirs(done, f.key, PutAll(Under(done, f.key), Translated(f.value))));
            p.value == q.value && p.rest == q.rest && p.wanted == q.wanted
  {
    hide Pack, PackDirs, ParseDirs, Put, PackText, TakeText, TakeNumber, SharesFit, PutAll, Less, Under, PutDirs;
    var r2 := PackDirs(f.value) + rest;
    var r1 := Pack(|f.value|, 4) + r2;
    assert PackFolder(f) + rest == PackText(f.key) + r1;
    TextBack(f.key, r1);
    SharesBack(f.value, Under(done, f.key), rest);
    WordBack(|f.value|, r2);
    PackTextLength(f.key, r1);
  }

  lemma SharesBack(ds: Shares, done: Shares, rest: seq<Octet>)
    requires SharesFit(ds)
    ensures |ds| < WORD
    ensures var p := ParseDirs(PackDirs(ds) + rest, |ds|, done);
            p.value == PutAll(done, Translated(ds)) && p.rest == rest && p.wanted == 0
  {
    hide PackDirs, ParseDirs, PutAll, FolderFits, Sorted;
    DirsBack(ds, done, rest);
  }

  /** A folder that a message names twice has the directories of both places, the later ones in place of the earlier. */
  lemma FolderTwice(key: Text, a: Shares, b: Shares, rest: seq<Octet>, n: nat)
    requires TextFits(key) && SharesFit(a) && SharesFit(b) && a != [] && b != [] && n == 2
    ensures var p := ParseFolders(PackFolder(Entry(key, a)) + (PackFolder(Entry(key, b)) + rest), n, []);
            && p.value == [Entry(key, PutAll(PutAll([], Translated(a)), Translated(b)))]
            && p.rest == rest && p.wanted == 0
  {
    hide PackFolder, ParseFolders, SharesFit, PutAll, Translated, Less;
    var da := PutAll([], Translated(a));
    var db := PutAll(da, Translated(b));
    FolderAdds(Entry(key, a), n, [], PackFolder(Entry(key, b)) + rest);
    PutAllSome([], Translated(a));
    TwoPuts(key, da, db);
    FolderAdds(Entry(key, b), n - 1, [Entry(key, da)], rest);
    PutAllSome(da, Translated(b));
    NoneParsed(rest, [Entry(key, db)]);
  }

  lemma TwoPuts(key: Text, da: Shares, db: Shares)
    ensures Under([], key) == [] && Put([], key, da) == [Entry(key, da)]
    ensures Under([Entry(key, da)], key) == da && Put([Entry(key, da)], key, db) == [Entry(key, db)]
  {
  }

  lemma NoneParsed(data: seq<Octet>, done: Folders)
    ensures var p := ParseFolders(data, 0, done); p.value == done && p.rest == data && p.wanted == 0
  {
  }

  predicate NoSlash(t: Text) {
    SLASH !in t
  }

  predicate PlainKeys<V>(m: seq<Entry<V>>) {
    forall i :: 0 <= i < |m| ==> NoSlash(m[i].key)
  }

  lemma BackslashedPlain(t: Text)
    ensures NoSlash(Backslashed(t))
    ensures NoSlash(t) ==> Backslashed(t) == t
  {
  }

  lemma TranslatedPlain<V>(m: seq<Entry<V>>)
    ensures PlainKeys(Translated(m))
    ensures PlainKeys(m) ==> Translated(m) == m
  {
    hide Backslashed, NoSlash;
    forall i | 0 <= i < |m| ensures NoSlash(Translated(m)[i].key) && (NoSlash(m[i].key) ==> Translated(m)[i] == m[i]) {
      BackslashedPlain(m[i].key);
    }
  }

  lemma {:induction false} PutAllPlain<V>(done: seq<Entry<V>>, m: seq<Entry<V>>)
    requires PlainKeys(done) && PlainKeys(m)
    ensures PlainKeys(PutAll(done, m))
    decreases |m|
  {
    hide NoSlash, Put;
    if m != [] {
      var next := Put(done, m[0].key, m[0].value);
      forall i | 0 <= i < |next| ensures NoSlash(next[i].key) {
        PutBrings(done, m[0].key, m[0].value, next[i]);
      }
      PutAllPlain(next, m[1..]);
    }
  }

  /** A sorted map comes back under its names exactly if none of them has a slash. */
  lemma TranslatedBackIff<V>(m: seq<Entry<V>>)
    requires Sorted(m)
    ensures PutAll([], Translated(m)) == m <==> PlainKeys(m)
  {
    hide Put, PutAll, Sorted, PlainKeys;
    TranslatedPlain(m);
    PlainNone<V>();
    PutAllPlain([], Translated(m));
    assert [] + m == m;
    PutAllSorted([], m);
  }

  lemma PlainNone<V>()
    ensures PlainKeys<V>([])
  {
  }

  /** A made list of folders is parsed as what Received says, to the last byte. */
  lemma FolderReplyBack(fs: Folders)
    requires FoldersFit(fs)
    ensures var p := ParseFolderReply(MakeFolderReply(fs));
            p.value == Received(fs) && p.rest == [] && p.wanted == 0 && p.passes == FoldersWork(fs)
  {
    hide Pack, PackFolders, ParseFolders, TakeNumber, SharesFit, Sorted;
    WordBack(|fs|, PackFolders(fs));
    FoldersBack(fs, [], []);
    assert PackFolders(fs) + [] == PackFolders(fs) && [] + Received(fs) == Received(fs);
  }

  predicate Whole(fs: Folders) {
    forall i :: 0 <= i < |fs| ==> fs[i].value != [] && PlainKeys(fs[i].value)
  }

  lemma {:induction false} ReceivedShorter(fs: Folders)
    ensures |Received(fs)| <= |fs|
  {
    if fs != [] {
      ReceivedShorter(fs[1..]);
    }
  }

  lemma {:induction false} ReceivedIff(fs: Folders)
    requires forall i :: 0 <= i < |fs| ==> Sorted(fs[i].value)
    ensures Received(fs) == fs <==> Whole(fs)
  {
    hide Sorted, PutAll, PlainKeys;
    if fs != [] {
      ReceivedShorter(fs[1..]);
      ReceivedIff(fs[1..]);
      TranslatedBackIff(fs[0].value);
      assert fs == [fs[0]] + fs[1..];
      if fs[0].value != [] {
        var head := Entry(fs[0].key, PutAll([], Translated(fs[0].value)));
        assert Received(fs) == [head] + Received(fs[1..]);
        assert Received(fs) == fs <==> head == fs[0] && Received(fs[1..]) == fs[1..] by { ConsIff(head, Received(fs[1..]), fs); }
      }
      WholeStep(fs);
    }
  }

  lemma ConsIff(head: Entry<Shares>, tail: Folders, fs: Folders)
    requires fs != []
    ensures [head] + tail == fs <==> head == fs[0] && tail == fs[1..]
  {
    assert ([head] + tail)[0] == head && ([head] + tail)[1..] == tail;
    assert fs == [fs[0]] + fs[1..];
  }

  lemma WholeStep(fs: Folders)
    requires fs != []
    ensures Whole(fs) <==> (fs[0].value != [] && PlainKeys(fs[0].value)) && Whole(fs[1..])
  {
    hide PlainKeys;
    if Whole(fs[1..]) && fs[0].value != [] && PlainKeys(fs[0].value) {
      forall i | 0 <= i < |fs| ensures fs[i].value != [] && PlainKeys(fs[i].value) {
        if i > 0 {
          assert fs[i] == fs[1..][i - 1];
        }
      }
    }
  }

  /** Folders come back unchanged exactly if each holds a directory and no directory's name has a slash. */
  lemma FolderReplyIff(fs: Folders)
    requires FoldersFit(fs)
    ensures ParseFolderReply(MakeFolderReply(fs)).value == fs <==> Whole(fs)
  {
    hide Received, ParseFolderReply, MakeFolderReply, Whole;
    FolderReplyBack(fs);
    ReceivedIff(fs);
  }

  /** A made list of shares is parsed to the last byte, with slashes turned. */
  lemma SharesReplyBack(ds: Shares)
    requires SharesFit(ds)
    ensures var p := ParseSharesReply(MakeSharesReply(ds));
            p.value == PutAll([], Translated(ds)) && p.rest == [] && p.wanted == 0
  {
    hide Pack, PackDirs, ParseDirs, TakeNumber, FolderFits, PutAll, Translated, Less;
    WordBack(|ds|, PackDirs(ds));
    DirsBack(ds, [], []);
    assert PackDirs(ds) + [] == PackDirs(ds);
  }

  predicate SearchReplyFits(r: SearchReply) {
    && TextFits(r.user) && r.ticket < WORD && FolderFits(r.results) && Sorted(r.results)
    && r.avgSpeed < WORD && r.queueLength < DOUBLE
  }

  lemma TranslatedFits(fs: Folder)
    requires FolderFits(fs)
    ensures FolderFits(Translated(fs))
  {
    hide FileFits;
  }

  lemma EndBack(user: Text, ticket: nat, results: Folder, free: bool, speed: nat, queue: nat)
    requires speed < WORD && queue < DOUBLE
    ensures ParseEnd(user, ticket, results, [if free then 1 else 0] + Pack(speed, 4) + Pack(queue, 8))
            == SearchReply(user, ticket, results, free, speed, queue)
  {
    hide Pack, TakeNumber, TakeChar;
    Powers();
    var r1 := Pack(speed, 4) + Pack(queue, 8);
    assert [if free then 1 else 0] + Pack(speed, 4) + Pack(queue, 8) == [if free then 1 else 0] + r1;
    CharBack(if free then 1 else 0, r1);
    WordBack(speed, Pack(queue, 8));
    NumberBack(queue, 8, []);
    assert Pack(queue, 8) + [] == Pack(queue, 8);
  }

  /** A made search reply is never parsed twice, and comes back but for its names' slashes. */
  lemma SearchReplyBack(r: SearchReply)
    requires SearchReplyFits(r)
    ensures var p := ParseSearchReply(MakeSearchReply(r));
            p.wanted == 0 && p.value == r.(results := PutAll([], Translated(r.results)))
  {
    hide Pack, PackFiles, PackText, ParseFiles, ParseEnd, TakeText, TakeNumber, PutAll, Translated, FolderFits;
    var end := [if r.slotFree then 1 else 0] + Pack(r.avgSpeed, 4) + Pack(r.queueLength, 8);
    var r3 := PackFiles(Translated(r.results)) + end;
    var r2 := Pack(|r.results|, 4) + r3;
    var r1 := Pack(r.ticket, 4) + r2;
    assert MakeSearchReply(r) == PackText(r.user) + r1;
    TextBack(r.user, r1);
    WordBack(r.ticket, r2);
    FolderSize(r.results);
    WordBack(|r.results|, r3);
    TranslatedFits(r.results);
    FilesBack(Translated(r.results), [], end);
    EndBack(r.user, r.ticket, PutAll([], Translated(r.results)), r.slotFree, r.avgSpeed, r.queueLength);
  }

  /** So it comes back unchanged exactly if no file name has a slash. */
  lemma SearchReplyIff(r: SearchReply)
    requires SearchReplyFits(r)
    ensures ParseSearchReply(MakeSearchReply(r)).value == r <==> PlainKeys(r.results)
  {
    hide ParseSearchReply, MakeSearchReply, PutAll, Translated, PlainKeys, FolderFits;
    SearchReplyBack(r);
    TranslatedBackIff(r.results);
  }

  // ----- replies of clients that send sizes in four bytes

  predicate Short(fs: Folder) {
    forall i :: 0 <= i < |fs| ==> fs[i].value.size < WORD
  }

  /** Files with short sizes come back from a parse for short sizes. */
  lemma {:induction false} ShortFilesBack(fs: Folder, done: Folder, rest: seq<Octet>)
    requires FolderFits(fs) && Short(fs)
    ensures var p := ParseFiles(PackFilesShort(fs) + rest, |fs|, 4, done);
            p.value == PutAll(done, fs) && p.rest == rest && p.wanted == 0
    decreases |fs|
  {
    hide PackFileIn, ParseFile, Put, TextFits, FileFits;
    if fs == [] {
      assert PackFilesShort(fs) + rest == rest;
    } else {
      var tail := PackFilesShort(fs[1..]) + rest;
      assert PackFilesShort(fs) + rest == PackFileIn(fs[0].key, fs[0].value, 4) + tail;
      Powers();
      FileBackIn(fs[0].key, fs[0].value, 4, tail);
      ShortFilesBack(fs[1..], Put(done, fs[0].key, fs[0].value), rest);
    }
  }

  /** The length of the queue in four bytes or in eight. */
  function PackEnd(r: SearchReply, queueBytes: nat): seq<Octet> {
    [if r.slotFree then 1 else 0] + Pack(r.avgSpeed, 4) + Pack(r.queueLength, queueBytes)
  }

  /** A search reply as such a client makes it. */
  function ShortSearchReply(r: SearchReply, queueBytes: nat): seq<Octet> {
    PackText(r.user) + Pack(r.ticket, 4) + Pack(|r.results|, 4) + PackFilesShort(r.results) + PackEnd(r, queueBytes)
  }

  lemma ShortEndBack(r: SearchReply, queueBytes: nat)
    requires r.avgSpeed < WORD && r.queueLength < Pow256(queueBytes) && (queueBytes == 4 || queueBytes == 8)
    ensures ParseEnd(r.user, r.ticket, r.results, PackEnd(r, queueBytes)) == r
  {
    hide Pack, TakeNumber, TakeChar;
    var queue := Pack(r.queueLength, queueBytes);
    var r1 := Pack(r.avgSpeed, 4) + queue;
    assert PackEnd(r, queueBytes) == [if r.slotFree then 1 else 0] + r1;
    CharBack(if r.slotFree then 1 else 0, r1);
    WordBack(r.avgSpeed, queue);
    NumberBack(r.queueLength, queueBytes, []);
    assert queue + [] == queue;
  }

  /** What a parse of such a reply wants once it has read sizes of eight bytes: whether it is parsed again. */
  function StillWanted(r: SearchReply, queueBytes: nat): nat {
    ParseFiles(PackFilesShort(r.results) + PackEnd(r, queueBytes), |r.results|, 8, []).wanted
  }

  lemma ShortHead(r: SearchReply, queueBytes: nat)
    requires SearchReplyFits(r)
    ensures var data := ShortSearchReply(r, queueBytes);
            var user := TakeText(data);
            var ticket := TakeNumber(user.rest, 4);
            TakeNumber(ticket.rest, 4) == Taken(|r.results|, PackFilesShort(r.results) + PackEnd(r, queueBytes))
            && user.value == r.user && ticket.value == r.ticket
  {
    hide Pack, PackFilesShort, PackEnd, PackText, TakeText, TakeNumber, FolderFits;
    var r3 := PackFilesShort(r.results) + PackEnd(r, queueBytes);
    var r2 := Pack(|r.results|, 4) + r3;
    var r1 := Pack(r.ticket, 4) + r2;
    assert ShortSearchReply(r, queueBytes) == PackText(r.user) + r1;
    TextBack(r.user, r1);
    WordBack(r.ticket, r2);
    FolderSize(r.results);
    WordBack(|r.results|, r3);
  }

  /** Such a reply comes back from its second parse, whenever the first one runs out of bytes. */
  lemma ShortReplyBack(r: SearchReply, queueBytes: nat)
    requires SearchReplyFits(r) && Short(r.results) && (queueBytes == 4 || queueBytes == 8) && r.queueLength < Pow256(queueBytes)
    requires StillWanted(r, queueBytes) > 0
    ensures ParseSearchReply(ShortSearchReply(r, queueBytes)).value == r
  {
    hide Pack, PackFilesShort, PackText, ParseFiles, ParseEnd, TakeText, TakeNumber, PutAll, FolderFits, ShortSearchReply, PackEnd, Short;
    ShortHead(r, queueBytes);
    ShortFilesBack(r.results, [], PackEnd(r, queueBytes));
    PutAllSorted([], r.results);
    assert [] + r.results == r.results;
    ShortEndBack(r, queueBytes);
  }

  /** Read with eight bytes for its size, such a file has the length of its extension for the upper half of its size. */
  lemma ShortSizeMisread(name: Text, f: File, rest: seq<Octet>)
    requires TextFits(name) && FileFits(f) && f.size < WORD
    ensures PackFileIn(name, f, 4) + rest != []
    ensures ParseFile(PackFileIn(name, f, 4) + rest, 8).value.value.size == f.size + WORD * |f.extension|
  {
    hide Pack, Unpack, PackText, PackAttributes, TakeNumber, TakeChar, TakeText, ParseAttributes;
    var low, high := Pack(f.size, 4), Pack(|f.extension|, 4);
    var r3 := f.extension + (Pack(|f.attributes|, 4) + (PackAttributes(f.attributes, 0) + rest));
    var r2 := (low + high) + r3;
    var r1 := PackText(name) + r2;
    assert PackText(f.extension) == high + f.extension by { TextForm(f.extension); }
    assert PackFileIn(name, f, 4) + rest == [1] + r1;
    CharBack(1, r1);
    TextBack(name, r2);
    EightTaken(low + high, r3);
    UnpackHalves(low, high);
    PackUnpack32(f.size);
    PackUnpack32(|f.extension|);
  }

  lemma TextForm(s: Text)
    ensures PackText(s) == Pack(|s|, 4) + s
  {
    hide Pack;
  }

  lemma EightTaken(bytes: seq<Octet>, rest: seq<Octet>)
    requires |bytes| == 8
    ensures TakeNumber(bytes + rest, 8) == Taken(Unpack(bytes), rest)
  {
    hide Unpack;
    assert (bytes + rest)[..8] == bytes && (bytes + rest)[8..] == rest;
  }

  /** A reply of one file is never parsed again, and its size comes back wrong if the file has an extension. */
  lemma OneShortFileMisread(r: SearchReply, queueBytes: nat)
    requires SearchReplyFits(r) && Short(r.results) && |r.results| == 1
    ensures StillWanted(r, queueBytes) == 0
    ensures var p := ParseSearchReply(ShortSearchReply(r, queueBytes));
            |p.value.results| == 1 && p.value.results[0].value.size == r.results[0].value.size + WORD * |r.results[0].value.extension|
  {
    hide Pack, PackText, TakeText, TakeNumber, ShortSearchReply, PackEnd, PackFileIn, ParseFile, TextFits, FileFits;
    ShortHead(r, queueBytes);
    var e := r.results[0];
    assert PackFilesShort(r.results) == PackFileIn(e.key, e.value, 4) by { OneShort(r.results); }
    ShortSizeMisread(e.key, e.value, PackEnd(r, queueBytes));
    OnePass(PackFilesShort(r.results) + PackEnd(r, queueBytes), 1);
  }

  lemma OneShort(fs: Folder)
    requires |fs| == 1
    ensures PackFilesShort(fs) == PackFileIn(fs[0].key, fs[0].value, 4)
  {
    hide PackFileIn;
    assert fs[1..] == [];
  }

  lemma OnePass(data: seq<Octet>, n: nat)
    requires data != [] && n == 1
    ensures var f := ParseFile(data, 8).value; var p := ParseFiles(data, n, 8, []); p.value == [f] && p.wanted == 0
  {
    hide ParseFile;
  }
}
