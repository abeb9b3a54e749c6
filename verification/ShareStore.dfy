/** Saving and loading a share tree through a queue of bytes; ShareTree says what comes out. */
module ShareStore {
  import opened Basics
  import opened FileEntries
  import opened KeyMaps
  import opened Octets
  import opened ShareTree
  import opened Widths

  class ByteQueue {
    var bytes: seq<Octet>

    constructor ()
      ensures bytes == []
    {
      bytes := [];
    }

    method Push(b: Octet)
      modifies this
      ensures bytes == old(bytes) + [b]
    {
      bytes := bytes + [b];
    }

    method Pop() returns (b: Octet)
      requires bytes != []
      modifies this
      ensures b == old(bytes)[0] && bytes == old(bytes)[1..]
    {
      b := bytes[0];
      bytes := bytes[1..];
    }

    // ----- saving

    /** A number in k bytes. */
    method PushNumber(n: nat, k: nat)
      modifies this
      ensures bytes == old(bytes) + Pack(n, k)
    {
      var i, j := n, 0;
      while j < k
        invariant 0 <= j <= k && bytes + Pack(i, k - j) == old(bytes) + Pack(n, k)
      {
        assert Pack(i, k - j) == [i % 256] + Pack(i / 256, k - j - 1);
        Push(i % 256);
        i := i / 256;
        j := j + 1;
      }
    }

    method PushText(s: Text)
      modifies this
      ensures bytes == old(bytes) + PackText(s)
    {
      PushNumber(|s|, 4);
      var j := 0;
      while j < |s|
        invariant 0 <= j <= |s| && bytes == old(bytes) + Pack(|s|, 4) + s[..j]
      {
        Push(s[j]);
        j := j + 1;
      }
    }

    method PushFile(f: NamedFile)
      modifies this
      ensures bytes == old(bytes) + PackFile(f)
    {
      hide PackText, Pack;
      PushText(f.key);
      PushNumber(f.value.size, 8);
      PushText(f.value.extension);
      PushNumber(|f.value.attributes|, 4);
      PushNumbers(f.value.attributes);
    }

    method PushNumbers(ns: seq<nat>)
      modifies this
      ensures bytes == old(bytes) + PackNumbers(ns)
    {
      hide Pack;
      var j := 0;
      assert ns[0..] == ns;
      while j < |ns|
        invariant 0 <= j <= |ns| && bytes + PackNumbers(ns[j..]) == old(bytes) + PackNumbers(ns)
      {
        assert ns[j..][0] == ns[j] && ns[j..][1..] == ns[j + 1..];
        PushNumber(ns[j], 4);
        j := j + 1;
      }
    }

    method PushFiles(fs: seq<NamedFile>)
      modifies this
      ensures bytes == old(bytes) + PackFiles(fs)
    {
      hide PackFile;
      var j := 0;
      assert fs[0..] == fs;
      while j < |fs|
        invariant 0 <= j <= |fs| && bytes + PackFiles(fs[j..]) == old(bytes) + PackFiles(fs)
      {
        assert fs[j..][0] == fs[j] && fs[j..][1..] == fs[j + 1..];
        PushFile(fs[j]);
        j := j + 1;
      }
    }

    method PushAll(that: ByteQueue)
      requires that != this
      modifies this, that
      ensures bytes == old(bytes) + old(that.bytes)
    {
      while that.bytes != []
        invariant bytes + that.bytes == old(bytes) + old(that.bytes)
        decreases |that.bytes|
      {
        var b := that.Pop();
        Push(b);
      }
    }
  }

  /** The bytes of a tree, those of its folders being copied from queues of their own. */
  method PackEntry(t: Tree) returns (data: ByteQueue)
    ensures fresh(data) && data.bytes == PackTree(t)
    decreases t
  {
    hide PackText, Pack, PackFiles, PackFolders;
    data := new ByteQueue();
    data.PushText(t.path);
    data.PushNumber(t.mtime, 4);
    data.PushNumber(|t.folders|, 4);
    var j := 0;
    assert t.folders[0..] == t.folders;
    ghost var before := data.bytes;
    while j < |t.folders|
      invariant 0 <= j <= |t.folders| && fresh(data)
      invariant data.bytes + PackFolders(t.folders[j..]) == before + PackFolders(t.folders)
    {
      FolderNext(t.folders, j);
      var data2 := PackEntry(t.folders[j].value);
      data.PushAll(data2);
      j := j + 1;
    }
    NoFolders(t.folders[j..]);
    assert data.bytes == before + PackFolders(t.folders);
    data.PushNumber(|t.files|, 4);
    data.PushFiles(t.files);
  }

  lemma FolderNext(fs: seq<Child>, j: nat)
    requires j < |fs|
    ensures PackFolders(fs[j..]) == PackTree(fs[j].value) + PackFolders(fs[j + 1..])
  {
    hide PackTree;
    assert fs[j..][0] == fs[j] && fs[j..][1..] == fs[j + 1..];
  }

  lemma NoFolders(fs: seq<Child>)
    requires fs == []
    ensures PackFolders(fs) == []
  {
  }

  // ----- loading

  /** What a step of loading has done to the queue, compared with what it should do. */
  ghost predicate Agrees<T>(l: Option<T>, after: seq<Octet>, r: Result<T>) {
    if l.Some? then r == Ok(l.value, after) else r.Fail?
  }

  method PopNumber(data: ByteQueue, k: nat) returns (n: nat)
    requires |data.bytes| >= k
    modifies data
    ensures n == Unpack(old(data.bytes)[..k]) && data.bytes == old(data.bytes)[k..]
    decreases k
  {
    if k == 0 {
      return 0;
    }
    ghost var all := data.bytes;
    var b := data.Pop();
    var high := PopNumber(data, k - 1);
    n := b + 256 * high;
    assert all[..k][0] == b && all[..k][1..] == all[1..][..k - 1];
  }

  method UnpackIntFrom(data: ByteQueue) returns (l: Option<nat>)
    modifies data
    ensures Agrees(l, data.bytes, UnpackInt(old(data.bytes)))
  {
    if |data.bytes| < 4 {
      return None;
    }
    var n := PopNumber(data, 4);
    return Some(n);
  }

  method UnpackOffFrom(data: ByteQueue) returns (l: Option<nat>)
    modifies data
    ensures Agrees(l, data.bytes, UnpackOff(old(data.bytes)))
  {
    if |data.bytes| < 8 {
      return None;
    }
    hide ShiftedInt;
    ghost var all := data.bytes;
    var i: nat := 0;
    var j := 0;
    while j < 8
      invariant 0 <= j <= 8 && data.bytes == all[j..]
      invariant OffSum(all[j..8], j, i) == OffSum(all[..8], 0, 0)
    {
      assert all[j..8][0] == all[j] && all[j..8][1..] == all[j + 1..8];
      var b := data.Pop();
      i := (i + ShiftedInt(b, j)) % DOUBLE;
      j := j + 1;
    }
    assert all[8..8] == [];
    return Some(i);
  }

  method UnpackTextFrom(data: ByteQueue) returns (l: Option<Text>)
    modifies data
    ensures Agrees(l, data.bytes, UnpackText(old(data.bytes)))
  {
    var n := UnpackIntFrom(data);
    if n.None? || |data.bytes| < n.value {
      return None;
    }
    ghost var all := data.bytes;
    var r: Text := [];
    var j := 0;
    while j < n.value
      invariant 0 <= j <= n.value && r == all[..j] && data.bytes == all[j..]
    {
      var b := data.Pop();
      r := r + [b];
      j := j + 1;
    }
    return Some(r);
  }

  method UnpackNumbersFrom(data: ByteQueue, k: nat) returns (l: Option<seq<nat>>)
    modifies data
    ensures Agrees(l, data.bytes, UnpackNumbers(old(data.bytes), k))
  {
    hide UnpackInt;
    var ns: seq<nat> := [];
    var j := 0;
    OntoNothing(UnpackNumbers(data.bytes, k));
    while j < k
      invariant 0 <= j <= k
      invariant Onto(ns, UnpackNumbers(data.bytes, k - j)) == UnpackNumbers(old(data.bytes), k)
    {
      ghost var before := data.bytes;
      var n := UnpackIntFrom(data);
      if n.None? {
        return None;
      }
      OntoOne(ns, n.value, UnpackNumbers(data.bytes, k - j - 1));
      ns := ns + [n.value];
      j := j + 1;
    }
    assert ns + [] == ns;
    return Some(ns);
  }

  function Onto(ns: seq<nat>, r: Result<seq<nat>>): Result<seq<nat>> {
    if r.Fail? then Fail else Ok(ns + r.value, r.rest)
  }

  lemma OntoNothing(r: Result<seq<nat>>)
    ensures Onto([], r) == r
  {
    if r.Ok? {
      assert [] + r.value == r.value;
    }
  }

  lemma OntoOne(ns: seq<nat>, n: nat, r: Result<seq<nat>>)
    ensures Onto(ns, Onto([n], r)) == Onto(ns + [n], r)
  {
    if r.Ok? {
      assert ns + ([n] + r.value) == ns + [n] + r.value;
    }
  }

  method UnpackFileFrom(data: ByteQueue) returns (l: Option<NamedFile>)
    modifies data
    ensures Agrees(l, data.bytes, UnpackFile(old(data.bytes)))
  {
    hide UnpackText, UnpackOff, UnpackInt, UnpackNumbers;
    var name := UnpackTextFrom(data);
    if name.None? {
      return None;
    }
    var size := UnpackOffFrom(data);
    if size.None? {
      return None;
    }
    var ext := UnpackTextFrom(data);
    if ext.None? {
      return None;
    }
    var k := UnpackIntFrom(data);
    if k.None? {
      return None;
    }
    var attrs := UnpackNumbersFrom(data, k.value);
    if attrs.None? {
      return None;
    }
    return Some(Entry(name.value, File(size.value, ext.value, attrs.value)));
  }

  method UnpackFilesFrom(data: ByteQueue, n: nat) returns (l: Option<seq<NamedFile>>)
    modifies data
    ensures Agrees(l, data.bytes, UnpackFiles(old(data.bytes), n, []))
  {
    hide UnpackFile, Put;
    var files: seq<NamedFile> := [];
    var j := 0;
    while j < n
      invariant 0 <= j <= n
      invariant UnpackFiles(data.bytes, n - j, files) == UnpackFiles(old(data.bytes), n, [])
    {
      var f := UnpackFileFrom(data);
      if f.None? {
        return None;
      }
      files := Put(files, f.value.key, f.value.value);
      j := j + 1;
    }
    return Some(files);
  }

  /** Loads a tree; an end of the bytes where more are needed breaks it off. */
  method UnpackEntry(data: ByteQueue) returns (l: Option<Tree>)
    modifies data
    ensures Agrees(l, data.bytes, UnpackTree(old(data.bytes)))
    decreases |data.bytes|, 0
  {
    hide UnpackText, UnpackInt, UnpackFiles;
    var path := UnpackTextFrom(data);
    if path.None? {
      return None;
    }
    var mtime := UnpackIntFrom(data);
    if mtime.None? {
      return None;
    }
    var n := UnpackIntFrom(data);
    if n.None? {
      return None;
    }
    var folders := UnpackFoldersFrom(data, n.value);
    if folders.None? {
      return None;
    }
    var k := UnpackIntFrom(data);
    if k.None? {
      return None;
    }
    var files := UnpackFilesFrom(data, k.value);
    if files.None? {
      return None;
    }
    return Some(Tree(path.value, mtime.value, folders.value, files.value));
  }

  method UnpackFoldersFrom(data: ByteQueue, n: nat) returns (l: Option<seq<Child>>)
    modifies data
    ensures Agrees(l, data.bytes, UnpackFolders(old(data.bytes), n, []))
    decreases |data.bytes|, 1
  {
    hide UnpackTree, Put;
    var folders: seq<Child> := [];
    var j := 0;
    while j < n
      invariant 0 <= j <= n && |data.bytes| <= |old(data.bytes)|
      invariant UnpackFolders(data.bytes, n - j, folders) == UnpackFolders(old(data.bytes), n, [])
    {
      var de := UnpackEntry(data);
      if de.None? {
        return None;
      }
      folders := Put(folders, de.value.path, de.value);
      j := j + 1;
    }
    return Some(folders);
  }
}
