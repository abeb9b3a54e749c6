/** Folding, flattening and sending a share tree, in place; ShareFolds says what comes out. */
module ShareLists {
  import opened FileEntries
  import opened KeyMaps
  import opened MapLaws
  import opened Octets
  import opened PeerMessages
  import ShareFolds
  import ShareStore
  import ShareTree

  /** The files of every folder stand in the order of their names. */
  predicate Ordered(t: ShareTree.Tree)
    decreases t
  {
    Sorted(t.files) && OrderedAll(t.folders)
  }

  predicate OrderedAll(fs: seq<ShareTree.Child>)
    decreases fs
  {
    fs == [] || (Ordered(fs[0].value) && OrderedAll(fs[1..]))
  }

  lemma {:induction false} OrderedAt(fs: seq<ShareTree.Child>, j: nat)
    requires OrderedAll(fs) && j <= |fs|
    ensures OrderedAll(fs[j..]) && (j < |fs| ==> Ordered(fs[j].value))
    decreases j
  {
    hide Ordered;
    if j > 0 {
      OrderedAt(fs[1..], j - 1);
      assert fs[1..][j - 1..] == fs[j..];
    } else {
      assert fs[0..] == fs;
    }
  }

  lemma FoldNext(fs: seq<ShareTree.Child>, j: nat, folded: Shares)
    requires j < |fs|
    ensures ShareFolds.FoldAll(fs[j..], folded) == ShareFolds.FoldAll(fs[j + 1..], ShareFolds.Fold(fs[j].value, folded))
  {
    hide ShareFolds.Fold;
    assert fs[j..][0] == fs[j] && fs[j..][1..] == fs[j + 1..];
  }

  /** A root whose folders hold no folders of their own. */
  class FolderList {
    var folders: Shares

    constructor ()
      ensures folders == []
    {
      folders := [];
    }

    /** Adds a folder and all folders below it, but nothing of a folder whose path is there. */
    method Fold(t: ShareTree.Tree)
      requires Ordered(t)
      modifies this
      ensures folders == ShareFolds.Fold(t, old(folders))
      decreases t
    {
      hide Put, HasKey, ShareFolds.FoldAll;
      if HasKey(folders, t.path) {
        return;
      }
      var files := CopyFiles(t.files);
      folders := Put(folders, t.path, files);
      FoldFolders(t.folders);
    }

    method FoldFolders(fs: seq<ShareTree.Child>)
      requires OrderedAll(fs)
      modifies this
      ensures folders == ShareFolds.FoldAll(fs, old(folders))
      decreases fs
    {
      hide Ordered, OrderedAll, ShareFolds.Fold;
      var j := 0;
      assert fs[0..] == fs;
      while j < |fs|
        invariant 0 <= j <= |fs|
        invariant ShareFolds.FoldAll(fs[j..], folders) == ShareFolds.FoldAll(fs, old(folders))
      {
        OrderedAt(fs, j);
        FoldNext(fs, j, folders);
        Fold(fs[j].value);
        j := j + 1;
      }
      assert fs[j..] == [];
    }
  }

  /** Copies the entries of a map one by one. */
  method CopyFiles(files: Folder) returns (copy: Folder)
    requires Sorted(files)
    ensures copy == files
  {
    hide Less, Put;
    copy := [];
    var j := 0;
    while j < |files|
      invariant 0 <= j <= |files| && copy == files[..j]
    {
      assert files[..j] + files[j..] == files;
      PutNext(files[..j], files[j..]);
      copy := Put(copy, files[j].key, files[j].value);
      j := j + 1;
    }
    assert files[..j] == files;
  }

  lemma FlatNext(fs: seq<ShareTree.Child>, j: nat)
    requires j < |fs|
    ensures ShareFolds.FlatListOf(fs[j..]) == ShareFolds.FlatList(fs[j].value) + ShareFolds.FlatListOf(fs[j + 1..])
  {
    hide ShareFolds.FlatList;
    assert fs[j..][0] == fs[j] && fs[j..][1..] == fs[j + 1..];
  }

  class FileMap {
    var files: Folder

    constructor ()
      ensures files == []
    {
      files := [];
    }

    /** Adds all files of a tree under their flat names, those of a folder after those of its own folders. */
    method Flatten(t: ShareTree.Tree)
      modifies this
      ensures files == PutAll(old(files), ShareFolds.FlatList(t))
      decreases t
    {
      hide PutAll, ShareFolds.FlatListOf, ShareFolds.FlatKey;
      FlattenFolders(t.folders);
      PutAllConcat(old(files), ShareFolds.FlatListOf(t.folders), ShareFolds.Flats(t.path, t.files));
      FlattenFiles(t.path, t.files);
    }

    method FlattenFolders(fs: seq<ShareTree.Child>)
      modifies this
      ensures files == PutAll(old(files), ShareFolds.FlatListOf(fs))
      decreases fs
    {
      hide PutAll, ShareFolds.FlatList;
      var j := 0;
      assert fs[0..] == fs;
      while j < |fs|
        invariant 0 <= j <= |fs|
        invariant PutAll(files, ShareFolds.FlatListOf(fs[j..])) == PutAll(old(files), ShareFolds.FlatListOf(fs))
      {
        FlatNext(fs, j);
        PutAllConcat(files, ShareFolds.FlatList(fs[j].value), ShareFolds.FlatListOf(fs[j + 1..]));
        Flatten(fs[j].value);
        j := j + 1;
      }
      assert fs[j..] == [];
      ShareFolds.PutNothing(files);
    }

    method FlattenFiles(path: Text, named: Folder)
      modifies this
      ensures files == PutAll(old(files), ShareFolds.Flats(path, named))
    {
      hide Put, ShareFolds.FlatKey;
      ghost var flats := ShareFolds.Flats(path, named);
      var j := 0;
      assert flats[0..] == flats;
      while j < |named|
        invariant 0 <= j <= |named| && PutAll(files, flats[j..]) == PutAll(old(files), flats)
      {
        assert flats[j..][0] == flats[j] && flats[j..][1..] == flats[j + 1..];
        files := Put(files, ShareFolds.FlatKey(path, named[j].key), named[j].value);
        j := j + 1;
      }
      assert flats[j..] == [];
    }
  }

  // ----- sending

  /** A path behind its length, its slashes turned. */
  method PushPath(data: ShareStore.ByteQueue, s: Text)
    modifies data
    ensures data.bytes == old(data.bytes) + PackText(Backslashed(s))
  {
    hide Pack;
    data.PushNumber(|s|, 4);
    var j := 0;
    while j < |s|
      invariant 0 <= j <= |s| && data.bytes == old(data.bytes) + Pack(|s|, 4) + Backslashed(s)[..j]
    {
      data.Push(if s[j] == SLASH then BACKSLASH else s[j]);
      j := j + 1;
    }
    assert Backslashed(s)[..|s|] == Backslashed(s);
  }

  method PushNetworkFile(data: ShareStore.ByteQueue, name: Text, f: File)
    modifies data
    ensures data.bytes == old(data.bytes) + PackFile(name, f)
  {
    hide Pack, PackText, PackAttributes;
    data.Push(1);
    data.PushText(name);
    data.PushNumber(f.size, 8);
    data.PushText(f.extension);
    data.PushNumber(|f.attributes|, 4);
    PushAttributes(data, f.attributes);
  }

  /** Attributes go with their numbers. */
  method PushAttributes(data: ShareStore.ByteQueue, attrs: seq<nat>)
    modifies data
    ensures data.bytes == old(data.bytes) + PackAttributes(attrs, 0)
  {
    hide Pack;
    var j := 0;
    assert attrs[0..] == attrs;
    while j < |attrs|
      invariant 0 <= j <= |attrs|
      invariant data.bytes + PackAttributes(attrs[j..], j) == old(data.bytes) + PackAttributes(attrs, 0)
    {
      assert attrs[j..][0] == attrs[j] && attrs[j..][1..] == attrs[j + 1..];
      data.PushNumber(j, 4);
      data.PushNumber(attrs[j], 4);
      j := j + 1;
    }
    assert attrs[j..] == [];
  }

  method PushNetworkFiles(data: ShareStore.ByteQueue, fs: Folder)
    modifies data
    ensures data.bytes == old(data.bytes) + PackFiles(fs)
  {
    hide PackFile;
    var i := 0;
    assert fs[0..] == fs;
    while i < |fs|
      invariant 0 <= i <= |fs| && data.bytes + PackFiles(fs[i..]) == old(data.bytes) + PackFiles(fs)
    {
      assert fs[i..][0] == fs[i] && fs[i..][1..] == fs[i + 1..];
      PushNetworkFile(data, fs[i].key, fs[i].value);
      i := i + 1;
    }
    assert fs[i..] == [];
  }

  method PushDirs(data: ShareStore.ByteQueue, ds: Shares)
    modifies data
    ensures data.bytes == old(data.bytes) + PackDirs(ds)
  {
    hide PackFiles, PackText, Pack, Backslashed;
    var i := 0;
    assert ds[0..] == ds;
    while i < |ds|
      invariant 0 <= i <= |ds| && data.bytes + PackDirs(ds[i..]) == old(data.bytes) + PackDirs(ds)
    {
      assert ds[i..][0] == ds[i] && ds[i..][1..] == ds[i + 1..];
      PushPath(data, ds[i].key);
      data.PushNumber(|ds[i].value|, 4);
      PushNetworkFiles(data, ds[i].value);
      i := i + 1;
    }
    assert ds[i..] == [];
  }

  /** The folders of a root with their files, as a reply to a user who browses the shares. */
  method NetworkPack(data: ShareStore.ByteQueue, ds: Shares)
    modifies data
    ensures data.bytes == old(data.bytes) + MakeSharesReply(ds)
  {
    hide PackDirs, Pack;
    data.PushNumber(|ds|, 4);
    PushDirs(data, ds);
  }
}
