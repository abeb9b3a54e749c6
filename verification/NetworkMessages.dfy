/** Packing into and unpacking from the buffer of a message, and the loops over nested lists of files. */
module NetworkMessages {
  import opened FileEntries
  import opened KeyMaps
  import opened Octets
  import opened PeerMessages

  class NetworkMessage {
    var buffer: seq<Octet>
    /** How many passes the parser's loops have made. */
    ghost var passes: nat

    constructor (buffer: seq<Octet>)
      ensures this.buffer == buffer && passes == 0
    {
      this.buffer, passes := buffer, 0;
    }

    // ----- packing

    method PackNumber(i: nat, k: nat)
      modifies this`buffer
      ensures buffer == old(buffer) + Pack(i, k)
    {
      buffer := buffer + Pack(i, k);
    }

    method PackChar(c: Octet)
      modifies this`buffer
      ensures buffer == old(buffer) + [c]
    {
      buffer := buffer + [c];
    }

    /** Packs a string, turning slashes if asked to. */
    method PackString(str: Text, trslash: bool)
      modifies this`buffer
      ensures buffer == old(buffer) + PackText(if trslash then Backslashed(str) else str)
    {
      PackNumber(|str|, 4);
      if !trslash {
        buffer := buffer + str;
      } else {
        ghost var before := buffer;
        var i := 0;
        while i < |str|
          invariant 0 <= i <= |str| && buffer == before + Backslashed(str)[..i]
        {
          if str[i] == SLASH {
            PackChar(BACKSLASH);
          } else {
            PackChar(str[i]);
          }
          i := i + 1;
        }
      }
    }

    // ----- unpacking

    method UnpackNumber(k: nat) returns (n: nat)
      modifies this`buffer
      ensures Taken(n, buffer) == TakeNumber(old(buffer), k)
    {
      if |buffer| < k {
        return 0;
      }
      n := Unpack(buffer[..k]);
      buffer := buffer[k..];
    }

    method UnpackString() returns (x: Text)
      modifies this`buffer
      ensures Taken(x, buffer) == TakeText(old(buffer))
    {
      x := [];
      if |buffer| < 4 {
        return;
      }
      var len := UnpackNumber(4);
      if |buffer| < len {
        return;
      }
      x := buffer[..len];
      buffer := buffer[len..];
    }

    // ----- the parser's loops

    method ParseAttributeList(q0: nat) returns (attrs: seq<nat>)
      modifies this`buffer, this`passes
      ensures var p := ParseAttributes(old(buffer), q0, []);
              attrs == p.value && buffer == p.rest && passes == old(passes) + p.passes
    {
      hide TakeNumber;
      attrs := [];
      var q := q0;
      while q != 0
        invariant 0 <= q && Onward(ParseAttributes(buffer, q, attrs), ParseAttributes(old(buffer), q0, []), passes - old(passes))
        decreases q
      {
        if |buffer| < 4 {
          break;
        }
        var number := UnpackNumber(4);
        var value := UnpackNumber(4);
        attrs := attrs + [value];
        q := q - 1;
        passes := passes + 1;
      }
    }

    /** The rest of a file's entry, behind its first character. */
    method ParseFileEntry(sizeBytes: nat) returns (name: Text, fe: File)
      requires buffer != []
      modifies this`buffer, this`passes
      ensures var p := ParseFile(old(buffer), sizeBytes);
              Entry(name, fe) == p.value && buffer == p.rest && passes == old(passes) + p.passes
    {
      hide TakeNumber, TakeText, ParseAttributes;
      var c := UnpackNumber(1);
      name := UnpackString();
      var size := UnpackNumber(sizeBytes);
      var ext := UnpackString();
      var q := UnpackNumber(4);
      var attrs := ParseAttributeList(q);
      fe := File(size, ext, attrs);
    }

    method ParseFileList(n: nat, sizeBytes: nat) returns (files: Folder, wanted: nat)
      modifies this`buffer, this`passes
      ensures var p := ParseFiles(old(buffer), n, sizeBytes, []);
              files == p.value && buffer == p.rest && wanted == p.wanted && passes == old(passes) + p.passes
    {
      hide ParseFile, Put;
      files, wanted := [], n;
      while wanted != 0
        invariant 0 <= wanted
        invariant Onward(ParseFiles(buffer, wanted, sizeBytes, files), ParseFiles(old(buffer), n, sizeBytes, []), passes - old(passes))
        decreases wanted
      {
        if buffer == [] {
          break;
        }
        var name, fe := ParseFileEntry(sizeBytes);
        files := Put(files, name, fe);
        wanted := wanted - 1;
        passes := passes + 1;
      }
    }

    /** The directories of one folder, put with those that are there. */
    method ParseDirList(o0: nat, before: Shares) returns (dirs: Shares)
      modifies this`buffer, this`passes
      ensures var p := ParseDirs(old(buffer), o0, before);
              dirs == p.value && buffer == p.rest && passes == old(passes) + p.passes
    {
      hide ParseFiles, Put, TakeText, TakeNumber;
      dirs := before;
      var o := o0;
      while o != 0
        invariant 0 <= o && Onward(ParseDirs(buffer, o, dirs), ParseDirs(old(buffer), o0, before), passes - old(passes))
        decreases o
      {
        if |buffer| < 4 {
          break;
        }
        var dir := UnpackString();
        var p := UnpackNumber(4);
        var files, wanted := ParseFileList(p, 8);
        dirs := Put(dirs, dir, files);
        o := o - 1;
        passes := passes + 1;
      }
    }

    method ParseFolders() returns (folders: Folders)
      modifies this`buffer, this`passes
      ensures var p := ParseFolderReply(old(buffer));
              folders == p.value && buffer == p.rest && passes == old(passes) + p.passes
    {
      hide ParseDirs, PutDirs, TakeText, TakeNumber, Under;
      folders := [];
      var n0 := UnpackNumber(4);
      ghost var start := buffer;
      var n := n0;
      while n != 0
        invariant 0 <= n
        invariant Onward(PeerMessages.ParseFolders(buffer, n, folders), PeerMessages.ParseFolders(start, n0, []), passes - old(passes))
        decreases n
      {
        if |buffer| < 4 {
          break;
        }
        var folder := UnpackString();
        var o := UnpackNumber(4);
        var dirs := ParseDirList(o, Under(folders, folder));
        folders := PutDirs(folders, folder, dirs);
        n := n - 1;
        passes := passes + 1;
      }
    }

    method ParseShares() returns (shares: Shares)
      modifies this`buffer, this`passes
      ensures var p := ParseSharesReply(old(buffer));
              shares == p.value && buffer == p.rest && passes == old(passes) + p.passes
    {
      hide ParseDirs, TakeNumber;
      var n := UnpackNumber(4);
      shares := ParseDirList(n, []);
    }

    method ParseReplyEnd(user: Text, ticket: nat, results: Folder) returns (r: SearchReply)
      modifies this`buffer
      ensures r == ParseEnd(user, ticket, results, old(buffer))
    {
      hide TakeNumber;
      var free := UnpackNumber(1);
      var speed := UnpackNumber(4);
      var queue;
      if |buffer| >= 8 {
        queue := UnpackNumber(8);
      } else {
        queue := UnpackNumber(4);
      }
      r := SearchReply(user, ticket, results, free != 0, speed, queue);
    }

    /** Parses a search reply, and once more from a saved buffer if it runs out of bytes. */
    method ParseSearch() returns (r: SearchReply, reparsed: bool)
      modifies this`buffer, this`passes
      ensures var p := ParseSearchReply(old(buffer));
              r == p.value && reparsed == (p.wanted != 0) && passes == old(passes) + p.passes
    {
      hide TakeNumber, TakeText, ParseFiles, ParseEnd;
      var user := UnpackString();
      var ticket := UnpackNumber(4);
      var n := UnpackNumber(4);
      var backupBuffer := buffer;
      var results, wanted := ParseFileList(n, 8);
      reparsed := wanted != 0;
      r := ParseReplyEnd(user, ticket, results);
      if reparsed {
        buffer := backupBuffer;
        results, wanted := ParseFileList(n, 4);
        r := ParseReplyEnd(user, ticket, results);
      }
    }

    // ----- making

    method MakeFileEntry(name: Text, f: File, trslash: bool)
      modifies this`buffer
      ensures buffer == old(buffer) + PackFile(if trslash then Backslashed(name) else name, f)
    {
      hide Pack, PackText, PackAttributes;
      PackChar(1);
      PackString(name, trslash);
      PackNumber(f.size, 8);
      PackString(f.extension, false);
      PackNumber(|f.attributes|, 4);
      MakeAttributeList(f.attributes);
    }

    /** Attributes go with their numbers. */
    method MakeAttributeList(attrs: seq<nat>)
      modifies this`buffer
      ensures buffer == old(buffer) + PackAttributes(attrs, 0)
    {
      hide Pack;
      var j := 0;
      assert attrs[0..] == attrs;
      while j < |attrs|
        invariant 0 <= j <= |attrs| && buffer + PackAttributes(attrs[j..], j) == old(buffer) + PackAttributes(attrs, 0)
      {
        assert attrs[j..][0] == attrs[j] && attrs[j..][1..] == attrs[j + 1..];
        PackNumber(j, 4);
        PackNumber(attrs[j], 4);
        j := j + 1;
      }
      assert attrs[j..] == [];
    }

    method MakeFileList(fs: Folder, trslash: bool)
      modifies this`buffer
      ensures buffer == old(buffer) + PackFiles(if trslash then Translated(fs) else fs)
    {
      hide PackFile, Backslashed;
      ghost var all := if trslash then Translated(fs) else fs;
      var i := 0;
      assert all[0..] == all;
      while i < |fs|
        invariant 0 <= i <= |fs| && buffer + PackFiles(all[i..]) == old(buffer) + PackFiles(all)
      {
        assert all[i..][0] == all[i] && all[i..][1..] == all[i + 1..];
        MakeFileEntry(fs[i].key, fs[i].value, trslash);
        i := i + 1;
      }
      assert all[i..] == [];
    }

    method MakeDirList(ds: Shares)
      modifies this`buffer
      ensures buffer == old(buffer) + PackDirs(ds)
    {
      hide PackFiles, PackText, Pack, Backslashed;
      var i := 0;
      assert ds[0..] == ds;
      while i < |ds|
        invariant 0 <= i <= |ds| && buffer + PackDirs(ds[i..]) == old(buffer) + PackDirs(ds)
      {
        assert ds[i..][0] == ds[i] && ds[i..][1..] == ds[i + 1..];
        PackString(ds[i].key, true);
        PackNumber(|ds[i].value|, 4);
        MakeFileList(ds[i].value, false);
        i := i + 1;
      }
      assert ds[i..] == [];
    }

    method MakeFolderList(fs: Folders)
      modifies this`buffer
      ensures buffer == old(buffer) + PackFolders(fs)
    {
      hide PackDirs, PackText, Pack;
      var i := 0;
      assert fs[0..] == fs;
      while i < |fs|
        invariant 0 <= i <= |fs| && buffer + PackFolders(fs[i..]) == old(buffer) + PackFolders(fs)
      {
        assert fs[i..][0] == fs[i] && fs[i..][1..] == fs[i + 1..];
        PackString(fs[i].key, false);
        PackNumber(|fs[i].value|, 4);
        MakeDirList(fs[i].value);
        i := i + 1;
      }
      assert fs[i..] == [];
    }

    method MakeFolders(fs: Folders)
      modifies this`buffer
      ensures buffer == old(buffer) + MakeFolderReply(fs)
    {
      hide PackFolders, Pack;
      PackNumber(|fs|, 4);
      MakeFolderList(fs);
    }

    method MakeSearch(r: SearchReply)
      modifies this`buffer
      ensures buffer == old(buffer) + MakeSearchReply(r)
    {
      hide PackFiles, PackText, Pack, Translated;
      PackString(r.user, false);
      PackNumber(r.ticket, 4);
      PackNumber(|r.results|, 4);
      MakeFileList(r.results, true);
      PackChar(if r.slotFree then 1 else 0);
      PackNumber(r.avgSpeed, 4);
      PackNumber(r.queueLength, 8);
    }
  }

  /** A parse from here comes to the same end as one from the start, after so many passes. */
  ghost predicate Onward<T>(here: Parsed<T>, start: Parsed<T>, made: int) {
    here.value == start.value && here.rest == start.rest && here.wanted == start.wanted && made + here.passes == start.passes
  }
}
