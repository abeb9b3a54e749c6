/** A share tree folded into one list of folders, and flattened into one list of files. */
module ShareFolds {
  import opened FileEntries
  import opened KeyMaps
  import opened MapLaws
  import opened PeerMessages
  import opened ShareTree

  // ----- all folders of a tree

  /** Every folder with its files, a folder before its own folders. */
  function Nodes(t: Tree): Shares
    decreases t
  {
    [Entry(t.path, t.files)] + NodesOf(t.folders)
  }

  function NodesOf(fs: seq<Child>): Shares
    decreases fs
  {
    if fs == [] then [] else Nodes(fs[0].value) + NodesOf(fs[1..])
  }

  // ----- folding

  /** A folder whose path is there already is left out, with all that is in it. */
  function Fold(t: Tree, folded: Shares): Shares
    decreases t
  {
    if HasKey(folded, t.path) then folded else FoldAll(t.folders, Put(folded, t.path, t.files))
  }

  function FoldAll(fs: seq<Child>, folded: Shares): Shares
    decreases fs
  {
    if fs == [] then folded else FoldAll(fs[1..], Fold(fs[0].value, folded))
  }

  /** Folding keeps every folder exactly if all have paths of their own; it is then putting them in one by one. */
  lemma {:induction false} FoldKeepsIff(t: Tree, folded: Shares)
    requires Sorted(folded)
    ensures Sorted(Fold(t, folded)) && |Fold(t, folded)| <= |folded| + |Nodes(t)|
    ensures |Fold(t, folded)| == |folded| + |Nodes(t)| <==> Fresh(folded, Nodes(t))
    ensures Fresh(folded, Nodes(t)) ==> Fold(t, folded) == PutAll(folded, Nodes(t))
    decreases t
  {
    hide Put, HasKey, Sorted, Fresh, NodesOf, FoldAll;
    var own := Entry(t.path, t.files);
    var all := Nodes(t);
    assert all[0] == own && all[1..] == NodesOf(t.folders);
    FreshStep(folded, all);
    if !HasKey(folded, t.path) {
      PutSorted(folded, t.path, t.files);
      PutSize(folded, t.path, t.files);
      FoldAllKeepsIff(t.folders, Put(folded, t.path, t.files));
    }
  }

  lemma {:induction false} FoldAllKeepsIff(fs: seq<Child>, folded: Shares)
    requires Sorted(folded)
    ensures Sorted(FoldAll(fs, folded)) && |FoldAll(fs, folded)| <= |folded| + |NodesOf(fs)|
    ensures |FoldAll(fs, folded)| == |folded| + |NodesOf(fs)| <==> Fresh(folded, NodesOf(fs))
    ensures Fresh(folded, NodesOf(fs)) ==> FoldAll(fs, folded) == PutAll(folded, NodesOf(fs))
    decreases fs
  {
    hide Put, HasKey, Sorted, Fresh, Nodes, Fold, PutAll;
    if fs == [] {
      NothingFresh(folded);
      PutNothing(folded);
    } else {
      var first := Fold(fs[0].value, folded);
      FoldKeepsIff(fs[0].value, folded);
      FoldAllKeepsIff(fs[1..], first);
      FreshConcat(folded, Nodes(fs[0].value), NodesOf(fs[1..]));
      PutAllConcat(folded, Nodes(fs[0].value), NodesOf(fs[1..]));
    }
  }

  lemma PutNothing<V>(done: seq<Entry<V>>)
    ensures PutAll(done, []) == done
  {
  }

  // ----- flattening

  /** The name of a file as the network writes it, with its folder's path. */
  function FlatKey(path: Text, name: Text): Text {
    Backslashed(path) + [BACKSLASH] + name
  }

  /** The files of one folder under such names. */
  function Flats(path: Text, files: Folder): (r: Folder)
    ensures |r| == |files|
  {
    seq(|files|, i requires 0 <= i < |files| => Entry(FlatKey(path, files[i].key), files[i].value))
  }

  /** All files of a tree, those of a folder behind those of its own folders. */
  function FlatList(t: Tree): Folder
    decreases t
  {
    FlatListOf(t.folders) + Flats(t.path, t.files)
  }

  function FlatListOf(fs: seq<Child>): Folder
    decreases fs
  {
    if fs == [] then [] else FlatList(fs[0].value) + FlatListOf(fs[1..])
  }

  function FlatNodes(ns: Shares): Folder {
    if ns == [] then [] else Flats(ns[0].key, ns[0].value) + FlatNodes(ns[1..])
  }

  // ----- what the flat list holds

  /** A file of one of the folders, under its flat name. */
  predicate FileOf(ns: Shares, e: Entry<File>) {
    exists i, j :: 0 <= i < |ns| && 0 <= j < |ns[i].value|
                   && e == Entry(FlatKey(ns[i].key, ns[i].value[j].key), ns[i].value[j].value)
  }

  lemma FileOfConcat(a: Shares, b: Shares, e: Entry<File>)
    ensures FileOf(a + b, e) <==> FileOf(a, e) || FileOf(b, e)
  {
    hide FlatKey;
    if FileOf(a, e) {
      var i, j :| 0 <= i < |a| && 0 <= j < |a[i].value| && e == Entry(FlatKey(a[i].key, a[i].value[j].key), a[i].value[j].value);
      assert (a + b)[i] == a[i];
    }
    if FileOf(b, e) {
      var i, j :| 0 <= i < |b| && 0 <= j < |b[i].value| && e == Entry(FlatKey(b[i].key, b[i].value[j].key), b[i].value[j].value);
      assert (a + b)[|a| + i] == b[i];
    }
  }

  lemma FileOfOne(n: Entry<Folder>, e: Entry<File>)
    ensures FileOf([n], e) <==> e in Flats(n.key, n.value)
  {
    hide FlatKey;
    if e in Flats(n.key, n.value) {
      var j :| 0 <= j < |n.value| && Flats(n.key, n.value)[j] == e;
      assert [n][0] == n;
    }
    if FileOf([n], e) {
      var i, j :| 0 <= i < |[n]| && 0 <= j < |[n][i].value| && e == Entry(FlatKey([n][i].key, [n][i].value[j].key), [n][i].value[j].value);
      assert Flats(n.key, n.value)[j] == e;
    }
  }

  lemma {:induction false} FlatNodesFiles(ns: Shares, e: Entry<File>)
    ensures e in FlatNodes(ns) <==> FileOf(ns, e)
  {
    hide Flats, FileOf;
    if ns == [] {
      NoFiles(e);
    } else {
      FlatNodesFiles(ns[1..], e);
      FileOfOne(ns[0], e);
      FileOfConcat([ns[0]], ns[1..], e);
      assert [ns[0]] + ns[1..] == ns;
    }
  }

  lemma NoFiles(e: Entry<File>)
    ensures !FileOf([], e)
  {
  }

  lemma {:induction false} FlatListFiles(t: Tree, e: Entry<File>)
    ensures e in FlatList(t) <==> FileOf(Nodes(t), e)
    decreases t
  {
    hide Flats, FileOf, FlatListOf, NodesOf;
    FlatListOfFiles(t.folders, e);
    FileOfOne(Entry(t.path, t.files), e);
    FileOfConcat([Entry(t.path, t.files)], NodesOf(t.folders), e);
  }

  lemma {:induction false} FlatListOfFiles(fs: seq<Child>, e: Entry<File>)
    ensures e in FlatListOf(fs) <==> FileOf(NodesOf(fs), e)
    decreases fs
  {
    hide FileOf, FlatList, Nodes;
    if fs == [] {
      NoFiles(e);
    } else {
      FlatListFiles(fs[0].value, e);
      FlatListOfFiles(fs[1..], e);
      FileOfConcat(Nodes(fs[0].value), NodesOf(fs[1..]), e);
    }
  }

  // ----- when no file hides another

  predicate NoBackslash(t: Text) {
    BACKSLASH !in t
  }

  /** Folders that the network cannot confuse, with file names that do not look like paths. */
  ghost predicate Clear(ns: Shares) {
    && (forall i, j :: 0 <= i < |ns| && 0 <= j < |ns| && Backslashed(ns[i].key) == Backslashed(ns[j].key) ==> ns[i] == ns[j])
    && (forall i :: 0 <= i < |ns| ==> Consistent(ns[i].value) && forall j :: 0 <= j < |ns[i].value| ==> NoBackslash(ns[i].value[j].key))
  }

  /** Behind the last backslash stands the name. */
  lemma FlatKeyOneWay(p: Text, n: Text, q: Text, m: Text)
    requires FlatKey(p, n) == FlatKey(q, m) && NoBackslash(n) && NoBackslash(m)
    ensures Backslashed(p) == Backslashed(q) && n == m
  {
    hide Backslashed;
    var a, b := Backslashed(p), Backslashed(q);
    LastBackslash(a, n);
    LastBackslash(b, m);
    assert FlatKey(p, n)[..|a|] == a && FlatKey(q, m)[..|b|] == b;
    assert FlatKey(p, n)[|a| + 1..] == n && FlatKey(q, m)[|b| + 1..] == m;
  }

  lemma LastBackslash(a: Text, n: Text)
    requires NoBackslash(n)
    ensures var k := a + [BACKSLASH] + n;
            k[|a|] == BACKSLASH && forall i :: |a| < i < |k| ==> k[i] != BACKSLASH
  {
    var k := a + [BACKSLASH] + n;
    forall i | |a| < i < |k| ensures k[i] in n {
      assert k[i] == n[i - |a| - 1];
    }
  }

  lemma ClearConsistent(ns: Shares, es: Folder)
    requires Clear(ns) && forall e :: e in es ==> FileOf(ns, e)
    ensures Consistent(es)
  {
    hide FlatKey, Backslashed, NoBackslash;
    forall i, j | 0 <= i < |es| && 0 <= j < |es| && es[i].key == es[j].key ensures es[i] == es[j] {
      assert es[i] in es && es[j] in es;
      var a, x :| 0 <= a < |ns| && 0 <= x < |ns[a].value| && es[i] == Entry(FlatKey(ns[a].key, ns[a].value[x].key), ns[a].value[x].value);
      var b, y :| 0 <= b < |ns| && 0 <= y < |ns[b].value| && es[j] == Entry(FlatKey(ns[b].key, ns[b].value[y].key), ns[b].value[y].value);
      FlatKeyOneWay(ns[a].key, ns[a].value[x].key, ns[b].key, ns[b].value[y].key);
    }
  }

  /** The flat list holds exactly the files of the tree's folders, each under its folder's path. */
  lemma FlattenIff(fs: seq<Child>, e: Entry<File>)
    requires Clear(NodesOf(fs))
    ensures e in PutAll([], FlatListOf(fs)) <==> FileOf(NodesOf(fs), e)
  {
    hide Clear, FileOf, NodesOf, FlatListOf, Consistent, PutAll;
    forall x | x in FlatListOf(fs) ensures FileOf(NodesOf(fs), x) {
      FlatListOfFiles(fs, x);
    }
    ClearConsistent(NodesOf(fs), FlatListOf(fs));
    assert [] + FlatListOf(fs) == FlatListOf(fs);
    PutAllEntries([], FlatListOf(fs), e);
    FlatListOfFiles(fs, e);
  }

  /** Folding first makes no difference to it, if all folders have paths of their own. */
  lemma FoldFlattenSame(fs: seq<Child>, e: Entry<File>)
    requires Clear(NodesOf(fs)) && DistinctKeys(NodesOf(fs))
    ensures e in PutAll([], FlatNodes(FoldAll(fs, []))) <==> e in PutAll([], FlatListOf(fs))
  {
    hide Clear, FileOf, NodesOf, FlatListOf, Consistent, PutAll, FoldAll, DistinctKeys, Sorted, Fresh;
    var ns, folded := NodesOf(fs), FoldAll(fs, []);
    FoldedNodes(fs);
    forall x ensures FileOf(folded, x) <==> FileOf(ns, x) {
      SameFiles(folded, ns, x);
      SameFiles(ns, folded, x);
    }
    forall x | x in FlatNodes(folded) ensures FileOf(ns, x) {
      FlatNodesFiles(folded, x);
    }
    ClearConsistent(ns, FlatNodes(folded));
    assert [] + FlatNodes(folded) == FlatNodes(folded);
    PutAllEntries([], FlatNodes(folded), e);
    FlatNodesFiles(folded, e);
    FlattenIff(fs, e);
  }

  /** Folders with paths of their own are exactly those of the folded list. */
  lemma FoldedNodes(fs: seq<Child>)
    requires DistinctKeys(NodesOf(fs))
    ensures forall n :: n in FoldAll(fs, []) <==> n in NodesOf(fs)
  {
    hide NodesOf, FoldAll, PutAll, HasKey;
    FoldAllKeepsIff(fs, []);
    forall i | 0 <= i < |NodesOf(fs)| ensures !HasKey<Folder>([], NodesOf(fs)[i].key) {
      NoKeys<Folder>(NodesOf(fs)[i].key);
    }
    assert [] + NodesOf(fs) == NodesOf(fs);
    forall n ensures n in FoldAll(fs, []) <==> n in NodesOf(fs) {
      PutAllEntries([], NodesOf(fs), n);
    }
  }

  lemma SameFiles(a: Shares, b: Shares, e: Entry<File>)
    requires forall n :: n in a ==> n in b
    ensures FileOf(a, e) ==> FileOf(b, e)
  {
    hide FlatKey;
    if FileOf(a, e) {
      var i, j :| 0 <= i < |a| && 0 <= j < |a[i].value| && e == Entry(FlatKey(a[i].key, a[i].value[j].key), a[i].value[j].value);
      assert a[i] in b;
      var k :| 0 <= k < |b| && b[k] == a[i];
    }
  }

  // ----- what other users see

  /** No directory of a made list of shares is lost exactly if the network can tell their paths apart. */
  lemma SharesReplyKeepsIff(ds: Shares)
    requires SharesFit(ds)
    ensures |ParseSharesReply(MakeSharesReply(ds)).value| == |ds| <==> DistinctKeys(Translated(ds))
  {
    hide ParseSharesReply, MakeSharesReply, PutAll, Translated, HasKey, SharesFit;
    SharesReplyBack(ds);
    PutAllSizeIff([], Translated(ds));
    forall i | 0 <= i < |Translated(ds)| ensures !HasKey<Folder>([], Translated(ds)[i].key) {
      NoKeys<Folder>(Translated(ds)[i].key);
    }
  }

  /** Who is sent the folded list sees exactly the tree's folders with their files, each under the path the network writes. */
  lemma BrowsingSeesTree(fs: seq<Child>, e: Entry<Folder>)
    requires Clear(NodesOf(fs)) && DistinctKeys(NodesOf(fs)) && SharesFit(FoldAll(fs, []))
    ensures e in ParseSharesReply(MakeSharesReply(FoldAll(fs, []))).value
            <==> exists n :: n in NodesOf(fs) && e == Entry(Backslashed(n.key), n.value)
  {
    hide ParseSharesReply, MakeSharesReply, PutAll, FoldAll, NodesOf, Backslashed, SharesFit, DistinctKeys, Translated, Consistent, Clear;
    var ns, folded := NodesOf(fs), FoldAll(fs, []);
    SharesReplyBack(folded);
    FoldedNodes(fs);
    TranslatedConsistent(folded, ns);
    assert [] + Translated(folded) == Translated(folded);
    PutAllEntries([], Translated(folded), e);
    TranslatedEntries(folded, e);
  }

  lemma TranslatedEntries(ns: Shares, e: Entry<Folder>)
    ensures e in Translated(ns) <==> exists n :: n in ns && e == Entry(Backslashed(n.key), n.value)
  {
    hide Backslashed;
    var sent := Translated(ns);
    if e in sent {
      var i :| 0 <= i < |sent| && sent[i] == e;
      assert ns[i] in ns && e == Entry(Backslashed(ns[i].key), ns[i].value);
    }
    if exists n :: n in ns && e == Entry(Backslashed(n.key), n.value) {
      var n :| n in ns && e == Entry(Backslashed(n.key), n.value);
      var i :| 0 <= i < |ns| && ns[i] == n;
      assert sent[i] == e;
    }
  }

  lemma TranslatedConsistent(folded: Shares, ns: Shares)
    requires Clear(ns) && forall n :: n in folded ==> n in ns
    ensures Consistent(Translated(folded))
  {
    hide Backslashed, NoBackslash;
    var sent := Translated(folded);
    forall i, j | 0 <= i < |sent| && 0 <= j < |sent| && sent[i].key == sent[j].key ensures sent[i] == sent[j] {
      assert folded[i] in ns && folded[j] in ns;
      var a :| 0 <= a < |ns| && ns[a] == folded[i];
      var b :| 0 <= b < |ns| && ns[b] == folded[j];
    }
  }
}
