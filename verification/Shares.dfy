/** The inverted index over shared files, and the search through it. */
module Shares {
  import opened Basics
  import opened Ascii
  import opened FileEntries
  import opened SharesTerms

  datatype Entry = Entry(path: string, file: File)

  type Folder = map<string, File>

  /** For the first character of a word, for the word: the files with that word. */
  type CharMap = map<char, map<string, Folder>>

  function First(word: string): char {
    if word == "" then 0 as char else word[0]
  }

  /** What the index says of a word, an absent entry being as good as an empty one. */
  function Fetch(index: CharMap, word: string): Folder {
    if First(word) in index && word in index[First(word)] then index[First(word)][word] else map[]
  }

  /** Looking a word up inserts an empty entry if there is none. */
  function Touch(index: CharMap, word: string): CharMap {
    var row := if First(word) in index then index[First(word)] else map[];
    index[First(word) := if word in row then row else row[word := map[]]]
  }

  function Insert(index: CharMap, word: string, e: Entry): CharMap {
    var row := if First(word) in index then index[First(word)] else map[];
    index[First(word) := row[word := (if word in row then row[word] else map[])[e.path := e.file]]]
  }

  lemma FetchTouch(index: CharMap, word: string, other: string)
    ensures Fetch(Touch(index, word), other) == Fetch(index, other)
  {
  }

  lemma FetchInsert(index: CharMap, word: string, e: Entry, other: string)
    ensures Fetch(Insert(index, word, e), other)
            == if other == word then Fetch(index, other)[e.path := e.file] else Fetch(index, other)
  {
  }

  // ----- what the index stands for

  /** The files of the list whose paths have the word as a token. */
  function Posting(flat: seq<Entry>, word: string): Folder {
    if flat == [] then map[]
    else
      var e := flat[|flat| - 1];
      var rest := Posting(flat[..|flat| - 1], word);
      if word in Words(e.path) then rest[e.path := e.file] else rest
  }

  ghost predicate Indexes(index: CharMap, flat: seq<Entry>) {
    forall word :: Fetch(index, word) == Posting(flat, word)
  }

  predicate DistinctPaths(flat: seq<Entry>) {
    forall i, j :: 0 <= i < j < |flat| ==> flat[i].path != flat[j].path
  }

  /** Character by character, a beginning before the whole. */
  predicate PathLess(a: string, b: string) {
    b != "" && (a == "" || a[0] < b[0] || (a[0] == b[0] && PathLess(a[1..], b[1..])))
  }

  /** The files stand in the order of their paths. */
  predicate InOrder(flat: seq<Entry>) {
    forall i, j :: 0 <= i < j < |flat| ==> PathLess(flat[i].path, flat[j].path)
  }

  lemma {:induction false} PathLessOneWay(a: string, b: string)
    requires PathLess(a, b)
    ensures a != b && !PathLess(b, a)
    decreases |a|
  {
    if a != "" && a[0] == b[0] {
      PathLessOneWay(a[1..], b[1..]);
    }
  }

  lemma OrderIsDistinct(flat: seq<Entry>)
    requires InOrder(flat)
    ensures DistinctPaths(flat)
  {
    hide PathLess;
    forall i, j | 0 <= i < j < |flat| ensures flat[i].path != flat[j].path {
      PathLessOneWay(flat[i].path, flat[j].path);
    }
  }

  lemma {:induction false} PostingWithin(flat: seq<Entry>, word: string, path: string) returns (i: nat)
    requires path in Posting(flat, word)
    ensures i < |flat| && flat[i].path == path
  {
    if path == flat[|flat| - 1].path {
      i := |flat| - 1;
    } else {
      i := PostingWithin(flat[..|flat| - 1], word, path);
    }
  }

  /** A file is in the index under a word exactly if the word is a token of its path. */
  lemma {:induction false} PostingIsTokens(flat: seq<Entry>, word: string, i: nat)
    requires DistinctPaths(flat) && i < |flat|
    ensures flat[i].path in Posting(flat, word) <==> IsToken(flat[i].path, word)
    ensures flat[i].path in Posting(flat, word) ==> Posting(flat, word)[flat[i].path] == flat[i].file
    decreases |flat|
  {
    hide Words, IsToken;
    var last, rest := flat[|flat| - 1], flat[..|flat| - 1];
    WordsAreTokens(last.path, word);
    if i < |rest| {
      PostingIsTokens(rest, word, i);
    } else if last.path in Posting(rest, word) {
      var j := PostingWithin(rest, word, last.path);
    }
  }

  lemma {:induction false} NoEmptyWord(flat: seq<Entry>)
    ensures Posting(flat, "") == map[]
  {
    if flat != [] {
      NoEmptyWord(flat[..|flat| - 1]);
      TokenNotEmpty(flat[|flat| - 1].path);
    }
  }

  // ----- the linear scan

  predicate At(text: string, part: string, i: nat) {
    i + |part| <= |text| && text[i..i + |part|] == part
  }

  predicate Contains(text: string, part: string) {
    exists i :: 0 <= i <= |text| && At(text, part, i)
  }

  lemma ContainsIff(text: string, part: string)
    ensures Contains(text, part) <==> exists before, behind :: text == before + part + behind
  {
    if Contains(text, part) {
      var i :| 0 <= i <= |text| && At(text, part, i);
      assert text == text[..i] + part + text[i + |part|..];
    }
    if exists before, behind :: text == before + part + behind {
      var before, behind :| text == before + part + behind;
      assert At(text, part, |before|);
    }
  }

  function PlainWords(ts: seq<Term>): seq<string> {
    if ts == [] then [] else (match ts[0] case Plain(w) => [w] case _ => []) + PlainWords(ts[1..])
  }

  function Excluded(ts: seq<Term>): seq<string> {
    if ts == [] then [] else (match ts[0] case Without(w) => [w] case _ => []) + Excluded(ts[1..])
  }

  function Phrases(ts: seq<Term>): seq<string> {
    if ts == [] then [] else (match ts[0] case Phrase(w) => [w] case _ => []) + Phrases(ts[1..])
  }

  predicate HasPhrases(path: string, phrases: seq<string>) {
    forall p :: p in phrases ==> Contains(Lower(path), Lower(p))
  }

  /** Every plain word is a token of the path, every phrase a part of it, and no excluded text is. */
  predicate Accepts(path: string, ts: seq<Term>) {
    && (forall w :: w in PlainWords(ts) ==> w in Words(path))
    && (forall x :: x in Excluded(ts) ==> !Contains(Lower(path), x))
    && HasPhrases(path, Phrases(ts))
  }

  const CAP := 500

  /** Adds the first n files of the list that accept holds for. */
  function Gather(flat: seq<Entry>, accept: Entry -> bool, n: nat, found: Folder): Folder
    decreases |flat|
  {
    if n == 0 || flat == [] then found
    else if accept(flat[0]) then Gather(flat[1..], accept, n - 1, found[flat[0].path := flat[0].file])
    else Gather(flat[1..], accept, n, found)
  }

  /** What the search adds to files found before, said without the index. */
  function Answer(flat: seq<Entry>, ts: seq<Term>, found: Folder): Folder {
    if Plain("") in ts then found
    else if PlainWords(ts) != [] then Gather(flat, (e: Entry) => e.path !in found && Accepts(e.path, ts), CAP, found)
    else if Phrases(ts) != [] then Gather(flat, (e: Entry) => HasPhrases(e.path, Phrases(ts)), CAP, found)
    else found
  }

  // ----- the index and the search, in place

  /** The index stands for some files, and for the words of one more that have been put in so far. */
  ghost predicate IndexesPart(index: CharMap, flat: seq<Entry>, e: Entry, done: seq<string>) {
    forall word :: Fetch(index, word) == if word in done then Posting(flat, word)[e.path := e.file] else Posting(flat, word)
  }

  lemma PartGrows(index: CharMap, flat: seq<Entry>, e: Entry, done: seq<string>, word: string)
    requires IndexesPart(index, flat, e, done)
    ensures IndexesPart(Insert(index, word, e), flat, e, done + [word])
  {
    hide Insert, Fetch, Posting;
    forall w
      ensures Fetch(Insert(index, word, e), w) == if w in done + [word] then Posting(flat, w)[e.path := e.file] else Posting(flat, w)
    {
      FetchInsert(index, word, e, w);
    }
  }

  lemma PartIsNone(index: CharMap, flat: seq<Entry>, e: Entry)
    requires Indexes(index, flat)
    ensures IndexesPart(index, flat, e, [])
  {
    hide Fetch, Posting;
  }

  lemma PartIsAll(index: CharMap, flat: seq<Entry>, n: nat, done: seq<string>)
    requires n < |flat| && IndexesPart(index, flat[..n], flat[n], done) && done == Words(flat[n].path)
    ensures Indexes(index, flat[..n + 1])
  {
    hide Fetch, Words;
    assert flat[..n + 1][..n] == flat[..n];
  }

  class SharesDatabase {
    /** The shared files, in the order of their paths. */
    var flat: seq<Entry>
    var charMap: CharMap

    constructor (flat: seq<Entry>)
      ensures this.flat == flat && Indexes(charMap, flat)
    {
      this.flat := flat;
      charMap := map[];
      new;
      UpdateWordMaps();
    }

    /** Builds the index anew. */
    method UpdateWordMaps()
      modifies this`charMap
      ensures Indexes(charMap, flat)
    {
      charMap := map[];
      var f := 0;
      while f < |flat|
        invariant 0 <= f <= |flat|
        invariant Indexes(charMap, flat[..f])
      {
        AddWords(f);
        f := f + 1;
      }
      assert flat[..f] == flat;
    }

    /** Puts the words of one more file into the index. */
    method AddWords(f: nat)
      requires f < |flat| && Indexes(charMap, flat[..f])
      modifies this`charMap
      ensures Indexes(charMap, flat[..f + 1])
    {
      hide Fetch, Posting, Insert, Indexes, IndexesPart, Mutate;
      var e := flat[f];
      var word := "";
      ghost var done := [];
      PartIsNone(charMap, flat[..f], e);
      var i := 0;
      while i < |e.path|
        invariant 0 <= i <= |e.path|
        invariant Words(e.path) == done + WordsFrom(e.path, i, word)
        invariant IndexesPart(charMap, flat[..f], e, done)
      {
        var c := Mutate(e.path[i], false);
        if c == ' ' {
          if word != "" {
            PartGrows(charMap, flat[..f], e, done, word);
            charMap := Insert(charMap, word, e);
            done := done + [word];
          }
          word := "";
        } else {
          word := word + [c];
        }
        i := i + 1;
      }
      if word != "" {
        PartGrows(charMap, flat[..f], e, done, word);
        charMap := Insert(charMap, word, e);
        done := done + [word];
      }
      PartIsAll(charMap, flat, f, done);
    }

    /** Splits the query into folders to intersect, texts to exclude and phrases; a word no file has ends the search. */
    method BreakUp(query: string) returns (ok: bool, qIn: seq<Folder>, qOut: seq<string>, qPart: seq<string>)
      requires Indexes(charMap, flat)
      modifies this`charMap
      ensures Indexes(charMap, flat)
      ensures ok ==> Looked(flat, Terms(query), qIn) && qOut == Excluded(Terms(query)) && qPart == Phrases(Terms(query))
      ensures !ok ==> exists w :: Plain(w) in Terms(query) && Posting(flat, w) == map[]
    {
      hide Indexes, Posting, Mutate, ScanFrom, Fetch, Touch, Looked, PlainWords, Excluded, Phrases;
      NoneLooked(flat);
      var q := query + " ";
      var word, quoted, wasQuoted := "", false, false;
      ok, qIn, qOut, qPart := true, [], [], [];
      ghost var ts: seq<Term> := [];
      var i := 0;
      assert q[0..] == q;
      while i < |q|
        invariant 0 <= i <= |q|
        invariant ScanFrom(Scan(word, quoted, wasQuoted, ts), q[i..]).terms == Terms(query)
        invariant Looked(flat, ts, qIn) && qOut == Excluded(ts) && qPart == Phrases(ts)
        invariant Indexes(charMap, flat)
      {
        ghost var before := Scan(word, quoted, wasQuoted, ts);
        ScanStep(before, q, i);
        if q[i] == '"' {
          quoted, wasQuoted := !quoted, true;
        } else {
          var c := Mutate(q[i], if quoted then false else word == "");
          if !quoted && c == ' ' {
            var firstC := First(word);
            ghost var t := Finish(word, wasQuoted);
            ListsGrow(flat, ts, t, qIn);
            ts := ts + [t];
            if wasQuoted || firstC == '*' {
              if firstC == '*' {
                word := word[1..];
              }
              qPart := qPart + [word];
            } else if firstC == '-' {
              qOut := qOut + [word[1..]];
            } else {
              charMap := Lookup(charMap, flat, word);
              if Fetch(charMap, word) == map[] {
                NotFound(query, before, q, i, word);
                return false, qIn, qOut, qPart;
              }
              qIn := qIn + [Fetch(charMap, word)];
            }
            wasQuoted := false;
            word := "";
          } else {
            word := word + [c];
          }
        }
        i := i + 1;
      }
      assert q[i..] == "";
      ScanNone(Scan(word, quoted, wasQuoted, ts));
    }

    /** Whether some text of the list occurs. */
    method AnyIn(text: string, parts: seq<string>) returns (found: bool)
      ensures found <==> exists x :: x in parts && Contains(text, x)
    {
      var k := 0;
      while k < |parts|
        invariant 0 <= k <= |parts|
        invariant forall j :: 0 <= j < k ==> !Contains(text, parts[j])
      {
        if Contains(text, parts[k]) {
          return true;
        }
        k := k + 1;
      }
      return false;
    }

    /** Whether every phrase of the list occurs in the path. */
    method AllIn(path: string, phrases: seq<string>) returns (all: bool)
      ensures all <==> HasPhrases(path, phrases)
    {
      var k := 0;
      while k < |phrases|
        invariant 0 <= k <= |phrases|
        invariant forall j :: 0 <= j < k ==> Contains(Lower(path), Lower(phrases[j]))
      {
        if !Contains(Lower(path), Lower(phrases[k])) {
          return false;
        }
        k := k + 1;
      }
      return true;
    }

    /** Whether a file is in every folder. */
    method InAll(path: string, folders: seq<Folder>) returns (all: bool)
      ensures all <==> forall k :: 0 <= k < |folders| ==> path in folders[k]
    {
      var k := 0;
      while k < |folders|
        invariant 0 <= k <= |folders|
        invariant forall j :: 0 <= j < k ==> path in folders[j]
      {
        if path !in folders[k] {
          return false;
        }
        k := k + 1;
      }
      return true;
    }

    /** Whether a file of every word's folder is free of the excluded texts and has the phrases. */
    method Passes(path: string, qIn: seq<Folder>, qOut: seq<string>, qPart: seq<string>) returns (ok: bool)
      ensures ok <==> (forall x :: x in qOut ==> !Contains(Lower(path), x))
                      && (forall k :: 0 <= k < |qIn| ==> path in qIn[k]) && HasPhrases(path, qPart)
    {
      hide Contains, HasPhrases;
      if qOut != [] {
        var bad := AnyIn(Lower(path), qOut);
        if bad {
          return false;
        }
      }
      ok := InAll(path, qIn);
      if ok {
        ok := AllIn(path, qPart);
      }
    }

    /** Goes through the first word's folder in the order of its paths. */
    method GatherWords(qIn: seq<Folder>, qOut: seq<string>, qPart: seq<string>, found: Folder, ghost ts: seq<Term>)
      returns (result: Folder)
      requires InOrder(flat) && qIn != [] && Looked(flat, ts, qIn) && qOut == Excluded(ts) && qPart == Phrases(ts)
      ensures result == Gather(flat, (e: Entry) => e.path !in found && Accepts(e.path, ts), CAP, found)
    {
      hide Looked, Posting, Excluded, Phrases, PlainWords, Words, HasPhrases, Contains, Accepts, Gather, InOrder, Remaining, DistinctPaths;
      ghost var accept := (e: Entry) => e.path !in found && Accepts(e.path, ts);
      var base, results := qIn[0], 0;
      var rest := base.Keys;
      result := found;
      ghost var f := 0;
      assert flat[0..] == flat;
      OrderIsDistinct(flat);
      BaseIsListed(flat, ts, qIn);
      while rest != {}
        invariant 0 <= f <= |flat| && 0 <= results < CAP && Remaining(flat, f, base, rest)
        invariant Gather(flat, accept, CAP, found) == Gather(flat[f..], accept, CAP - results, result)
        invariant forall j :: f <= j < |flat| ==> (flat[j].path in result <==> flat[j].path in found)
        decreases |rest|
      {
        ghost var g;
        var path;
        path, g := NextPath(flat, f, base, rest);
        SkipToNext(flat, f, g, ts, qIn, accept, CAP - results, result);
        GatherStep(flat, g, accept, CAP - results, result);
        AcceptsByFolders(flat, g, ts, qIn);
        OthersStay(flat, g, result, base);
        rest := rest - {path};
        f := g + 1;
        if path in result {
          continue;
        }
        var ok := Passes(path, qIn, qOut, qPart);
        if ok {
          result := result[path := base[path]];
          results := results + 1;
        }
        if results >= CAP {
          GatherFull(flat[f..], accept, result);
          return;
        }
      }
      NothingRemains(flat, f, base);
      SkipToEnd(flat, f, ts, qIn, accept, CAP - results, result);
    }

    /** The first path that remains of the base folder. */
    static method NextPath(ghost flat: seq<Entry>, ghost f: nat, base: Folder, rest: set<string>) returns (path: string, ghost g: nat)
      requires InOrder(flat) && Remaining(flat, f, base, rest) && rest != {}
      ensures f <= g < |flat| && path == flat[g].path && path in rest && path in base && base[path] == flat[g].file
      ensures forall j :: f <= j < g ==> flat[j].path !in base
      ensures Remaining(flat, g + 1, base, rest - {path})
    {
      hide PathLess, InOrder, Remaining, DistinctPaths;
      SomeRemains(flat, f, base, rest);
      g := NextListed(flat, f, rest);
      LeastPath(flat, f, g, base, rest);
      path :| path in rest && forall q :: q in rest ==> q == path || PathLess(path, q);
      OnlyLeast(flat, g, rest, path);
      RemainingNext(flat, f, g, base, rest);
    }

    /** Goes through all files; texts to exclude are not looked at. */
    method GatherPhrases(qPart: seq<string>, found: Folder) returns (result: Folder)
      ensures result == Gather(flat, (e: Entry) => HasPhrases(e.path, qPart), CAP, found)
    {
      hide HasPhrases;
      ghost var accept := (e: Entry) => HasPhrases(e.path, qPart);
      var results := 0;
      result := found;
      var f := 0;
      assert flat[0..] == flat;
      while f < |flat|
        invariant 0 <= f <= |flat| && 0 <= results < CAP
        invariant Gather(flat, accept, CAP, found) == Gather(flat[f..], accept, CAP - results, result)
      {
        GatherStep(flat, f, accept, CAP - results, result);
        var all := AllIn(flat[f].path, qPart);
        if all {
          result := result[flat[f].path := flat[f].file];
          results := results + 1;
        }
        f := f + 1;
        if results >= CAP {
          return;
        }
      }
    }

    /** Adds the files a query finds to those found before. */
    method Search(query: string, found: Folder) returns (result: Folder)
      requires Indexes(charMap, flat) && InOrder(flat)
      modifies this`charMap
      ensures Indexes(charMap, flat)
      ensures result == Answer(flat, Terms(query), found)
    {
      hide Indexes, Looked, Posting, Terms, Gather, PlainWords, Phrases, Excluded, HasPhrases, Accepts, DistinctPaths, InOrder;
      result := found;
      OrderIsDistinct(flat);
      if query == "" {
        NoTerms();
        return;
      }
      var ok, qIn, qOut, qPart := BreakUp(query);
      ghost var ts := Terms(query);
      if !ok {
        NothingFound(flat, ts, found);
        return;
      }
      AllFound(flat, ts, qIn);
      if qIn == [] && qPart == [] {
        return;
      }
      if qIn != [] {
        result := GatherWords(qIn, qOut, qPart, found, ts);
      } else {
        result := GatherPhrases(qPart, found);
      }
    }
  }

  /** The folders of the plain words, none of them empty. */
  predicate Looked(flat: seq<Entry>, ts: seq<Term>, qIn: seq<Folder>) {
    |qIn| == |PlainWords(ts)| && forall k :: 0 <= k < |qIn| ==> qIn[k] == Posting(flat, PlainWords(ts)[k]) && qIn[k] != map[]
  }

  lemma NoneLooked(flat: seq<Entry>)
    ensures Looked(flat, [], []) && Excluded([]) == [] && Phrases([]) == []
  {
  }

  function Lookup(index: CharMap, ghost flat: seq<Entry>, word: string): (r: CharMap)
    requires Indexes(index, flat)
    ensures Indexes(r, flat) && Fetch(r, word) == Posting(flat, word)
  {
    TouchKeeps(index, flat, word);
    Touch(index, word)
  }

  lemma TouchKeeps(index: CharMap, flat: seq<Entry>, word: string)
    requires Indexes(index, flat)
    ensures Indexes(Touch(index, word), flat)
  {
    hide Touch, Fetch, Posting;
    forall w ensures Fetch(Touch(index, word), w) == Posting(flat, w) {
      FetchTouch(index, word, w);
    }
  }

  lemma ScanStep(s: Scan, q: string, i: nat)
    requires i < |q|
    ensures ScanFrom(s, q[i..]) == ScanFrom(Next(s, q[i]), q[i + 1..])
  {
    assert q[i..][0] == q[i] && q[i..][1..] == q[i + 1..];
  }

  lemma ListsOfOne(t: Term)
    ensures PlainWords([t]) == (match t case Plain(w) => [w] case _ => [])
    ensures Excluded([t]) == (match t case Without(w) => [w] case _ => [])
    ensures Phrases([t]) == (match t case Phrase(w) => [w] case _ => [])
  {
    assert [t][1..] == [];
  }

  lemma {:induction false} PlainWordsGrow(ts: seq<Term>, t: Term)
    ensures PlainWords(ts + [t]) == PlainWords(ts) + PlainWords([t])
  {
    if ts == [] {
      assert ts + [t] == [t];
    } else {
      assert (ts + [t])[0] == ts[0] && (ts + [t])[1..] == ts[1..] + [t];
      PlainWordsGrow(ts[1..], t);
      var head := match ts[0] case Plain(w) => [w] case _ => [];
      assert head + (PlainWords(ts[1..]) + PlainWords([t])) == head + PlainWords(ts[1..]) + PlainWords([t]);
    }
  }

  lemma {:induction false} ExcludedGrow(ts: seq<Term>, t: Term)
    ensures Excluded(ts + [t]) == Excluded(ts) + Excluded([t])
  {
    if ts == [] {
      assert ts + [t] == [t];
    } else {
      assert (ts + [t])[0] == ts[0] && (ts + [t])[1..] == ts[1..] + [t];
      ExcludedGrow(ts[1..], t);
      var head := match ts[0] case Without(w) => [w] case _ => [];
      assert head + (Excluded(ts[1..]) + Excluded([t])) == head + Excluded(ts[1..]) + Excluded([t]);
    }
  }

  lemma {:induction false} PhrasesGrow(ts: seq<Term>, t: Term)
    ensures Phrases(ts + [t]) == Phrases(ts) + Phrases([t])
  {
    if ts == [] {
      assert ts + [t] == [t];
    } else {
      assert (ts + [t])[0] == ts[0] && (ts + [t])[1..] == ts[1..] + [t];
      PhrasesGrow(ts[1..], t);
      var head := match ts[0] case Phrase(w) => [w] case _ => [];
      assert head + (Phrases(ts[1..]) + Phrases([t])) == head + Phrases(ts[1..]) + Phrases([t]);
    }
  }

  /** The three lists after one more term. */
  lemma ListsGrow(flat: seq<Entry>, ts: seq<Term>, t: Term, qIn: seq<Folder>)
    requires Looked(flat, ts, qIn)
    ensures t.Plain? && Posting(flat, t.word) != map[] ==> Looked(flat, ts + [t], qIn + [Posting(flat, t.word)])
    ensures !t.Plain? ==> Looked(flat, ts + [t], qIn)
    ensures Excluded(ts + [t]) == Excluded(ts) + (match t case Without(w) => [w] case _ => [])
    ensures Phrases(ts + [t]) == Phrases(ts) + (match t case Phrase(w) => [w] case _ => [])
  {
    hide PlainWords, Excluded, Phrases, Posting;
    ListsOfOne(t);
    PlainWordsGrow(ts, t);
    ExcludedGrow(ts, t);
    PhrasesGrow(ts, t);
  }

  lemma {:induction false} TermsStay(s: Scan, q: string)
    ensures s.terms <= ScanFrom(s, q).terms
    decreases |q|
  {
    hide Mutate, Finish;
    if q != "" {
      TermsStay(Next(s, q[0]), q[1..]);
    }
  }

  lemma NotFound(query: string, s: Scan, q: string, i: nat, word: string)
    requires i < |q| && ScanFrom(Next(s, q[i]), q[i + 1..]).terms == Terms(query)
    requires Next(s, q[i]).terms == s.terms + [Plain(word)]
    ensures Plain(word) in Terms(query)
  {
    hide Next, ScanFrom, Terms;
    TermsStay(Next(s, q[i]), q[i + 1..]);
    var ts := Next(s, q[i]).terms;
    assert ts[|ts| - 1] == Plain(word);
    assert Terms(query)[|ts| - 1] == Plain(word);
  }

  // ----- steps of the proof

  lemma GatherStep(flat: seq<Entry>, f: nat, accept: Entry -> bool, n: nat, found: Folder)
    requires f < |flat| && n > 0
    ensures Gather(flat[f..], accept, n, found)
            == if accept(flat[f]) then Gather(flat[f + 1..], accept, n - 1, found[flat[f].path := flat[f].file])
               else Gather(flat[f + 1..], accept, n, found)
    ensures Gather(flat[|flat|..], accept, n, found) == found
  {
    assert flat[f..][1..] == flat[f + 1..];
  }

  lemma InFolders(flat: seq<Entry>, f: nat, ts: seq<Term>, qIn: seq<Folder>)
    requires DistinctPaths(flat) && f < |flat| && Looked(flat, ts, qIn)
    ensures (forall k :: 0 <= k < |qIn| ==> flat[f].path in qIn[k]) <==> forall w :: w in PlainWords(ts) ==> w in Words(flat[f].path)
  {
    hide Posting, PlainWords, Words, DistinctPaths;
    forall k | 0 <= k < |qIn| ensures flat[f].path in qIn[k] <==> PlainWords(ts)[k] in Words(flat[f].path) {
      PostingIsTokens(flat, PlainWords(ts)[k], f);
      WordsAreTokens(flat[f].path, PlainWords(ts)[k]);
    }
  }

  // ----- going through a folder is going through the list

  /** Of a folder of listed files there remain those from index f on. */
  ghost predicate Remaining(flat: seq<Entry>, f: nat, base: Folder, rest: set<string>) {
    && f <= |flat| && rest <= base.Keys
    && (forall j :: 0 <= j < |flat| ==> (flat[j].path in rest <==> f <= j && flat[j].path in base))
    && (forall q :: q in rest ==> exists j :: f <= j < |flat| && flat[j].path == q)
    && (forall j :: 0 <= j < |flat| && flat[j].path in base ==> base[flat[j].path] == flat[j].file)
  }

  lemma NothingRemains(flat: seq<Entry>, f: nat, base: Folder)
    requires Remaining(flat, f, base, {})
    ensures forall j :: f <= j < |flat| ==> flat[j].path !in base
  {
  }

  /** The first word's folder holds files of the list only, with their records. */
  lemma BaseIsListed(flat: seq<Entry>, ts: seq<Term>, qIn: seq<Folder>)
    requires DistinctPaths(flat) && qIn != [] && Looked(flat, ts, qIn)
    ensures Remaining(flat, 0, qIn[0], qIn[0].Keys)
  {
    hide Posting, PlainWords;
    forall p | p in qIn[0] ensures exists j :: 0 <= j < |flat| && flat[j].path == p {
      var j := PostingWithin(flat, PlainWords(ts)[0], p);
    }
    forall j | 0 <= j < |flat| && flat[j].path in qIn[0] ensures qIn[0][flat[j].path] == flat[j].file {
      PostingIsTokens(flat, PlainWords(ts)[0], j);
    }
  }

  /** Adding a file changes nothing for those behind it. */
  lemma OthersStay(flat: seq<Entry>, g: nat, found: Folder, base: Folder)
    requires InOrder(flat) && g < |flat| && flat[g].path in base
    ensures var more := found[flat[g].path := base[flat[g].path]];
            forall j :: g < j < |flat| ==> (flat[j].path in more <==> flat[j].path in found)
  {
    OrderIsDistinct(flat);
  }

  /** The next file of the list whose path is among these. */
  ghost function NextListed(flat: seq<Entry>, f: nat, rest: set<string>): (g: nat)
    requires exists j :: f <= j < |flat| && flat[j].path in rest
    ensures f <= g < |flat| && flat[g].path in rest && forall j :: f <= j < g ==> flat[j].path !in rest
    decreases |flat| - f
  {
    if flat[f].path in rest then f else NextListed(flat, f + 1, rest)
  }

  lemma SomeRemains(flat: seq<Entry>, f: nat, base: Folder, rest: set<string>)
    requires Remaining(flat, f, base, rest) && rest != {}
    ensures exists j :: f <= j < |flat| && flat[j].path in rest
  {
    var q :| q in rest;
  }

  lemma LeastPath(flat: seq<Entry>, f: nat, g: nat, base: Folder, rest: set<string>)
    requires InOrder(flat) && Remaining(flat, f, base, rest) && f <= g < |flat| && flat[g].path in rest
    requires forall j :: f <= j < g ==> flat[j].path !in rest
    ensures forall q :: q in rest ==> q == flat[g].path || PathLess(flat[g].path, q)
  {
    hide PathLess;
  }

  lemma RemainingNext(flat: seq<Entry>, f: nat, g: nat, base: Folder, rest: set<string>)
    requires InOrder(flat) && Remaining(flat, f, base, rest) && f <= g < |flat| && flat[g].path in rest
    requires forall j :: f <= j < g ==> flat[j].path !in rest
    ensures flat[g].path in base && base[flat[g].path] == flat[g].file
    ensures forall j :: f <= j < g ==> flat[j].path !in base
    ensures Remaining(flat, g + 1, base, rest - {flat[g].path})
  {
    hide PathLess, InOrder;
    OrderIsDistinct(flat);
  }

  lemma OnlyLeast(flat: seq<Entry>, g: nat, rest: set<string>, path: string)
    requires g < |flat| && flat[g].path in rest && path in rest
    requires forall q :: q in rest ==> q == flat[g].path || PathLess(flat[g].path, q)
    requires forall q :: q in rest ==> q == path || PathLess(path, q)
    ensures path == flat[g].path
  {
    hide PathLess;
    if path != flat[g].path {
      PathLessOneWay(path, flat[g].path);
    }
  }

  lemma AcceptsByFolders(flat: seq<Entry>, f: nat, ts: seq<Term>, qIn: seq<Folder>)
    requires DistinctPaths(flat) && f < |flat| && Looked(flat, ts, qIn)
    ensures Accepts(flat[f].path, ts)
            <==> (forall x :: x in Excluded(ts) ==> !Contains(Lower(flat[f].path), x))
                 && (forall k :: 0 <= k < |qIn| ==> flat[f].path in qIn[k]) && HasPhrases(flat[f].path, Phrases(ts))
  {
    hide Posting, PlainWords, Words, DistinctPaths, Contains, HasPhrases, Excluded, Phrases, Looked;
    InFolders(flat, f, ts, qIn);
  }

  lemma {:induction false} SkipToNext(flat: seq<Entry>, f: nat, g: nat, ts: seq<Term>, qIn: seq<Folder>,
                                      accept: Entry -> bool, n: nat, found: Folder)
    requires DistinctPaths(flat) && f <= g <= |flat| && n > 0 && qIn != [] && Looked(flat, ts, qIn)
    requires forall e :: accept(e) ==> Accepts(e.path, ts)
    requires forall j :: f <= j < g ==> flat[j].path !in qIn[0]
    ensures Gather(flat[f..], accept, n, found) == Gather(flat[g..], accept, n, found)
    decreases g - f
  {
    hide Gather, Accepts, Looked, DistinctPaths;
    if f < g {
      AcceptsByFolders(flat, f, ts, qIn);
      GatherStep(flat, f, accept, n, found);
      SkipToNext(flat, f + 1, g, ts, qIn, accept, n, found);
    }
  }

  lemma SkipToEnd(flat: seq<Entry>, f: nat, ts: seq<Term>, qIn: seq<Folder>, accept: Entry -> bool, n: nat, found: Folder)
    requires DistinctPaths(flat) && f <= |flat| && n > 0 && qIn != [] && Looked(flat, ts, qIn)
    requires forall e :: accept(e) ==> Accepts(e.path, ts)
    requires forall j :: f <= j < |flat| ==> flat[j].path !in qIn[0]
    ensures Gather(flat[f..], accept, n, found) == found
  {
    hide Accepts, Looked, DistinctPaths;
    SkipToNext(flat, f, |flat|, ts, qIn, accept, n, found);
    assert flat[|flat|..] == [];
  }

  lemma GatherFull(flat: seq<Entry>, accept: Entry -> bool, found: Folder)
    ensures Gather(flat, accept, 0, found) == found
  {
  }

  lemma {:induction false} GatherNone(flat: seq<Entry>, accept: Entry -> bool, n: nat, found: Folder)
    requires forall e :: e in flat ==> !accept(e)
    ensures Gather(flat, accept, n, found) == found
    decreases |flat|
  {
    if flat != [] {
      GatherNone(flat[1..], accept, n, found);
    }
  }

  lemma {:induction false} InPlainWords(ts: seq<Term>, w: string)
    ensures Plain(w) in ts <==> w in PlainWords(ts)
  {
    if ts != [] {
      InPlainWords(ts[1..], w);
    }
  }

  lemma NoTerms()
    ensures Plain("") in Terms("")
  {
    assert "" + " " == " ";
    ScanSpace(Scan("", false, false, []));
  }

  lemma AllFound(flat: seq<Entry>, ts: seq<Term>, qIn: seq<Folder>)
    requires Looked(flat, ts, qIn)
    ensures Plain("") !in ts && (qIn == [] <==> PlainWords(ts) == [])
  {
    hide Posting, PlainWords;
    InPlainWords(ts, "");
    NoEmptyWord(flat);
  }

  lemma NothingFound(flat: seq<Entry>, ts: seq<Term>, found: Folder)
    requires DistinctPaths(flat) && exists w :: Plain(w) in ts && Posting(flat, w) == map[]
    ensures Answer(flat, ts, found) == found
  {
    hide Posting, PlainWords, Words, Gather, HasPhrases, DistinctPaths, Contains;
    var w :| Plain(w) in ts && Posting(flat, w) == map[];
    InPlainWords(ts, w);
    var accept := (e: Entry) => e.path !in found && Accepts(e.path, ts);
    forall e | e in flat ensures !accept(e) {
      var i :| 0 <= i < |flat| && flat[i] == e;
      PostingIsTokens(flat, w, i);
      WordsAreTokens(e.path, w);
    }
    GatherNone(flat, accept, CAP, found);
  }

  // ----- what the answer is

  function Accepted(flat: seq<Entry>, accept: Entry -> bool): seq<Entry> {
    if flat == [] then [] else (if accept(flat[0]) then [flat[0]] else []) + Accepted(flat[1..], accept)
  }

  lemma {:induction false} AcceptedOnly(flat: seq<Entry>, accept: Entry -> bool)
    ensures forall e :: e in Accepted(flat, accept) <==> e in flat && accept(e)
  {
    if flat != [] {
      AcceptedOnly(flat[1..], accept);
    }
  }

  /** The first n files accepted. */
  function FirstOf(flat: seq<Entry>, accept: Entry -> bool, n: nat): seq<Entry> {
    Accepted(flat, accept)[..Min(n, |Accepted(flat, accept)|)]
  }

  predicate HasPath(es: seq<Entry>, path: string) {
    exists e :: e in es && e.path == path
  }

  lemma FirstOfStep(flat: seq<Entry>, accept: Entry -> bool, n: nat)
    requires n > 0 && flat != []
    ensures FirstOf(flat, accept, n)
            == if accept(flat[0]) then [flat[0]] + FirstOf(flat[1..], accept, n - 1) else FirstOf(flat[1..], accept, n)
  {
  }

  lemma FirstOfNone(flat: seq<Entry>, accept: Entry -> bool, n: nat)
    ensures n == 0 || flat == [] ==> FirstOf(flat, accept, n) == []
  {
  }

  lemma HasPathStep(e: Entry, rest: seq<Entry>, path: string)
    ensures HasPath([e] + rest, path) <==> path == e.path || HasPath(rest, path)
  {
    if HasPath(rest, path) {
      var x :| x in rest && x.path == path;
      assert x in [e] + rest;
    }
    assert e in [e] + rest;
  }

  /** Gathering adds the first files accepted. */
  lemma {:induction false} GatherPaths(flat: seq<Entry>, accept: Entry -> bool, n: nat, found: Folder, path: string)
    ensures path in Gather(flat, accept, n, found) <==> path in found || HasPath(FirstOf(flat, accept, n), path)
    decreases |flat|
  {
    hide HasPath, FirstOf;
    FirstOfNone(flat, accept, n);
    if flat == [] || n == 0 {
      NoPath(path);
    } else {
      FirstOfStep(flat, accept, n);
      if accept(flat[0]) {
        GatherPaths(flat[1..], accept, n - 1, found[flat[0].path := flat[0].file], path);
        HasPathStep(flat[0], FirstOf(flat[1..], accept, n - 1), path);
      } else {
        GatherPaths(flat[1..], accept, n, found, path);
      }
    }
  }

  lemma NoPath(path: string)
    ensures !HasPath([], path)
  {
  }

  /** Each of them counts once. */
  lemma {:induction false} GatherSize(flat: seq<Entry>, accept: Entry -> bool, n: nat, found: Folder)
    requires DistinctPaths(flat) && forall j :: 0 <= j < |flat| && accept(flat[j]) ==> flat[j].path !in found
    ensures |Gather(flat, accept, n, found)| == |found| + |FirstOf(flat, accept, n)|
    decreases |flat|
  {
    hide FirstOf;
    FirstOfNone(flat, accept, n);
    if flat != [] && n > 0 {
      FirstOfStep(flat, accept, n);
      if accept(flat[0]) {
        GatherSize(flat[1..], accept, n - 1, found[flat[0].path := flat[0].file]);
      } else {
        GatherSize(flat[1..], accept, n, found);
      }
    }
  }

  /** What gathering holds under a path is what was found before, or the record of a file with that path. */
  lemma {:induction false} GatherRecords(flat: seq<Entry>, accept: Entry -> bool, n: nat, found: Folder, path: string)
    ensures found.Keys <= Gather(flat, accept, n, found).Keys
    ensures var r := Gather(flat, accept, n, found);
            path in r && !(path in found && r[path] == found[path])
            ==> exists e :: e in flat && e.path == path && accept(e) && r[path] == e.file
    decreases |flat|
  {
    if n != 0 && flat != [] {
      if accept(flat[0]) {
        GatherRecords(flat[1..], accept, n - 1, found[flat[0].path := flat[0].file], path);
      } else {
        GatherRecords(flat[1..], accept, n, found, path);
      }
    }
  }

  /** A search keeps the files found before, and what it adds are records of files with all phrases; a search for words
      adds nothing under a path found before. */
  lemma AnswerRecords(flat: seq<Entry>, ts: seq<Term>, found: Folder, path: string)
    ensures found.Keys <= Answer(flat, ts, found).Keys
    ensures var r := Answer(flat, ts, found);
            && (path in r && !(path in found && r[path] == found[path])
                ==> exists e :: e in flat && e.path == path && HasPhrases(path, Phrases(ts)) && r[path] == e.file)
            && (PlainWords(ts) != [] && path in found ==> r[path] == found[path])
  {
    hide Gather, PlainWords, Phrases, HasPhrases, Words, Excluded;
    GatherRecords(flat, (e: Entry) => e.path !in found && Accepts(e.path, ts), CAP, found, path);
    GatherRecords(flat, (e: Entry) => HasPhrases(e.path, Phrases(ts)), CAP, found, path);
  }

  /** The files a linear scan accepts: all words tokens, all phrases parts, no excluded text. */
  function Matches(flat: seq<Entry>, ts: seq<Term>): seq<Entry> {
    Accepted(flat, (e: Entry) => Accepts(e.path, ts))
  }

  lemma {:induction false} AcceptedSame(flat: seq<Entry>, f: Entry -> bool, g: Entry -> bool)
    requires forall e :: e in flat ==> f(e) == g(e)
    ensures Accepted(flat, f) == Accepted(flat, g)
  {
    if flat != [] {
      AcceptedSame(flat[1..], f, g);
    }
  }

  /** With an empty term the scan accepts nothing. */
  lemma EmptyTermMatchesNone(flat: seq<Entry>, ts: seq<Term>)
    requires Plain("") in ts
    ensures Matches(flat, ts) == []
  {
    hide Words;
    InPlainWords(ts, "");
    forall e | e in flat ensures !Accepts(e.path, ts) {
      TokenNotEmpty(e.path);
    }
    NoneAccepted(flat, (e: Entry) => Accepts(e.path, ts));
  }

  lemma {:induction false} NoneAccepted(flat: seq<Entry>, accept: Entry -> bool)
    requires forall e :: e in flat ==> !accept(e)
    ensures Accepted(flat, accept) == []
  {
    if flat != [] {
      NoneAccepted(flat[1..], accept);
    }
  }

  /** A search with a plain word answers with the first 500 files, in order of path, that the scan accepts. */
  lemma SearchIsScan(flat: seq<Entry>, query: string, path: string)
    requires DistinctPaths(flat) && PlainWords(Terms(query)) != []
    ensures var m := Matches(flat, Terms(query));
            var r := Answer(flat, Terms(query), map[]);
            |r| == Min(500, |m|) && (path in r <==> HasPath(m[..Min(500, |m|)], path))
  {
    hide Terms, PlainWords, Accepts, Gather, Accepted, DistinctPaths, HasPath;
    var ts := Terms(query);
    var none: Folder := map[];
    if Plain("") in ts {
      EmptyTermMatchesNone(flat, ts);
      NoPath(path);
      return;
    }
    var accept := (e: Entry) => e.path !in none && Accepts(e.path, ts);
    AcceptedSame(flat, accept, (e: Entry) => Accepts(e.path, ts));
    GatherPaths(flat, accept, CAP, none, path);
    GatherSize(flat, accept, CAP, none);
    assert Answer(flat, ts, none) == Gather(flat, accept, CAP, none);
  }

  /** With no more than 500 of them, the answer is exactly the files the scan accepts. */
  lemma SearchIsExact(flat: seq<Entry>, query: string, i: nat)
    requires DistinctPaths(flat) && PlainWords(Terms(query)) != []
    requires |Matches(flat, Terms(query))| <= 500 && i < |flat|
    ensures flat[i].path in Answer(flat, Terms(query), map[]) <==> Accepts(flat[i].path, Terms(query))
  {
    hide Terms, PlainWords, Accepts, Gather, Accepted, DistinctPaths, HasPath, Answer;
    var ts := Terms(query);
    SearchIsScan(flat, query, flat[i].path);
    AcceptedOnly(flat, (e: Entry) => Accepts(e.path, ts));
    var m := Matches(flat, ts);
    assert m[..Min(CAP, |m|)] == m;
    assert flat[i] in flat;
    OnePath(flat, m, flat[i]);
  }

  lemma OnePath(flat: seq<Entry>, m: seq<Entry>, e: Entry)
    requires DistinctPaths(flat) && e in flat && forall x :: x in m ==> x in flat
    ensures HasPath(m, e.path) <==> e in m
  {
    if HasPath(m, e.path) {
      var x :| x in m && x.path == e.path;
      var i :| 0 <= i < |flat| && flat[i] == x;
      var j :| 0 <= j < |flat| && flat[j] == e;
      assert i == j;
    }
  }

  /** A search for phrases alone answers as the scan that looks at nothing but the phrases: exclusions do not count. */
  lemma PhraseSearchIsScan(flat: seq<Entry>, query: string, path: string)
    requires DistinctPaths(flat) && PlainWords(Terms(query)) == [] && Phrases(Terms(query)) != []
    ensures var m := Accepted(flat, (e: Entry) => HasPhrases(e.path, Phrases(Terms(query))));
            var r := Answer(flat, Terms(query), map[]);
            |r| == Min(500, |m|) && (path in r <==> HasPath(m[..Min(500, |m|)], path))
  {
    hide Terms, PlainWords, Phrases, HasPhrases, Gather, Accepted, DistinctPaths, HasPath;
    var ts := Terms(query);
    InPlainWords(ts, "");
    var none: Folder := map[];
    var accept := (e: Entry) => HasPhrases(e.path, Phrases(ts));
    GatherPaths(flat, accept, CAP, none, path);
    GatherSize(flat, accept, CAP, none);
    assert Answer(flat, ts, none) == Gather(flat, accept, CAP, none);
  }

  /** One space too many between two terms is a term of its own, and neither the search nor the scan finds anything. */
  lemma DoubleSpaceFindsNothing(flat: seq<Entry>, a: seq<Term>, b: seq<Term>, query: string, found: Folder)
    requires (forall t :: t in a + b ==> Writable(t)) && query + " " == WriteAll(a) + (" " + WriteAll(b))
    ensures Terms(query) == a + [Plain("")] + b
    ensures Answer(flat, Terms(query), found) == found && Matches(flat, Terms(query)) == []
  {
    hide Writable, Terms, WriteAll, Matches;
    DoubleSpaceTerms(a, b, query);
    assert (a + [Plain("")] + b)[|a|] == Plain("");
    EmptyTermMatchesNone(flat, Terms(query));
  }
}
