/** Words of paths and terms of queries in the search over shared files. */
module SharesTerms {
  import opened Ascii

  predicate Separator(c: char) {
    c in "/ ;:'\\][{}<>,.!@#$%^&()_+=~`\""
  }

  /** Lower-cases a character and turns separators into spaces; a dash or a star is one unless it is special. */
  function Mutate(c: char, special: bool): char {
    if 'A' <= c <= 'Z' then LowerChar(c)
    else if Separator(c) then ' '
    else if c == '-' || c == '*' then if special then c else ' '
    else c
  }

  // ----- the words of a path

  /** Everything that ends a word of a path. */
  predicate Ends(c: char) {
    Separator(c) || c == '-' || c == '*'
  }

  lemma MutateEnds(c: char)
    ensures Mutate(c, false) == ' ' <==> Ends(c)
    ensures !Ends(c) ==> Mutate(c, false) == LowerChar(c)
  {
  }

  /** The words of a path from index i on, with a word begun before. */
  function WordsFrom(path: string, i: nat, word: string): seq<string>
    requires i <= |path|
    decreases |path| - i
  {
    if i == |path| then (if word != "" then [word] else [])
    else if Mutate(path[i], false) == ' ' then (if word != "" then [word] else []) + WordsFrom(path, i + 1, "")
    else WordsFrom(path, i + 1, word + [Mutate(path[i], false)])
  }

  function Words(path: string): seq<string> {
    WordsFrom(path, 0, "")
  }

  /** A stretch of a path that holds no separator and is bounded by separators or the ends of the path. */
  predicate Stretch(path: string, i: nat, j: nat) {
    && i < j <= |path|
    && (forall k :: i <= k < j ==> !Ends(path[k]))
    && (i == 0 || Ends(path[i - 1]))
    && (j == |path| || Ends(path[j]))
  }

  /** The lower-cased longest stretches without separators are the tokens of a path. */
  predicate IsToken(path: string, w: string) {
    exists i, j :: 0 <= i < j <= |path| && Stretch(path, i, j) && w == Lower(path[i..j])
  }

  /** A token that starts at index s or later. */
  predicate TokenAfter(path: string, s: nat, w: string) {
    exists i, j :: s <= i < j <= |path| && Stretch(path, i, j) && w == Lower(path[i..j])
  }

  lemma LowerAppend(s: string, c: char)
    ensures Lower(s + [c]) == Lower(s) + [LowerChar(c)]
  {
  }

  lemma LowerNone()
    ensures Lower("") == ""
  {
  }

  /** With a word begun at s the pass finds exactly the tokens that start at s or later. */
  lemma {:induction false} WordsFromAreTokens(path: string, s: nat, i: nat, w: string)
    requires s <= i <= |path| && (s == 0 || Ends(path[s - 1])) && forall k :: s <= k < i ==> !Ends(path[k])
    ensures w in WordsFrom(path, i, Lower(path[s..i])) <==> TokenAfter(path, s, w)
    decreases |path| - i
  {
    hide Ends, Mutate, Lower, TokenAfter;
    var word := Lower(path[s..i]);
    if i == |path| || Ends(path[i]) {
      if i < |path| {
        MutateEnds(path[i]);
        WordsFromAreTokens(path, i + 1, i + 1, w);
        assert path[i + 1..i + 1] == "";
        LowerNone();
      }
      TokenAtOrAfter(path, s, i, w);
    } else {
      MutateEnds(path[i]);
      assert path[s..i + 1] == path[s..i] + [path[i]];
      LowerAppend(path[s..i], path[i]);
      WordsFromAreTokens(path, s, i + 1, w);
    }
  }

  /** From s on, the first token is the stretch that ends at i, if it is not empty; the others start after i. */
  lemma TokenAtOrAfter(path: string, s: nat, i: nat, w: string)
    requires s <= i <= |path| && (s == 0 || Ends(path[s - 1])) && forall k :: s <= k < i ==> !Ends(path[k])
    requires i == |path| || Ends(path[i])
    ensures TokenAfter(path, s, w) <==> (s < i && w == Lower(path[s..i])) || (i < |path| && TokenAfter(path, i + 1, w))
  {
    hide Ends;
    if s < i {
      assert Stretch(path, s, i);
    }
    if TokenAfter(path, s, w) {
      var a, b :| s <= a < b <= |path| && Stretch(path, a, b) && w == Lower(path[a..b]);
    }
  }

  /** The pass over a path finds exactly its tokens. */
  lemma WordsAreTokens(path: string, w: string)
    ensures w in Words(path) <==> IsToken(path, w)
  {
    assert Lower(path[0..0]) == "";
    WordsFromAreTokens(path, 0, 0, w);
    assert TokenAfter(path, 0, w) == IsToken(path, w);
  }

  /** No token is empty. */
  lemma TokenNotEmpty(path: string)
    ensures "" !in Words(path)
  {
    WordsAreTokens(path, "");
  }

  // ----- the terms of a query

  /** A plain word to find, a text that must not occur, or a text that must. */
  datatype Term = Plain(word: string) | Without(text: string) | Phrase(text: string)

  datatype Scan = Scan(word: string, quoted: bool, wasQuoted: bool, terms: seq<Term>)

  /** The term a finished word stands for. */
  function Finish(word: string, wasQuoted: bool): Term {
    if wasQuoted || (word != "" && word[0] == '*') then
      Phrase(if word != "" && word[0] == '*' then word[1..] else word)
    else if word != "" && word[0] == '-' then Without(word[1..])
    else Plain(word)
  }

  /** One character of the query. */
  function Next(s: Scan, c: char): Scan {
    if c == '"' then s.(quoted := !s.quoted, wasQuoted := true)
    else
      var m := Mutate(c, !s.quoted && s.word == "");
      if !s.quoted && m == ' ' then Scan("", false, false, s.terms + [Finish(s.word, s.wasQuoted)])
      else s.(word := s.word + [m])
  }

  function ScanFrom(s: Scan, q: string): Scan
    decreases |q|
  {
    if q == "" then s else ScanFrom(Next(s, q[0]), q[1..])
  }

  /** The terms of a query, a space being added to end the last one. */
  function Terms(query: string): seq<Term> {
    ScanFrom(Scan("", false, false, []), query + " ").terms
  }

  // ----- writing a query and reading it back

  /** A character that stands for itself inside a word. */
  predicate Letter(c: char) {
    !Ends(c) && !('A' <= c <= 'Z')
  }

  predicate Text(s: string) {
    forall i :: 0 <= i < |s| ==> Letter(s[i])
  }

  /** A text that quotes can hold: letters and single spaces stand for themselves. */
  predicate Quotable(s: string) {
    forall i :: 0 <= i < |s| ==> Letter(s[i]) || s[i] == ' '
  }

  predicate Writable(t: Term) {
    match t
    case Plain(word) => word != "" && Text(word)
    case Without(text) => Text(text)
    case Phrase(text) => Quotable(text)
  }

  /** How a term is written. */
  function Write(t: Term): string {
    match t
    case Plain(word) => word
    case Without(text) => "-" + text
    case Phrase(text) => "\"" + text + "\""
  }

  function WriteAll(ts: seq<Term>): string {
    if ts == [] then "" else Write(ts[0]) + " " + WriteAll(ts[1..])
  }

  lemma {:induction false} ScanConcat(s: Scan, a: string, b: string)
    ensures ScanFrom(s, a + b) == ScanFrom(ScanFrom(s, a), b)
    decreases |a|
  {
    if a == "" {
      assert a + b == b;
    } else {
      assert (a + b)[0] == a[0] && (a + b)[1..] == a[1..] + b;
      ScanConcat(Next(s, a[0]), a[1..], b);
    }
  }

  lemma {:induction false} ScanText(s: Scan, text: string)
    requires Text(text) || (s.quoted && Quotable(text))
    ensures ScanFrom(s, text) == s.(word := s.word + text)
    decreases |text|
  {
    if text == "" {
      assert s.word + text == s.word;
    } else {
      assert Next(s, text[0]) == s.(word := s.word + [text[0]]);
      ScanText(Next(s, text[0]), text[1..]);
      assert s.word + [text[0]] + text[1..] == s.word + text;
    }
  }

  lemma ScanPlain(s: Scan, word: string)
    requires s.word == "" && !s.quoted && !s.wasQuoted && word != "" && Text(word)
    ensures ScanFrom(s, word + " ") == s.(terms := s.terms + [Plain(word)])
  {
    hide ScanFrom, Mutate, Separator;
    ScanConcat(s, word, " ");
    ScanText(s, word);
    assert "" + word == word;
    ScanSpace(s.(word := word));
    assert Letter(word[0]);
  }

  lemma ScanWithout(s: Scan, text: string)
    requires s.word == "" && !s.quoted && !s.wasQuoted && Text(text)
    ensures ScanFrom(s, "-" + text + " ") == s.(terms := s.terms + [Without(text)])
  {
    hide ScanFrom;
    assert ("-" + text)[1..] == text;
    assert Mutate('-', true) == '-' && "" + ['-'] == "-";
    ScanConcat(s, "-" + text, " ");
    ScanConcat(s, "-", text);
    ScanOne(s, '-');
    ScanText(s.(word := "-"), text);
    ScanSpace(s.(word := "-" + text));
  }

  lemma ScanPhrase(s: Scan, text: string)
    requires s.word == "" && !s.quoted && !s.wasQuoted && Quotable(text)
    ensures ScanFrom(s, "\"" + text + "\"" + " ") == s.(terms := s.terms + [Phrase(text)])
  {
    hide ScanFrom, Mutate, Separator;
    var q := s.(quoted := true, wasQuoted := true);
    ScanConcat(s, "\"" + text + "\"", " ");
    ScanConcat(s, "\"" + text, "\"");
    ScanConcat(s, "\"", text);
    ScanOne(s, '"');
    ScanText(q, text);
    assert "" + text == text;
    ScanOne(q.(word := text), '"');
    ScanSpace(q.(word := text, quoted := false));
    assert text != "" ==> Letter(text[0]) || text[0] == ' ';
  }

  lemma ScanTerm(s: Scan, t: Term)
    requires s.word == "" && !s.quoted && !s.wasQuoted && Writable(t)
    ensures ScanFrom(s, Write(t) + " ") == s.(terms := s.terms + [t])
  {
    hide ScanFrom, Text, Quotable;
    match t
    case Plain(word) => ScanPlain(s, word);
    case Without(text) => ScanWithout(s, text);
    case Phrase(text) => ScanPhrase(s, text);
  }

  lemma ScanNone(s: Scan)
    ensures ScanFrom(s, "") == s
  {
  }

  lemma {:induction false} ScanAll(s: Scan, ts: seq<Term>)
    requires s.word == "" && !s.quoted && !s.wasQuoted && forall t :: t in ts ==> Writable(t)
    ensures ScanFrom(s, WriteAll(ts)) == s.(terms := s.terms + ts)
    decreases |ts|
  {
    hide ScanFrom, Writable, Write, Next;
    if ts == [] {
      ScanNone(s);
      assert s.terms + ts == s.terms;
    } else {
      ScanConcat(s, Write(ts[0]) + " ", WriteAll(ts[1..]));
      ScanTerm(s, ts[0]);
      ScanAll(s.(terms := s.terms + [ts[0]]), ts[1..]);
      assert s.terms + [ts[0]] + ts[1..] == s.terms + ts;
    }
  }

  /** A written list of terms, with the last space left to the search to add, is read back as the same terms. */
  lemma WrittenIsRead(ts: seq<Term>, query: string)
    requires (forall t :: t in ts ==> Writable(t)) && query + " " == WriteAll(ts)
    ensures Terms(query) == ts
  {
    ScanAll(Scan("", false, false, []), ts);
    assert [] + ts == ts;
  }

  lemma ScanOne(s: Scan, c: char)
    ensures ScanFrom(s, [c]) == Next(s, c)
  {
    assert [c][1..] == "";
  }

  lemma ScanSpace(s: Scan)
    requires !s.quoted
    ensures ScanFrom(s, " ") == Scan("", false, false, s.terms + [Finish(s.word, s.wasQuoted)])
  {
    ScanOne(s, ' ');
  }

  lemma DoubleSpaceTerms(a: seq<Term>, b: seq<Term>, query: string)
    requires (forall t :: t in a + b ==> Writable(t)) && query + " " == WriteAll(a) + (" " + WriteAll(b))
    ensures Terms(query) == a + [Plain("")] + b
  {
    hide Writable, WriteAll, ScanFrom, Next;
    var s := Scan("", false, false, []);
    assert forall t :: t in a ==> t in a + b;
    assert forall t :: t in b ==> t in a + b;
    ScanConcat(s, WriteAll(a), " " + WriteAll(b));
    ScanAll(s, a);
    assert [] + a == a;
    var r := Scan("", false, false, a);
    ScanConcat(r, " ", WriteAll(b));
    ScanSpace(r);
    ScanAll(Scan("", false, false, a + [Plain("")]), b);
  }

  // ----- texts that must not occur are in lower case

  predicate LowerCase(s: string) {
    forall i :: 0 <= i < |s| ==> !('A' <= s[i] <= 'Z')
  }

  /** What has been scanned so far is in lower case, the texts to leave out included. */
  predicate LowerScan(s: Scan) {
    LowerCase(s.word) && forall i :: 0 <= i < |s.terms| && s.terms[i].Without? ==> LowerCase(s.terms[i].text)
  }

  lemma NextLower(s: Scan, c: char)
    requires LowerScan(s)
    ensures LowerScan(Next(s, c))
  {
    hide Separator;
    var m := Mutate(c, !s.quoted && s.word == "");
    assert !('A' <= m <= 'Z');
  }

  lemma {:induction false} ScanLower(s: Scan, q: string)
    requires LowerScan(s)
    ensures LowerScan(ScanFrom(s, q))
    decreases |q|
  {
    hide LowerScan, Next;
    if q != "" {
      NextLower(s, q[0]);
      ScanLower(Next(s, q[0]), q[1..]);
    }
  }

  lemma {:induction false} LowerSame(s: string)
    requires LowerCase(s)
    ensures Lower(s) == s
  {
  }

  /** Every text a query leaves out is in lower case. */
  lemma ExcludedLower(query: string, x: string)
    requires Without(x) in Terms(query)
    ensures Lower(x) == x
  {
    hide ScanFrom;
    ScanLower(Scan("", false, false, []), query + " ");
    LowerSame(x);
  }
}
