/** What a query says, without the pass that breaks it up: where its terms end, and what each of them stands for. */
module QueryTerms {
  import opened Ascii
  import opened SharesTerms

  const QUOTE := '"'

  function Quotes(s: string): nat {
    if s == "" then 0 else Quotes(s[..|s| - 1]) + if s[|s| - 1] == QUOTE then 1 else 0
  }

  /** A quote is open at the end. */
  predicate Open(s: string) {
    Quotes(s) % 2 == 1
  }

  function Bare(s: string): string {
    if s == "" then "" else Bare(s[..|s| - 1]) + if s[|s| - 1] == QUOTE then "" else [s[|s| - 1]]
  }

  /** Outside quotes every separator ends a term, and so does a dash or a star behind its first character. */
  predicate EndsTerm(p: string, c: char) {
    c != QUOTE && !Open(p) && (Separator(c) || ((c == '-' || c == '*') && Bare(p) != ""))
  }

  /** What stands between two ends. */
  predicate Piece(p: string) {
    forall k :: 0 <= k < |p| ==> !EndsTerm(p[..k], p[k])
  }

  /** A piece begins with this mark: nothing but closed quotes stands before. */
  predicate Marked(p: string, mark: char) {
    exists k :: 0 <= k < |p| && p[k] == mark && k % 2 == 0 && forall i :: 0 <= i < k ==> p[i] == QUOTE
  }

  function Spaced(s: string): (r: string)
    ensures |r| == |s|
  {
    seq(|s|, i requires 0 <= i < |s| => if Ends(s[i]) then ' ' else LowerChar(s[i]))
  }

  function Tail(s: string): string {
    if s == "" then "" else s[1..]
  }

  /** A star or any quote makes a phrase, a dash leaves out, and a dash on a phrase is a part of it. */
  function TermOf(p: string): Term {
    var text := Spaced(Bare(p));
    if Marked(p, '*') then Phrase(Tail(text))
    else if QUOTE in p then Phrase(if Marked(p, '-') then "-" + Tail(text) else text)
    else if Marked(p, '-') then Without(Tail(text))
    else Plain(text)
  }

  /** Pieces with their ends behind them. */
  function Joined(pieces: seq<string>, ends: seq<char>): string
    requires |pieces| == |ends|
  {
    if pieces == [] then "" else pieces[0] + [ends[0]] + Joined(pieces[1..], ends[1..])
  }

  /** Every text is made of pieces, each behind it what ends it, and of a piece that nothing ends. */
  predicate Splits(pieces: seq<string>, ends: seq<char>, rest: string, q: string) {
    && |pieces| == |ends| && q == Joined(pieces, ends) + rest && Piece(rest)
    && forall i :: 0 <= i < |pieces| ==> Piece(pieces[i]) && EndsTerm(pieces[i], ends[i])
  }

  // ----- one piece

  function WordOf(p: string): string {
    var text := Spaced(Bare(p));
    if Marked(p, '*') then "*" + Tail(text) else if Marked(p, '-') then "-" + Tail(text) else text
  }

  /** The pass over a piece. */
  lemma {:induction false} PieceIsScanned(p: string, ts: seq<Term>)
    requires Piece(p)
    ensures ScanFrom(Scan("", false, false, ts), p) == Scan(WordOf(p), Open(p), QUOTE in p, ts)
    decreases |p|
  {
    hide ScanFrom, WordOf, Next, EndsTerm, Open;
    var s := Scan("", false, false, ts);
    if p == "" {
      ScanNone(s);
      NoPiece();
    } else {
      var front, c := p[..|p| - 1], p[|p| - 1];
      assert p == front + [c];
      assert Piece(front) by { FrontPiece(p); }
      PieceIsScanned(front, ts);
      ScanConcat(s, front, [c]);
      var t := Scan(WordOf(front), Open(front), QUOTE in front, ts);
      ScanOne(t, c);
      assert !EndsTerm(front, c);
      OneMore(front, c, ts);
    }
  }

  lemma NoPiece()
    ensures WordOf("") == "" && !Open("")
  {
  }

  lemma FrontPiece(p: string)
    requires Piece(p) && p != ""
    ensures Piece(p[..|p| - 1])
  {
    hide EndsTerm;
    var front := p[..|p| - 1];
    forall k | 0 <= k < |front| ensures !EndsTerm(front[..k], front[k]) {
      assert front[..k] == p[..k];
    }
  }

  lemma OneMore(p: string, c: char, ts: seq<Term>)
    requires !EndsTerm(p, c)
    ensures Next(Scan(WordOf(p), Open(p), QUOTE in p, ts), c) == Scan(WordOf(p + [c]), Open(p + [c]), QUOTE in p + [c], ts)
  {
    hide Open, Bare, Marked, Spaced, Mutate, Separator;
    MarkedIsText(p);
    if c == QUOTE {
      QuoteMore(p);
    } else {
      CharMore(p, c);
      SpacedMore(Bare(p), c);
      MutateMore(c);
    }
  }

  /** A quote is no part of a word. */
  lemma QuoteMore(p: string)
    ensures Bare(p + [QUOTE]) == Bare(p) && Open(p + [QUOTE]) == !Open(p)
    ensures Marked(p + [QUOTE], '-') == Marked(p, '-') && Marked(p + [QUOTE], '*') == Marked(p, '*')
  {
    BareMore(p, QUOTE);
    MarkedMore(p, QUOTE, '-');
    MarkedMore(p, QUOTE, '*');
  }

  lemma CharMore(p: string, c: char)
    requires c != QUOTE
    ensures Bare(p + [c]) == Bare(p) + [c] && Open(p + [c]) == Open(p) && (QUOTE in p + [c] <==> QUOTE in p)
    ensures Marked(p + [c], '-') == (Marked(p, '-') || (c == '-' && Bare(p) == "" && !Open(p)))
    ensures Marked(p + [c], '*') == (Marked(p, '*') || (c == '*' && Bare(p) == "" && !Open(p)))
  {
    BareMore(p, c);
    MarkedMore(p, c, '-');
    MarkedMore(p, c, '*');
  }

  lemma BareMore(p: string, c: char)
    ensures Bare(p + [c]) == Bare(p) + (if c == QUOTE then "" else [c])
    ensures Quotes(p + [c]) == Quotes(p) + (if c == QUOTE then 1 else 0)
  {
    assert (p + [c])[..|p + [c]| - 1] == p;
  }

  lemma {:induction false} BareQuotes(p: string)
    ensures Bare(p) == "" <==> forall i :: 0 <= i < |p| ==> p[i] == QUOTE
    ensures Bare(p) == "" ==> Quotes(p) == |p|
    decreases |p|
  {
    if p != "" {
      var front := p[..|p| - 1];
      BareQuotes(front);
      assert forall i :: 0 <= i < |front| ==> front[i] == p[i];
    }
  }

  lemma MarkedMore(p: string, c: char, mark: char)
    requires mark == '-' || mark == '*'
    ensures Marked(p + [c], mark) == (Marked(p, mark) || (c == mark && Bare(p) == "" && !Open(p)))
  {
    hide Bare, Quotes;
    BareQuotes(p);
    var q := p + [c];
    assert forall i :: 0 <= i < |p| ==> q[i] == p[i];
    if Marked(q, mark) {
      var k :| 0 <= k < |q| && q[k] == mark && k % 2 == 0 && forall i :: 0 <= i < k ==> q[i] == QUOTE;
      if k < |p| {
        assert p[k] == mark;
      } else {
        assert forall i :: 0 <= i < |p| ==> p[i] == QUOTE;
      }
    }
    if Marked(p, mark) {
      var k :| 0 <= k < |p| && p[k] == mark && k % 2 == 0 && forall i :: 0 <= i < k ==> p[i] == QUOTE;
      assert q[k] == mark;
    }
    if c == mark && Bare(p) == "" && !Open(p) {
      assert q[|p|] == mark && |p| % 2 == 0;
    }
  }

  lemma MarkedIsText(p: string)
    ensures Marked(p, '-') || Marked(p, '*') ==> Bare(p) != ""
    ensures !(Marked(p, '-') && Marked(p, '*'))
  {
    hide Bare, Quotes;
    BareQuotes(p);
  }

  lemma SpacedMore(s: string, c: char)
    ensures Spaced(s + [c]) == Spaced(s) + [if Ends(c) then ' ' else LowerChar(c)]
    ensures s == "" <==> Spaced(s) == ""
  {
    hide Ends, LowerChar;
  }

  lemma MutateMore(c: char)
    ensures Mutate(c, false) == if Ends(c) then ' ' else LowerChar(c)
    ensures Mutate(c, true) == if c == '-' || c == '*' then c else if Separator(c) then ' ' else LowerChar(c)
    ensures Ends(c) <==> Separator(c) || c == '-' || c == '*'
    ensures Separator(c) ==> c != '-' && c != '*'
    ensures !Ends(c) ==> LowerChar(c) != ' ' && LowerChar(c) != '-' && LowerChar(c) != '*'
  {
  }

  // ----- a whole query

  /** What ends a piece makes a term of it. */
  lemma PieceEnds(p: string, c: char, ts: seq<Term>)
    requires Piece(p) && EndsTerm(p, c)
    ensures ScanFrom(Scan("", false, false, ts), p + [c]) == Scan("", false, false, ts + [TermOf(p)])
  {
    hide ScanFrom, Open, Bare, Marked, Spaced, Mutate, Separator, Piece;
    PieceIsScanned(p, ts);
    ScanConcat(Scan("", false, false, ts), p, [c]);
    ScanOne(Scan(WordOf(p), Open(p), QUOTE in p, ts), c);
    MarkedIsText(p);
    MutateMore(c);
    SpacedMore(Bare(p), c);
    FirstSpaced(Bare(p));
  }

  lemma FirstSpaced(s: string)
    ensures Spaced(s) != "" ==> Spaced(s)[0] != '-' && Spaced(s)[0] != '*'
  {
    hide Separator;
  }

  function TermsOf(pieces: seq<string>): seq<Term> {
    if pieces == [] then [] else [TermOf(pieces[0])] + TermsOf(pieces[1..])
  }

  lemma SplitsParts(pieces: seq<string>, ends: seq<char>, rest: string, q: string)
    requires Splits(pieces, ends, rest, q)
    ensures |pieces| == |ends| && Piece(rest) && (pieces == [] ==> q == rest)
    ensures pieces != [] ==>
              var q1 := Joined(pieces[1..], ends[1..]) + rest;
              && q == (pieces[0] + [ends[0]]) + q1 && Splits(pieces[1..], ends[1..], rest, q1)
              && Piece(pieces[0]) && EndsTerm(pieces[0], ends[0])
  {
    hide Piece, EndsTerm;
  }

  lemma {:induction false} PiecesAreScanned(pieces: seq<string>, ends: seq<char>, rest: string, q: string, ts: seq<Term>)
    requires Splits(pieces, ends, rest, q)
    ensures ScanFrom(Scan("", false, false, ts), q).terms == ts + TermsOf(pieces)
    decreases |pieces|
  {
    hide ScanFrom, Piece, EndsTerm, TermOf, WordOf, Open, Splits;
    SplitsParts(pieces, ends, rest, q);
    if pieces == [] {
      assert ts + TermsOf(pieces) == ts;
      PieceIsScanned(rest, ts);
    } else {
      var q1 := Joined(pieces[1..], ends[1..]) + rest;
      ScanConcat(Scan("", false, false, ts), pieces[0] + [ends[0]], q1);
      PieceEnds(pieces[0], ends[0], ts);
      PiecesAreScanned(pieces[1..], ends[1..], rest, q1, ts + [TermOf(pieces[0])]);
      assert ts + TermsOf(pieces) == (ts + [TermOf(pieces[0])]) + TermsOf(pieces[1..]);
    }
  }

  /** However a query and the space behind it are made of pieces and their ends, the terms are those of the pieces; what no
      end follows, behind a quote left open, is lost. */
  lemma PiecesAreRead(pieces: seq<string>, ends: seq<char>, rest: string, query: string)
    requires Splits(pieces, ends, rest, query + " ")
    ensures Terms(query) == TermsOf(pieces)
  {
    hide Splits, ScanFrom;
    PiecesAreScanned(pieces, ends, rest, query + " ", []);
    assert [] + TermsOf(pieces) == TermsOf(pieces);
  }

  lemma {:induction false} JoinedMore(pieces: seq<string>, ends: seq<char>, p: string, c: char)
    requires |pieces| == |ends|
    ensures Joined(pieces + [p], ends + [c]) == Joined(pieces, ends) + (p + [c])
    decreases |pieces|
  {
    if pieces == [] {
      assert pieces + [p] == [p] && ends + [c] == [c];
      assert Joined([], []) == "" && [p][1..] == [] && [c][1..] == [];
    } else {
      assert (pieces + [p])[1..] == pieces[1..] + [p] && (ends + [c])[1..] == ends[1..] + [c];
      JoinedMore(pieces[1..], ends[1..], p, c);
    }
  }

  /** Every text is made of pieces in such a way. */
  lemma {:induction false} PiecesExist(q: string) returns (pieces: seq<string>, ends: seq<char>, rest: string)
    ensures Splits(pieces, ends, rest, q)
    decreases |q|
  {
    hide EndsTerm;
    if q == "" {
      pieces, ends, rest := [], [], "";
    } else {
      var front, c := q[..|q| - 1], q[|q| - 1];
      pieces, ends, rest := PiecesExist(front);
      assert q == front + [c];
      if EndsTerm(rest, c) {
        JoinedMore(pieces, ends, rest, c);
        pieces, ends, rest := pieces + [rest], ends + [c], "";
      } else {
        var more := rest + [c];
        forall k | 0 <= k < |more| ensures !EndsTerm(more[..k], more[k]) {
          assert more[..k] == rest[..k];
          assert k == |rest| ==> rest[..k] == rest;
        }
        rest := more;
      }
    }
  }

  /** The terms of every query are those of the pieces it is made of. */
  lemma TermsArePieces(query: string) returns (pieces: seq<string>, ends: seq<char>, rest: string)
    ensures Splits(pieces, ends, rest, query + " ") && Terms(query) == TermsOf(pieces)
  {
    hide Splits;
    pieces, ends, rest := PiecesExist(query + " ");
    PiecesAreRead(pieces, ends, rest, query);
  }

  // ----- what this means for single queries

  /** A text without quotes that stands for itself. */
  lemma {:induction false} QuotableBare(a: string)
    requires Quotable(a)
    ensures Quotes(a) == 0 && Bare(a) == a && QUOTE !in a
    decreases |a|
  {
    hide Ends;
    if a != "" {
      var front := a[..|a| - 1];
      assert forall i :: 0 <= i < |front| ==> front[i] == a[i];
      assert a == front + [a[|a| - 1]];
      assert a[|a| - 1] != QUOTE by { LetterPlain(a[|a| - 1]); }
      QuotableBare(front);
    }
  }

  lemma LetterPlain(c: char)
    requires Letter(c) || c == ' '
    ensures c != QUOTE && c != '-' && c != '*' && LowerChar(c) == c
    ensures Letter(c) ==> !Ends(c) && !Separator(c)
    ensures c == ' ' ==> Ends(c) && Separator(c)
  {
  }

  lemma TextSpaced(a: string)
    requires Quotable(a)
    ensures Spaced(a) == a && !Marked(a, '-') && !Marked(a, '*')
  {
    hide Letter, Ends, LowerChar, Separator;
    forall i | 0 <= i < |a| ensures Spaced(a)[i] == a[i] && a[i] != '-' && a[i] != '*' {
      LetterPlain(a[i]);
    }
  }

  /** Letters end nothing, whatever stands before. */
  lemma LetterEndsNothing(p: string, c: char)
    requires Letter(c)
    ensures !EndsTerm(p, c)
  {
    LetterPlain(c);
  }

  /** A word of plain letters is a piece that any separator ends. */
  lemma TextPiece(a: string, sep: char)
    requires a != "" && Text(a) && Ends(sep) && sep != QUOTE
    ensures Piece(a) && EndsTerm(a, sep) && TermOf(a) == Plain(a) && EndsTerm(a, ' ')
  {
    hide Letter, Marked, Spaced, Bare, Quotes;
    QuotableBare(a);
    TextSpaced(a);
    MutateMore(sep);
    forall k | 0 <= k < |a| ensures !EndsTerm(a[..k], a[k]) {
      LetterEndsNothing(a[..k], a[k]);
    }
  }

  lemma NothingEnds()
    ensures Piece("")
  {
  }

  lemma TwoSplit(a: string, sep: char, b: string)
    requires Piece(a) && Piece(b) && EndsTerm(a, sep) && EndsTerm(b, ' ')
    ensures Splits([a, b], [sep, ' '], "", a + [sep] + b + " ")
    ensures TermsOf([a, b]) == [TermOf(a), TermOf(b)]
  {
    hide Piece, EndsTerm, TermOf;
    assert [a, b][1..] == [b] && [b][1..] == [] && [sep, ' '][1..] == [' '] && [' '][1..] == [];
    assert Joined([], []) == "" && TermsOf([]) == [];
    assert Joined([b], [' ']) == b + [' '];
    assert Joined([a, b], [sep, ' ']) == a + [sep] + (b + [' ']);
    assert TermsOf([b]) == [TermOf(b)];
    NothingEnds();
  }

  lemma OneSplit(a: string)
    requires Piece(a) && EndsTerm(a, ' ')
    ensures Splits([a], [' '], "", a + " ") && TermsOf([a]) == [TermOf(a)]
  {
    hide Piece, EndsTerm, TermOf;
    assert [a][1..] == [] && [' '][1..] == [];
    assert Joined([], []) == "" && TermsOf([]) == [];
    assert Joined([a], [' ']) == a + [' '];
    NothingEnds();
  }

  /** Any separator between two words makes two terms. */
  lemma SeparatorSplits(a: string, b: string, sep: char)
    requires a != "" && b != "" && Text(a) && Text(b) && Ends(sep) && sep != QUOTE
    ensures Terms(a + [sep] + b) == [Plain(a), Plain(b)]
  {
    hide Ends, Splits, Piece, EndsTerm, TermOf, Text, Terms;
    TextPiece(a, sep);
    TextPiece(b, ' ') by { assert Ends(' ') by { MutateMore(' '); } }
    TwoSplit(a, sep, b);
    PiecesAreRead([a, b], [sep, ' '], "", a + [sep] + b);
  }

  lemma {:induction false} ScanQuoted(s: Scan, q: string)
    requires !s.quoted
    ensures ScanFrom(s, q).quoted == Open(q)
    decreases |q|
  {
    hide ScanFrom, Mutate;
    if q == "" {
      ScanNone(s);
    } else {
      var front, c := q[..|q| - 1], q[|q| - 1];
      assert q == front + [c];
      ScanConcat(s, front, [c]);
      ScanOne(ScanFrom(s, front), c);
      ScanQuoted(s, front);
    }
  }

  /** Outside quotes any separator does what a space does. */
  lemma SeparatorIsSpace(a: string, sep: char, b: string)
    requires Separator(sep) && sep != QUOTE && !Open(a)
    ensures Terms(a + [sep] + b) == Terms(a + " " + b)
  {
    hide ScanFrom, Separator, Open, Mutate;
    var s := Scan("", false, false, []);
    assert a + [sep] + b + " " == a + ([sep] + (b + " "));
    assert a + " " + b + " " == a + (" " + (b + " "));
    ScanConcat(s, a, [sep] + (b + " "));
    ScanConcat(s, a, " " + (b + " "));
    ScanQuoted(s, a);
    var t := ScanFrom(s, a);
    ScanConcat(t, [sep], b + " ");
    ScanConcat(t, " ", b + " ");
    ScanOne(t, sep);
    ScanOne(t, ' ');
    MutateMore(sep);
    MutateMore(' ');
    assert Separator(' ') by { LetterPlain(' '); }
  }

  /** A word behind a star is a phrase. */
  lemma StarIsPhrase(text: string)
    requires Text(text)
    ensures Terms("*" + text) == [Phrase(text)]
  {
    hide Splits, Piece, EndsTerm, TermOf, Terms;
    StarPiece(text);
    OneSplit("*" + text);
    PiecesAreRead(["*" + text], [' '], "", "*" + text);
  }

  lemma StarPiece(text: string)
    requires Text(text)
    ensures Piece("*" + text) && EndsTerm("*" + text, ' ') && TermOf("*" + text) == Phrase(text)
  {
    hide Letter, Marked, Ends, LowerChar, Separator;
    var p := "*" + text;
    QuotableBare(text);
    TextSpaced(text);
    StarBare(text);
    assert Marked(p, '*') by { StarMarked(text); }
    LetterPlain(' ');
    forall k | 0 <= k < |p| ensures !EndsTerm(p[..k], p[k]) {
      if k > 0 {
        LetterEndsNothing(p[..k], p[k]);
      } else {
        MutateMore('*');
      }
    }
  }

  lemma StarMarked(text: string)
    ensures Marked("*" + text, '*')
  {
    assert ("*" + text)[0] == '*';
  }

  lemma {:induction false} StarBare(text: string)
    requires Quotable(text)
    ensures Quotes("*" + text) == 0 && Bare("*" + text) == "*" + text
    ensures Tail(Spaced("*" + text)) == Spaced(text)
    decreases |text|
  {
    hide Ends, LowerChar, Quotes, Bare, Spaced, Letter;
    TailSpaced('*', text);
    if text != "" {
      var front, c := text[..|text| - 1], text[|text| - 1];
      assert forall i :: 0 <= i < |front| ==> front[i] == text[i];
      assert "*" + text == ("*" + front) + [c];
      LetterPlain(c);
      StarBare(front);
      BareMore("*" + front, c);
    } else {
      BareMore("", '*');
      assert "*" + text == "" + ['*'];
      assert Bare("") == "" && Quotes("") == 0 by { QuotableBare(""); }
    }
  }

  lemma TailSpaced(c: char, s: string)
    ensures Spaced([c] + s) != "" && Tail(Spaced([c] + s)) == Spaced(s)
  {
    hide Ends, LowerChar;
    assert ([c] + s)[1..] == s;
  }

  /** Capital letters make no difference. */
  lemma CapitalsDoNotMatter(query: string)
    ensures Terms(Lower(query)) == Terms(query)
  {
    hide ScanFrom;
    assert Lower(query) + " " == Lower(query + " ");
    ScanLowered(Scan("", false, false, []), query + " ");
  }

  lemma {:induction false} ScanLowered(s: Scan, q: string)
    ensures ScanFrom(s, Lower(q)) == ScanFrom(s, q)
    decreases |q|
  {
    hide Next;
    if q != "" {
      assert Lower(q)[0] == LowerChar(q[0]) && Lower(q)[1..] == Lower(q[1..]);
      NextLowered(s, q[0]);
      ScanLowered(Next(s, q[0]), q[1..]);
    }
  }

  lemma NextLowered(s: Scan, c: char)
    ensures Next(s, LowerChar(c)) == Next(s, c)
  {
    hide Separator, Finish;
    if 'A' <= c <= 'Z' {
      CapitalPlain(c);
    }
  }

  lemma CapitalPlain(c: char)
    requires 'A' <= c <= 'Z'
    ensures c != QUOTE && LowerChar(c) != QUOTE && Mutate(LowerChar(c), true) == Mutate(c, true)
    ensures Mutate(LowerChar(c), false) == Mutate(c, false)
  {
  }

  /** A quote that is left open loses what follows. */
  lemma OpenQuoteIsLost(text: string)
    requires Quotable(text)
    ensures Terms("\"" + text) == []
  {
    hide EndsTerm, Terms;
    var p := "\"" + text + " ";
    forall k | 0 <= k < |p| ensures !EndsTerm(p[..k], p[k]) {
      QuoteOpens(text + " ", k);
      assert p == "\"" + (text + " ");
    }
    assert Joined([], []) == "" && Splits([], [], p, p);
    PiecesAreRead([], [], p, "\"" + text);
  }

  lemma QuoteOpens(text: string, k: nat)
    requires Quotable(text) && k <= |text|
    ensures var p := "\"" + text; !EndsTerm(p[..k], p[k])
  {
    hide Separator, Bare, Letter;
    if k > 0 {
      OneQuote(text[..k - 1]);
      assert ("\"" + text)[..k] == "\"" + text[..k - 1];
    }
  }

  lemma {:induction false} OneQuote(text: string)
    requires Quotable(text)
    ensures Quotes("\"" + text) == 1
    decreases |text|
  {
    var p := "\"" + text;
    if text != "" {
      var front := text[..|text| - 1];
      assert forall i :: 0 <= i < |front| ==> front[i] == text[i];
      assert p[..|p| - 1] == "\"" + front && p[|p| - 1] == text[|text| - 1];
      LetterPlain(text[|text| - 1]);
      OneQuote(front);
    } else {
      assert p[..0] == "";
    }
  }

  // ----- which characters separate

  /** Of the printable characters of ASCII all but letters, digits, ? and | end a word of a path; of these, all but the dash
      and the star separate the terms of a query wherever they stand. */
  lemma SeparatorsArePunctuation(c: char)
    requires ' ' <= c <= '~'
    ensures Ends(c) <==> !('a' <= c <= 'z' || 'A' <= c <= 'Z' || '0' <= c <= '9' || c == '?' || c == '|')
    ensures Separator(c) <==> Ends(c) && c != '-' && c != '*'
  {
  }

  /** Capital letters become the small ones, in the order of the alphabet. */
  lemma LowerAlphabet(capitals: string)
    requires capitals == "ABCDEFGHIJKLMNOPQRSTUVWXYZ"
    ensures Lower(capitals) == "abcdefghijklmnopqrstuvwxyz"
  {
  }
}
