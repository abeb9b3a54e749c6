/** For which queries the search through the index answers as a linear scan that honours every term. */
module SearchAgreement {
  import opened Basics
  import opened Ascii
  import opened FileEntries
  import opened Shares
  import opened SharesTerms

  /** The search agrees with the scan on every list short enough not to be cut off. */
  ghost predicate Agrees(ts: seq<Term>) {
    forall flat, path ::
      DistinctPaths(flat) && |flat| <= CAP ==> (path in Answer(flat, ts, map[]) <==> HasPath(Matches(flat, ts), path))
  }

  /** No file is ever found that the scan would refuse. */
  ghost predicate Sound(ts: seq<Term>) {
    forall flat, path :: DistinctPaths(flat) && path in Answer(flat, ts, map[]) ==> Accepts(path, ts)
  }

  /** A query of phrases alone finds nothing that it should not if and only if it leaves out no text. */
  lemma PhraseSearchIff(query: string)
    requires PlainWords(Terms(query)) == [] && Phrases(Terms(query)) != []
    ensures Sound(Terms(query)) <==> Excluded(Terms(query)) == []
  {
    hide Terms, PlainWords, Phrases, Excluded, Answer, Accepts, DistinctPaths;
    var ts := Terms(query);
    if Excluded(ts) == [] {
      forall flat, path | DistinctPaths(flat) && path in Answer(flat, ts, map[]) ensures Accepts(path, ts) {
        FoundByPhrases(flat, query, path);
      }
    } else {
      var e := OverlookedFile(query);
      assert DistinctPaths([e]) by { OneIsDistinct(e); }
    }
  }

  /** The search agrees with the scan if and only if the query has a plain word, or has phrases and leaves out no text,
      or has neither but leaves out the empty text. */
  lemma SearchAgreesIff(query: string)
    ensures var ts := Terms(query);
            Agrees(ts) <==> PlainWords(ts) != [] || (Phrases(ts) != [] && Excluded(ts) == []) || (Phrases(ts) == [] && "" in Excluded(ts))
  {
    hide Terms, PlainWords, Phrases, Excluded, Answer, Accepts, DistinctPaths, Matches, HasPath;
    var ts := Terms(query);
    if PlainWords(ts) != [] {
      forall flat, path | DistinctPaths(flat) && |flat| <= CAP
        ensures path in Answer(flat, ts, map[]) <==> HasPath(Matches(flat, ts), path)
      {
        WordsAgree(flat, query, path);
      }
    } else if Phrases(ts) != [] {
      if Excluded(ts) == [] {
        forall flat, path | DistinctPaths(flat) && |flat| <= CAP
          ensures path in Answer(flat, ts, map[]) <==> HasPath(Matches(flat, ts), path)
        {
          PhrasesAgree(flat, query, path);
        }
        NotIn(Excluded(ts));
      } else {
        var e := OverlookedFile(query);
        OneIsDistinct(e);
        OneMatches(e, ts);
        assert !(e.path in Answer([e], ts, map[]) <==> HasPath(Matches([e], ts), e.path));
      }
    } else if "" in Excluded(ts) {
      forall flat, path | DistinctPaths(flat) && |flat| <= CAP
        ensures path in Answer(flat, ts, map[]) <==> HasPath(Matches(flat, ts), path)
      {
        NothingAsked(flat, ts);
        EmptyTextMatchesNone(flat, ts);
        NoPath(path);
      }
    } else {
      var e := Entry("", File(0, [], []));
      OneIsDistinct(e);
      OneMatches(e, ts);
      NothingAsked([e], ts);
      NamelessAccepted(ts);
      assert !(e.path in Answer([e], ts, map[]) <==> HasPath(Matches([e], ts), e.path));
    }
  }

  lemma NotIn(xs: seq<string>)
    requires xs == []
    ensures "" !in xs
  {
  }

  lemma OneIsDistinct(e: Entry)
    ensures DistinctPaths([e])
  {
  }

  lemma OneMatches(e: Entry, ts: seq<Term>)
    ensures HasPath(Matches([e], ts), e.path) <==> Accepts(e.path, ts)
  {
    hide Accepts, Accepted;
    AcceptedOfOne(e, (f: Entry) => Accepts(f.path, ts));
    assert e in [e];
    NoPath(e.path);
  }

  lemma AcceptedOfOne(e: Entry, accept: Entry -> bool)
    ensures Accepted([e], accept) == if accept(e) then [e] else []
  {
    assert [e][1..] == [];
  }

  // ----- where they agree

  lemma WordsAgree(flat: seq<Entry>, query: string, path: string)
    requires DistinctPaths(flat) && |flat| <= CAP && PlainWords(Terms(query)) != []
    ensures path in Answer(flat, Terms(query), map[]) <==> HasPath(Matches(flat, Terms(query)), path)
  {
    hide Terms, PlainWords, Accepts, DistinctPaths, HasPath, Answer;
    SearchIsScan(flat, query, path);
    AcceptedShorter(flat, (e: Entry) => Accepts(e.path, Terms(query)));
    var m := Matches(flat, Terms(query));
    assert m[..Min(CAP, |m|)] == m;
  }

  lemma {:induction false} AcceptedShorter(flat: seq<Entry>, accept: Entry -> bool)
    ensures |Accepted(flat, accept)| <= |flat|
  {
    if flat != [] {
      AcceptedShorter(flat[1..], accept);
    }
  }

  lemma PhrasesAgree(flat: seq<Entry>, query: string, path: string)
    requires DistinctPaths(flat) && |flat| <= CAP
    requires PlainWords(Terms(query)) == [] && Phrases(Terms(query)) != [] && Excluded(Terms(query)) == []
    ensures path in Answer(flat, Terms(query), map[]) <==> HasPath(Matches(flat, Terms(query)), path)
  {
    hide Terms, PlainWords, Phrases, Excluded, HasPhrases, DistinctPaths, HasPath, Answer, Contains, Words;
    var ts := Terms(query);
    var accept := (e: Entry) => HasPhrases(e.path, Phrases(ts));
    PhraseSearchIsScan(flat, query, path);
    AcceptedShorter(flat, accept);
    AcceptedSame(flat, accept, (e: Entry) => Accepts(e.path, ts));
    var m := Accepted(flat, accept);
    assert m[..Min(CAP, |m|)] == m;
  }

  lemma FoundByPhrases(flat: seq<Entry>, query: string, path: string)
    requires DistinctPaths(flat) && path in Answer(flat, Terms(query), map[])
    requires PlainWords(Terms(query)) == [] && Phrases(Terms(query)) != [] && Excluded(Terms(query)) == []
    ensures Accepts(path, Terms(query))
  {
    hide Terms, PlainWords, Phrases, Excluded, HasPhrases, DistinctPaths, Answer, Contains, Words;
    var accept := (e: Entry) => HasPhrases(e.path, Phrases(Terms(query)));
    PhraseSearchIsScan(flat, query, path);
    AcceptedOnly(flat, accept);
    var m := Accepted(flat, accept);
    FoundIsOne(m[..Min(CAP, |m|)], m, path);
  }

  lemma FoundIsOne(es: seq<Entry>, m: seq<Entry>, path: string)
    requires HasPath(es, path) && es <= m
    ensures exists e :: e in m && e.path == path
  {
    var e :| e in es && e.path == path;
    assert e in m;
  }

  lemma NothingAsked(flat: seq<Entry>, ts: seq<Term>)
    requires PlainWords(ts) == [] && Phrases(ts) == []
    ensures Answer(flat, ts, map[]) == map[]
  {
  }

  lemma EmptyTextMatchesNone(flat: seq<Entry>, ts: seq<Term>)
    requires "" in Excluded(ts)
    ensures Matches(flat, ts) == []
  {
    hide Words, HasPhrases, PlainWords, Excluded, Phrases;
    forall e | e in flat ensures !Accepts(e.path, ts) {
      assert At(Lower(e.path), "", 0);
    }
    NoneAccepted(flat, (e: Entry) => Accepts(e.path, ts));
  }

  // ----- where they do not

  /** A file without a name holds no text but the empty one. */
  lemma NamelessAccepted(ts: seq<Term>)
    requires PlainWords(ts) == [] && Phrases(ts) == [] && "" !in Excluded(ts)
    ensures Accepts("", ts)
  {
    hide PlainWords, Phrases, Excluded, Words;
    forall x | x in Excluded(ts) ensures !Contains(Lower(""), x) {
      assert |x| > 0;
    }
  }

  function Joined(texts: seq<string>): string {
    if texts == [] then "" else texts[0] + Joined(texts[1..])
  }

  /** A file that has every phrase of the query, and a text the query leaves out; the search finds it all the same. */
  lemma OverlookedFile(query: string) returns (e: Entry)
    requires PlainWords(Terms(query)) == [] && Phrases(Terms(query)) != [] && Excluded(Terms(query)) != []
    ensures e.path in Answer([e], Terms(query), map[]) && !Accepts(e.path, Terms(query))
  {
    hide Terms, PlainWords, Phrases, Excluded, HasPhrases, Answer, Contains, Words;
    var ts := Terms(query);
    var x := Excluded(ts)[0];
    e := Entry(Joined(Phrases(ts)) + x, File(0, [], []));
    JoinedHasAll("", Phrases(ts), x);
    assert "" + Joined(Phrases(ts)) + x == e.path;
    OneIsDistinct(e);
    PhraseSearchIsScan([e], query, e.path);
    OneAccepted(e, (f: Entry) => HasPhrases(f.path, Phrases(ts)));
    InExcluded(ts, x);
    ExcludedLower(query, x);
    ContainsPart(Joined(Phrases(ts)), x, "");
    assert Joined(Phrases(ts)) + x + "" == e.path;
  }

  lemma OneAccepted(e: Entry, accept: Entry -> bool)
    requires accept(e)
    ensures var m := Accepted([e], accept); HasPath(m[..Min(CAP, |m|)], e.path)
  {
    AcceptedOfOne(e, accept);
    assert [e][..1] == [e] && e in [e];
  }

  lemma {:induction false} InExcluded(ts: seq<Term>, x: string)
    ensures Without(x) in ts <==> x in Excluded(ts)
  {
    if ts != [] {
      InExcluded(ts[1..], x);
    }
  }

  lemma ContainsPart(a: string, p: string, b: string)
    ensures Contains(Lower(a + p + b), Lower(p))
  {
    assert Lower(a + p + b)[|a|..|a| + |p|] == Lower(p);
    assert At(Lower(a + p + b), Lower(p), |a|);
  }

  lemma {:induction false} JoinedHasAll(a: string, texts: seq<string>, b: string)
    ensures HasPhrases(a + Joined(texts) + b, texts)
    decreases |texts|
  {
    hide Contains;
    if texts != [] {
      var path := a + Joined(texts) + b;
      assert path == a + texts[0] + (Joined(texts[1..]) + b);
      ContainsPart(a, texts[0], Joined(texts[1..]) + b);
      assert path == (a + texts[0]) + Joined(texts[1..]) + b;
      JoinedHasAll(a + texts[0], texts[1..], b);
      assert texts == [texts[0]] + texts[1..];
    }
  }
}
