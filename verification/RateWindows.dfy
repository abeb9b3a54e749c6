/** Which windows of time the limiter bounds: those of 999 milliseconds and no longer ones, at every limit. */
module RateWindows {
  import opened RateLimiter

  /** The bytes that the turns of a run on a new limiter move from a time on, for w microseconds. */
  function Carried(limit: int, turns: seq<Turn>, from: int, w: int): int {
    Between(Moved([], limit, turns), from, from + w)
  }

  /** No window of w microseconds carries more than one chunk over what is below the limit, in any run. */
  ghost predicate Bounded(limit: int, w: int) {
    forall turns, since, from :: Paced(turns, since) ==> Carried(limit, turns, from, w) <= limit - 1 + CHUNK
  }

  /** The limiter bounds the windows of up to 999 milliseconds, at every limit, and no longer ones, at any. */
  lemma WindowBoundIff(limit: int, w: int)
    requires limit >= 1
    ensures Bounded(limit, w) <==> w <= 999_000
  {
    hide Moved, Between, Paced;
    if w <= 999_000 {
      forall turns, since, from | Paced(turns, since) ensures Carried(limit, turns, from, w) <= limit - 1 + CHUNK {
        WindowBound(limit, turns, since, from);
        MovedCounts([], limit, turns);
        BetweenWider(Moved([], limit, turns), from, from + w, from + 999_000);
      }
    } else {
      OverCarries(limit, w);
      assert Paced(OverRun(limit), 0) && Carried(limit, OverRun(limit), 0, w) > limit - 1 + CHUNK;
    }
  }

  /** So at every limit a whole second may carry more: the wait is rounded down, and ends up to a millisecond early. */
  lemma SecondMayCarryMore(limit: int)
    requires limit >= 1
    ensures Paced(OverRun(limit), 0)
    ensures Carried(limit, OverRun(limit), 0, 1_000_000) == limit + 1024
  {
    OverCarries(limit, 1_000_000);
  }

  // ----- shorter windows

  predicate Counting(data: seq<RateData>) {
    forall i :: 0 <= i < |data| ==> data[i].count >= 0
  }

  lemma {:induction false} BetweenWider(data: seq<RateData>, from: int, to: int, later: int)
    requires Counting(data) && to <= later
    ensures Between(data, from, to) <= Between(data, from, later)
  {
    if data != [] {
      BetweenWider(data[1..], from, to, later);
    }
  }

  lemma {:induction false} MovedCounts(data: seq<RateData>, limit: int, turns: seq<Turn>)
    ensures Counting(Moved(data, limit, turns))
    decreases |turns|
  {
    hide Turned, MayMove;
    if turns != [] {
      MovedCounts(Turned(data, limit, turns[0]), limit, turns[1..]);
    }
  }

  // ----- a run that fills a longer window

  const START: Time := TimeVal(0, 0)
  /** So little less than a second later that the wait is rounded down to nothing. */
  const NEXT: Time := TimeVal(0, 999_001)

  function OneByte(): Turn {
    Turn(START, START, START, 1)
  }

  function OneChunk(): Turn {
    Turn(NEXT, NEXT, NEXT, CHUNK)
  }

  /** n turns of one byte at once, and then one of a chunk. */
  function OverRun(n: nat): seq<Turn> {
    if n == 0 then [OneChunk()] else [OneByte()] + OverRun(n - 1)
  }

  /** What k of the turns of one byte leave in the limiter. */
  function Units(k: nat): (r: seq<RateData>)
    ensures |r| == k
  {
    if k == 0 then [] else Units(k - 1) + [RateData(START, 1)]
  }

  lemma OverCarries(limit: int, w: int)
    requires limit >= 1 && w > 999_000
    ensures Paced(OverRun(limit), 0)
    ensures Carried(limit, OverRun(limit), 0, w) == limit + CHUNK
  {
    hide Moved, Between, Paced, Units, Micros;
    OverPaced(limit);
    OverMoves(limit, 0, limit);
    NoUnits();
    assert [] + Moved([], limit, OverRun(limit)) == Moved([], limit, OverRun(limit));
    BetweenUnits(limit, w);
    BetweenConcat(Units(limit), [RateData(NEXT, CHUNK)], 0, w);
    BetweenOne(RateData(NEXT, CHUNK), 0, w);
    Times();
  }

  lemma NoUnits()
    ensures Units(0) == []
  {
  }

  lemma Times()
    ensures Micros(START) == 0 && Micros(NEXT) == 999_001
  {
    hide Micros;
    MicrosOf(START, 0);
    MicrosOf(NEXT, 999_001);
  }

  lemma MicrosOf(t: Time, usec: int)
    requires t.sec == 0 && t.usec == usec
    ensures Micros(t) == usec
  {
  }

  lemma {:induction false} OverPaced(n: nat)
    ensures Paced(OverRun(n), 0)
  {
    hide Paced, Micros;
    Times();
    if n == 0 {
      PacedStep(OneChunk(), [], 0);
      assert [OneChunk()] + [] == [OneChunk()];
    } else {
      OverPaced(n - 1);
      PacedStep(OneByte(), OverRun(n - 1), 0);
    }
  }

  lemma PacedStep(t: Turn, rest: seq<Turn>, since: int)
    ensures Paced([t] + rest, since)
            <==> since <= Micros(t.flushAt) <= Micros(t.now) <= Micros(t.moveAt) && t.count <= CHUNK && Paced(rest, Micros(t.moveAt))
    ensures Paced([], Micros(t.moveAt))
  {
    hide Micros;
    assert ([t] + rest)[1..] == rest;
  }

  /** With k bytes moved and n still to come below the limit, all of them move, and the chunk after them. */
  lemma {:induction false} OverMoves(limit: int, k: nat, n: nat)
    requires limit >= 1 && k + n == limit
    ensures Units(k) + Moved(Units(k), limit, OverRun(n)) == Units(limit) + [RateData(NEXT, CHUNK)]
    decreases n
  {
    hide Turned, MayMove, Units, Moved;
    var run := OverRun(n);
    if n == 0 {
      ChunkMoves(limit);
      MovedStep(Units(k), limit, run);
      assert run[1..] == [];
      NothingMoved(Turned(Units(k), limit, run[0]), limit);
    } else {
      ByteMoves(limit, k);
      MovedStep(Units(k), limit, run);
      assert run[1..] == OverRun(n - 1);
      OverMoves(limit, k + 1, n - 1);
      UnitsStep(k);
      Regroup(Units(k), RateData(START, 1), Moved(Units(k + 1), limit, OverRun(n - 1)));
    }
  }

  lemma Regroup(a: seq<RateData>, e: RateData, b: seq<RateData>)
    ensures a + ([e] + b) == a + [e] + b
  {
  }

  lemma UnitsStep(k: nat)
    ensures Units(k + 1) == Units(k) + [RateData(START, 1)]
  {
  }

  lemma MovedStep(data: seq<RateData>, limit: int, turns: seq<Turn>)
    requires turns != [] && MayMove(data, limit, turns[0])
    ensures Moved(data, limit, turns)
            == [RateData(turns[0].moveAt, turns[0].count)] + Moved(Turned(data, limit, turns[0]), limit, turns[1..])
  {
    hide Turned, MayMove;
  }

  lemma NothingMoved(data: seq<RateData>, limit: int)
    ensures Moved(data, limit, []) == []
  {
  }

  /** Entries of the start are not old yet. */
  lemma UnitsStay(k: nat, now: Time)
    requires now == START || now == NEXT
    ensures Flushed(Units(k), now) == Units(k)
  {
    if k > 0 {
      UnitsAt(k, 0);
    }
  }

  lemma {:induction false} UnitsAt(k: nat, i: nat)
    requires i < k
    ensures Units(k)[i] == RateData(START, 1)
  {
    if i < k - 1 {
      UnitsAt(k - 1, i);
    }
  }

  lemma {:induction false} TotalUnits(data: seq<RateData>)
    requires forall i :: 0 <= i < |data| ==> data[i].count == 1
    ensures Total(data) == |data|
  {
    if data != [] {
      TotalUnits(data[1..]);
    }
  }

  lemma ByteMoves(limit: int, k: nat)
    requires 0 <= k < limit
    ensures MayMove(Units(k), limit, OneByte()) && Turned(Units(k), limit, OneByte()) == Units(k + 1)
  {
    hide Total, Flushed, Units, Breach;
    UnitsStay(k, START);
    UnitsStep(k);
    NoBreach(limit, k);
  }

  lemma NoBreach(limit: int, k: nat)
    requires 0 <= k < limit
    ensures Breach(Units(k), limit, k) < 0
  {
    hide Total, Units;
    var b := Breach(Units(k), limit, k);
    if b >= 0 {
      forall i | 0 <= i < k ensures Units(k)[i] == RateData(START, 1) {
        UnitsAt(k, i);
      }
      TotalUnits(Units(k)[b..]);
    }
  }

  lemma ChunkMoves(limit: int)
    requires limit >= 1
    ensures MayMove(Units(limit), limit, OneChunk())
  {
    hide Total, Flushed, Units, Breach, DiffTime, PlusSeconds;
    UnitsStay(limit, NEXT);
    var b := Breach(Units(limit), limit, limit);
    if b >= 0 {
      UnitsAt(limit, b);
      ShortWait(START, NEXT);
    }
  }

  lemma ShortWait(t: Time, now: Time)
    requires t.sec == now.sec && now.usec == t.usec + 999_001
    ensures DiffTime(PlusSeconds(t, 1), now) == 0
  {
  }

  lemma {:induction false} BetweenUnits(k: nat, w: int)
    requires w >= 0
    ensures Between(Units(k), 0, w) == k
  {
    hide Between, Units, Micros;
    Times();
    if k == 0 {
      NoUnits();
      BetweenNothing(0, w);
    } else {
      UnitsStep(k - 1);
      BetweenUnits(k - 1, w);
      BetweenConcat(Units(k - 1), [RateData(START, 1)], 0, w);
      BetweenOne(RateData(START, 1), 0, w);
    }
  }

  lemma BetweenNothing(from: int, to: int)
    ensures Between([], from, to) == 0
  {
  }
}
