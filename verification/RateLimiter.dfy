/** The sliding-window limiter that shares a byte rate between sockets. */
module RateLimiter {

  // ----- time

  datatype TimeVal = TimeVal(sec: int, usec: int)

  type Time = t: TimeVal | 0 <= t.usec < 1_000_000 witness TimeVal(0, 0)

  function Micros(t: Time): int {
    t.sec * 1_000_000 + t.usec
  }

  predicate Later(a: Time, b: Time) {
    a.sec > b.sec || (a.sec == b.sec && a.usec > b.usec)
  }

  function PlusSeconds(t: Time, s: int): Time {
    TimeVal(t.sec + s, t.usec)
  }

  /** The time d whole milliseconds on. */
  function PlusMillis(t: Time, d: int): Time {
    var u := t.usec + d * 1000;
    TimeVal(t.sec + u / 1_000_000, u % 1_000_000)
  }

  /** The difference of two times in milliseconds, as computed by halves. */
  function DiffTime(a: Time, b: Time): int {
    var s, u := a.sec - b.sec, a.usec - b.usec;
    if u < 0 then (s - 1) * 1000 + (u + 1_000_000) / 1000
    else if u >= 1_000_000 then (s + 1) * 1000 + (u - 1_000_000) / 1000
    else s * 1000 + u / 1000
  }

  /** The halves add up to the difference in microseconds, rounded down to milliseconds. */
  lemma DiffTimeRoundsDown(a: Time, b: Time)
    ensures DiffTime(a, b) * 1000 <= Micros(a) - Micros(b) < DiffTime(a, b) * 1000 + 1000
  {
  }

  lemma PlusSecondsMicros(t: Time, s: int)
    ensures Micros(PlusSeconds(t, s)) == Micros(t) + s * 1_000_000
  {
  }

  lemma LaterIffMicros(a: Time, b: Time)
    ensures Later(a, b) <==> Micros(a) > Micros(b)
  {
  }

  lemma PlusMillisMicros(t: Time, d: int)
    ensures Micros(PlusMillis(t, d)) == Micros(t) + d * 1000
  {
  }

  // ----- what the limiter computes

  datatype RateData = RateData(time: Time, count: int)

  const HISTORY := 5

  /** Drops entries from the front that are older than the history kept. */
  function Flushed(data: seq<RateData>, now: Time): (r: seq<RateData>)
    ensures |r| <= |data| && r == data[|data| - |r|..]
  {
    if data != [] && Later(PlusSeconds(now, -HISTORY), data[0].time) then Flushed(data[1..], now) else data
  }

  function Total(data: seq<RateData>): int {
    if data == [] then 0 else data[0].count + Total(data[1..])
  }

  /** The last index from which on at least limit bytes are recorded, or -1. */
  function Breach(data: seq<RateData>, limit: int, k: nat): (r: int)
    requires k <= |data|
    ensures -1 <= r < k
    ensures r >= 0 ==> Total(data[r..]) >= limit
    ensures forall j :: r < j < k ==> Total(data[j..]) < limit
  {
    if k == 0 then -1 else if Total(data[k - 1..]) >= limit then k - 1 else Breach(data, limit, k - 1)
  }

  /** How many milliseconds to wait, given the recorded traffic. */
  function Wait(data: seq<RateData>, limit: int, now: Time): int {
    if limit == -1 then 0
    else if limit == 0 then 60000
    else
      var k := Breach(data, limit, |data|);
      if k < 0 then 0
      else
        var d := DiffTime(PlusSeconds(data[k].time, 1), now);
        if d <= 0 then 0 else d
  }

  class Limiter {
    var limit: int
    var rateData: seq<RateData>

    constructor ()
      ensures limit == -1 && rateData == []
    {
      limit, rateData := -1, [];
    }

    method Transferred(now: Time, count: int)
      modifies this`rateData
      ensures rateData == old(rateData) + [RateData(now, count)]
    {
      rateData := rateData + [RateData(now, count)];
    }

    method Flush(now: Time)
      modifies this`rateData
      ensures rateData == Flushed(old(rateData), now)
    {
      var oldest := PlusSeconds(now, -HISTORY);
      while rateData != [] && Later(oldest, rateData[0].time)
        invariant Flushed(rateData, now) == Flushed(old(rateData), now)
        decreases |rateData|
      {
        rateData := rateData[1..];
      }
    }

    /** The clock is read twice: once to flush, and once more for the answer. */
    method NextWindow(flushAt: Time, now: Time) returns (d: int)
      modifies this`rateData
      ensures rateData == Flushed(old(rateData), flushAt)
      ensures d == Wait(rateData, limit, now)
    {
      hide DiffTime, PlusSeconds, Flushed;
      Flush(flushAt);
      if limit == -1 {
        return 0;
      } else if limit == 0 {
        return 60000;
      }
      var total := 0;
      var k := |rateData|;
      while k > 0
        invariant 0 <= k <= |rateData|
        invariant total == Total(rateData[k..])
        invariant Breach(rateData, limit, |rateData|) == Breach(rateData, limit, k)
      {
        k := k - 1;
        total := total + rateData[k].count;
        assert rateData[k..][1..] == rateData[k + 1..];
        if total >= limit {
          d := DiffTime(PlusSeconds(rateData[k].time, 1), now);
          return if d <= 0 then 0 else d;
        }
      }
      return 0;
    }

    /** A socket's turn in the reactor: it moves a chunk only if it need not wait. */
    method TakeTurn(t: Turn) returns (moved: bool)
      modifies this`rateData
      ensures rateData == Turned(old(rateData), limit, t)
      ensures moved == MayMove(old(rateData), limit, t)
    {
      hide Wait, Flushed;
      var d := NextWindow(t.flushAt, t.now);
      moved := d == 0;
      if moved {
        Transferred(t.moveAt, t.count);
      }
    }
  }

  // ----- what the answers mean

  /** Entries stand in the order of their times, and none is negative. */
  predicate Ordered(data: seq<RateData>) {
    && (forall i, j :: 0 <= i < j < |data| ==> Micros(data[i].time) <= Micros(data[j].time))
    && (forall i :: 0 <= i < |data| ==> data[i].count >= 0)
  }

  /** The bytes recorded from one time to another, both included. */
  function Between(data: seq<RateData>, from: int, to: int): int {
    if data == [] then 0
    else (if from <= Micros(data[0].time) <= to then data[0].count else 0) + Between(data[1..], from, to)
  }

  lemma {:induction false} TotalConcat(a: seq<RateData>, b: seq<RateData>)
    ensures Total(a + b) == Total(a) + Total(b)
  {
    if a == [] {
      assert a + b == b;
    } else {
      assert (a + b)[1..] == a[1..] + b;
      TotalConcat(a[1..], b);
    }
  }

  lemma {:induction false} BetweenConcat(a: seq<RateData>, b: seq<RateData>, from: int, to: int)
    ensures Between(a + b, from, to) == Between(a, from, to) + Between(b, from, to)
  {
    if a == [] {
      assert a + b == b;
    } else {
      assert (a + b)[1..] == a[1..] + b;
      BetweenConcat(a[1..], b, from, to);
    }
  }

  lemma {:induction false} BetweenWithin(data: seq<RateData>, from: int, to: int)
    requires Ordered(data)
    ensures 0 <= Between(data, from, to) <= Total(data)
    ensures AllBefore(data, from) ==> Between(data, from, to) == 0
  {
    if data != [] {
      BetweenWithin(data[1..], from, to);
    }
  }

  predicate AllBefore(data: seq<RateData>, from: int) {
    forall i :: 0 <= i < |data| ==> Micros(data[i].time) < from
  }

  lemma BreachIsOld(data: seq<RateData>, limit: int, now: Time)
    requires Ordered(data) && limit >= 1 && Wait(data, limit, now) == 0
    ensures AllBefore(data[..Breach(data, limit, |data|) + 1], Micros(now) - 999_000)
  {
    hide DiffTime, Micros, PlusSeconds, Breach;
    var k := Breach(data, limit, |data|);
    if k >= 0 {
      DiffTimeRoundsDown(PlusSeconds(data[k].time, 1), now);
      PlusSecondsMicros(data[k].time, 1);
    }
  }

  lemma TotalAfterBreach(data: seq<RateData>, limit: int)
    requires limit >= 1
    ensures Total(data[Breach(data, limit, |data|) + 1..]) < limit
  {
    hide Breach;
    var k := Breach(data, limit, |data|);
    if k + 1 == |data| {
      assert data[k + 1..] == [];
    }
  }

  lemma OrderedParts(data: seq<RateData>, k: nat)
    requires Ordered(data) && k <= |data|
    ensures Ordered(data[..k]) && Ordered(data[k..])
  {
  }

  /** An answer of 0 says that less than the limit has been recorded in the last 999 milliseconds, this instant included. */
  lemma ZeroMeansRoom(data: seq<RateData>, limit: int, now: Time, to: int)
    requires Ordered(data) && limit >= 1 && Wait(data, limit, now) == 0
    ensures Between(data, Micros(now) - 999_000, to) < limit
  {
    hide *;
    var from := Micros(now) - 999_000;
    var k := Breach(data, limit, |data|);
    OrderedParts(data, k + 1);
    BreachIsOld(data, limit, now);
    TotalAfterBreach(data, limit);
    assert data == data[..k + 1] + data[k + 1..];
    BetweenConcat(data[..k + 1], data[k + 1..], from, to);
    BetweenWithin(data[k + 1..], from, to);
    BetweenWithin(data[..k + 1], from, to);
  }

  /** A positive answer d is exact: e milliseconds later, if nothing has moved, d - e are left; after d none. */
  lemma WaitIsLeast(data: seq<RateData>, limit: int, now: Time, e: nat)
    requires limit != 0 && Wait(data, limit, now) > 0
    ensures var d := Wait(data, limit, now); Wait(data, limit, PlusMillis(now, e)) == if e < d then d - e else 0
  {
    var k := Breach(data, limit, |data|);
    var t := PlusSeconds(data[k].time, 1);
    DiffTimeRoundsDown(t, now);
    DiffTimeRoundsDown(t, PlusMillis(now, e));
    PlusMillisMicros(now, e);
  }

  lemma {:induction false} BetweenAll(data: seq<RateData>, from: int, to: int)
    requires forall i :: 0 <= i < |data| ==> from <= Micros(data[i].time) <= to
    ensures Between(data, from, to) == Total(data)
  {
    hide Micros;
    if data != [] {
      BetweenAll(data[1..], from, to);
    }
  }

  /** An answer above 0 says that the limit has been reached in the last 999 milliseconds. */
  lemma PositiveMeansFull(data: seq<RateData>, limit: int, now: Time, to: int)
    requires Ordered(data) && limit >= 1 && Wait(data, limit, now) != 0
    requires forall i :: 0 <= i < |data| ==> Micros(data[i].time) <= to
    ensures Between(data, Micros(now) - 999_000, to) >= limit
  {
    hide DiffTime, Micros, PlusSeconds, Breach, Total, Between;
    var from := Micros(now) - 999_000;
    var k := Breach(data, limit, |data|);
    DiffTimeRoundsDown(PlusSeconds(data[k].time, 1), now);
    PlusSecondsMicros(data[k].time, 1);
    OrderedParts(data, k);
    forall i | 0 <= i < |data[k..]| ensures from <= Micros(data[k..][i].time) <= to {
      assert data[k..][i] == data[k + i];
    }
    BetweenAll(data[k..], from, to);
    BetweenWithin(data[..k], from, to);
    BetweenConcat(data[..k], data[k..], from, to);
    assert data == data[..k] + data[k..];
  }

  lemma ZeroIffRoom(data: seq<RateData>, limit: int, now: Time, to: int)
    requires Ordered(data) && limit >= 1 && forall i :: 0 <= i < |data| ==> Micros(data[i].time) <= to
    ensures Wait(data, limit, now) == 0 <==> Between(data, Micros(now) - 999_000, to) < limit
  {
    hide Wait, Between, Micros;
    if Wait(data, limit, now) == 0 {
      ZeroMeansRoom(data, limit, now, to);
    } else {
      PositiveMeansFull(data, limit, now, to);
    }
  }

  /** The answer is the least number of milliseconds after which the last 999 milliseconds hold less than the limit. */
  lemma WaitIffRoom(data: seq<RateData>, limit: int, now: Time, e: nat, to: int)
    requires Ordered(data) && limit >= 1 && forall i :: 0 <= i < |data| ==> Micros(data[i].time) <= to
    ensures e >= Wait(data, limit, now) <==> Between(data, Micros(now) + e * 1000 - 999_000, to) < limit
  {
    hide Wait, Between, Micros, PlusMillis;
    var after := PlusMillis(now, e);
    PlusMillisMicros(now, e);
    ZeroIffRoom(data, limit, after, to);
    if Wait(data, limit, now) > 0 {
      WaitIsLeast(data, limit, now, e);
    } else {
      WaitNotNegative(data, limit, now);
      ZeroIffRoom(data, limit, now, to);
      BetweenShrinks(data, Micros(now) - 999_000, Micros(after) - 999_000, to);
    }
  }

  lemma WaitNotNegative(data: seq<RateData>, limit: int, now: Time)
    ensures Wait(data, limit, now) >= 0
  {
    hide Breach, DiffTime, PlusSeconds;
  }

  lemma {:induction false} FlushedIsOld(data: seq<RateData>, now: Time)
    ensures forall i :: 0 <= i < |data| - |Flushed(data, now)| ==> Micros(data[i].time) < Micros(now) - 5_000_000
  {
    if data != [] && Later(PlusSeconds(now, -HISTORY), data[0].time) {
      LaterIffMicros(PlusSeconds(now, -HISTORY), data[0].time);
      FlushedIsOld(data[1..], now);
      forall i | 0 < i < |data| - |Flushed(data, now)| ensures Micros(data[i].time) < Micros(now) - 5_000_000 {
        assert data[i] == data[1..][i - 1];
      }
    }
  }

  /** The first entry that is kept is not older than the history, so in the order of times none is. */
  lemma {:induction false} FlushedIsRecent(data: seq<RateData>, now: Time, i: nat)
    requires Ordered(data) && i < |Flushed(data, now)|
    ensures Micros(Flushed(data, now)[i].time) >= Micros(now) - 5_000_000
    decreases |data|
  {
    hide Micros, PlusSeconds;
    LaterIffMicros(PlusSeconds(now, -HISTORY), data[0].time);
    PlusSecondsMicros(now, -HISTORY);
    if Later(PlusSeconds(now, -HISTORY), data[0].time) {
      assert forall k :: 0 <= k < |data[1..]| ==> data[1..][k] == data[k + 1];
      FlushedIsRecent(data[1..], now, i);
    } else {
      assert Micros(data[0].time) <= Micros(data[i].time);
    }
  }

  lemma {:induction false} BreachInSuffix(gone: seq<RateData>, kept: seq<RateData>, limit: int, k: nat)
    requires k <= |kept|
    ensures var b := Breach(kept, limit, k);
            Breach(gone + kept, limit, |gone| + k) == if b >= 0 then |gone| + b else Breach(gone + kept, limit, |gone|)
  {
    if k > 0 {
      assert (gone + kept)[|gone| + k - 1..] == kept[k - 1..];
      BreachInSuffix(gone, kept, limit, k - 1);
    }
  }

  /** Entries that have left the history make no difference to any later answer. */
  lemma OldMakesNoDifference(gone: seq<RateData>, kept: seq<RateData>, limit: int, now: Time)
    requires forall i :: 0 <= i < |gone| ==> Micros(gone[i].time) < Micros(now) - 5_000_000
    ensures Wait(gone + kept, limit, now) == Wait(kept, limit, now)
  {
    hide DiffTime, Micros, PlusSeconds, Breach, Total;
    BreachInSuffix(gone, kept, limit, |kept|);
    var b := Breach(gone + kept, limit, |gone|);
    if b >= 0 {
      assert (gone + kept)[b] == gone[b];
      OldIsOver(gone[b].time, now);
    }
  }

  lemma OldIsOver(t: Time, now: Time)
    requires Micros(t) < Micros(now) - 5_000_000
    ensures DiffTime(PlusSeconds(t, 1), now) <= 0
  {
    hide DiffTime, Micros, PlusSeconds;
    DiffTimeRoundsDown(PlusSeconds(t, 1), now);
    PlusSecondsMicros(t, 1);
  }

  /** Flushing never changes an answer, then or later. */
  lemma FlushChangesNothing(data: seq<RateData>, limit: int, flushAt: Time, now: Time)
    requires Micros(flushAt) <= Micros(now)
    ensures Wait(Flushed(data, flushAt), limit, now) == Wait(data, limit, now)
  {
    var kept := Flushed(data, flushAt);
    var gone := data[..|data| - |kept|];
    assert data == gone + kept;
    FlushedIsOld(data, flushAt);
    OldMakesNoDifference(gone, kept, limit, now);
  }

  // ----- runs

  /** A turn of a socket: it asks, and if it need not wait it moves at most one chunk, a little later. */
  datatype Turn = Turn(flushAt: Time, now: Time, moveAt: Time, count: nat)

  const CHUNK := 1024

  /** The clock never goes back, and no turn moves more than a chunk. */
  predicate Paced(turns: seq<Turn>, since: int) {
    turns == [] ||
    var t: Turn := turns[0];
    since <= Micros(t.flushAt) <= Micros(t.now) <= Micros(t.moveAt) && t.count <= CHUNK && Paced(turns[1..], Micros(t.moveAt))
  }

  /** The limiter's entries after a turn. */
  function Turned(data: seq<RateData>, limit: int, t: Turn): seq<RateData> {
    var kept := Flushed(data, t.flushAt);
    if Wait(kept, limit, t.now) == 0 then kept + [RateData(t.moveAt, t.count)] else kept
  }

  /** Whether the limiter lets a turn move its chunk. */
  predicate MayMove(data: seq<RateData>, limit: int, t: Turn) {
    Wait(Flushed(data, t.flushAt), limit, t.now) == 0
  }

  /** Everything moved in a run that starts with these entries. */
  function Moved(data: seq<RateData>, limit: int, turns: seq<Turn>): seq<RateData>
    decreases |turns|
  {
    if turns == [] then []
    else
      (if MayMove(data, limit, turns[0]) then [RateData(turns[0].moveAt, turns[0].count)] else [])
      + Moved(Turned(data, limit, turns[0]), limit, turns[1..])
  }

  /** A limit of 0 lets nothing through. */
  lemma {:induction false} ZeroMovesNothing(data: seq<RateData>, turns: seq<Turn>)
    ensures Moved(data, 0, turns) == []
    decreases |turns|
  {
    hide Flushed;
    if turns != [] {
      ZeroMovesNothing(Turned(data, 0, turns[0]), turns[1..]);
    }
  }

  /** It asks for a minute's wait. */
  lemma ZeroWaitsAMinute(data: seq<RateData>, now: Time)
    ensures PlusMillis(now, Wait(data, 0, now)) == PlusSeconds(now, 60)
  {
  }

  /** Without a limit every turn moves all it has. */
  lemma {:induction false} UnlimitedMovesAll(data: seq<RateData>, turns: seq<Turn>)
    ensures |Moved(data, -1, turns)| == |turns|
    ensures forall i :: 0 <= i < |turns| ==> Moved(data, -1, turns)[i] == RateData(turns[i].moveAt, turns[i].count)
    decreases |turns|
  {
    hide Flushed;
    if turns != [] {
      UnlimitedMovesAll(Turned(data, -1, turns[0]), turns[1..]);
    }
  }

  /** The bytes of the 999 milliseconds from this time on. */
  function Window(log: seq<RateData>, from: int): int {
    Between(log, from, from + 999_000)
  }

  /** No 999 milliseconds carry more than one chunk over what is below the limit. */
  ghost predicate Even(log: seq<RateData>, limit: int) {
    forall from :: Window(log, from) <= limit - 1 + CHUNK
  }

  /** The limiter still keeps of the log all but entries that were too old at the last flush. */
  predicate Tracks(log: seq<RateData>, data: seq<RateData>, flushed: int, since: int) {
    && Ordered(log) && flushed <= since
    && |data| <= |log| && data == log[|log| - |data|..]
    && (forall i :: 0 <= i < |log| ==> Micros(log[i].time) <= since)
    && (forall i :: 0 <= i < |log| - |data| ==> Micros(log[i].time) < flushed - 5_000_000)
  }

  lemma FlushTracks(log: seq<RateData>, data: seq<RateData>, flushed: int, since: int, now: Time)
    requires Tracks(log, data, flushed, since) && since <= Micros(now)
    ensures Tracks(log, Flushed(data, now), Micros(now), Micros(now))
  {
    FlushedIsOld(data, now);
    var kept := Flushed(data, now);
    assert kept == log[|log| - |kept|..];
    forall i | 0 <= i < |log| - |kept| ensures Micros(log[i].time) < Micros(now) - 5_000_000 {
      if i >= |log| - |data| {
        assert log[i] == data[i - (|log| - |data|)];
      }
    }
  }

  /** One more chunk, moved where there was room, keeps every window even. */
  lemma MoveKeepsEven(log: seq<RateData>, limit: int, now: Time, moveAt: Time, count: nat)
    requires Ordered(log) && Even(log, limit) && limit >= 1 && count <= CHUNK
    requires Wait(log, limit, now) == 0 && Micros(now) <= Micros(moveAt)
    ensures Even(log + [RateData(moveAt, count)], limit)
  {
    hide Between, Wait, Ordered, Micros;
    var e := RateData(moveAt, count);
    forall from ensures Window(log + [e], from) <= limit - 1 + CHUNK {
      BetweenConcat(log, [e], from, from + 999_000);
      BetweenOne(e, from, from + 999_000);
      if Micros(moveAt) <= from + 999_000 {
        ZeroMeansRoom(log, limit, now, from + 999_000);
        BetweenShrinks(log, Micros(now) - 999_000, from, from + 999_000);
      } else {
        assert Window(log, from) <= limit - 1 + CHUNK;
      }
    }
  }

  lemma BetweenOne(e: RateData, from: int, to: int)
    ensures Between([e], from, to) == if from <= Micros(e.time) <= to then e.count else 0
  {
    assert [e][1..] == [];
  }

  lemma {:induction false} BetweenShrinks(data: seq<RateData>, a: int, b: int, to: int)
    requires Ordered(data)
    ensures a <= b ==> Between(data, b, to) <= Between(data, a, to)
  {
    if data != [] {
      BetweenShrinks(data[1..], a, b, to);
    }
  }

  /** The limiter answers from what it keeps as it would from the whole log. */
  lemma AnswersFromLog(log: seq<RateData>, data: seq<RateData>, flushed: int, since: int, limit: int, now: Time)
    requires Tracks(log, data, flushed, since) && flushed <= Micros(now)
    ensures Wait(data, limit, now) == Wait(log, limit, now)
  {
    var gone := log[..|log| - |data|];
    assert log == gone + data;
    OldMakesNoDifference(gone, data, limit, now);
  }

  lemma MoveTracks(log: seq<RateData>, kept: seq<RateData>, flushed: int, moveAt: Time, count: nat)
    requires Tracks(log, kept, flushed, flushed) && flushed <= Micros(moveAt)
    ensures Tracks(log + [RateData(moveAt, count)], kept + [RateData(moveAt, count)], flushed, Micros(moveAt))
  {
    hide Micros;
  }

  lemma TurnKeeps(log: seq<RateData>, data: seq<RateData>, limit: int, flushed: int, since: int, t: Turn)
    requires limit >= 1 && Tracks(log, data, flushed, since) && Even(log, limit)
    requires since <= Micros(t.flushAt) <= Micros(t.now) <= Micros(t.moveAt) && t.count <= CHUNK
    ensures var moved := if Wait(Flushed(data, t.flushAt), limit, t.now) == 0 then [RateData(t.moveAt, t.count)] else [];
            Tracks(log + moved, Turned(data, limit, t), Micros(t.flushAt), Micros(t.moveAt)) && Even(log + moved, limit)
  {
    hide Flushed, Wait, Micros, Even, Ordered;
    FlushTracks(log, data, flushed, since, t.flushAt);
    var kept := Flushed(data, t.flushAt);
    AnswersFromLog(log, kept, Micros(t.flushAt), Micros(t.flushAt), limit, t.now);
    if Wait(kept, limit, t.now) == 0 {
      MoveKeepsEven(log, limit, t.now, t.moveAt, t.count);
      MoveTracks(log, kept, Micros(t.flushAt), t.moveAt, t.count);
    } else {
      assert log + [] == log;
    }
  }

  /** In every run under a fixed limit, with a clock that never goes back, every 999 milliseconds are even. */
  lemma {:induction false} RunKeepsEven(log: seq<RateData>, data: seq<RateData>, limit: int, flushed: int, since: int, turns: seq<Turn>)
    requires limit >= 1 && Tracks(log, data, flushed, since) && Even(log, limit) && Paced(turns, since)
    ensures Even(log + Moved(data, limit, turns), limit)
    decreases |turns|
  {
    hide Flushed, Wait, Micros, Even, Tracks, Turned;
    if turns == [] {
      assert log + [] == log;
    } else {
      var t := turns[0];
      TurnKeeps(log, data, limit, flushed, since, t);
      var moved := if Wait(Flushed(data, t.flushAt), limit, t.now) == 0 then [RateData(t.moveAt, t.count)] else [];
      RunKeepsEven(log + moved, Turned(data, limit, t), limit, Micros(t.flushAt), Micros(t.moveAt), turns[1..]);
      assert log + Moved(data, limit, turns) == log + moved + Moved(Turned(data, limit, t), limit, turns[1..]);
    }
  }

  /** A new limiter bounds every sliding window of 999 milliseconds by the limit less one, and a chunk. */
  lemma WindowBound(limit: int, turns: seq<Turn>, since: int, from: int)
    requires limit >= 1 && Paced(turns, since)
    ensures Between(Moved([], limit, turns), from, from + 999_000) <= limit - 1 + 1024
  {
    RunKeepsEven([], [], limit, since, since, turns);
    assert [] + Moved([], limit, turns) == Moved([], limit, turns);
    assert Window(Moved([], limit, turns), from) <= limit - 1 + CHUNK;
  }
}
