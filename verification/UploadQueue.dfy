/** A peer's place in the upload queue. */
module UploadQueue {
  import opened Basics
  import opened Ascii
  import opened UploadModel
  import opened UploadStates

  /** Whether a row's path is the one asked for, lower-cased if the peer knows it so. */
  predicate Matches(r: Row, stopAt: string) {
    r.path == stopAt || (r.caseProblem && Lower(r.path) == stopAt)
  }

  /** The path under which an upload is announced to its peer. */
  function AnnouncedPath(r: Row): string {
    if r.caseProblem then Lower(r.path) else r.path
  }

  /** An upload is found under its own path and under the one it is announced with, and under no other. */
  lemma MatchesIff(r: Row, stopAt: string)
    ensures Matches(r, stopAt) <==> stopAt == r.path || stopAt == AnnouncedPath(r)
  {
  }

  /** Whether a row stands in the queue of the privileged ones, or of the others. */
  predicate InQueue(m: Manager, id: Id, privileged: bool)
    requires id in m.rows
  {
    m.rows[id].state == QueuedLocally && (m.rows[id].user in m.priv) == privileged
  }

  /** The uploads of a list that are queued, privileged or not. */
  function Standing(m: Manager, ids: seq<Id>, privileged: bool): seq<Id>
    requires forall id :: id in ids ==> id in m.rows
  {
    if ids == [] then []
    else (if InQueue(m, ids[0], privileged) then [ids[0]] else []) + Standing(m, ids[1..], privileged)
  }

  /** All queued uploads in the order in which they are served: a stable sort, privileged ones first. */
  function ServiceOrder(m: Manager): seq<Id>
    requires Listed(m)
  {
    Standing(m, m.list, true) + Standing(m, m.list, false)
  }

  /** How a pass from index i on counts, for a privileged asker or not, once the match is found or not yet. */
  function Counted(m: Manager, priv: bool, stopAt: string, i: nat, found: bool): nat
    requires Listed(m) && i <= |m.list|
    decreases |m.list| - i
  {
    if i == |m.list| then 0
    else
      var id := m.list[i];
      (if InQueue(m, id, true) && (!found || !priv) then 1 else if InQueue(m, id, false) && !found && !priv then 1 else 0)
      + Counted(m, priv, stopAt, i + 1, found || Matches(m.rows[id], stopAt))
  }

  /** The first match at or after index i, if any. */
  function FirstMatch(m: Manager, stopAt: string, i: nat): (k: nat)
    requires Listed(m) && i <= |m.list|
    ensures i <= k <= |m.list| && (k < |m.list| ==> Matches(m.rows[m.list[k]], stopAt))
    ensures forall j :: i <= j < k ==> !Matches(m.rows[m.list[j]], stopAt)
    decreases |m.list| - i
  {
    if i == |m.list| || Matches(m.rows[m.list[i]], stopAt) then i else FirstMatch(m, stopAt, i + 1)
  }

  lemma PassStep(m: Manager, priv: bool, stopAt: string, i: nat, found: bool)
    requires Listed(m) && i < |m.list|
    ensures var id := m.list[i];
            Counted(m, priv, stopAt, i, found)
            == (if InQueue(m, id, true) && (!found || !priv) then 1 else if InQueue(m, id, false) && !found && !priv then 1 else 0)
               + Counted(m, priv, stopAt, i + 1, found || Matches(m.rows[id], stopAt))
    ensures FirstMatch(m, stopAt, i) == if Matches(m.rows[m.list[i]], stopAt) then i else FirstMatch(m, stopAt, i + 1)
  {
  }

  lemma PassEnd(m: Manager, priv: bool, stopAt: string, found: bool)
    requires Listed(m)
    ensures Counted(m, priv, stopAt, |m.list|, found) == 0 && FirstMatch(m, stopAt, |m.list|) == |m.list|
  {
  }

  function QueueLength(m: Manager, user: string, stopAt: string): nat
    requires Listed(m)
  {
    if FirstMatch(m, stopAt, 0) == |m.list| then 0 else Counted(m, user in m.priv, stopAt, 0, false)
  }

  // ----- the count is a place

  lemma {:induction false} StandingConcat(m: Manager, a: seq<Id>, b: seq<Id>, privileged: bool)
    requires (forall id :: id in a ==> id in m.rows) && forall id :: id in b ==> id in m.rows
    ensures forall id :: id in a + b ==> id in m.rows
    ensures Standing(m, a + b, privileged) == Standing(m, a, privileged) + Standing(m, b, privileged)
  {
    if a == [] {
      assert a + b == b;
    } else {
      assert (a + b)[0] == a[0] && (a + b)[1..] == a[1..] + b;
      StandingConcat(m, a[1..], b, privileged);
    }
  }

  /** After the match only privileged uploads count, and only for an asker who is not privileged. */
  lemma {:induction false} CountedAfter(m: Manager, priv: bool, stopAt: string, i: nat)
    requires Listed(m) && i <= |m.list|
    ensures Counted(m, priv, stopAt, i, true) == if priv then 0 else |Standing(m, m.list[i..], true)|
    decreases |m.list| - i
  {
    if i < |m.list| {
      CountedAfter(m, priv, stopAt, i + 1);
      assert m.list[i..][1..] == m.list[i + 1..];
    }
  }

  /** Up to the match at k everything queued counts, but for a privileged asker only what is privileged. */
  lemma {:induction false} CountedUpTo(m: Manager, priv: bool, stopAt: string, i: nat, k: nat)
    requires Listed(m) && i <= k < |m.list| && k == FirstMatch(m, stopAt, i)
    ensures Counted(m, priv, stopAt, i, false)
            == |Standing(m, m.list[i..k + 1], true)|
               + (if priv then 0 else |Standing(m, m.list[i..k + 1], false)| + |Standing(m, m.list[k + 1..], true)|)
    decreases k - i
  {
    var upTo := m.list[i..k + 1];
    assert upTo[0] == m.list[i] && upTo[1..] == m.list[i + 1..k + 1];
    if i == k {
      CountedAfter(m, priv, stopAt, k + 1);
      assert upTo[1..] == [];
    } else {
      CountedUpTo(m, priv, stopAt, i + 1, k);
    }
  }

  /** The queued uploads before list index k, and the one at k, at their place. */
  lemma StandingAt(m: Manager, k: nat, privileged: bool)
    requires Listed(m) && k < |m.list| && InQueue(m, m.list[k], privileged)
    ensures var p := |Standing(m, m.list[..k], privileged)|;
            p < |Standing(m, m.list, privileged)| && Standing(m, m.list, privileged)[p] == m.list[k]
            && |Standing(m, m.list[..k + 1], privileged)| == p + 1
    ensures Standing(m, m.list[..k + 1], !privileged) == Standing(m, m.list[..k], !privileged)
  {
    var one := [m.list[k]];
    assert one[1..] == [];
    assert m.list[..k + 1] == m.list[..k] + one;
    assert m.list == m.list[..k + 1] + m.list[k + 1..];
    StandingConcat(m, m.list[..k], one, privileged);
    StandingConcat(m, m.list[..k], one, !privileged);
    StandingConcat(m, m.list[..k + 1], m.list[k + 1..], privileged);
  }

  /** The answer is the one-based place, in the order of service, of the queued upload that matches first. */
  lemma QueueLengthIsPlace(m: Manager, user: string, stopAt: string, k: nat)
    requires Listed(m) && k < |m.list| && k == FirstMatch(m, stopAt, 0)
    requires m.rows[m.list[k]].user == user && m.rows[m.list[k]].state == QueuedLocally
    ensures var n := QueueLength(m, user, stopAt); 1 <= n <= |ServiceOrder(m)| && ServiceOrder(m)[n - 1] == m.list[k]
  {
    var priv := user in m.priv;
    CountedUpTo(m, priv, stopAt, 0, k);
    assert m.list[0..k + 1] == m.list[..k + 1];
    StandingAt(m, k, priv);
    assert m.list == m.list[..k + 1] + m.list[k + 1..];
    StandingConcat(m, m.list[..k + 1], m.list[k + 1..], true);
  }

  /** In a list without repetitions that place is the only one. */
  lemma {:induction false} StandingDistinct(m: Manager, ids: seq<Id>, privileged: bool)
    requires Distinct(ids) && forall id :: id in ids ==> id in m.rows
    ensures Distinct(Standing(m, ids, privileged))
    ensures forall id :: id in Standing(m, ids, privileged) <==> id in ids && InQueue(m, id, privileged)
  {
    if ids != [] {
      StandingDistinct(m, ids[1..], privileged);
      assert ids[0] !in ids[1..];
    }
  }

  /** Every queued upload has exactly one place in the order of service, privileged ones before all others. */
  lemma ServiceOrderSorted(m: Manager)
    requires Listed(m) && Distinct(m.list)
    ensures Distinct(ServiceOrder(m))
    ensures forall id :: id in ServiceOrder(m) <==> id in m.list && m.rows[id].state == QueuedLocally
    ensures forall i, j :: 0 <= i < j < |ServiceOrder(m)| && ServiceOrder(m)[j] in m.rows && m.rows[ServiceOrder(m)[j]].user in m.priv
                           ==> ServiceOrder(m)[i] in m.rows && m.rows[ServiceOrder(m)[i]].user in m.priv
  {
    var a, b := Standing(m, m.list, true), Standing(m, m.list, false);
    StandingDistinct(m, m.list, true);
    StandingDistinct(m, m.list, false);
    forall i | 0 <= i < |a| ensures a[i] in a && InQueue(m, a[i], true) {
    }
    forall i | 0 <= i < |b| ensures b[i] in b && InQueue(m, b[i], false) {
    }
  }

  /** For a queued upload of the asker that matches, the answer is its place exactly if no listed upload before it matches. */
  lemma QueueLengthIff(m: Manager, user: string, stopAt: string, k: nat)
    requires Listed(m) && Distinct(m.list) && k < |m.list| && Matches(m.rows[m.list[k]], stopAt)
    requires m.rows[m.list[k]].user == user && m.rows[m.list[k]].state == QueuedLocally
    ensures var n := QueueLength(m, user, stopAt);
            (1 <= n <= |ServiceOrder(m)| && ServiceOrder(m)[n - 1] == m.list[k]) <==> FirstMatch(m, stopAt, 0) == k
  {
    var first := FirstMatch(m, stopAt, 0);
    if first == k {
      QueueLengthIsPlace(m, user, stopAt, k);
    } else {
      var p := CountedTooFew(m, user in m.priv, stopAt, first, k);
      ServiceOrderSorted(m);
    }
  }

  /** Counting to an earlier match falls short of the place of the upload at k. */
  lemma CountedTooFew(m: Manager, priv: bool, stopAt: string, first: nat, k: nat) returns (p: nat)
    requires Listed(m) && first == FirstMatch(m, stopAt, 0) && first < k < |m.list| && InQueue(m, m.list[k], priv)
    ensures Counted(m, priv, stopAt, 0, false) <= p < |ServiceOrder(m)| && ServiceOrder(m)[p] == m.list[k]
  {
    hide Counted, Standing, FirstMatch, InQueue;
    CountedUpTo(m, priv, stopAt, 0, first);
    StandingAt(m, k, priv);
    assert m.list[0..first + 1] == m.list[..first + 1];
    assert m.list[..k] == m.list[..first + 1] + m.list[first + 1..k];
    StandingConcat(m, m.list[..first + 1], m.list[first + 1..k], priv);
    assert m.list == m.list[..first + 1] + m.list[first + 1..];
    StandingConcat(m, m.list[..first + 1], m.list[first + 1..], true);
    p := |Standing(m, m.list[..k], priv)| + if priv then 0 else |Standing(m, m.list, true)|;
  }

  // ----- a list where the answer is another user's place

  /** One upload takes the slot; two users ask for the same path, the second one after another file. */
  function SamePathTwice(a: string, b: string, c: string, x: string, y: string, z: string): seq<Event> {
    [EvAdd(c, z, false, false, 0, 0), EvAdd(a, x, false, false, 0, 0), EvAdd(b, y, false, false, 0, 0), EvAdd(b, x, false, false, 0, 0)]
  }

  function ThreeQueued(a: string, b: string, c: string, x: string, y: string, z: string): Manager {
    Behind(Behind(Behind(One(c, z, Initiating, 0, 0, 0, 0), a, x, 0), b, y, 0), b, x, 0)
  }

  lemma SamePathTwiceRun(a: string, b: string, c: string, x: string, y: string, z: string)
    requires a != b && x != y && x != z && y != z
    ensures Run(Empty(1, {}, false), SamePathTwice(a, b, c, x, y, z)) == ThreeQueued(a, b, c, x, y, z)
  {
    hide Add, Run, One, Behind, Full, Unlisted;
    var m0, m1 := Empty(1, {}, false), One(c, z, Initiating, 0, 0, 0, 0);
    var m2, m3 := Behind(m1, a, x, 0), Behind(Behind(m1, a, x, 0), b, y, 0);
    var events := SamePathTwice(a, b, c, x, y, z);
    FirstAdd(m0, c, z, 0, 0);
    RunStep(m0, m1, events);
    Filling(m1, a, b, c, x, y, z);
    AddBehind(m1, a, x, 0);
    RunStep(m1, m2, events[1..]);
    AddBehind(m2, b, y, 0);
    RunStep(m2, m3, events[2..]);
    AddBehind(m3, b, x, 0);
    RunStep(m3, Behind(m3, b, x, 0), events[3..]);
    RunEnd(Behind(m3, b, x, 0), events[4..]);
  }

  lemma Filling(m: Manager, a: string, b: string, c: string, x: string, y: string, z: string)
    requires a != b && x != y && x != z && y != z && m == One(c, z, Initiating, 0, 0, 0, 0)
    ensures var m2 := Behind(m, a, x, 0);
            var m3 := Behind(m2, b, y, 0);
            Full(m) && Unlisted(m, a, x) && Full(m2) && Unlisted(m2, b, y) && Full(m3) && Unlisted(m3, b, x)
  {
  }

  lemma QueuedShape(m: Manager, a: string, b: string, c: string, x: string, y: string, z: string)
    requires m == ThreeQueued(a, b, c, x, y, z)
    ensures m.list == [0, 1, 2, 3] && m.rows.Keys == {0, 1, 2, 3} && Listed(m) && m.priv == {}
    ensures m.rows[0] == Row(c, z, false, Initiating, 0, false, 0, 0) && m.rows[1] == Row(a, x, false, QueuedLocally, 0, false, 0, 0)
    ensures m.rows[2] == Row(b, y, false, QueuedLocally, 0, false, 0, 0) && m.rows[3] == Row(b, x, false, QueuedLocally, 0, false, 0, 0)
  {
  }

  /** The user is left out of the match: a run to a state where another user's earlier upload of the same path is counted up
      to, and the answer is 1 for the upload that comes third. */
  lemma WrongUpload(a: string, b: string, c: string, x: string, y: string, z: string)
    requires a != b && x != y && x != z && y != z
    ensures var m := Run(Empty(1, {}, false), SamePathTwice(a, b, c, x, y, z));
            && m.rows.Keys == {0, 1, 2, 3} && m.rows[3].user == b && m.rows[3].path == x
            && QueueLength(m, b, x) == 1 && ServiceOrder(m) == [1, 2, 3]
  {
    hide Run, SamePathTwice, QueueLength, ServiceOrder, Empty;
    SamePathTwiceRun(a, b, c, x, y, z);
    var m := ThreeQueued(a, b, c, x, y, z);
    QueuedShape(m, a, b, c, x, y, z);
    WrongCount(m, b, x);
    OrderOfThree(m);
  }

  lemma WrongCount(m: Manager, b: string, x: string)
    requires m.list == [0, 1, 2, 3] && m.rows.Keys == {0, 1, 2, 3} && m.priv == {} && !m.rows[0].caseProblem && m.rows[0].path != x
    requires m.rows[0].state == Initiating && m.rows[1].state == QueuedLocally && m.rows[1].path == x
    ensures Listed(m) && QueueLength(m, b, x) == 1
  {
    hide Counted, FirstMatch;
    PassStep(m, false, x, 0, false);
    PassStep(m, false, x, 1, false);
    PassStep(m, false, x, 2, true);
    PassStep(m, false, x, 3, true);
    PassEnd(m, false, x, true);
  }

  lemma OrderOfThree(m: Manager)
    requires m.list == [0, 1, 2, 3] && m.rows.Keys == {0, 1, 2, 3} && m.priv == {} && m.rows[0].state == Initiating
    requires m.rows[1].state == QueuedLocally && m.rows[2].state == QueuedLocally && m.rows[3].state == QueuedLocally
    ensures Listed(m) && ServiceOrder(m) == [1, 2, 3]
  {
    hide Standing;
    StandingFirst(m, m.list, true);
    StandingFirst(m, m.list, false);
    assert m.list[1..] == [1, 2, 3];
    AllStanding(m, [1, 2, 3]);
  }

  lemma StandingFirst(m: Manager, ids: seq<Id>, privileged: bool)
    requires ids != [] && forall id :: id in ids ==> id in m.rows
    ensures Standing(m, ids, privileged)
            == (if InQueue(m, ids[0], privileged) then [ids[0]] else []) + Standing(m, ids[1..], privileged)
  {
  }

  lemma {:induction false} AllStanding(m: Manager, ids: seq<Id>)
    requires forall id :: id in ids ==> id in m.rows && InQueue(m, id, false)
    ensures Standing(m, ids, true) == [] && Standing(m, ids, false) == ids
  {
    if ids != [] {
      AllStanding(m, ids[1..]);
    }
  }
}
