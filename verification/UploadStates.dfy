/** Some states that runs of the upload scheduler lead to. */
module UploadStates {
  import opened Basics
  import opened UploadModel
  import opened UploadProofs
  import opened UploadRuns

  /** One slot and one upload, in some state, to a user whose socket is peer. */
  function One(user: string, path: string, s: TrState, ticket: nat, size: nat, peer: Peer, connections: nat): Manager {
    var served: map<string, Id> := if Active(s) then map[user := 0] else map[];
    Manager([0], map[0 := Row(user, path, false, s, ticket, false, 0, size)], served, served, 1, {}, false, 1,
            if connections == 0 then map[] else map[peer := connections], if connections == 0 then None else Some(peer))
  }

  lemma FirstAdd(m: Manager, user: string, x: string, size: nat, peer: Peer)
    requires m == Empty(1, {}, false)
    ensures Add(m, user, x, false, false, size, 0) == One(user, x, Initiating, 0, size, peer, 0)
  {
    var c := Create(m, user, x, false, size, 0);
    assert c.list == [0] && c.rows == map[0 := Row(user, x, false, Offline, 0, false, 0, size)];
    QueueStarts(c, user);
  }

  lemma QueueStarts(m: Manager, user: string)
    requires m.list == [0] && m.rows.Keys == {0} && m.uploading == map[] && m.initiating == map[] && m.slots == 1
    requires m.rows[0].user == user && m.rows[0].state != QueuedLocally && !m.rows[0].socket
    ensures SetState(m, 0, QueuedLocally)
            == m.(rows := map[0 := m.rows[0].(state := Initiating)], uploading := map[user := 0], initiating := map[user := 0])
  {
    hide SetState, CheckUploads, Pick, Mark;
    var q := m.(rows := map[0 := m.rows[0].(state := QueuedLocally)]);
    MarkQueued(m);
    QueueChecks(m, 0);
    PickOnly(q);
    CheckStarts(q, 0);
    MarkFirst(q, user);
    CheckFull(Mark(q, 0, Initiating));
  }

  lemma MarkQueued(m: Manager)
    requires m.rows.Keys == {0} && m.uploading == map[] && m.initiating == map[]
    ensures Mark(m, 0, QueuedLocally) == m.(rows := map[0 := m.rows[0].(state := QueuedLocally)])
  {
  }

  lemma MarkFirst(q: Manager, user: string)
    requires q.rows.Keys == {0} && q.uploading == map[] && q.initiating == map[] && q.rows[0].user == user
    ensures Mark(q, 0, Initiating)
            == q.(rows := map[0 := q.rows[0].(state := Initiating)], uploading := map[user := 0], initiating := map[user := 0])
  {
  }

  lemma QueueChecks(m: Manager, id: Id)
    requires Listed(m) && id in m.rows && m.rows[id].state != QueuedLocally && !m.rows[id].socket
    ensures SetState(m, id, QueuedLocally) == CheckUploads(Mark(m, id, QueuedLocally))
  {
    hide Enter, Mark, CheckUploads, OnDisconnected;
    EnterChecks(m, id);
  }

  lemma EnterChecks(m: Manager, id: Id)
    requires Listed(m) && id in m.rows
    ensures Enter(m, id, QueuedLocally) == CheckUploads(Mark(m, id, QueuedLocally))
  {
    hide Mark, CheckUploads, Follow, Clear;
  }

  lemma PickOnly(q: Manager)
    requires q.list == [0] && q.rows.Keys == {0} && Eligible(q, 0)
    ensures Listed(q) && Pick(q) == Some(0)
  {
    assert q.list[0] == 0;
    FirstFromIsCandidate(q, 0, true);
    assert FirstFrom(q, 0, false) == Some(0);
  }

  lemma CheckStarts(q: Manager, id: Id)
    requires Listed(q) && HasFreeSlots(q) && Pick(q) == Some(id)
    ensures id in q.rows && Listed(Mark(q, id, Initiating)) && CheckUploads(q) == CheckUploads(Mark(q, id, Initiating))
  {
    hide Pick, Mark;
    PickStarts(q, id);
  }

  lemma CheckFull(m: Manager)
    requires Listed(m) && !HasFreeSlots(m)
    ensures CheckUploads(m) == m
  {
  }

  lemma CheckNone(m: Manager)
    requires Listed(m) && forall id :: id in m.list ==> !Eligible(m, id)
    ensures CheckUploads(m) == m
  {
    FirstFromIsCandidate(m, 0, true);
    FirstFromIsCandidate(m, 0, false);
  }

  lemma Announced(m: Manager, user: string, path: string, peer: Peer, size: nat, was: nat, token: nat, k: nat)
    requires m == One(user, path, Initiating, was, size, peer, k)
    ensures PeerReady(m, user, peer, Some(size), token) == One(user, path, Waiting, token, size, peer, k + 1)
  {
    hide CheckUploads;
    var leaving := (x: Manager, id: Id) => WasOffline(x, id, user);
    assert SetEach(m, [0], leaving, QueuedLocally) == m;
    assert m.list == [0];
    var n := One(user, path, Waiting, token, size, peer, k + 1);
    Waits(m, user, path, peer, size, was, token, k);
    CheckFull(n);
  }

  lemma Waits(m: Manager, user: string, path: string, peer: Peer, size: nat, was: nat, token: nat, k: nat)
    requires m == One(user, path, Initiating, was, size, peer, k)
    ensures Initiate(m, 0, peer, Some(size), token) == One(user, path, Waiting, token, size, peer, k + 1)
  {
    hide SetState, One;
    OneRow(user, path, Initiating, was, size, peer, k);
    assert WithSize(m, 0, size) == m by { assert m.rows[0].(size := size) == m.rows[0]; }
    SetStateActive(m, 0, Waiting);
    OneWaits(m, user, path, peer, size, was, k);
    OneAnnounced(One(user, path, Waiting, was, size, peer, k), user, path, peer, size, was, token, k);
  }

  lemma OneRow(user: string, path: string, s: TrState, ticket: nat, size: nat, peer: Peer, k: nat)
    ensures var m := One(user, path, s, ticket, size, peer, k);
            Listed(m) && 0 in m.rows && m.rows[0] == Row(user, path, false, s, ticket, false, 0, size)
  {
  }

  lemma OneWaits(m: Manager, user: string, path: string, peer: Peer, size: nat, was: nat, k: nat)
    requires m == One(user, path, Initiating, was, size, peer, k)
    ensures Mark(m, 0, Waiting) == One(user, path, Waiting, was, size, peer, k)
  {
  }

  lemma OneAnnounced(m: Manager, user: string, path: string, peer: Peer, size: nat, was: nat, token: nat, k: nat)
    requires m == One(user, path, Waiting, was, size, peer, k)
    ensures 0 in m.rows && Connect(WithTicket(m, 0, token), peer) == One(user, path, Waiting, token, size, peer, k + 1)
  {
  }

  lemma TimedOut(m: Manager, user: string, path: string, peer: Peer, size: nat, token: nat, k: nat)
    requires m == One(user, path, Waiting, token, size, peer, k)
    ensures ReplyTimeout(m, 0) == One(user, path, CannotConnect, token, size, peer, k)
  {
    hide CheckUploads;
    var n := One(user, path, CannotConnect, token, size, peer, k);
    assert SetSocket(m, 0, false) == m;
    assert Mark(m, 0, CannotConnect) == n;
    CheckNone(n);
  }

  lemma AskedAgain(m: Manager, user: string, path: string, peer: Peer, size: nat, token: nat, k: nat)
    requires m == One(user, path, CannotConnect, token, size, peer, k)
    ensures Add(m, user, path, false, false, size, 0) == One(user, path, Initiating, token, size, peer, k)
  {
    assert m.list[0] == 0;
    assert Find(m, user, path, 0) == Some(0);
    hide SetState;
    QueueStarts(m, user);
  }

  lemma RunStep(m: Manager, n: Manager, events: seq<Event>)
    requires Listed(m) && events != [] && !events[0].EvReply? && Step(m, events[0]) == n
    ensures Listed(n) && Run(m, events) == Run(n, events[1..]) && ProperRun(m, events) == ProperRun(n, events[1..])
  {
    hide Step, Listed;
  }

  lemma RunEnd(m: Manager, events: seq<Event>)
    requires Listed(m) && events == []
    ensures Run(m, events) == m && ProperRun(m, events)
  {
  }

  // ----- uploads behind it

  /** One more queued upload at the end of the list. */
  function Behind(m: Manager, user: string, path: string, size: nat): Manager {
    m.(list := m.list + [m.next], rows := m.rows[m.next := Row(user, path, false, QueuedLocally, 0, false, 0, size)],
       next := m.next + 1)
  }

  /** All slots are taken by upload 0, and new uploads get new numbers. */
  predicate Full(m: Manager) {
    Listed(m) && !HasFreeSlots(m) && m.next > 0 && m.next !in m.rows
    && (forall u :: u in m.uploading ==> m.uploading[u] == 0) && forall u :: u in m.initiating ==> m.initiating[u] == 0
  }

  predicate Unlisted(m: Manager, user: string, path: string)
    requires Listed(m)
  {
    forall id :: id in m.list ==> m.rows[id].user != user || m.rows[id].path != path
  }

  /** With all slots taken, an upload asked for joins the queue at its end. */
  lemma AddBehind(m: Manager, user: string, path: string, size: nat)
    requires Full(m) && Unlisted(m, user, path)
    ensures Add(m, user, path, false, false, size, 0) == Behind(m, user, path, size)
  {
    hide SetState, CheckUploads, Find, Mark;
    FindFinds(m, user, path, 0);
    var c := Create(m, user, path, false, size, 0);
    QueueChecks(c, m.next);
    MarkBehind(m, user, path, size);
    CheckFull(Mark(c, m.next, QueuedLocally));
  }

  lemma MarkBehind(m: Manager, user: string, path: string, size: nat)
    requires Full(m)
    ensures Mark(Create(m, user, path, false, size, 0), m.next, QueuedLocally) == Behind(m, user, path, size)
  {
  }
}
