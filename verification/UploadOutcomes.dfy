/** What each event leaves of every upload, row by row. */
module UploadOutcomes {
  import opened Basics
  import opened UploadModel
  import opened UploadProofs
  import opened UploadHandlers
  import opened UploadEffects
  import UploadReply
  import UploadRuns

  /** Nothing has happened to an upload, or the search has begun to start it. */
  predicate AtMostStarted(r: Row, s: Row) {
    s == r || (r.state == QueuedLocally && s == r.(state := Initiating))
  }

  predicate OthersAtMostStarted(m: Manager, id: Id, n: Manager)
    requires n.rows.Keys == m.rows.Keys
  {
    forall x :: x in m.rows && x != id ==> AtMostStarted(m.rows[x], n.rows[x])
  }

  lemma OthersTrans(a: Manager, b: Manager, c: Manager, id: Id)
    requires b.rows.Keys == a.rows.Keys && c.rows.Keys == b.rows.Keys
    requires OthersAtMostStarted(a, id, b) && OthersAtMostStarted(b, id, c)
    ensures OthersAtMostStarted(a, id, c)
  {
  }

  // ----- one upload enters a state

  lemma EnterOthers(m: Manager, id: Id, s: TrState)
    requires Inv(m) && id in m.rows && !Active(s) && (m.rows[id].socket ==> s == Offline)
    ensures OthersAtMostStarted(m, id, Enter(m, id, s))
    ensures s != Finished ==> Enter(m, id, s).list == m.list
  {
    hide Inv, Mark, Follow, CheckUploads, Clear, Settled, Extends, Bounded, Started;
    UploadReply.InvListed(m);
    FinishPosition(m, id, s);
    var a := if s == Finished then Follow(WithPosition(m, id, m.rows[id].size), id) else m;
    EnteredRows(m, a, id, s);
    UploadReply.InvListed(a);
    MarkInactive(a, id, s);
    CheckKeeps(Mark(a, id, s));
    StartedOthers(Mark(a, id, s), CheckUploads(Mark(a, id, s)), id);
    MarkRows(a, id, s);
  }

  lemma EnteredRows(m: Manager, a: Manager, id: Id, s: TrState)
    requires id in m.rows && a == if s == Finished then Follow(WithPosition(m, id, m.rows[id].size), id) else m
    ensures a.rows.Keys == m.rows.Keys && forall x :: x in m.rows && x != id ==> a.rows[x] == m.rows[x]
  {
  }

  lemma StartedOthers(b: Manager, c: Manager, id: Id)
    requires c.rows.Keys == b.rows.Keys && Started(b, c)
    ensures OthersAtMostStarted(b, id, c)
  {
  }

  /** Entering a state that is not active does no more to other uploads than start them. */
  lemma SetOthers(m: Manager, id: Id, s: TrState)
    requires Good(m) && id in m.rows && NoTwin(m, id) && (Disconnects(s) || Closes(s) || s == Offline)
    ensures OthersAtMostStarted(m, id, SetState(m, id, s))
  {
    hide Inv, Settled, NoTwin, SetState, Enter, OnDisconnected, Extends, Bounded;
    UploadReply.InvListed(m);
    if m.rows[id].state == s {
      SameState(m, id, s);
    } else if Closes(s) {
      CloseOthers(m, id, s);
    } else if Disconnects(s) && m.rows[id].socket {
      DisconnectOthers(m, id);
      DisconnectKeeps(m, id);
      var a := OnDisconnected(m, id);
      assert WithSocket(a, id, false) == a by { assert a.rows[id].(socket := false) == a.rows[id]; }
      EnterOthers(a, id, s);
      DroppingForm(m, id, s);
      OthersTrans(m, a, SetState(m, id, s), id);
    } else {
      EnterOthers(m, id, s);
      PlainForm(m, id, s);
    }
  }

  lemma CloseOthers(m: Manager, id: Id, s: TrState)
    requires Good(m) && id in m.rows && Closes(s) && m.rows[id].state != s
    ensures OthersAtMostStarted(m, id, SetState(m, id, s))
  {
    hide Inv, Settled, SetState, Enter, Extends, Bounded;
    UploadReply.InvListed(m);
    var a := WithSocket(m, id, false);
    TouchKeeps(m, id, m.rows[id].(socket := false));
    EnterOthers(a, id, s);
    ClosingForm(m, id, s);
  }

  lemma DisconnectOthers(m: Manager, id: Id)
    requires Good(m) && id in m.rows
    ensures OthersAtMostStarted(m, id, OnDisconnected(m, id))
  {
    hide Inv, Settled, SetState;
    UploadReply.InvListed(m);
    var s := Outcome(m.rows[id]);
    if m.rows[id].state != RemoteError && m.rows[id].state != LocalError {
      DisconnectedForm(m, id);
      if m.rows[id].state == s {
        SameState(m, id, s);
      } else {
        CloseOthers(m, id, s);
      }
    }
  }

  lemma FailOthers(m: Manager, id: Id, s: TrState)
    requires Good(m) && id in m.rows && NoTwin(m, id) && Disconnects(s)
    ensures OthersAtMostStarted(m, id, Fail(m, id, s))
  {
    hide Inv, Settled, NoTwin, SetState, OnDisconnected, Extends, Bounded;
    UploadReply.InvListed(m);
    DropKeeps(m, id);
    DisconnectOthers(m, id);
    var a := SetSocket(m, id, false);
    NoTwinKept(m, a, id);
    SetOthers(a, id, s);
    OthersTrans(m, a, Fail(m, id, s), id);
  }

  // ----- a peer that cannot be reached, and a reply that does not come

  /** The active upload of a peer that cannot be reached fails and gives its slot back. */
  lemma UnavailableEnds(m: Manager, user: string)
    requires Good(m)
    ensures user !in m.uploading ==> Unavailable(m, user) == m
    ensures user in m.uploading ==>
              var id, n := m.uploading[user], Unavailable(m, user);
              && id in m.rows && n.rows.Keys == m.rows.Keys
              && n.rows[id].state == CannotConnect && !n.rows[id].socket
              && (user in n.uploading ==> n.uploading[user] != id)
              && OthersAtMostStarted(m, id, n)
  {
    hide Distinct, UniquePaths, SocketsHeld, InitiatingWithin, Settled, Fail, NoTwin, Extends, Bounded;
    if user in m.uploading {
      var id := m.uploading[user];
      ListedUnique(m, id);
      FailEnds(m, id, CannotConnect);
      FailKeeps(m, id, CannotConnect);
      FailOthers(m, id, CannotConnect);
      NotRecorded(Unavailable(m, user), id);
    }
  }

  /** An upload that is not active holds no slot. */
  lemma NotRecorded(n: Manager, id: Id)
    requires Inv(n) && id in n.rows && !Active(n.rows[id].state)
    ensures forall u :: u in n.uploading ==> n.uploading[u] != id
  {
    hide Distinct, UniquePaths, SocketsHeld, InitiatingWithin;
  }

  lemma ReplyTimeoutEnds(m: Manager, id: Id)
    requires Good(m) && id in m.list
    ensures var n := ReplyTimeout(m, id);
            && id in m.rows && n.rows.Keys == m.rows.Keys
            && n.rows[id].state == CannotConnect && !n.rows[id].socket
            && (forall u :: u in n.uploading ==> n.uploading[u] != id)
            && OthersAtMostStarted(m, id, n)
  {
    hide Distinct, UniquePaths, OnePerUser, SocketsHeld, InitiatingWithin, Settled, Fail, NoTwin, Extends, Bounded;
    ListedUnique(m, id);
    FailEnds(m, id, CannotConnect);
    FailKeeps(m, id, CannotConnect);
    FailOthers(m, id, CannotConnect);
    NotRecorded(ReplyTimeout(m, id), id);
  }

  // ----- requests of the user

  lemma AbortOthers(m: Manager, id: Id)
    requires Good(m) && id in m.rows && NoTwin(m, id)
    ensures OthersAtMostStarted(m, id, AbortId(m, id))
  {
    hide Inv, Settled, NoTwin, SetState, OnDisconnected, Extends, Bounded;
    UploadReply.InvListed(m);
    DropKeeps(m, id);
    DisconnectOthers(m, id);
    var a := SetSocket(m, id, false);
    NoTwinKept(m, a, id);
    if a.rows[id].state != Finished {
      SetOthers(a, id, Aborted);
      OthersTrans(m, a, AbortId(m, id), id);
    }
  }

  /** The upload asked for is aborted, or has finished; no other is. */
  lemma AbortedEnds(m: Manager, user: string, path: string)
    requires Good(m)
    ensures Find(m, user, path, 0).None? ==> Abort(m, user, path) == m
    ensures Find(m, user, path, 0).Some? ==>
              var id, n := Find(m, user, path, 0).value, Abort(m, user, path);
              && id in m.rows && n.rows.Keys == m.rows.Keys
              && n.rows[id].state == (if Left(m.rows[id]) == Finished then Finished else Aborted) && !n.rows[id].socket
              && OthersAtMostStarted(m, id, n)
  {
    hide Inv, Settled, NoTwin, AbortId, Find, Left;
    UploadReply.InvListed(m);
    FindFinds(m, user, path, 0);
    if Find(m, user, path, 0).Some? {
      var id := Find(m, user, path, 0).value;
      ListedUnique(m, id);
      AbortEnds(m, id);
      AbortOthers(m, id);
    }
  }

  /** A removed upload is off the list and not active. */
  lemma RemovedEnds(m: Manager, user: string, path: string)
    requires Good(m)
    ensures Find(m, user, path, 0).None? ==> Remove(m, user, path) == m
    ensures Find(m, user, path, 0).Some? ==>
              var id, n := Find(m, user, path, 0).value, Remove(m, user, path);
              && id in m.rows && n.rows.Keys == m.rows.Keys
              && id !in n.list && !Active(n.rows[id].state)
              && OthersAtMostStarted(m, id, n)
  {
    hide Distinct, UniquePaths, OnePerUser, SocketsHeld, InitiatingWithin, Settled, NoTwin, AbortId, Find, RemoveFirst, Left, Extends, Bounded;
    FindFinds(m, user, path, 0);
    if Find(m, user, path, 0).Some? {
      var id := Find(m, user, path, 0).value;
      ListedUnique(m, id);
      AbortKeeps(m, id);
      AbortOthers(m, id);
      RemoveFirstDistinct(AbortId(m, id).list, id);
    }
  }

  // ----- requests for uploads

  /** A new upload stands at the end of the list, queued or starting. */
  lemma AddedNew(m: Manager, user: string, path: string, caseProblem: bool, force: bool, size: nat, ticket: nat)
    requires Good(m) && Find(m, user, path, 0) == None
    ensures var n := Add(m, user, path, caseProblem, force, size, ticket);
            && m.next !in m.rows && n.rows.Keys == m.rows.Keys + {m.next} && n.list == m.list + [m.next]
            && (n.rows[m.next] == Row(user, path, caseProblem, QueuedLocally, ticket, false, 0, size)
                || n.rows[m.next] == Row(user, path, caseProblem, Initiating, ticket, false, 0, size))
            && forall x :: x in m.rows ==> AtMostStarted(m.rows[x], n.rows[x])
  {
    hide Distinct, UniquePaths, OnePerUser, SocketsHeld, InitiatingWithin, Settled, NoTwin, SetState, Enter, CheckUploads, Find, Mark,
         Extends, Bounded, Started;
    CreateKeeps(m, user, path, caseProblem, size, ticket);
    var c := Create(m, user, path, caseProblem, size, ticket);
    SetOthers(c, m.next, QueuedLocally);
    QueuedRow(c, m.next);
  }

  /** Queueing an upload without a socket leaves it queued, or starting. */
  lemma QueuedRow(m: Manager, id: Id)
    requires Good(m) && id in m.rows && m.rows[id].state != QueuedLocally && !m.rows[id].socket
    ensures var n := SetState(m, id, QueuedLocally);
            && n.list == m.list && n.rows.Keys == m.rows.Keys
            && (n.rows[id] == m.rows[id].(state := QueuedLocally) || n.rows[id] == m.rows[id].(state := Initiating))
  {
    hide Inv, Settled, SetState, Enter, CheckUploads, Mark, Follow, Clear, Extends, Bounded;
    UploadReply.InvListed(m);
    PlainForm(m, id, QueuedLocally);
    EnterOthers(m, id, QueuedLocally);
    QueueForm(m, id);
    MarkInactive(m, id, QueuedLocally);
    MarkRows(m, id, QueuedLocally);
    CheckKeeps(Mark(m, id, QueuedLocally));
  }

  lemma QueueForm(m: Manager, id: Id)
    requires Listed(m) && id in m.rows
    ensures Enter(m, id, QueuedLocally) == CheckUploads(Mark(m, id, QueuedLocally))
  {
    hide Mark, CheckUploads, Follow, Clear;
  }

  /** An upload asked for again is queued or starting and holds no socket, unless it had been stopped on purpose; but it falls
      off the list if it held a socket, had sent everything, and finished uploads are cleared. */
  lemma AddedAgain(m: Manager, user: string, path: string, caseProblem: bool, force: bool, size: nat, ticket: nat)
    requires Good(m) && Find(m, user, path, 0).Some?
    ensures var id, n := Find(m, user, path, 0).value, Add(m, user, path, caseProblem, force, size, ticket);
            && id in m.list && id in m.rows && n.rows.Keys == m.rows.Keys
            && var r := m.rows[id];
               var stopped := !force && (r.state == Aborted || r.state == LocalError);
               && (stopped ==> n == m)
               && (!stopped ==>
                     && (n.rows[id].state == QueuedLocally || n.rows[id].state == Initiating) && !n.rows[id].socket
                     && OthersAtMostStarted(m, id, n)
                     && (id in n.list <==> !(r.socket && r.position >= r.size && m.autoClear)))
  {
    hide Distinct, UniquePaths, OnePerUser, SocketsHeld, InitiatingWithin, Settled, NoTwin, SetState, Find, Extends, Bounded;
    FindFinds(m, user, path, 0);
    var id := Find(m, user, path, 0).value;
    ListedUnique(m, id);
    if force || (m.rows[id].state != Aborted && m.rows[id].state != LocalError) {
      SetInactive(m, id, QueuedLocally);
      SetOthers(m, id, QueuedLocally);
      QueuedListIff(m, id);
    }
  }

  lemma QueuedListIff(m: Manager, id: Id)
    requires Good(m) && id in m.list && id in m.rows && NoTwin(m, id)
    ensures id in SetState(m, id, QueuedLocally).list <==> !(m.rows[id].socket && m.rows[id].position >= m.rows[id].size && m.autoClear)
  {
    hide Inv, Settled, NoTwin, SetState, Enter, OnDisconnected, Extends, Bounded;
    UploadReply.InvListed(m);
    if m.rows[id].state == QueuedLocally {
      SameState(m, id, QueuedLocally);
      NoSocket(m, id);
    } else if m.rows[id].socket {
      SameAsDisconnected(m, id);
      DisconnectListIff(m, id);
    } else {
      EnterOthers(m, id, QueuedLocally);
      PlainForm(m, id, QueuedLocally);
    }
  }

  /** Queueing an upload with a socket takes it off the list only by disconnecting it. */
  lemma SameAsDisconnected(m: Manager, id: Id)
    requires Good(m) && id in m.rows && NoTwin(m, id) && m.rows[id].socket && m.rows[id].state != QueuedLocally
    ensures Listed(m) && SetState(m, id, QueuedLocally).list == OnDisconnected(m, id).list
  {
    hide Inv, Settled, NoTwin, SetState, Enter, OnDisconnected, Extends, Bounded;
    UploadReply.InvListed(m);
    HeldState(m, id);
    DisconnectKeeps(m, id);
    var a := OnDisconnected(m, id);
    SocketGone(a, id);
    EnterOthers(a, id, QueuedLocally);
    DroppingForm(m, id, QueuedLocally);
  }

  lemma NoSocket(m: Manager, id: Id)
    requires Inv(m) && id in m.rows && !Active(m.rows[id].state) && m.rows[id].state != Offline
    ensures !m.rows[id].socket
  {
    hide Distinct, UniquePaths, OnePerUser, InitiatingWithin;
  }

  /** A closing socket clears its upload from the list exactly if that has sent everything and finished ones are cleared. */
  lemma DisconnectListIff(m: Manager, id: Id)
    requires Good(m) && id in m.list && id in m.rows && NoTwin(m, id) && m.rows[id].socket
    ensures id in OnDisconnected(m, id).list <==> !(m.rows[id].position >= m.rows[id].size && m.autoClear)
  {
    hide Inv, Settled, NoTwin, SetState, Enter, Extends, Bounded;
    UploadReply.InvListed(m);
    HeldState(m, id);
    DisconnectedForm(m, id);
    var s := Outcome(m.rows[id]);
    ClosingForm(m, id, s);
    var a := WithSocket(m, id, false);
    TouchKeeps(m, id, m.rows[id].(socket := false));
    NoTwinKept(m, a, id);
    if s == Finished {
      FinishListIff(a, id);
    } else {
      EnterOthers(a, id, s);
    }
  }

  lemma FinishListIff(m: Manager, id: Id)
    requires Inv(m) && id in m.list && id in m.rows && NoTwin(m, id) && !m.rows[id].socket
    ensures Listed(m) && (id in Enter(m, id, Finished).list <==> !m.autoClear)
  {
    hide Inv, Settled, NoTwin, Mark, Follow, CheckUploads, Clear, Extends, Bounded, Enter;
    UploadReply.InvListed(m);
    UploadReply.EnterForm(m, id, Finished);
    FinishPosition(m, id, Finished);
    var a := UploadReply.Positioned(m, id, Finished);
    UploadReply.InvListed(a);
    MarkInactive(a, id, Finished);
    var c := CheckUploads(Mark(a, id, Finished));
    CheckKeeps(Mark(a, id, Finished));
    KeptTrans(m, a, Mark(a, id, Finished));
    KeptTrans(m, Mark(a, id, Finished), c);
    SameBasics(m, c, id);
    MarkRows(a, id, Finished);
    if c.autoClear {
      UploadReply.ClearErases(c, id);
    }
  }

  lemma SameBasics(m: Manager, c: Manager, id: Id)
    requires Kept(m, c) && id in m.rows
    ensures c.autoClear == m.autoClear && id in c.rows
  {
  }

  // ----- a peer that goes offline

  lemma OfflineRow(m: Manager, id: Id)
    requires Good(m) && id in m.rows && NoTwin(m, id)
    ensures var n := SetState(m, id, Offline);
            && n.list == m.list && n.rows.Keys == m.rows.Keys && n.rows[id] == m.rows[id].(state := Offline)
            && OthersAtMostStarted(m, id, n)
  {
    hide Inv, Settled, NoTwin, SetState, Enter, CheckUploads, Mark, Follow, Clear, Extends, Bounded;
    UploadReply.InvListed(m);
    if m.rows[id].state == Offline {
      SameState(m, id, Offline);
    } else {
      PlainForm(m, id, Offline);
      EnterOthers(m, id, Offline);
      OfflineForm(m, id);
      MarkInactive(m, id, Offline);
      MarkRows(m, id, Offline);
      CheckKeeps(Mark(m, id, Offline));
    }
  }

  lemma OfflineForm(m: Manager, id: Id)
    requires Listed(m) && id in m.rows
    ensures Enter(m, id, Offline) == CheckUploads(Mark(m, id, Offline))
  {
    hide Mark, CheckUploads, Follow, Clear;
  }

  /** What a pass over some uploads of a peer that goes offline leaves of a row. */
  predicate TakenOffline(r: Row, passed: bool, user: string, s: Row) {
    if passed && r.user == user && NeedsPeer(r.state) then s == r.(state := Offline) else AtMostStarted(r, s)
  }

  lemma {:induction false} OfflinePass(m: Manager, ids: seq<Id>, user: string, leaving: (Manager, Id) -> bool)
    requires Good(m) && forall id :: id in ids ==> id in m.rows && NoTwin(m, id)
    requires forall x, id :: leaving(x, id) == GoesOffline(x, id, user)
    ensures Listed(m)
    ensures var n := SetEach(m, ids, leaving, Offline);
            && n.rows.Keys == m.rows.Keys && n.list == m.list
            && forall x :: x in m.rows ==> TakenOffline(m.rows[x], x in ids, user, n.rows[x])
    decreases |ids|
  {
    hide Inv, Settled, NoTwin, SetState, NeedsPeer, Extends, Bounded;
    UploadReply.InvListed(m);
    if ids != [] {
      var id := ids[0];
      var a := if leaving(m, id) then SetState(m, id, Offline) else m;
      OfflineRow(m, id);
      SetInactive(m, id, Offline);
      SafeRefl(m);
      forall x | x in ids[1..] ensures x in a.rows && NoTwin(a, x) {
        NoTwinKept(m, a, x);
      }
      OfflinePass(a, ids[1..], user, leaving);
      var n := SetEach(a, ids[1..], leaving, Offline);
      forall x | x in m.rows ensures TakenOffline(m.rows[x], x in ids, user, n.rows[x]) {
        assert x in ids <==> x == id || x in ids[1..];
        assert TakenOffline(m.rows[x], x == id, user, a.rows[x]);
        OfflineTwice(m.rows[x], x == id, x in ids[1..], user, a.rows[x], n.rows[x]);
      }
    }
  }

  lemma OfflineTwice(r: Row, first: bool, later: bool, user: string, s: Row, t: Row)
    requires TakenOffline(r, first, user, s) && TakenOffline(s, later, user, t)
    ensures TakenOffline(r, first || later, user, t)
  {
  }

  lemma NeedsPeerIff(s: TrState)
    ensures NeedsPeer(s) <==> s.QueuedLocally? || s.QueuedRemotely? || (Active(s) && !s.Transferring?)
  {
  }

  /** Of a peer that goes offline every listed upload that is queued, or active without transferring yet, goes offline, and no
      other upload does more than start. */
  lemma PeerOfflineRows(m: Manager, user: string, x: Id)
    requires Good(m) && x in m.rows
    ensures var n := PeerOffline(m, user);
            && n.rows.Keys == m.rows.Keys && n.list == m.list
            && var r, s := m.rows[x], n.rows[x];
               var waits := r.state.QueuedLocally? || r.state.QueuedRemotely? || (Active(r.state) && !r.state.Transferring?);
               if x in m.list && r.user == user && waits then s == r.(state := Offline) else AtMostStarted(r, s)
  {
    hide Inv, Settled, NoTwin, SetEach, NeedsPeer;
    UploadReply.InvListed(m);
    forall id | id in m.list ensures id in m.rows && NoTwin(m, id) {
      ListedUnique(m, id);
    }
    OfflinePass(m, m.list, user, (y: Manager, id: Id) => GoesOffline(y, id, user));
    NeedsPeerIff(m.rows[x].state);
  }

  // ----- the server

  /** Leaving a state that is not active for Offline frees no slot, so nothing starts. */
  lemma IdleOffline(m: Manager, id: Id)
    requires Good(m) && id in m.rows && !Active(m.rows[id].state) && m.rows[id].state != Offline
    ensures SetState(m, id, Offline) == m.(rows := m.rows[id := m.rows[id].(state := Offline)])
  {
    hide Inv, Settled, SetState, Enter, CheckUploads, Mark, Follow, Clear, Extends, Bounded;
    UploadReply.InvListed(m);
    NoSocket(m, id);
    PlainForm(m, id, Offline);
    OfflineForm(m, id);
    MarkInactive(m, id, Offline);
    IdleMark(m, id);
    StillSettled(m, id);
    UploadReply.NoRestart(Mark(m, id, Offline));
  }

  lemma IdleMark(m: Manager, id: Id)
    requires Inv(m) && id in m.rows && !Active(m.rows[id].state)
    ensures Mark(m, id, Offline) == m.(rows := m.rows[id := m.rows[id].(state := Offline)])
  {
    hide Distinct, UniquePaths, SocketsHeld;
    MarkInactiveMaps(m, id, Offline);
  }

  lemma StillSettled(m: Manager, id: Id)
    requires Good(m) && id in m.rows && Inv(m.(rows := m.rows[id := m.rows[id].(state := Offline)]))
    ensures var n := m.(rows := m.rows[id := m.rows[id].(state := Offline)]);
            Listed(n) && !(HasFreeSlots(n) && Pick(n).Some?)
  {
    hide Distinct, UniquePaths, OnePerUser, SocketsHeld, InitiatingWithin, Pick;
    var n := m.(rows := m.rows[id := m.rows[id].(state := Offline)]);
    if HasFreeSlots(n) {
      PickIsFirst(n);
    }
  }

  /** The rows after a pass over some uploads when the server has gone. */
  predicate LostServer(m: Manager, ids: seq<Id>, n: Manager) {
    && n == m.(rows := n.rows) && n.rows.Keys == m.rows.Keys
    && forall x :: x in m.rows ==> n.rows[x] == if x in ids && LosesServer(m, x) then m.rows[x].(state := Offline) else m.rows[x]
  }

  lemma {:induction false} ServerPass(m: Manager, ids: seq<Id>, leaving: (Manager, Id) -> bool)
    requires Good(m) && forall id :: id in ids ==> id in m.rows && NoTwin(m, id)
    requires forall x, id :: leaving(x, id) == LosesServer(x, id)
    ensures Listed(m) && LostServer(m, ids, SetEach(m, ids, leaving, Offline))
    decreases |ids|
  {
    hide Inv, Settled, NoTwin, SetState, Extends, Bounded;
    UploadReply.InvListed(m);
    if ids != [] {
      var id := ids[0];
      var a := if leaving(m, id) then SetState(m, id, Offline) else m;
      SetInactive(m, id, Offline);
      SafeRefl(m);
      if leaving(m, id) {
        Idle(m, id);
        IdleOffline(m, id);
      }
      forall x | x in ids[1..] ensures x in a.rows && NoTwin(a, x) {
        NoTwinKept(m, a, x);
      }
      ServerPass(a, ids[1..], leaving);
      LostTwice(m, ids, a, SetEach(a, ids[1..], leaving, Offline));
    }
  }

  lemma LostTwice(m: Manager, ids: seq<Id>, a: Manager, n: Manager)
    requires ids != [] && ids[0] in m.rows && LostServer(a, ids[1..], n)
    requires a == if LosesServer(m, ids[0]) then m.(rows := m.rows[ids[0] := m.rows[ids[0]].(state := Offline)]) else m
    ensures LostServer(m, ids, n)
  {
    forall x | x in m.rows
      ensures n.rows[x] == if x in ids && LosesServer(m, x) then m.rows[x].(state := Offline) else m.rows[x]
    {
      assert x in ids <==> x == ids[0] || x in ids[1..];
    }
  }

  lemma Idle(m: Manager, id: Id)
    requires Inv(m) && id in m.rows && LosesServer(m, id)
    ensures !Active(m.rows[id].state)
  {
    hide Distinct, UniquePaths, SocketsHeld, InitiatingWithin;
  }

  /** Of a good manager's uploads exactly the active ones are recorded, so that only the others lose the server. */
  lemma LosesServerIff(m: Manager, id: Id)
    requires Inv(m) && id in m.rows && id in m.list
    ensures LosesServer(m, id)
            <==> var s := m.rows[id].state; !Active(s) && !s.Finished? && !s.Aborted? && !s.Offline?
  {
    hide Distinct, UniquePaths, SocketsHeld, InitiatingWithin;
  }

  /** When the server goes, exactly the listed uploads that are not active and have neither finished nor been aborted go
      offline, and nothing else changes. */
  lemma ServerGoneRows(m: Manager)
    requires Good(m)
    ensures Listed(m)
    ensures var n := LoggedIn(m, false);
            && n == m.(rows := n.rows) && n.rows.Keys == m.rows.Keys
            && forall x :: x in m.rows ==>
                 var r := m.rows[x];
                 n.rows[x] == if x in m.list && !Active(r.state) && !r.state.Finished? && !r.state.Aborted? then r.(state := Offline) else r
  {
    hide Inv, Settled, NoTwin, SetEach, LosesServer, Active;
    UploadReply.InvListed(m);
    forall id | id in m.list ensures id in m.rows && NoTwin(m, id) {
      ListedUnique(m, id);
    }
    ServerPass(m, m.list, (y: Manager, id: Id) => LosesServer(y, id));
    forall x | x in m.list
      ensures LosesServer(m, x) <==> !Active(m.rows[x].state) && !m.rows[x].state.Finished? && !m.rows[x].state.Aborted? && !m.rows[x].state.Offline?
    {
      LosesServerIff(m, x);
    }
  }

  /** When it comes back nothing happens by itself: the queue was settled. */
  lemma ServerBackRows(m: Manager)
    requires Good(m)
    ensures LoggedIn(m, true) == m
  {
    hide Inv, Pick, CheckUploads;
    UploadReply.InvListed(m);
    if HasFreeSlots(m) {
      PickIsFirst(m);
    }
    UploadReply.NoRestart(m);
  }

  // ----- a peer that becomes reachable

  /** What the first part of the handler leaves of a row: the peer's offline uploads are queued, or start. */
  predicate TakenOnline(r: Row, passed: bool, user: string, s: Row) {
    if passed && r.user == user && r.state == Offline then
      s.user == r.user && s.path == r.path && !s.socket && (s.state == QueuedLocally || s.state == Initiating)
    else AtMostStarted(r, s)
  }

  lemma OnlineRow(m: Manager, id: Id)
    requires Good(m) && id in m.rows && NoTwin(m, id) && m.rows[id].state == Offline
    ensures var n := SetState(m, id, QueuedLocally);
            && n.rows.Keys == m.rows.Keys && OthersAtMostStarted(m, id, n)
            && TakenOnline(m.rows[id], true, m.rows[id].user, n.rows[id])
  {
    hide Inv, Settled, NoTwin, SetState, Bounded;
    UploadReply.InvListed(m);
    SetInactive(m, id, QueuedLocally);
    SetOthers(m, id, QueuedLocally);
  }

  lemma OnlineTwice(r: Row, first: bool, later: bool, user: string, s: Row, t: Row)
    requires TakenOnline(r, first, user, s) && TakenOnline(s, later, user, t)
    ensures TakenOnline(r, first || later, user, t)
  {
  }

  lemma {:induction false} OnlinePass(m: Manager, ids: seq<Id>, user: string, leaving: (Manager, Id) -> bool)
    requires Good(m) && forall id :: id in ids ==> id in m.rows && NoTwin(m, id)
    requires forall x, id :: leaving(x, id) == WasOffline(x, id, user)
    ensures Listed(m)
    ensures var n := SetEach(m, ids, leaving, QueuedLocally);
            n.rows.Keys == m.rows.Keys && forall x :: x in m.rows ==> TakenOnline(m.rows[x], x in ids, user, n.rows[x])
    decreases |ids|
  {
    hide Inv, Settled, NoTwin, SetState, Extends, Bounded;
    UploadReply.InvListed(m);
    if ids != [] {
      var id := ids[0];
      var a := if leaving(m, id) then SetState(m, id, QueuedLocally) else m;
      SetInactive(m, id, QueuedLocally);
      SafeRefl(m);
      if leaving(m, id) {
        OnlineRow(m, id);
      }
      forall x | x in ids[1..] ensures x in a.rows && NoTwin(a, x) {
        NoTwinKept(m, a, x);
      }
      OnlinePass(a, ids[1..], user, leaving);
      var n := SetEach(a, ids[1..], leaving, QueuedLocally);
      forall x | x in m.rows ensures TakenOnline(m.rows[x], x in ids, user, n.rows[x]) {
        assert x in ids <==> x == id || x in ids[1..];
        assert TakenOnline(m.rows[x], x == id, user, a.rows[x]);
        OnlineTwice(m.rows[x], x == id, x in ids[1..], user, a.rows[x], n.rows[x]);
      }
    }
  }

  /** The announcement changes only the upload announced, but for starting others. */
  lemma InitiateOthers(m: Manager, id: Id, peer: Peer, file: Option<nat>, token: nat)
    requires Good(m) && id in m.list && m.rows[id].state == Initiating
    ensures OthersAtMostStarted(m, id, Initiate(m, id, peer, file, token))
  {
    hide Inv, Settled, NoTwin, SetState, Fail, Mark, Extends, Bounded;
    UploadReply.InvListed(m);
    ListedUnique(m, id);
    if file.None? {
      FailOthers(m, id, LocalError);
    } else {
      var w := WithSize(m, id, file.value);
      SetStateActive(w, id, Waiting);
      MarkRows(w, id, Waiting);
    }
  }

  /** What is left to do for a peer that has become reachable once its offline uploads have been queued. */
  function Announce(a: Manager, user: string, peer: Peer, file: Option<nat>, token: nat): (n: Manager)
    requires Listed(a)
    ensures Listed(n)
  {
    if user !in a.uploading || a.uploading[user] !in a.rows || a.rows[a.uploading[user]].state != Initiating then a
    else CheckUploads(Initiate(a, a.uploading[user], peer, file, token))
  }

  /** The upload that is starting waits for its reply, with its new ticket and the size of its file, or fails to open it. */
  predicate TakesFile(r: Row, file: Option<nat>, token: nat, s: Row) {
    if file.Some? then s == r.(state := Waiting, size := file.value, ticket := token) else s.state == LocalError && !s.socket
  }

  lemma AnnounceRows(a: Manager, user: string, peer: Peer, file: Option<nat>, token: nat)
    requires Good(a)
    ensures Listed(a)
    ensures var n := Announce(a, user, peer, file, token);
            && n.rows.Keys == a.rows.Keys
            && forall x :: x in a.rows ==>
                 if user in a.uploading && a.uploading[user] == x && a.rows[x].state == Initiating
                 then TakesFile(a.rows[x], file, token, n.rows[x]) else AtMostStarted(a.rows[x], n.rows[x])
  {
    hide Inv, Settled, NoTwin, Initiate, CheckUploads, Extends, Bounded;
    UploadReply.InvListed(a);
    if user in a.uploading && a.uploading[user] in a.rows && a.rows[a.uploading[user]].state == Initiating {
      var id := a.uploading[user];
      RecordedListed(a, user);
      InitiateKeeps(a, id, peer, file, token);
      InitiateOthers(a, id, peer, file, token);
      AnnouncedRow(a, id, peer, file, token);
      var b := Initiate(a, id, peer, file, token);
      CheckKeeps(b);
      StartedRows(b, CheckUploads(b), id);
    }
  }

  lemma RecordedListed(a: Manager, user: string)
    requires Inv(a) && user in a.uploading
    ensures a.uploading[user] in a.rows && a.uploading[user] in a.list
  {
    hide Distinct, UniquePaths, SocketsHeld, InitiatingWithin;
  }

  lemma AnnouncedRow(a: Manager, id: Id, peer: Peer, file: Option<nat>, token: nat)
    requires Good(a) && id in a.list && a.rows[id].state == Initiating
    ensures TakesFile(a.rows[id], file, token, Initiate(a, id, peer, file, token).rows[id])
  {
    hide Inv, Settled, NoTwin, SetState, Fail, Extends, Bounded;
    UploadReply.InvListed(a);
    InitiateEnds(a, id, peer, file, token);
    if file.None? {
      ListedUnique(a, id);
      FailEnds(a, id, LocalError);
    }
  }

  lemma StartedRows(b: Manager, c: Manager, id: Id)
    requires c.rows.Keys == b.rows.Keys && Started(b, c) && id in b.rows
    ensures forall x :: x in b.rows ==> AtMostStarted(b.rows[x], c.rows[x])
    ensures b.rows[id].state != QueuedLocally ==> c.rows[id] == b.rows[id]
  {
  }

  /** When a peer becomes reachable all its listed uploads that were offline are queued or start, then the one that is starting
      is announced, and no other upload does more than start. */
  lemma PeerReadyRows(m: Manager, user: string, peer: Peer, file: Option<nat>, token: nat) returns (a: Manager)
    requires Good(m)
    ensures Good(a) && a.rows.Keys == m.rows.Keys && forall x :: x in m.rows ==> TakenOnline(m.rows[x], x in m.list, user, a.rows[x])
    ensures var n := PeerReady(m, user, peer, file, token);
            && n.rows.Keys == m.rows.Keys
            && forall x :: x in m.rows ==>
                 if user in a.uploading && a.uploading[user] == x && a.rows[x].state == Initiating
                 then TakesFile(a.rows[x], file, token, n.rows[x]) else AtMostStarted(a.rows[x], n.rows[x])
  {
    hide Inv, Settled, NoTwin, SetEach, Initiate, CheckUploads, TakesFile, TakenOnline, Extends, Bounded;
    UploadReply.InvListed(m);
    forall id | id in m.list ensures id in m.rows && NoTwin(m, id) {
      ListedUnique(m, id);
    }
    var leaving := (y: Manager, id: Id) => WasOffline(y, id, user);
    OnlinePass(m, m.list, user, leaving);
    SetAllKeeps(m, leaving, QueuedLocally);
    a := SetEach(m, m.list, leaving, QueuedLocally);
    AnnounceRows(a, user, peer, file, token);
    assert PeerReady(m, user, peer, file, token) == Announce(a, user, peer, file, token);
  }

  // ----- a peer that asks for a file itself

  /** Giving a slot changes one row. */
  lemma SlotGiven(a: Manager, id: Id, size: nat, ticket: nat)
    requires Good(a) && id in a.list && !a.rows[id].socket && HasFreeSlots(a) && a.rows[id].user !in a.uploading && !Active(a.rows[id].state)
    ensures var n := GiveSlot(a, id, size, ticket);
            n.rows == a.rows[id := a.rows[id].(state := Waiting, socket := true, size := size, ticket := ticket)] && n.list == a.list
  {
    hide Inv, Settled, NoTwin, SetState, Mark, Extends, Bounded;
    UploadReply.InvListed(a);
    var w := WithSize(a, id, size);
    SetStateActive(w, id, Establishing);
    MarkRows(w, id, Establishing);
    var e := Mark(w, id, Establishing);
    MarkExtends(w, id, Establishing);
    var k := WithSocket(e, id, true);
    assert Establish(w, id) == k;
    SameState(k, id, Establishing);
    var t := WithTicket(k, id, ticket);
    SetStateActive(t, id, Waiting);
    MarkRows(t, id, Waiting);
  }

  /** The request is added like any other; then, if a slot is free, the peer idle and the file there, it gets the slot and a
      socket that waits. */
  lemma RequestedEnds(m: Manager, user: string, path: string, size: nat, token: nat, file: Option<nat>, ticket: nat)
    requires Good(m)
    ensures Listed(m)
    ensures var a, n := Add(m, user, path, false, false, size, token), Requested(m, user, path, size, token, file, ticket);
            && Listed(a)
            && var f := Find(a, user, path, 0);
               if f.Some? && HasFreeSlots(a) && user !in a.uploading && file.Some? then
                 && f.value in a.list && f.value in a.rows && n.list == a.list
                 && n.rows == a.rows[f.value := a.rows[f.value].(state := Waiting, socket := true, size := file.value, ticket := ticket)]
               else n == a
  {
    hide Inv, Settled, Add, GiveSlot, Find, Bounded;
    UploadReply.InvListed(m);
    AddKeeps(m, user, path, false, false, size, token);
    var a := Add(m, user, path, false, false, size, token);
    UploadReply.InvListed(a);
    FindFinds(a, user, path, 0);
    if Find(a, user, path, 0).Some? && HasFreeSlots(a) && user !in a.uploading && file.Some? {
      IdleUser(a, Find(a, user, path, 0).value);
      SlotGiven(a, Find(a, user, path, 0).value, file.value, ticket);
    }
  }

  lemma IdleUser(a: Manager, id: Id)
    requires Inv(a) && id in a.rows && a.rows[id].user !in a.uploading
    ensures !Active(a.rows[id].state)
  {
    hide Distinct, UniquePaths, SocketsHeld, InitiatingWithin;
  }

  // ----- the reply handler's connections

  lemma ConnectedTo(m: Manager, peer: Peer, q: Peer)
    ensures var n := Connect(m, peer); Connections(n, q) == Connections(m, q) + (if q == peer then 1 else 0) && n.callback == Some(peer)
  {
  }

  lemma DisconnectedFrom(m: Manager, peer: Peer, q: Peer)
    ensures var n := Disconnect(m, peer);
            && n.callback == None
            && Connections(n, q)
               == Connections(m, q) - (if q == peer && m.callback == Some(peer) && Connections(m, peer) > 0 then 1 else 0)
  {
  }

  /** A reply on the socket of the last announcement takes that connection off again. */
  lemma ConnectThenReply(m: Manager, peer: Peer, q: Peer)
    ensures var n := Disconnect(Connect(m, peer), peer); Connections(n, q) == Connections(m, q) && n.callback == None
  {
  }

  /** A connection that is no longer the last one is never taken off by a reply. */
  lemma ForgottenStays(m: Manager, first: Peer, second: Peer, q: Peer)
    ensures var n := Disconnect(Connect(Connect(m, first), second), first);
            n.callback == None
            && (first != second ==> Connections(n, q) == Connections(m, q) + (if q == first || q == second then 1 else 0))
    ensures var n := Disconnect(Disconnect(Connect(Connect(m, first), first), first), first);
            Connections(n, first) == Connections(m, first) + 1
  {
    hide Connect, Disconnect, Connections;
    ConnectedTo(m, first, q);
    ConnectedTo(Connect(m, first), second, q);
    DisconnectedFrom(Connect(Connect(m, first), second), first, q);
    ConnectedTo(m, first, first);
    var twice := Connect(Connect(m, first), first);
    ConnectedTo(Connect(m, first), first, first);
    DisconnectedFrom(twice, first, first);
    DisconnectedFrom(Disconnect(twice, first), first, first);
  }

  /** A socket takes its connections with it. */
  lemma GoneTakesAll(m: Manager, peer: Peer, q: Peer)
    ensures Connections(PeerGone(m, peer), q) == (if q == peer then 0 else Connections(m, q))
    ensures PeerGone(m, peer).callback != Some(peer)
  {
  }

  /** An announcement connects the handler once more to the peer's socket, if the file opens. */
  lemma AnnouncementConnects(m: Manager, id: Id, peer: Peer, file: nat, token: nat, q: Peer)
    requires Listed(m) && id in m.rows && m.rows[id].state == Initiating
    ensures var n := Initiate(m, id, peer, Some(file), token);
            n.callback == Some(peer) && Connections(n, q) == Connections(m, q) + (if q == peer then 1 else 0)
  {
    hide SetState, Mark;
    SetStateActive(WithSize(m, id, file), id, Waiting);
    MarkConnections(WithSize(m, id, file), id);
  }

  lemma MarkConnections(m: Manager, id: Id)
    requires id in m.rows
    ensures Mark(m, id, Waiting).connected == m.connected
  {
    hide Follow;
  }

  // ----- settings

  /** New settings are taken over, and change no upload. */
  lemma SettingsEnds(m: Manager, priv: set<string>, on: bool)
    requires Listed(m)
    ensures var n := Step(m, EvPrivileges(priv)); n.priv == priv && n.rows == m.rows && n.uploading == m.uploading
    ensures var n := Step(m, EvAutoClear(on)); n.autoClear == on && n.rows == m.rows && n.uploading == m.uploading
  {
  }

  /** A new number of slots is taken over too; the listed uploads do no more than start, and as many do as can. */
  lemma SlotsEnds(m: Manager, slots: nat)
    requires Good(m)
    ensures Listed(m)
    ensures var n := Step(m, EvSlots(slots));
            && n.slots == slots && Settled(n) && n.rows.Keys == m.rows.Keys
            && forall x :: x in m.rows ==> AtMostStarted(m.rows[x], n.rows[x])
  {
    hide Inv, Settled, CheckUploads;
    var a := m.(slots := slots);
    UploadReply.InvListed(m);
    UploadRuns.SettingsKeep(m, a);
    CheckKeeps(a);
  }
}
