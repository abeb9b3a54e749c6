/** Every handler of the upload scheduler keeps its invariant, but for one that UploadReply treats. */
module UploadHandlers {
  import opened Basics
  import opened UploadModel
  import opened UploadProofs

  /** What every step keeps: the invariant, a settled queue, and a table of uploads that only grows into free slots. */
  predicate Stable(m: Manager, n: Manager) {
    Good(n) && n.slots == m.slots && Bounded(m, n)
  }

  lemma SafeIsStable(m: Manager, n: Manager)
    requires Safe(m, n)
    ensures Stable(m, n)
  {
    hide Good;
  }

  lemma StableTrans(a: Manager, b: Manager, c: Manager)
    requires Stable(a, b) && Safe(b, c)
    ensures Stable(a, c)
  {
    hide Good;
  }

  lemma ListedUnique(m: Manager, id: Id)
    requires Inv(m) && id in m.list
    ensures id in m.rows && NoTwin(m, id)
  {
  }

  // ----- requests

  lemma CreateKeeps(m: Manager, user: string, path: string, caseProblem: bool, size: nat, ticket: nat)
    requires Good(m) && Find(m, user, path, 0) == None
    ensures var n := Create(m, user, path, caseProblem, size, ticket); Stable(m, n) && NoTwin(n, m.next)
  {
    hide Distinct, UniquePaths, NoTwin, OnePerUser, SocketsHeld, InitiatingWithin, Settled, Find;
    FindFinds(m, user, path, 0);
    CreateUnique(m, user, path, caseProblem, size, ticket);
    CreateDistinct(m, user, path, caseProblem, size, ticket);
    CreateOnePerUser(m, user, path, caseProblem, size, ticket);
    CreateRest(m, user, path, caseProblem, size, ticket);
  }

  lemma CreateRest(m: Manager, user: string, path: string, caseProblem: bool, size: nat, ticket: nat)
    requires Listed(m) && SocketsHeld(m) && InitiatingWithin(m) && Settled(m) && m.next !in m.rows
    ensures var n := Create(m, user, path, caseProblem, size, ticket);
            SocketsHeld(n) && InitiatingWithin(n) && Listed(n) && Settled(n)
  {
  }

  lemma CreateDistinct(m: Manager, user: string, path: string, caseProblem: bool, size: nat, ticket: nat)
    requires Listed(m) && Distinct(m.list) && m.next !in m.rows
    ensures Distinct(Create(m, user, path, caseProblem, size, ticket).list)
  {
    assert forall j :: 0 <= j < |m.list| ==> m.list[j] in m.rows;
  }

  lemma CreateOnePerUser(m: Manager, user: string, path: string, caseProblem: bool, size: nat, ticket: nat)
    requires OnePerUser(m) && m.next !in m.rows
    ensures OnePerUser(Create(m, user, path, caseProblem, size, ticket))
  {
  }

  lemma CreateUnique(m: Manager, user: string, path: string, caseProblem: bool, size: nat, ticket: nat)
    requires Inv(m) && forall j :: 0 <= j < |m.list| ==> m.rows[m.list[j]].user != user || m.rows[m.list[j]].path != path
    ensures var n := Create(m, user, path, caseProblem, size, ticket);
            Listed(n) && UniquePaths(n) && NoTwin(n, m.next)
  {
    hide OnePerUser, SocketsHeld, InitiatingWithin;
    var n := Create(m, user, path, caseProblem, size, ticket);
    forall x | x in m.list ensures n.rows[x] == m.rows[x] && (n.rows[x].user != user || n.rows[x].path != path) {
      var j :| 0 <= j < |m.list| && m.list[j] == x;
    }
    assert forall x :: x in n.list ==> x in m.list || x == m.next;
    forall id | id in m.list ensures NoTwin(n, id) {
      assert NoTwin(m, id);
    }
  }

  /** After a request the upload is queued or already starting, or it had been stopped on purpose. */
  lemma AddKeeps(m: Manager, user: string, path: string, caseProblem: bool, force: bool, size: nat, ticket: nat)
    requires Good(m)
    ensures var n := Add(m, user, path, caseProblem, force, size, ticket);
            Stable(m, n)
            && match Find(n, user, path, 0)
               case None => true
               case Some(id) => id in n.list && var s := n.rows[id].state;
                                n.rows[id].user == user && !n.rows[id].socket
                                && (s == QueuedLocally || s == Initiating || s == Aborted || s == LocalError)
  {
    var n := Add(m, user, path, caseProblem, force, size, ticket);
    FindFinds(m, user, path, 0);
    FindFinds(n, user, path, 0);
    match Find(m, user, path, 0)
    case None =>
      CreateKeeps(m, user, path, caseProblem, size, ticket);
      var c := Create(m, user, path, caseProblem, size, ticket);
      AddQueues(c, m.next, user, path);
      StableTrans(m, c, n);
    case Some(id) =>
      ListedUnique(m, id);
      if n != m {
        AddQueues(m, id, user, path);
        SafeIsStable(m, n);
      } else {
        SafeRefl(m);
        SafeIsStable(m, m);
        if force || (m.rows[id].state != Aborted && m.rows[id].state != LocalError) {
          AddQueues(m, id, user, path);
        }
      }
  }

  lemma AddQueues(m: Manager, id: Id, user: string, path: string)
    requires Good(m) && id in m.rows && NoTwin(m, id) && m.rows[id].user == user && m.rows[id].path == path
    ensures var n := SetState(m, id, QueuedLocally);
            Safe(m, n)
            && match Find(n, user, path, 0)
               case None => true
               case Some(k) => k == id && !n.rows[k].socket && (n.rows[k].state == QueuedLocally || n.rows[k].state == Initiating)
  {
    SetInactive(m, id, QueuedLocally);
    var n := SetState(m, id, QueuedLocally);
    hide SetState, UniquePaths, OnePerUser;
    NoTwinKept(m, n, id);
    FindFinds(n, user, path, 0);
    hide Find;
  }

  lemma AbortKeeps(m: Manager, id: Id)
    requires Good(m) && id in m.rows && NoTwin(m, id)
    ensures var n := AbortId(m, id); Safe(m, n) && !Active(n.rows[id].state)
  {
    hide Distinct, UniquePaths, OnePerUser, SetSocket, SetState;
    DropKeeps(m, id);
    var a := SetSocket(m, id, false);
    if a.rows[id].state != Finished {
      NoTwinKept(m, a, id);
      SetInactive(a, id, Aborted);
      SafeTrans(m, a, AbortId(m, id));
    }
  }

  lemma RemoveKeeps(m: Manager, id: Id)
    requires Good(m) && id in m.rows && NoTwin(m, id)
    ensures var a := AbortId(m, id); Safe(m, a.(list := RemoveFirst(a.list, id)))
  {
    AbortKeeps(m, id);
    hide AbortId, UniquePaths, OnePerUser, RemoveFirst;
    EraseKeeps(AbortId(m, id), id);
    SafeTrans(m, AbortId(m, id), AbortId(m, id).(list := RemoveFirst(AbortId(m, id).list, id)));
  }

  // ----- peers

  lemma {:induction false} SetEachKeeps(m: Manager, ids: seq<Id>, leaving: (Manager, Id) -> bool, s: TrState)
    requires Good(m) && (s == QueuedLocally || s == Offline)
    requires forall id :: id in ids ==> id in m.rows && NoTwin(m, id)
    ensures Safe(m, SetEach(m, ids, leaving, s))
    decreases |ids|
  {
    hide Distinct, UniquePaths, OnePerUser, SetState, SocketsHeld, InitiatingWithin;
    SafeRefl(m);
    if ids != [] {
      SetInactive(m, ids[0], s);
      var a := if leaving(m, ids[0]) then SetState(m, ids[0], s) else m;
      forall id | id in ids[1..] ensures id in a.rows && NoTwin(a, id) {
        NoTwinKept(m, a, id);
      }
      SetEachKeeps(a, ids[1..], leaving, s);
      SafeTrans(m, a, SetEach(m, ids, leaving, s));
    }
  }

  lemma SetAllKeeps(m: Manager, leaving: (Manager, Id) -> bool, s: TrState)
    requires Good(m) && (s == QueuedLocally || s == Offline)
    ensures Safe(m, SetEach(m, m.list, leaving, s))
  {
    SetEachKeeps(m, m.list, leaving, s);
  }

  lemma TouchSafe(m: Manager, id: Id, r: Row)
    requires Good(m) && id in m.rows
    requires r.user == m.rows[id].user && r.path == m.rows[id].path && r.state == m.rows[id].state
    requires r.socket ==> Active(r.state) || r.state == Offline
    ensures Safe(m, m.(rows := m.rows[id := r]))
  {
    TouchKeeps(m, id, r);
    hide Inv, Extends, Bounded, Settled;
  }

  /** The reply handler's connections play no part in the invariant. */
  lemma ConnectionsKeep(m: Manager, n: Manager)
    requires Good(m) && n == m.(connected := n.connected, callback := n.callback)
    ensures Safe(m, n)
  {
    ConnectionsSettled(m, n);
    hide Distinct, Settled;
  }

  lemma ConnectionsSettled(m: Manager, n: Manager)
    requires Listed(m) && n == m.(connected := n.connected, callback := n.callback)
    ensures Listed(n) && Settled(n) == Settled(m)
  {
  }

  lemma InitiateKeeps(m: Manager, id: Id, peer: Peer, file: Option<nat>, token: nat)
    requires Good(m) && id in m.list
    ensures Safe(m, Initiate(m, id, peer, file, token))
  {
    ListedUnique(m, id);
    SafeRefl(m);
    if m.rows[id].state == Initiating {
      if file.None? {
        FailKeeps(m, id, LocalError);
      } else {
        ActiveHolds(m, id);
        var a := WithSize(m, id, file.value);
        TouchSafe(m, id, m.rows[id].(size := file.value));
        SetActive(a, id, Waiting);
        var b := SetState(a, id, Waiting);
        TouchSafe(b, id, b.rows[id].(ticket := token));
        SafeTrans(m, a, b);
        var c := WithTicket(b, id, token);
        SafeTrans(m, b, c);
        ConnectionsKeep(c, Connect(c, peer));
        SafeTrans(m, c, Connect(c, peer));
      }
    }
  }

  lemma PeerReadyKeeps(m: Manager, user: string, peer: Peer, file: Option<nat>, token: nat)
    requires Good(m)
    ensures Safe(m, PeerReady(m, user, peer, file, token))
  {
    hide Distinct, UniquePaths, OnePerUser, SetEach, Initiate, CheckUploads;
    var leaving := (x: Manager, id: Id) => WasOffline(x, id, user);
    SetAllKeeps(m, leaving, QueuedLocally);
    var a := SetEach(m, m.list, leaving, QueuedLocally);
    if user in a.uploading && a.uploading[user] in a.rows && a.rows[a.uploading[user]].state == Initiating {
      ActiveHolds(a, a.uploading[user]);
      InitiateKeeps(a, a.uploading[user], peer, file, token);
      var b := Initiate(a, a.uploading[user], peer, file, token);
      CheckKeeps(b);
      SafeTrans(m, a, b);
      SafeTrans(m, b, CheckUploads(b));
    }
  }

  lemma UnavailableKeeps(m: Manager, user: string)
    requires Good(m)
    ensures Safe(m, Unavailable(m, user))
  {
    hide Distinct, UniquePaths, Fail;
    SafeRefl(m);
    if user in m.uploading && m.uploading[user] in m.rows {
      ListedUnique(m, m.uploading[user]);
      FailKeeps(m, m.uploading[user], CannotConnect);
    }
  }

  lemma LoggedInKeeps(m: Manager, loggedIn: bool)
    requires Good(m)
    ensures Safe(m, LoggedIn(m, loggedIn))
  {
    hide Inv, SetEach, CheckUploads;
    if loggedIn {
      CheckKeeps(m);
    } else {
      SetAllKeeps(m, (x: Manager, id: Id) => LosesServer(x, id), Offline);
    }
  }

  lemma RequestedKeeps(m: Manager, user: string, path: string, size: nat, token: nat, file: Option<nat>, ticket: nat)
    requires Good(m)
    ensures Stable(m, Requested(m, user, path, size, token, file, ticket))
  {
    hide Distinct, UniquePaths, Add, GiveSlot;
    AddKeeps(m, user, path, false, false, size, token);
    var a := Add(m, user, path, false, false, size, token);
    if Find(a, user, path, 0).Some? && HasFreeSlots(a) && user !in a.uploading && file.Some? {
      RequestStarts(a, Find(a, user, path, 0).value, file.value, ticket);
      StableTrans(m, a, Requested(m, user, path, size, token, file, ticket));
    }
  }

  /** Giving a free slot to an upload of an idle user that has been stopped before. */
  lemma RequestStarts(a: Manager, id: Id, size: nat, ticket: nat)
    requires Good(a) && id in a.list && !a.rows[id].socket && HasFreeSlots(a) && a.rows[id].user !in a.uploading
    requires !Active(a.rows[id].state)
    ensures Safe(a, GiveSlot(a, id, size, ticket))
  {
    var w := WithSize(a, id, size);
    TouchSafe(a, id, a.rows[id].(size := size));
    SetActive(w, id, Establishing);
    var e := SetState(w, id, Establishing);
    TouchSafe(e, id, e.rows[id].(socket := true));
    hide SetState, Establish, Safe;
    RequestWaits(a, w, e, id, ticket);
  }

  lemma RequestWaits(a: Manager, w: Manager, e: Manager, id: Id, ticket: nat)
    requires Safe(a, w) && Safe(w, e) && Listed(w) && id in w.rows && e == SetState(w, id, Establishing)
    requires id in e.list && id in e.rows && e.rows[id].state == Establishing && !e.rows[id].socket
    requires Safe(e, WithSocket(e, id, true))
    ensures var b := SetState(Establish(w, id), id, Establishing);
            Safe(a, SetState(WithTicket(b, id, ticket), id, Waiting))
  {
    hide Inv, SetState;
    var b := WithSocket(e, id, true);
    assert b == Establish(w, id);
    SameState(b, id, Establishing);
    var t := WithTicket(b, id, ticket);
    TouchSafe(b, id, b.rows[id].(ticket := ticket));
    TakesOver(t, id);
    SetActive(t, id, Waiting);
    SafeTrans(a, w, e);
    SafeTrans(a, e, b);
    SafeTrans(a, b, t);
    SafeTrans(a, t, SetState(t, id, Waiting));
  }

  lemma TakesOver(m: Manager, id: Id)
    requires Inv(m) && id in m.rows && Active(m.rows[id].state)
    ensures id in m.list && m.rows[id].user in m.uploading && m.uploading[m.rows[id].user] == id
  {
    ActiveHolds(m, id);
  }

  // ----- sockets

  lemma SocketClosedKeeps(m: Manager, id: Id)
    requires Good(m)
    ensures Safe(m, SocketClosed(m, id))
  {
    hide Distinct, UniquePaths, OnePerUser, SetSocket;
    SafeRefl(m);
    if id in m.list {
      ListedUnique(m, id);
      DropKeeps(m, id);
    }
  }

  lemma SocketCannotConnectKeeps(m: Manager, id: Id)
    requires Good(m)
    ensures Safe(m, SocketCannotConnect(m, id))
  {
    hide Distinct, UniquePaths, OnePerUser, SetState, OnDisconnected;
    SafeRefl(m);
    if id in m.list {
      ListedUnique(m, id);
      SetInactive(m, id, CannotConnect);
      var a := SetState(m, id, CannotConnect);
      NoTwinKept(m, a, id);
      DisconnectKeeps(a, id);
      SafeTrans(m, a, OnDisconnected(a, id));
    }
  }

  lemma StartAtKeeps(m: Manager, id: Id, pos: nat, readOk: bool)
    requires Good(m)
    ensures Safe(m, StartAt(m, id, pos, readOk))
  {
    hide Distinct, UniquePaths, OnePerUser, SetState, Fail;
    SafeRefl(m);
    if id in m.list {
      ListedUnique(m, id);
      FailKeeps(m, id, LocalError);
      if m.rows[id].socket && m.rows[id].state == Waiting {
        ActiveHolds(m, id);
        SetActive(m, id, Transferring);
        var t := SetState(m, id, Transferring);
        PositionKeeps(t, id, pos, readOk);
        SafeTrans(m, t, if readOk then WithPosition(t, id, pos) else Fail(WithPosition(t, id, pos), id, LocalError));
      }
    }
  }

  lemma PositionKeeps(m: Manager, id: Id, pos: nat, readOk: bool)
    requires Good(m) && id in m.list && Active(m.rows[id].state)
    ensures Safe(m, if readOk then WithPosition(m, id, pos) else Fail(WithPosition(m, id, pos), id, LocalError))
  {
    hide Distinct, UniquePaths, OnePerUser, Fail;
    var a := WithPosition(m, id, pos);
    TouchSafe(m, id, m.rows[id].(position := pos));
    ListedUnique(a, id);
    FailKeeps(a, id, LocalError);
    SafeTrans(m, a, Fail(a, id, LocalError));
  }

  lemma GoodInv(m: Manager)
    requires Good(m)
    ensures Listed(m)
  {
  }

  lemma SentKeeps(m: Manager, id: Id, count: nat, readOk: bool)
    requires Good(m)
    ensures Safe(m, Sent(m, id, count, readOk))
  {
    hide Inv, Settled, Fail, Extends, Bounded;
    GoodInv(m);
    SafeRefl(m);
    if id in m.list && m.rows[id].state == Transferring {
      PositionKeeps(m, id, m.rows[id].position + count, readOk);
    }
  }

  lemma ReplyTimeoutKeeps(m: Manager, id: Id)
    requires Good(m)
    ensures Safe(m, ReplyTimeout(m, id))
  {
    hide Distinct, UniquePaths, OnePerUser, Fail;
    SafeRefl(m);
    if id in m.list {
      ListedUnique(m, id);
      FailKeeps(m, id, CannotConnect);
    }
  }
}
