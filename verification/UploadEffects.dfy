/** Where an event leaves the upload it is about, and in which order uploads start. */
module UploadEffects {
  import opened Basics
  import opened UploadModel
  import opened UploadProofs
  import opened UploadHandlers
  import UploadReply

  /** The state in which a connection that ends leaves an upload. */
  function Outcome(r: Row): TrState {
    if r.position >= r.size then Finished else ConnectionClosed
  }

  /** The state of an upload that has lost its socket, if it held one. */
  function Left(r: Row): TrState {
    if r.socket then Outcome(r) else r.state
  }

  // ----- closing and failing

  lemma DropEnds(m: Manager, id: Id)
    requires Good(m) && id in m.rows && NoTwin(m, id)
    ensures var n := SetSocket(m, id, false);
            Safe(m, n) && NoTwin(n, id) && n.rows[id].state == Left(m.rows[id]) && !n.rows[id].socket
  {
    hide Distinct, UniquePaths, OnePerUser, InitiatingWithin, SetState;
    DropKeeps(m, id);
    NoTwinKept(m, SetSocket(m, id, false), id);
    if m.rows[id].socket {
      CloseKeeps(m, id, Left(m.rows[id]));
    }
  }

  /** A failed upload ends in the state of its failure and holds no socket. */
  lemma FailEnds(m: Manager, id: Id, s: TrState)
    requires Good(m) && id in m.rows && NoTwin(m, id) && Disconnects(s) && s != QueuedLocally
    ensures var n := Fail(m, id, s); n.rows[id].state == s && !n.rows[id].socket
  {
    hide Good, Safe, NoTwin, SetSocket, SetState, Extends;
    GoodListed(m);
    DropEnds(m, id);
    SafeGood(m, SetSocket(m, id, false), id);
    SetInactive(SetSocket(m, id, false), id, s);
  }

  lemma GoodListed(m: Manager)
    requires Good(m)
    ensures Listed(m) && Inv(m)
  {
  }

  lemma SafeGood(m: Manager, n: Manager, id: Id)
    requires Safe(m, n) && id in m.rows
    ensures Good(n) && id in n.rows && n.rows[id].user == m.rows[id].user
  {
    hide Good, Bounded;
  }

  /** An aborted upload ends Aborted, or Finished if it had sent everything. */
  lemma AbortEnds(m: Manager, id: Id)
    requires Good(m) && id in m.rows && NoTwin(m, id)
    ensures var n := AbortId(m, id);
            n.rows[id].state == (if Left(m.rows[id]) == Finished then Finished else Aborted) && !n.rows[id].socket
  {
    hide Good, Safe, NoTwin, SetSocket, SetState, Extends, Left;
    GoodListed(m);
    DropEnds(m, id);
    SafeGood(m, SetSocket(m, id, false), id);
    SetInactive(SetSocket(m, id, false), id, Aborted);
  }

  /** A closed connection leaves a finished upload if everything has been sent, else a closed one. */
  lemma ClosedEnds(m: Manager, id: Id)
    requires Good(m) && id in m.list && m.rows[id].socket
    ensures var n := SocketClosed(m, id);
            id in n.rows && !n.rows[id].socket
            && n.rows[id].state == if m.rows[id].position >= m.rows[id].size then Finished else ConnectionClosed
  {
    ListedUnique(m, id);
    hide Safe, NoTwin, SetSocket;
    DropEnds(m, id);
    hide Good;
  }

  // ----- what entering a state leaves of a row

  lemma EnterRow(m: Manager, id: Id, s: TrState)
    requires Inv(m) && id in m.rows && !Active(s) && s != QueuedLocally && !m.rows[id].socket
    ensures var r := m.rows[id];
            Enter(m, id, s).rows[id] == r.(state := s, position := if s == Finished then r.size else r.position)
  {
    hide Distinct, UniquePaths, OnePerUser, SocketsHeld, InitiatingWithin, CheckUploads, Mark, Follow, Settled, Bounded;
    FinishPosition(m, id, s);
    var a := if s == Finished then Follow(WithPosition(m, id, m.rows[id].size), id) else m;
    FinishRow(m, id, s);
    MarkInactive(a, id, s);
    MarkExtends(a, id, s);
    CheckKeeps(Mark(a, id, s));
  }

  lemma FinishRow(m: Manager, id: Id, s: TrState)
    requires id in m.rows
    ensures var a := if s == Finished then Follow(WithPosition(m, id, m.rows[id].size), id) else m;
            a.rows[id] == m.rows[id].(position := if s == Finished then m.rows[id].size else m.rows[id].position)
  {
  }

  /** Closing leaves the position where it is, or at the end of what has been sent completely. */
  lemma CloseRow(m: Manager, id: Id, s: TrState)
    requires Inv(m) && id in m.rows && Closes(s) && m.rows[id].state != s
    ensures var r := m.rows[id];
            SetState(m, id, s).rows[id] == r.(state := s, socket := false, position := if s == Finished then r.size else r.position)
  {
    hide Inv, SetState, Enter;
    GoneKeeps(m, id);
    ClosingForm(m, id, s);
    EnterRow(WithSocket(m, id, false), id, s);
  }

  lemma GoneKeeps(m: Manager, id: Id)
    requires Inv(m) && id in m.rows
    ensures Listed(m) && Inv(WithSocket(m, id, false))
  {
    hide Distinct, UniquePaths, OnePerUser, SocketsHeld, InitiatingWithin, Extends, Bounded;
    TouchKeeps(m, id, m.rows[id].(socket := false));
  }

  /** A connection that cannot be made ends as one that was closed, or as finished: the state for it does not last. */
  lemma CannotConnectEnds(m: Manager, id: Id)
    requires Good(m) && id in m.list && m.rows[id].socket
    ensures var n := SocketCannotConnect(m, id);
            id in n.rows && n.rows[id].state == (if m.rows[id].position >= m.rows[id].size then Finished else ConnectionClosed)
            && n.rows[id].state != CannotConnect
  {
    hide Inv, Settled, NoTwin, SetState, Extends, Bounded;
    GoodListed(m);
    HeldState(m, id);
    ListedUnique(m, id);
    CannotConnectRow(m, id);
    SetInactive(m, id, CannotConnect);
    var a := SetState(m, id, CannotConnect);
    CloseRow(a, id, Outcome(a.rows[id]));
  }

  lemma HeldState(m: Manager, id: Id)
    requires Inv(m) && id in m.rows && m.rows[id].socket
    ensures var s := m.rows[id].state;
            s != RemoteError && s != LocalError && s != CannotConnect && s != Finished && s != ConnectionClosed
  {
  }

  lemma DisconnectedForm(m: Manager, id: Id)
    requires Listed(m) && id in m.rows && m.rows[id].state != RemoteError && m.rows[id].state != LocalError
    ensures OnDisconnected(m, id) == SetState(m, id, Outcome(m.rows[id]))
  {
  }

  /** Giving up on the socket first closes it, with what that does to the position. */
  lemma CannotConnectRow(m: Manager, id: Id)
    requires Good(m) && id in m.rows && NoTwin(m, id) && m.rows[id].socket
    ensures Listed(m)
    ensures var r := m.rows[id];
            SetState(m, id, CannotConnect).rows[id]
            == r.(state := CannotConnect, socket := false, position := if r.position >= r.size then r.size else r.position)
  {
    hide Inv, Settled, NoTwin, SetState, OnDisconnected, Enter, Extends, Bounded;
    GoodListed(m);
    HeldState(m, id);
    DisconnectedForm(m, id);
    DroppingForm(m, id, CannotConnect);
    CloseRow(m, id, Outcome(m.rows[id]));
    DisconnectKeeps(m, id);
    var a := OnDisconnected(m, id);
    SocketGone(a, id);
    EnterRow(a, id, CannotConnect);
  }

  lemma SocketGone(m: Manager, id: Id)
    requires id in m.rows && !m.rows[id].socket
    ensures WithSocket(m, id, false) == m
  {
    assert m.rows[id].(socket := false) == m.rows[id];
  }

  // ----- the events of an upload that goes on

  /** An announced upload waits for the reply to its ticket, with the size found on opening its file; else it fails. */
  lemma InitiateEnds(m: Manager, id: Id, peer: Peer, file: Option<nat>, token: nat)
    requires Good(m) && id in m.list && m.rows[id].state == Initiating
    ensures var n := Initiate(m, id, peer, file, token);
            if file.Some? then
              n.rows[id] == m.rows[id].(state := Waiting, size := file.value, ticket := token)
            else n.rows[id].state == LocalError
  {
    ListedUnique(m, id);
    if file.None? {
      FailEnds(m, id, LocalError);
    } else {
      var w := WithSize(m, id, file.value);
      TouchSafe(m, id, m.rows[id].(size := file.value));
      TakesOver(w, id);
      SetActive(w, id, Waiting);
      hide Good, Safe, SetState;
    }
  }

  /** A waiting upload starts at the position asked for; a position beyond the file, or an unreadable file, fails it. */
  lemma StartEnds(m: Manager, id: Id, pos: nat, readOk: bool)
    requires Good(m) && id in m.list && m.rows[id].socket && m.rows[id].state == Waiting
    ensures var n := StartAt(m, id, pos, readOk);
            id in n.rows
            && if pos <= m.rows[id].size && readOk then n.rows[id] == m.rows[id].(state := Transferring, position := pos)
               else n.rows[id].state == LocalError
  {
    hide Distinct, UniquePaths, OnePerUser, SetState, Fail;
    ListedUnique(m, id);
    FailEnds(m, id, LocalError);
    ActiveHolds(m, id);
    SetActive(m, id, Transferring);
    MovedEnds(SetState(m, id, Transferring), id, pos);
  }

  lemma MovedEnds(m: Manager, id: Id, pos: nat)
    requires Good(m) && id in m.list
    ensures Listed(m) && id in m.rows
    ensures Active(m.rows[id].state) ==> Fail(WithPosition(m, id, pos), id, LocalError).rows[id].state == LocalError
  {
    GoodListed(m);
    if Active(m.rows[id].state) {
      hide Good, Fail;
      var a := WithPosition(m, id, pos);
      TouchSafe(m, id, m.rows[id].(position := pos));
      SafeGood(m, a, id);
      GoodListed(a);
      ListedUnique(a, id);
      FailEnds(a, id, LocalError);
    }
  }

  /** A running upload moves on by what was sent, or fails when it cannot read on. */
  lemma SentEnds(m: Manager, id: Id, count: nat, readOk: bool)
    requires Good(m) && id in m.list && m.rows[id].socket && m.rows[id].state == Transferring
    ensures var n := Sent(m, id, count, readOk);
            id in n.rows
            && if readOk then n.rows[id] == m.rows[id].(position := m.rows[id].position + count) else n.rows[id].state == LocalError
  {
    hide Good, Fail;
    GoodListed(m);
    MovedEnds(m, id, m.rows[id].position + count);
  }

  /** A refused upload ends with the peer's error. */
  lemma RefusedEnds(m: Manager, peer: Peer, user: string, ticket: nat)
    requires Good(m)
    ensures Listed(m)
            && var f := FindTicket(m, user, ticket, 0);
               f.Some? && f.value in m.rows && m.rows[f.value].state == Waiting
               ==> f.value in Reply(m, peer, user, ticket, false).rows
                   && Reply(m, peer, user, ticket, false).rows[f.value].state == RemoteError
  {
    hide Distinct, UniquePaths, OnePerUser, Fail;
    FindTicketFinds(m, user, ticket, 0);
    var f := FindTicket(m, user, ticket, 0);
    if f.Some? {
      var d := Disconnect(m, peer);
      ConnectionsKeep(m, d);
      ListedUnique(d, f.value);
      FailEnds(d, f.value, RemoteError);
    }
  }

  // ----- the order of starts

  /** No upload overtakes: when one starts, every upload served before it that might have has started, or its user is busy. */
  lemma {:induction false} NoOvertaking(m: Manager, i: nat, j: nat)
    requires Inv(m) && i < |m.list| && j < |m.list| && Precedes(m, i, j)
    requires Eligible(m, m.list[i]) && m.rows[m.list[j]].state == QueuedLocally
    requires CheckUploads(m).rows[m.list[j]].state == Initiating
    ensures m.rows[m.list[i]].user in CheckUploads(m).uploading
    decreases |Queued(m)|
  {
    hide Inv, Mark, Pick, Eligible, Precedes, Extends, Bounded;
    UploadReply.InvListed(m);
    if HasFreeSlots(m) && Pick(m).Some? {
      var id := Pick(m).value;
      PickStarts(m, id);
      StartOne(m, id);
      NotPicked(m, i, j);
      StillWaiting(m, i, j, id);
      var n := Mark(m, id, Initiating);
      CheckKeeps(n);
      if m.rows[m.list[i]].user != m.rows[id].user {
        NoOvertaking(n, i, j);
      }
    }
  }

  lemma NotPicked(m: Manager, i: nat, j: nat)
    requires Inv(m) && i < |m.list| && j < |m.list| && Precedes(m, i, j) && Eligible(m, m.list[i]) && Pick(m).Some?
    ensures Pick(m).value != m.list[j]
  {
    hide UniquePaths, OnePerUser, SocketsHeld, InitiatingWithin, Pick, Eligible;
    PickIsFirst(m);
  }

  lemma StillWaiting(m: Manager, i: nat, j: nat, id: Id)
    requires Inv(m) && i < |m.list| && j < |m.list| && id in m.rows && m.list[j] != id
    requires Precedes(m, i, j) && Eligible(m, m.list[i]) && m.rows[m.list[j]].state == QueuedLocally
    ensures var n := Mark(m, id, Initiating);
            Listed(n) && n.list == m.list && m.rows[id].user in n.uploading && n.rows[m.list[j]] == m.rows[m.list[j]]
            && n.rows[m.list[i]].user == m.rows[m.list[i]].user
            && (m.rows[m.list[i]].user != m.rows[id].user ==> Precedes(n, i, j) && Eligible(n, n.list[i]))
  {
    hide UniquePaths, OnePerUser, SocketsHeld, InitiatingWithin, Mark;
    MarkActiveMaps(m, id, Initiating);
    MarkExtends(m, id, Initiating);
  }
}
