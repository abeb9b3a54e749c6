/** The upload scheduler as a state machine over values. Every function is one operation of the
    manager, run to completion together with the handlers it re-enters. */
module UploadModel {
  import opened Basics

  /** Names an upload object. */
  type Id = nat

  /** Names a peer's socket. */
  type Peer = nat

  datatype TrState =
    | Finished | Transferring | Negotiating | Waiting | Establishing | Initiating | Connecting
    | QueuedRemotely | Offline | ConnectionClosed | CannotConnect | Aborted | RemoteError | LocalError | QueuedLocally

  /** The states in which an upload takes up its user's slot. */
  predicate Active(s: TrState) {
    s.Transferring? || s.Negotiating? || s.Waiting? || s.Establishing? || s.Initiating? || s.Connecting?
  }

  /** The states whose entry disconnects the socket. */
  predicate Disconnects(s: TrState) {
    s.QueuedLocally? || s.CannotConnect? || s.Aborted? || s.RemoteError? || s.LocalError?
  }

  /** The states a closed connection leads to. */
  predicate Closes(s: TrState) {
    s.Finished? || s.ConnectionClosed?
  }

  /** socket says whether the upload holds a socket. */
  datatype Row = Row(
    user: string, path: string, caseProblem: bool, state: TrState, ticket: nat, socket: bool, position: nat, size: nat)

  /** rows holds the upload objects, list the ones the manager lists, in order; priv the users served first. connected says
      how often the reply handler is connected to a peer's socket, and callback where the last such connection was made. */
  datatype Manager = Manager(
    list: seq<Id>,
    rows: map<Id, Row>,
    uploading: map<string, Id>,
    initiating: map<string, Id>,
    slots: nat,
    priv: set<string>,
    autoClear: bool,
    next: Id,
    connected: map<Peer, nat>,
    callback: Option<Peer>)

  function Empty(slots: nat, priv: set<string>, autoClear: bool): Manager {
    Manager([], map[], map[], map[], slots, priv, autoClear, 0, map[], None)
  }

  // ----- queries

  predicate HasFreeSlots(m: Manager) {
    |m.uploading| < m.slots || m.slots == 0
  }

  predicate Listed(m: Manager) {
    forall id :: id in m.list ==> id in m.rows
  }

  predicate Eligible(m: Manager, id: Id)
    requires id in m.rows
  {
    m.rows[id].state == QueuedLocally && m.rows[id].user !in m.uploading
  }

  /** Whether the choice may fall on this upload in a pass over the privileged ones, or over all. */
  predicate Candidate(m: Manager, id: Id, privileged: bool)
    requires id in m.rows
  {
    Eligible(m, id) && (privileged ==> m.rows[id].user in m.priv)
  }

  /** The first listed candidate from index i on. */
  function FirstFrom(m: Manager, i: nat, privileged: bool): Option<Id>
    requires Listed(m) && i <= |m.list|
    decreases |m.list| - i
  {
    if i == |m.list| then None
    else if Candidate(m, m.list[i], privileged) then Some(m.list[i])
    else FirstFrom(m, i + 1, privileged)
  }

  /** The upload to start next: the first privileged one that may start, else the first that may. */
  function Pick(m: Manager): Option<Id>
    requires Listed(m)
  {
    var p := FirstFrom(m, 0, true);
    if p.Some? then p else FirstFrom(m, 0, false)
  }

  /** The first listed upload from index i on with this user and path. */
  function Find(m: Manager, user: string, path: string, i: nat): Option<Id>
    requires Listed(m) && i <= |m.list|
    decreases |m.list| - i
  {
    if i == |m.list| then None
    else if m.rows[m.list[i]].user == user && m.rows[m.list[i]].path == path then Some(m.list[i])
    else Find(m, user, path, i + 1)
  }

  /** The first listed upload from index i on with this user and ticket. */
  function FindTicket(m: Manager, user: string, ticket: nat, i: nat): Option<Id>
    requires Listed(m) && i <= |m.list|
    decreases |m.list| - i
  {
    if i == |m.list| then None
    else if m.rows[m.list[i]].user == user && m.rows[m.list[i]].ticket == ticket then Some(m.list[i])
    else FindTicket(m, user, ticket, i + 1)
  }

  // ----- changes of state

  /** Drops the user's entry if it is this upload. */
  function Without(users: map<string, Id>, user: string, id: Id): map<string, Id> {
    if user in users && users[user] == id then users - {user} else users
  }

  /** Lets the manager's maps follow the state of one upload. */
  function Follow(m: Manager, id: Id): (n: Manager)
    requires id in m.rows
    ensures n == m.(uploading := n.uploading, initiating := n.initiating)
  {
    var r := m.rows[id];
    if r.state == Transferring then
      m.(uploading := m.uploading[r.user := id])
    else if Active(r.state) then
      m.(uploading := m.uploading[r.user := id], initiating := m.initiating[r.user := id])
    else
      m.(uploading := Without(m.uploading, r.user, id), initiating := Without(m.initiating, r.user, id))
  }

  /** Stores a state and announces it. */
  function Mark(m: Manager, id: Id, s: TrState): (n: Manager)
    requires id in m.rows
    ensures n.list == m.list && n.rows.Keys == m.rows.Keys
  {
    Follow(m.(rows := m.rows[id := m.rows[id].(state := s)]), id)
  }

  function WithSocket(m: Manager, id: Id, socket: bool): (n: Manager)
    requires id in m.rows
    ensures n.list == m.list && n.rows.Keys == m.rows.Keys
  {
    m.(rows := m.rows[id := m.rows[id].(socket := socket)])
  }

  function WithPosition(m: Manager, id: Id, position: nat): (n: Manager)
    requires id in m.rows
    ensures n.list == m.list && n.rows.Keys == m.rows.Keys
  {
    m.(rows := m.rows[id := m.rows[id].(position := position)])
  }

  function WithTicket(m: Manager, id: Id, ticket: nat): (n: Manager)
    requires id in m.rows
    ensures n.list == m.list && n.rows.Keys == m.rows.Keys
  {
    m.(rows := m.rows[id := m.rows[id].(ticket := ticket)])
  }

  function WithSize(m: Manager, id: Id, size: nat): (n: Manager)
    requires id in m.rows
    ensures n.list == m.list && n.rows.Keys == m.rows.Keys
  {
    m.(rows := m.rows[id := m.rows[id].(size := size)])
  }

  predicate Distinct(s: seq<Id>) {
    forall i, j :: 0 <= i < j < |s| ==> s[i] != s[j]
  }

  function RemoveFirst(s: seq<Id>, id: Id): (r: seq<Id>)
    ensures forall x :: x in r ==> x in s
    ensures forall x :: x in s && x != id ==> x in r
  {
    if s == [] then [] else if s[0] == id then s[1..] else [s[0]] + RemoveFirst(s[1..], id)
  }

  lemma {:induction false} RemoveFirstDistinct(s: seq<Id>, id: Id)
    requires Distinct(s)
    ensures Distinct(RemoveFirst(s, id)) && id !in RemoveFirst(s, id)
  {
    if s != [] && s[0] != id {
      RemoveFirstDistinct(s[1..], id);
      assert s[0] !in s[1..];
    }
  }

  function Queued(m: Manager): set<Id> {
    set id | id in m.rows && m.rows[id].state == QueuedLocally
  }

  lemma FirstFromIsCandidate(m: Manager, i: nat, privileged: bool)
    requires Listed(m) && i <= |m.list|
    ensures FirstFrom(m, i, privileged).Some? ==>
              FirstFrom(m, i, privileged).value in m.list && Candidate(m, FirstFrom(m, i, privileged).value, privileged)
    decreases |m.list| - i
  {
  }

  lemma PickStarts(m: Manager, id: Id)
    requires Listed(m) && Pick(m) == Some(id)
    ensures id in m.list && Eligible(m, id)
    ensures Listed(Mark(m, id, Initiating))
    ensures |Queued(Mark(m, id, Initiating))| < |Queued(m)|
  {
    FirstFromIsCandidate(m, 0, true);
    FirstFromIsCandidate(m, 0, false);
    assert Queued(Mark(m, id, Initiating)) == Queued(m) - {id};
  }

  /** Starts uploads while a slot is free and one may start. */
  function CheckUploads(m: Manager): (n: Manager)
    requires Listed(m)
    ensures n.list == m.list && n.rows.Keys == m.rows.Keys
    decreases |Queued(m)|
  {
    if !HasFreeSlots(m) then m
    else
      match Pick(m)
      case None => m
      case Some(id) =>
        PickStarts(m, id);
        CheckUploads(Mark(m, id, Initiating))
  }

  /** Takes an upload that is Finished and holds no socket off the list; aborting it first changes nothing. */
  function Clear(m: Manager, user: string, path: string): (n: Manager)
    requires Listed(m)
    ensures Listed(n) && n.rows == m.rows
  {
    match Find(m, user, path, 0)
    case None => m
    case Some(id) => m.(list := RemoveFirst(m.list, id))
  }

  /** Stores a new state, looks for uploads to start, and clears the upload if it has finished. */
  function Enter(m: Manager, id: Id, s: TrState): (n: Manager)
    requires Listed(m) && id in m.rows
    ensures Listed(n) && n.rows.Keys == m.rows.Keys
  {
    var a := if s == Finished then Follow(WithPosition(m, id, m.rows[id].size), id) else m;
    var b := Mark(a, id, s);
    var c := if Active(s) then b else CheckUploads(b);
    if s == Finished && c.autoClear then Clear(c, c.rows[id].user, c.rows[id].path) else c
  }

  /** Enters a state, with everything that follows from it. */
  function SetState(m: Manager, id: Id, s: TrState): (n: Manager)
    requires Listed(m) && id in m.rows
    ensures Listed(n) && n.rows.Keys == m.rows.Keys
    decreases if Closes(s) then 0 else 2
  {
    if m.rows[id].state == s then m
    else if Disconnects(s) && m.rows[id].socket then Enter(WithSocket(OnDisconnected(m, id), id, false), id, s)
    else if Closes(s) then Enter(WithSocket(m, id, false), id, s)
    else Enter(m, id, s)
  }

  /** The socket's connection is gone. */
  function OnDisconnected(m: Manager, id: Id): (n: Manager)
    requires Listed(m) && id in m.rows
    ensures Listed(n) && n.rows.Keys == m.rows.Keys
    decreases 1
  {
    var r := m.rows[id];
    if r.state == RemoteError || r.state == LocalError then m
    else if r.position >= r.size then SetState(m, id, Finished)
    else SetState(m, id, ConnectionClosed)
  }

  /** Stops the socket the upload holds, if any, and lets it hold none, or a new one. */
  function SetSocket(m: Manager, id: Id, socket: bool): (n: Manager)
    requires Listed(m) && id in m.rows
    ensures Listed(n) && n.rows.Keys == m.rows.Keys
  {
    var a := if m.rows[id].socket then OnDisconnected(m, id) else m;
    WithSocket(a, id, socket)
  }

  /** Gives up on an upload. */
  function Fail(m: Manager, id: Id, s: TrState): (n: Manager)
    requires Listed(m) && id in m.rows
    ensures Listed(n) && n.rows.Keys == m.rows.Keys
  {
    SetState(SetSocket(m, id, false), id, s)
  }

  // ----- requests from the user and from peers

  function Create(m: Manager, user: string, path: string, caseProblem: bool, size: nat, ticket: nat): Manager {
    m.(list := m.list + [m.next],
       rows := m.rows[m.next := Row(user, path, caseProblem, Offline, ticket, false, 0, size)],
       next := m.next + 1)
  }

  function Add(m: Manager, user: string, path: string, caseProblem: bool, force: bool, size: nat, ticket: nat): (n: Manager)
    requires Listed(m)
    ensures Listed(n)
  {
    match Find(m, user, path, 0)
    case None => SetState(Create(m, user, path, caseProblem, size, ticket), m.next, QueuedLocally)
    case Some(id) =>
      FindFinds(m, user, path, 0);
      if force || (m.rows[id].state != Aborted && m.rows[id].state != LocalError) then SetState(m, id, QueuedLocally)
      else m
  }

  lemma FindFinds(m: Manager, user: string, path: string, i: nat)
    requires Listed(m) && i <= |m.list|
    ensures match Find(m, user, path, i)
            case None => forall j :: i <= j < |m.list| ==> m.rows[m.list[j]].user != user || m.rows[m.list[j]].path != path
            case Some(id) => id in m.list && m.rows[id].user == user && m.rows[id].path == path
    decreases |m.list| - i
  {
    if i < |m.list| {
      FindFinds(m, user, path, i + 1);
    }
  }

  lemma FindTicketFinds(m: Manager, user: string, ticket: nat, i: nat)
    requires Listed(m) && i <= |m.list|
    ensures match FindTicket(m, user, ticket, i)
            case None => forall j :: i <= j < |m.list| ==> m.rows[m.list[j]].user != user || m.rows[m.list[j]].ticket != ticket
            case Some(id) => id in m.list && m.rows[id].user == user && m.rows[id].ticket == ticket
    decreases |m.list| - i
  {
    if i < |m.list| {
      FindTicketFinds(m, user, ticket, i + 1);
    }
  }

  function AbortId(m: Manager, id: Id): (n: Manager)
    requires Listed(m) && id in m.rows
    ensures Listed(n) && n.rows.Keys == m.rows.Keys
  {
    var a := SetSocket(m, id, false);
    if a.rows[id].state != Finished then SetState(a, id, Aborted) else a
  }

  function Abort(m: Manager, user: string, path: string): (n: Manager)
    requires Listed(m)
    ensures Listed(n)
  {
    match Find(m, user, path, 0)
    case None => m
    case Some(id) => FindFinds(m, user, path, 0); AbortId(m, id)
  }

  function Remove(m: Manager, user: string, path: string): (n: Manager)
    requires Listed(m)
    ensures Listed(n)
  {
    match Find(m, user, path, 0)
    case None => m
    case Some(id) =>
      FindFinds(m, user, path, 0);
      var a := AbortId(m, id);
      a.(list := RemoveFirst(a.list, id))
  }

  // ----- the reply handler's connections

  function Connections(m: Manager, peer: Peer): nat {
    if peer in m.connected then m.connected[peer] else 0
  }

  /** Connects the reply handler once more, and remembers this connection only. */
  function Connect(m: Manager, peer: Peer): (n: Manager)
    ensures n == m.(connected := n.connected, callback := n.callback)
  {
    m.(connected := m.connected[peer := Connections(m, peer) + 1], callback := Some(peer))
  }

  /** Disconnects the remembered connection if it was made to this socket; forgets it in any case. */
  function Disconnect(m: Manager, peer: Peer): (n: Manager)
    ensures n == m.(connected := n.connected, callback := n.callback)
  {
    if m.callback == Some(peer) && Connections(m, peer) > 0 then
      m.(connected := m.connected[peer := Connections(m, peer) - 1], callback := None)
    else m.(callback := None)
  }

  /** A peer's socket is destroyed, and with it the connections to it. */
  function PeerGone(m: Manager, peer: Peer): (n: Manager)
    ensures n == m.(connected := n.connected, callback := n.callback)
  {
    m.(connected := m.connected - {peer}, callback := if m.callback == Some(peer) then None else m.callback)
  }

  /** Opens the file and announces the upload to its peer; file is the size found on opening, if it opened. */
  function Initiate(m: Manager, id: Id, peer: Peer, file: Option<nat>, token: nat): (n: Manager)
    requires Listed(m) && id in m.rows
    ensures Listed(n) && n.rows.Keys == m.rows.Keys
  {
    if m.rows[id].state != Initiating then m
    else if file.None? then Fail(m, id, LocalError)
    else Connect(WithTicket(SetState(WithSize(m, id, file.value), id, Waiting), id, token), peer)
  }

  /** Sets each upload of ids that leaving holds for to a state, one after the other. */
  function SetEach(m: Manager, ids: seq<Id>, leaving: (Manager, Id) -> bool, s: TrState): (n: Manager)
    requires Listed(m) && forall id :: id in ids ==> id in m.rows
    ensures Listed(n) && n.rows.Keys == m.rows.Keys
    decreases |ids|
  {
    if ids == [] then m
    else SetEach(if leaving(m, ids[0]) then SetState(m, ids[0], s) else m, ids[1..], leaving, s)
  }

  predicate WasOffline(m: Manager, id: Id, user: string) {
    id in m.rows && m.rows[id].user == user && m.rows[id].state == Offline
  }

  function PeerReady(m: Manager, user: string, peer: Peer, file: Option<nat>, token: nat): (n: Manager)
    requires Listed(m)
    ensures Listed(n)
  {
    var a := SetEach(m, m.list, (x: Manager, id: Id) => WasOffline(x, id, user), QueuedLocally);
    if user !in a.uploading || a.uploading[user] !in a.rows || a.rows[a.uploading[user]].state != Initiating then a
    else CheckUploads(Initiate(a, a.uploading[user], peer, file, token))
  }

  function Unavailable(m: Manager, user: string): (n: Manager)
    requires Listed(m)
    ensures Listed(n)
  {
    if user in m.uploading && m.uploading[user] in m.rows then Fail(m, m.uploading[user], CannotConnect) else m
  }

  /** The states that an upload leaves when its peer goes offline. */
  predicate NeedsPeer(s: TrState) {
    !s.Finished? && !s.RemoteError? && !s.LocalError? && !s.Transferring? && !s.ConnectionClosed?
    && !s.CannotConnect? && !s.Aborted? && !s.Offline?
  }

  predicate GoesOffline(m: Manager, id: Id, user: string) {
    id in m.rows && m.rows[id].user == user && NeedsPeer(m.rows[id].state)
  }

  function PeerOffline(m: Manager, user: string): (n: Manager)
    requires Listed(m)
    ensures Listed(n)
  {
    SetEach(m, m.list, (x: Manager, id: Id) => GoesOffline(x, id, user), Offline)
  }

  predicate LosesServer(m: Manager, id: Id) {
    && id in m.rows
    && !(m.rows[id].user in m.uploading && m.uploading[m.rows[id].user] == id)
    && var s := m.rows[id].state; !s.Finished? && !s.Aborted? && !s.Offline?
  }

  function LoggedIn(m: Manager, loggedIn: bool): (n: Manager)
    requires Listed(m)
    ensures Listed(n)
  {
    if loggedIn then CheckUploads(m)
    else SetEach(m, m.list, (x: Manager, id: Id) => LosesServer(x, id), Offline)
  }

  /** A new socket is made for the upload: it goes through Establishing and then waits. */
  function Establish(m: Manager, id: Id): (n: Manager)
    requires Listed(m) && id in m.rows
    ensures Listed(n) && n.rows.Keys == m.rows.Keys
  {
    SetSocket(SetState(m, id, Establishing), id, true)
  }

  /** One call of the reply handler, for a message that came on this socket. */
  function Reply(m: Manager, peer: Peer, user: string, ticket: nat, allowed: bool): (n: Manager)
    requires Listed(m)
    ensures Listed(n)
  {
    match FindTicket(m, user, ticket, 0)
    case None => m
    case Some(id) =>
      FindTicketFinds(m, user, ticket, 0);
      if m.rows[id].state != Waiting then m
      else
        var d := Disconnect(m, peer);
        if allowed then SetState(Establish(d, id), id, Waiting) else Fail(d, id, RemoteError)
  }

  /** The upload gets a socket that waits for its peer to connect. */
  function GiveSlot(m: Manager, id: Id, size: nat, ticket: nat): (n: Manager)
    requires Listed(m) && id in m.rows
    ensures Listed(n) && n.rows.Keys == m.rows.Keys
  {
    var a := SetState(Establish(WithSize(m, id, size), id), id, Establishing);
    SetState(WithTicket(a, id, ticket), id, Waiting)
  }

  /** A peer asks for a file itself. */
  function Requested(m: Manager, user: string, path: string, size: nat, token: nat, file: Option<nat>, ticket: nat): (n: Manager)
    requires Listed(m)
    ensures Listed(n)
  {
    var a := Add(m, user, path, false, false, size, token);
    match Find(a, user, path, 0)
    case None => a
    case Some(id) =>
      FindFinds(a, user, path, 0);
      if !HasFreeSlots(a) || user in a.uploading || file.None? then a
      else GiveSlot(a, id, file.value, ticket)
  }

  // ----- events of the socket an upload holds

  function SocketClosed(m: Manager, id: Id): (n: Manager)
    requires Listed(m)
    ensures Listed(n)
  {
    if id !in m.list || !m.rows[id].socket then m else SetSocket(m, id, false)
  }

  function SocketCannotConnect(m: Manager, id: Id): (n: Manager)
    requires Listed(m)
    ensures Listed(n)
  {
    if id !in m.list || !m.rows[id].socket || m.rows[id].state == RemoteError || m.rows[id].state == LocalError then m
    else OnDisconnected(SetState(m, id, CannotConnect), id)
  }

  /** The peer says where to start. */
  function StartAt(m: Manager, id: Id, pos: nat, readOk: bool): (n: Manager)
    requires Listed(m)
    ensures Listed(n)
  {
    if id !in m.list || !m.rows[id].socket || m.rows[id].state != Waiting then m
    else if pos > m.rows[id].size then Fail(m, id, LocalError)
    else
      var a := WithPosition(SetState(m, id, Transferring), id, pos);
      if readOk then a else Fail(a, id, LocalError)
  }

  /** Bytes went out to the peer. */
  function Sent(m: Manager, id: Id, count: nat, readOk: bool): (n: Manager)
    requires Listed(m)
    ensures Listed(n)
  {
    if id !in m.list || !m.rows[id].socket || m.rows[id].state != Transferring then m
    else
      var a := WithPosition(m, id, m.rows[id].position + count);
      if readOk then a else Fail(a, id, LocalError)
  }

  /** No reply came to the announcement of an upload. */
  function ReplyTimeout(m: Manager, id: Id): (n: Manager)
    requires Listed(m)
    ensures Listed(n)
  {
    if id !in m.list then m else Fail(m, id, CannotConnect)
  }

  // ----- runs

  datatype Event =
    | EvAdd(user: string, path: string, caseProblem: bool, force: bool, size: nat, token: nat)
    | EvAbort(user: string, path: string)
    | EvRemove(user: string, path: string)
    | EvPeerReady(user: string, peer: Peer, file: Option<nat>, token: nat)
    | EvPeerGone(peer: Peer)
    | EvUnavailable(user: string)
    | EvPeerOffline(user: string)
    | EvLoggedIn(loggedIn: bool)
    | EvReply(peer: Peer, user: string, ticket: nat, allowed: bool)
    | EvRequested(user: string, path: string, size: nat, token: nat, file: Option<nat>, ticket: nat)
    | EvSocketClosed(id: Id)
    | EvSocketCannotConnect(id: Id)
    | EvStartAt(id: Id, pos: nat, readOk: bool)
    | EvSent(id: Id, count: nat, readOk: bool)
    | EvReplyTimeout(id: Id)
    | EvSlots(slots: nat)
    | EvPrivileges(priv: set<string>)
    | EvAutoClear(on: bool)

  function Step(m: Manager, e: Event): (n: Manager)
    requires Listed(m)
    ensures Listed(n)
  {
    match e
    case EvAdd(user, path, caseProblem, force, size, token) => Add(m, user, path, caseProblem, force, size, token)
    case EvAbort(user, path) => Abort(m, user, path)
    case EvRemove(user, path) => Remove(m, user, path)
    case EvPeerReady(user, peer, file, token) => PeerReady(m, user, peer, file, token)
    case EvPeerGone(peer) => PeerGone(m, peer)
    case EvUnavailable(user) => Unavailable(m, user)
    case EvPeerOffline(user) => PeerOffline(m, user)
    case EvLoggedIn(loggedIn) => LoggedIn(m, loggedIn)
    case EvReply(peer, user, ticket, allowed) => Reply(m, peer, user, ticket, allowed)
    case EvRequested(user, path, size, token, file, ticket) => Requested(m, user, path, size, token, file, ticket)
    case EvSocketClosed(id) => SocketClosed(m, id)
    case EvSocketCannotConnect(id) => SocketCannotConnect(m, id)
    case EvStartAt(id, pos, readOk) => StartAt(m, id, pos, readOk)
    case EvSent(id, count, readOk) => Sent(m, id, count, readOk)
    case EvReplyTimeout(id) => ReplyTimeout(m, id)
    case EvSlots(slots) => CheckUploads(m.(slots := slots))
    case EvPrivileges(priv) => m.(priv := priv)
    case EvAutoClear(on) => m.(autoClear := on)
  }

  /** What a reply message sets off: a call of the handler for each connection there is when it comes, also for those that
      a call disconnects. */
  function Message(m: Manager, peer: Peer, user: string, ticket: nat, allowed: bool): seq<Event> {
    Calls(EvReply(peer, user, ticket, allowed), Connections(m, peer))
  }

  function Calls(e: Event, k: nat): seq<Event> {
    if k == 0 then [] else [e] + Calls(e, k - 1)
  }

  function Run(m: Manager, events: seq<Event>): (n: Manager)
    requires Listed(m)
    ensures Listed(n)
    decreases |events|
  {
    if events == [] then m else Run(Step(m, events[0]), events[1..])
  }

  lemma CallsStep(m: Manager, e: Event, k: nat)
    requires Listed(m) && k > 0
    ensures Run(m, Calls(e, k)) == Run(Step(m, e), Calls(e, k - 1))
  {
    hide Step;
    assert Calls(e, k)[1..] == Calls(e, k - 1);
  }
}
