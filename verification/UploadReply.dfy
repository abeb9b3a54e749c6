/** The one handler that can break the upload scheduler: a peer allows an upload that already holds a socket. */
module UploadReply {
  import opened Basics
  import Sets
  import opened UploadModel
  import opened UploadProofs
  import opened UploadHandlers

  /** Were this upload's slot given back, another upload would start in its place. */
  predicate Restarts(m: Manager, id: Id)
    requires Listed(m) && id in m.rows
  {
    var freed := m.(uploading := m.uploading - {m.rows[id].user});
    HasFreeSlots(freed) && Pick(freed).Some?
  }

  /** Closing the upload's socket would neither clear the upload nor start another. */
  predicate MayClose(m: Manager, id: Id)
    requires Listed(m) && id in m.rows
  {
    !(m.rows[id].position >= m.rows[id].size && m.autoClear) && !Restarts(m, id)
  }

  /** A new socket may take over: there is no old one, or it may be closed. */
  predicate Harmless(m: Manager, id: Id)
    requires Listed(m) && id in m.rows
  {
    !m.rows[id].socket || MayClose(m, id)
  }

  /** What a peer's permission leads to. */
  function Allowed(m: Manager, id: Id): Manager
    requires Listed(m) && id in m.rows
  {
    SetState(Establish(m, id), id, Waiting)
  }

  lemma NoSocketKeeps(m: Manager, id: Id)
    requires Good(m) && id in m.list && m.rows[id].state == Waiting && !m.rows[id].socket
    ensures Safe(m, Allowed(m, id))
  {
    hide Distinct, UniquePaths, OnePerUser, SetState;
    TakesOver(m, id);
    SetActive(m, id, Establishing);
    var e := SetState(m, id, Establishing);
    var w := WithSocket(e, id, true);
    TouchSafe(e, id, e.rows[id].(socket := true));
    SafeTrans(m, e, w);
    TakesOver(w, id);
    SetActive(w, id, Waiting);
    SafeTrans(m, w, SetState(w, id, Waiting));
    assert Establish(m, id) == w;
  }

  // ----- closing the old socket

  function ClosedState(m: Manager, id: Id): TrState
    requires id in m.rows
  {
    if m.rows[id].position >= m.rows[id].size then Finished else ConnectionClosed
  }

  /** A finished upload has its position at the end. */
  function ClosedRow(r: Row): Row {
    if r.position >= r.size then r.(state := Finished, socket := false, position := r.size)
    else r.(state := ConnectionClosed, socket := false)
  }

  /** The upload has been closed and its slot given back, and nothing has been started yet. */
  predicate Released(m: Manager, id: Id, b: Manager)
    requires id in m.rows
  {
    && Inv(b) && Extends(m, b) && b.list == m.list
    && b.uploading == m.uploading - {m.rows[id].user}
    && b.rows == m.rows[id := b.rows[id]] && b.rows[id] == ClosedRow(m.rows[id])
  }

  /** Closing the socket releases the upload, looks for uploads to start, and clears the upload if it has finished. */
  lemma CloseForm(m: Manager, id: Id) returns (b: Manager)
    requires Good(m) && id in m.list && m.rows[id].state == Waiting && m.rows[id].socket
    ensures Released(m, id, b) && Inv(b)
    ensures id in b.list && id in b.rows && b.rows[id].state == ClosedState(m, id)
    ensures b.rows[id].user == m.rows[id].user && b.rows[id].path == m.rows[id].path
    ensures OnDisconnected(SetState(m, id, Establishing), id)
            == if m.rows[id].position >= m.rows[id].size && m.autoClear
               then Clear(CheckUploads(b), m.rows[id].user, m.rows[id].path) else CheckUploads(b)
  {
    hide Inv, Settled, SetState, Enter, OnDisconnected, CheckUploads, Clear, Extends, Bounded, Started;
    var e := Begun(m, id);
    var s := ClosedState(m, id);
    b := Close(e, id, s);
    assert Extends(m, b) && b.rows == m.rows[id := b.rows[id]] by { ExtendsTrans(m, e, b); }
    ExtendsNames(m, b, id);
    DisconnectForm(e, id, b);
    CheckKeeps(b);
    SameNames(b, CheckUploads(b), id);
    SameAutoClear(m, b);
    SameAutoClear(b, CheckUploads(b));
  }

  lemma SameAutoClear(m: Manager, n: Manager)
    requires Extends(m, n)
    ensures n.autoClear == m.autoClear
  {
  }

  lemma ExtendsNames(m: Manager, n: Manager, id: Id)
    requires Extends(m, n) && id in m.rows
    ensures id in n.rows && n.rows[id].user == m.rows[id].user && n.rows[id].path == m.rows[id].path
  {
  }

  lemma SameNames(m: Manager, n: Manager, id: Id)
    requires Kept(m, n) && id in m.rows
    ensures id in n.rows && n.rows[id].user == m.rows[id].user && n.rows[id].path == m.rows[id].path
  {
  }

  lemma ExtendsTrans(a: Manager, b: Manager, c: Manager)
    requires Extends(a, b) && Extends(b, c)
    ensures Extends(a, c)
  {
  }

  lemma Begun(m: Manager, id: Id) returns (e: Manager)
    requires Good(m) && id in m.list && m.rows[id].state == Waiting
    ensures e == SetState(m, id, Establishing) && Good(e) && Extends(m, e) && e.list == m.list
    ensures e.rows == m.rows[id := m.rows[id].(state := Establishing)] && e.uploading == m.uploading
  {
    hide Inv, Settled, SetState, Extends;
    ListedUnique(m, id);
    TakesOver(m, id);
    SetActive(m, id, Establishing);
    SetStateActive(m, id, Establishing);
    MarkExtends(m, id, Establishing);
    e := SetState(m, id, Establishing);
    assert m.uploading[m.rows[id].user := id] == m.uploading;
  }

  /** An active upload that leaves its socket for a closed state. */
  lemma Close(e: Manager, id: Id, s: TrState) returns (b: Manager)
    requires Good(e) && id in e.list && Active(e.rows[id].state) && Closes(s)
    ensures b == Mark(Positioned(WithSocket(e, id, false), id, s), id, s)
    ensures Inv(b) && Extends(e, b) && b.list == e.list && b.uploading == e.uploading - {e.rows[id].user}
    ensures b.rows == e.rows[id := b.rows[id]]
    ensures b.rows[id] == e.rows[id].(state := s, socket := false, position := if s == Finished then e.rows[id].size else e.rows[id].position)
  {
    hide Inv, Settled, Extends, Mark, Follow;
    ListedUnique(e, id);
    var d := WithSocket(e, id, false);
    TouchSafe(e, id, e.rows[id].(socket := false));
    FinishPosition(d, id, s);
    var a := Positioned(d, id, s);
    PositionedRows(d, id, s);
    assert id in a.list;
    ListedUnique(a, id);
    assert Listed(a) by { InvListed(a); }
    MarkInactive(a, id, s);
    MarkInactiveMaps(a, id, s);
    MarkExtends(a, id, s);
    b := Mark(a, id, s);
    TakesOver(e, id);
    ExtendsTrans(e, d, a);
    ExtendsTrans(e, a, b);
  }

  function Positioned(m: Manager, id: Id, s: TrState): Manager
    requires id in m.rows
  {
    if s == Finished then Follow(WithPosition(m, id, m.rows[id].size), id) else m
  }

  lemma PositionedRows(m: Manager, id: Id, s: TrState)
    requires id in m.rows
    ensures var a := Positioned(m, id, s);
            id in a.rows && a.rows == m.rows[id := a.rows[id]] && a.list == m.list
            && a.rows[id] == m.rows[id].(position := if s == Finished then m.rows[id].size else m.rows[id].position)
  {
    assert m.rows[id := m.rows[id]] == m.rows;
  }

  lemma DisconnectForm(e: Manager, id: Id, b: Manager)
    requires Listed(e) && id in e.rows && e.rows[id].state == Establishing && Listed(b)
    requires b == Mark(Positioned(WithSocket(e, id, false), id, ClosedState(e, id)), id, ClosedState(e, id))
    ensures id in b.rows
    ensures OnDisconnected(e, id)
            == var c := CheckUploads(b);
               if ClosedState(e, id) == Finished && c.autoClear then Clear(c, c.rows[id].user, c.rows[id].path) else c
  {
    hide CheckUploads, Clear, Follow, Mark, SetState, Enter;
    ClosingForm(e, id, ClosedState(e, id));
    EnterForm(WithSocket(e, id, false), id, ClosedState(e, id));
  }

  lemma EnterForm(d: Manager, id: Id, s: TrState)
    requires Listed(d) && id in d.rows && Closes(s)
    ensures id in Positioned(d, id, s).rows
    ensures var b := Mark(Positioned(d, id, s), id, s);
            Listed(b) && id in b.rows
            && Enter(d, id, s)
               == var c := CheckUploads(b);
                  if s == Finished && c.autoClear then Clear(c, c.rows[id].user, c.rows[id].path) else c
  {
    hide CheckUploads, Clear, Follow, Mark;
  }

  lemma InvListed(m: Manager)
    requires Inv(m)
    ensures Listed(m)
  {
  }

  // ----- when the old socket does no harm

  lemma {:induction false} FirstFromSame(a: Manager, b: Manager, i: nat, privileged: bool)
    requires Listed(a) && Listed(b) && a.list == b.list && i <= |a.list|
    requires forall x :: x in a.list ==> Candidate(a, x, privileged) == Candidate(b, x, privileged)
    ensures FirstFrom(a, i, privileged) == FirstFrom(b, i, privileged)
    decreases |a.list| - i
  {
    if i < |a.list| {
      FirstFromSame(a, b, i + 1, privileged);
    }
  }

  lemma ReleasedParts(m: Manager, id: Id, b: Manager)
    requires id in m.rows && Released(m, id, b)
    ensures b.list == m.list && b.uploading == m.uploading - {m.rows[id].user} && b.rows == m.rows[id := ClosedRow(m.rows[id])]
    ensures Listed(b) && b.slots == m.slots && b.priv == m.priv && b.autoClear == m.autoClear
  {
    InvListed(b);
    hide Inv;
  }

  lemma PickFreed(m: Manager, id: Id, b: Manager)
    requires Listed(m) && id in m.rows && m.rows[id].state == Waiting && Released(m, id, b)
    ensures Restarts(m, id) == (HasFreeSlots(b) && Pick(b).Some?)
  {
    hide Released, FirstFrom;
    ReleasedParts(m, id, b);
    var freed := m.(uploading := m.uploading - {m.rows[id].user});
    FirstFromSame(freed, b, 0, true);
    FirstFromSame(freed, b, 0, false);
  }

  /** Taking over the socket, once the old one is closed. */
  lemma AllowedForm(m: Manager, id: Id, o: Manager)
    requires Good(m) && id in m.list && m.rows[id].state == Waiting && m.rows[id].socket
    requires o == OnDisconnected(SetState(m, id, Establishing), id) && id in o.rows && o.rows[id].state != Waiting
    ensures Allowed(m, id) == Mark(WithSocket(o, id, true), id, Waiting)
  {
    hide OnDisconnected, SetState, Mark;
    var e := Begun(m, id);
    SetStateActive(WithSocket(o, id, true), id, Waiting);
  }

  lemma NoRestart(b: Manager)
    requires Inv(b) && !(HasFreeSlots(b) && Pick(b).Some?)
    ensures CheckUploads(b) == b && Settled(b)
  {
    CheckKeeps(b);
  }

  lemma Swap(b: Manager, id: Id)
    requires id in b.rows
    ensures Mark(WithSocket(b, id, true), id, Waiting) == WithSocket(Mark(b, id, Waiting), id, true)
  {
    var r := b.rows[id];
    Overwritten(b.rows, id, r.(socket := true), r.(socket := true, state := Waiting));
    Overwritten(b.rows, id, r.(state := Waiting), r.(socket := true, state := Waiting));
  }

  /** The released upload takes its slot back. */
  lemma TakesBack(m: Manager, id: Id, b: Manager)
    requires Good(m) && id in m.list && m.rows[id].state == Waiting && Released(m, id, b) && Settled(b)
    ensures Stable(m, WithSocket(Mark(b, id, Waiting), id, true))
  {
    hide Inv, Settled, Mark, Released, Extends;
    InvListed(m);
    Held(m, id);
    ReleasedParts(m, id, b);
    ReleasedInv(m, id, b);
    PutBack(m.uploading, m.rows[id].user, id);
    MarkActive(b, id, Waiting);
    ActiveSettled(b, id, Waiting);
    var k := Mark(b, id, Waiting);
    MarkRows(b, id, Waiting);
    TouchSafe(k, id, k.rows[id].(socket := true));
    SameSlots(b, k);
  }

  lemma ReleasedInv(m: Manager, id: Id, b: Manager)
    requires id in m.rows && Released(m, id, b)
    ensures Inv(b)
  {
    hide Inv;
  }

  lemma SameSlots(m: Manager, n: Manager)
    requires Extends(m, n)
    ensures n.slots == m.slots
  {
  }

  lemma HarmlessKeeps(m: Manager, id: Id)
    requires Good(m) && id in m.list && m.rows[id].state == Waiting && Harmless(m, id)
    ensures Stable(m, Allowed(m, id))
  {
    hide Inv, Settled, SetState, Establish, Mark, OnDisconnected, Pick, Released;
    ListedUnique(m, id);
    InvListed(m);
    if m.rows[id].socket {
      var b := CloseForm(m, id);
      PickFreed(m, id, b);
      NoRestart(b);
      AllowedForm(m, id, b);
      Swap(b, id);
      TakesBack(m, id, b);
    } else {
      NoSocketKeeps(m, id);
      SafeIsStable(m, Allowed(m, id));
    }
  }

  /** After a harmless permission everything is as before, but that the upload holds a socket. */
  predicate OnlySocket(m: Manager, id: Id, n: Manager)
    requires id in m.rows
  {
    && n.list == m.list && n.rows.Keys == m.rows.Keys && n.rows == m.rows[id := n.rows[id]] && n.uploading == m.uploading
    && n.rows[id] == m.rows[id].(socket := true, position := n.rows[id].position)
    && (n.rows[id].position >= m.rows[id].size <==> m.rows[id].position >= m.rows[id].size)
    && n.slots == m.slots && n.priv == m.priv && n.autoClear == m.autoClear
  }

  lemma HarmlessOnlySocket(m: Manager, id: Id)
    requires Good(m) && id in m.list && m.rows[id].state == Waiting && Harmless(m, id)
    ensures OnlySocket(m, id, Allowed(m, id))
  {
    hide Inv, Settled, SetState, Establish, Mark, OnDisconnected, Pick, Released;
    ListedUnique(m, id);
    InvListed(m);
    if m.rows[id].socket {
      var b := CloseForm(m, id);
      PickFreed(m, id, b);
      NoRestart(b);
      AllowedForm(m, id, b);
      TakenBack(m, id, b);
    } else {
      FirstSocket(m, id);
    }
  }

  lemma FirstSocket(m: Manager, id: Id)
    requires Good(m) && id in m.list && m.rows[id].state == Waiting && !m.rows[id].socket
    ensures OnlySocket(m, id, Allowed(m, id))
  {
    hide Good, SetState, Mark;
    var e := Begun(m, id);
    var w := WithSocket(e, id, true);
    assert Establish(m, id) == w;
    SetStateActive(w, id, Waiting);
    MarkExtends(w, id, Waiting);
    MarkActiveMaps(w, id, Waiting);
    Held(m, id);
  }

  lemma Held(m: Manager, id: Id)
    requires Good(m) && id in m.rows && Active(m.rows[id].state)
    ensures m.uploading[m.rows[id].user := id] == m.uploading
  {
    TakesOver(m, id);
  }

  lemma TakenBack(m: Manager, id: Id, b: Manager)
    requires Good(m) && id in m.list && m.rows[id].state == Waiting && Released(m, id, b)
    ensures id in b.rows && OnlySocket(m, id, Mark(WithSocket(b, id, true), id, Waiting))
  {
    hide Inv, Settled, Released, Mark;
    InvListed(m);
    ReleasedParts(m, id, b);
    var w := WithSocket(b, id, true);
    MarkExtends(w, id, Waiting);
    MarkActiveMaps(w, id, Waiting);
    Overwritten(m.rows, id, ClosedRow(m.rows[id]), w.rows[id]);
    Overwritten(m.rows, id, w.rows[id], w.rows[id].(state := Waiting));
    Held(m, id);
    PutBack(m.uploading, m.rows[id].user, id);
  }

  lemma Overwritten(rows: map<Id, Row>, id: Id, r: Row, s: Row)
    ensures rows[id := r][id := s] == rows[id := s]
  {
  }

  lemma PutBack(users: map<string, Id>, user: string, id: Id)
    ensures (users - {user})[user := id] == users[user := id]
  {
  }

  lemma OnlySocketSame(m: Manager, id: Id, n: Manager, user: string, ticket: nat)
    requires Listed(m) && id in m.rows && OnlySocket(m, id, n)
    ensures Listed(n) && FindTicket(n, user, ticket, 0) == FindTicket(m, user, ticket, 0) && MayClose(n, id) == MayClose(m, id)
  {
    hide FindTicket, FirstFrom;
    forall x | x in m.list ensures n.rows[x] == m.rows[x].(socket := n.rows[x].socket, position := n.rows[x].position) {
    }
    SameCandidates(m, id, n);
    FindTicketSame(m, n, user, ticket, 0);
  }

  lemma SameCandidates(m: Manager, id: Id, n: Manager)
    requires Listed(m) && id in m.rows && n.list == m.list && Listed(n) && id in n.rows && n.rows[id].user == m.rows[id].user
    requires forall x :: x in m.list ==> n.rows[x] == m.rows[x].(socket := n.rows[x].socket, position := n.rows[x].position)
    requires n.uploading == m.uploading && n.slots == m.slots && n.priv == m.priv
    ensures Restarts(n, id) == Restarts(m, id)
  {
    var x, y := m.(uploading := m.uploading - {m.rows[id].user}), n.(uploading := n.uploading - {n.rows[id].user});
    FirstFromSame(x, y, 0, true);
    FirstFromSame(x, y, 0, false);
    hide FirstFrom;
  }

  lemma {:induction false} FindTicketSame(a: Manager, b: Manager, user: string, ticket: nat, i: nat)
    requires Listed(a) && Listed(b) && a.list == b.list && i <= |a.list|
    requires forall x :: x in a.list ==> a.rows[x].user == b.rows[x].user && a.rows[x].ticket == b.rows[x].ticket
    ensures FindTicket(a, user, ticket, i) == FindTicket(b, user, ticket, i)
    decreases |a.list| - i
  {
    if i < |a.list| {
      FindTicketSame(a, b, user, ticket, i + 1);
    }
  }

  // ----- when it does

  /** A finished upload is cleared from the list although it goes on. */
  lemma ClearedBreaks(m: Manager, id: Id)
    requires Good(m) && id in m.list && m.rows[id].state == Waiting && m.rows[id].socket
    requires m.rows[id].position >= m.rows[id].size && m.autoClear
    ensures !Good(Allowed(m, id))
  {
    hide Distinct, UniquePaths, OnePerUser, SocketsHeld, InitiatingWithin, Settled, SetState, Establish, Mark, OnDisconnected, Pick,
         CheckUploads, Find, RemoveFirst;
    var b := CloseForm(m, id);
    CheckKeeps(b);
    var c := CheckUploads(b);
    SameNames(b, c, id);
    ClearErases(c, id);
    var o := Clear(c, m.rows[id].user, m.rows[id].path);
    StartedRow(b, c, id);
    AllowedForm(m, id, o);
    MarkExtends(WithSocket(o, id, true), id, Waiting);
    UnlistedBreaks(Allowed(m, id), id);
  }

  lemma UnlistedBreaks(n: Manager, id: Id)
    requires id in n.rows && Active(n.rows[id].state) && id !in n.list
    ensures !Good(n)
  {
    hide UniquePaths, SocketsHeld, InitiatingWithin, Settled, Distinct;
  }

  lemma StartedRow(b: Manager, c: Manager, id: Id)
    requires c.rows.Keys == b.rows.Keys && Started(b, c) && id in b.rows && b.rows[id].state != QueuedLocally
    ensures c.rows[id] == b.rows[id]
  {
  }

  lemma ClearErases(c: Manager, id: Id)
    requires Inv(c) && id in c.list
    ensures id !in Clear(c, c.rows[id].user, c.rows[id].path).list
  {
    hide SocketsHeld, InitiatingWithin, OnePerUser;
    ListedUnique(c, id);
    FindFinds(c, c.rows[id].user, c.rows[id].path, 0);
    RemoveFirstDistinct(c.list, id);
    hide Find, RemoveFirst;
  }

  /** Another upload has started in place of the one that goes on. */
  lemma RestartBreaks(m: Manager, id: Id)
    requires Good(m) && id in m.list && m.rows[id].state == Waiting && m.rows[id].socket
    requires !(m.rows[id].position >= m.rows[id].size && m.autoClear) && Restarts(m, id)
    ensures !Stable(m, Allowed(m, id))
  {
    hide Inv, Settled, SetState, Establish, Mark, OnDisconnected, CheckUploads, Pick, Released, HasFreeSlots, Restarts, Clear;
    InvListed(m);
    var b := CloseForm(m, id);
    PickFreed(m, id, b);
    StartedBeside(m, id, b);
  }

  /** The search after closing has started another upload, and the closed one takes its user's slot as well. */
  lemma StartedBeside(m: Manager, id: Id, b: Manager)
    requires Good(m) && id in m.list && id in m.rows && m.rows[id].state == Waiting && m.rows[id].socket
    requires Released(m, id, b) && Inv(b) && id in b.rows && b.rows[id].state == ClosedState(m, id)
    requires b.rows[id].user == m.rows[id].user && b.rows[id].path == m.rows[id].path
    requires Listed(b) && HasFreeSlots(b) && Pick(b).Some?
    requires OnDisconnected(SetState(m, id, Establishing), id) == CheckUploads(b)
    ensures !Stable(m, Allowed(m, id))
  {
    hide Inv, Settled, Allowed, SetState, Mark, OnDisconnected, CheckUploads, Eligible, Released;
    InvListed(m);
    var k, c := Pick(b).value, CheckUploads(b);
    SearchOver(b, id);
    AllowedForm(m, id, c);
    TakenOver(c, id);
    OneTooMany(m, id, b, k, c, Allowed(m, id));
  }

  /** The upload first chosen has started when the search is over, and the closed one has not. */
  lemma SearchOver(b: Manager, id: Id)
    requires Inv(b) && id in b.rows && Closes(b.rows[id].state) && Listed(b) && HasFreeSlots(b) && Pick(b).Some?
    ensures var k, c := Pick(b).value, CheckUploads(b);
            && k in b.list && k in b.rows && Eligible(b, k) && b.rows[k].user in c.uploading
            && |c.uploading| >= |b.uploading| + 1
            && Inv(c) && Listed(c) && id in c.rows && c.rows[id].state == b.rows[id].state && c.rows[id].user == b.rows[id].user
  {
    hide Inv, Settled, CheckUploads, Pick, Extends, Started, Bounded, HasFreeSlots, Eligible;
    PickGoesAhead(b, Pick(b).value);
    CheckKeeps(b);
    InvListed(CheckUploads(b));
    StartedRow(b, CheckUploads(b), id);
  }

  lemma TakenOver(c: Manager, id: Id)
    requires Listed(c) && id in c.rows
    ensures var n := Mark(WithSocket(c, id, true), id, Waiting);
            n.rows == c.rows[id := n.rows[id]] && n.rows[id].user == c.rows[id].user && Active(n.rows[id].state)
            && n.uploading == c.uploading[c.rows[id].user := id]
  {
    MarkExtends(WithSocket(c, id, true), id, Waiting);
    MarkActiveMaps(WithSocket(c, id, true), id, Waiting);
  }

  lemma OneTooMany(m: Manager, id: Id, b: Manager, k: Id, c: Manager, n: Manager)
    requires Good(m) && id in m.list && id in m.rows && m.rows[id].state == Waiting && Released(m, id, b) && Inv(c)
    requires k in b.list && k in b.rows && Eligible(b, k) && |c.uploading| >= |b.uploading| + 1 && b.rows[k].user in c.uploading
    requires id in c.rows && !Active(c.rows[id].state) && c.rows[id].user == m.rows[id].user
    requires id in n.rows && n.rows == c.rows[id := n.rows[id]] && n.rows[id].user == c.rows[id].user && Active(n.rows[id].state)
    requires n.uploading == c.uploading[c.rows[id].user := id]
    ensures !Stable(m, n)
  {
    hide Inv, Settled, Bounded;
    if m.rows[id].user in c.uploading {
      TwoOfOneUser(c, n, id);
    } else {
      TooMany(m, id, b, k, c);
      TooManyBreaks(m, n);
    }
  }

  /** The first choice has begun to start when the search is over. */
  lemma PickGoesAhead(b: Manager, k: Id)
    requires Inv(b) && HasFreeSlots(b) && Pick(b) == Some(k)
    ensures k in b.list && Eligible(b, k) && b.rows[k].user in CheckUploads(b).uploading
    ensures |CheckUploads(b).uploading| >= |b.uploading| + 1
  {
    hide Inv, Mark, Pick, Extends, Bounded;
    InvListed(b);
    PickStarts(b, k);
    StartOne(b, k);
    MarkActiveMaps(b, k, Initiating);
    CheckKeeps(Mark(b, k, Initiating));
    var d, c := Mark(b, k, Initiating), CheckUploads(Mark(b, k, Initiating));
    Sets.SubsetSize(d.uploading.Keys, c.uploading.Keys);
  }

  lemma TwoOfOneUser(c: Manager, n: Manager, id: Id)
    requires Inv(c) && id in c.rows && id in n.rows && !Active(c.rows[id].state) && c.rows[id].user in c.uploading
    requires n.rows == c.rows[id := n.rows[id]] && Active(n.rows[id].state) && n.rows[id].user == c.rows[id].user
    requires n.uploading == c.uploading[c.rows[id].user := id]
    ensures !Good(n)
  {
    hide Distinct, UniquePaths, SocketsHeld, InitiatingWithin, Settled;
    var j := c.uploading[c.rows[id].user];
    assert n.rows[j] == c.rows[j];
  }

  lemma TooMany(m: Manager, id: Id, b: Manager, k: Id, c: Manager)
    requires Good(m) && id in m.list && id in m.rows && m.rows[id].state == Waiting && Released(m, id, b)
    requires k in b.list && k in b.rows && Eligible(b, k) && |c.uploading| >= |b.uploading| + 1
    requires m.rows[id].user !in c.uploading && b.rows[k].user in c.uploading
    ensures |c.uploading| >= |m.uploading| && !HasFreeSlots(m)
  {
    hide Inv, Settled, HasFreeSlots, Released;
    TakesOver(m, id);
    ReleasedParts(m, id, b);
    OneLess(m.uploading, m.rows[id].user);
    InvListed(m);
    FullTable(m, k);
  }

  lemma OneLess(users: map<string, Id>, user: string)
    requires user in users
    ensures |users - {user}| + 1 == |users|
  {
    assert users.Keys == (users - {user}).Keys + {user};
  }

  lemma FullTable(m: Manager, k: Id)
    requires Listed(m) && Settled(m) && k in m.list && Eligible(m, k)
    ensures !HasFreeSlots(m)
  {
  }

  lemma TooManyBreaks(m: Manager, n: Manager)
    requires !HasFreeSlots(m) && |n.uploading| >= |m.uploading| + 1
    ensures !Stable(m, n)
  {
    hide Good;
  }

  /** A new socket may take over exactly if the old one does no harm. */
  lemma AllowedIff(m: Manager, id: Id)
    requires Good(m) && id in m.list && m.rows[id].state == Waiting
    ensures Stable(m, Allowed(m, id)) <==> Harmless(m, id)
  {
    hide Settled, Distinct, OnePerUser, UniquePaths, SocketsHeld, InitiatingWithin, Allowed, Restarts, Bounded;
    ListedUnique(m, id);
    if Harmless(m, id) {
      HarmlessKeeps(m, id);
    } else if m.rows[id].position >= m.rows[id].size && m.autoClear {
      ClearedBreaks(m, id);
    } else {
      RestartBreaks(m, id);
    }
  }
}
