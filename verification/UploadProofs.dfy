/** What every operation of the upload scheduler keeps, and when the one that does not goes wrong. */
module UploadProofs {
  import opened Basics
  import opened UploadModel

  // ----- the invariant

  /** A user's entry in the map of uploads is exactly the active upload of that user. */
  predicate OnePerUser(m: Manager) {
    && (forall u :: u in m.uploading ==>
          m.uploading[u] in m.rows && m.rows[m.uploading[u]].user == u && Active(m.rows[m.uploading[u]].state))
    && (forall id :: id in m.rows && Active(m.rows[id].state) ==>
          id in m.list && m.rows[id].user in m.uploading && m.uploading[m.rows[id].user] == id)
  }

  predicate Same(m: Manager, x: Id, y: Id)
    requires x in m.rows && y in m.rows
  {
    m.rows[x].user == m.rows[y].user && m.rows[x].path == m.rows[y].path
  }

  /** No other listed upload has the user and the path of this one. */
  predicate NoTwin(m: Manager, id: Id)
    requires Listed(m) && id in m.rows
  {
    forall x :: x in m.list && Same(m, x, id) ==> x == id
  }

  predicate UniquePaths(m: Manager)
    requires Listed(m)
  {
    forall id :: id in m.list ==> NoTwin(m, id)
  }

  predicate SocketsHeld(m: Manager) {
    forall id :: id in m.rows && m.rows[id].socket ==> Active(m.rows[id].state) || m.rows[id].state == Offline
  }

  /** A user's entry in the other map is that upload as well, and is there unless the upload is running. */
  predicate InitiatingWithin(m: Manager) {
    && (forall u :: u in m.initiating ==> u in m.uploading && m.initiating[u] == m.uploading[u])
    && (forall id :: id in m.rows && Active(m.rows[id].state) && m.rows[id].state != Transferring ==>
          m.rows[id].user in m.initiating && m.initiating[m.rows[id].user] == id)
  }

  predicate Inv(m: Manager) {
    && Listed(m) && Distinct(m.list) && OnePerUser(m) && UniquePaths(m) && SocketsHeld(m) && InitiatingWithin(m)
    && (forall id :: id in m.rows ==> id < m.next)
  }

  /** No slot is free, or no queued upload has an idle user. */
  predicate Settled(m: Manager)
    requires Listed(m)
  {
    !HasFreeSlots(m) || forall id :: id in m.list ==> !Eligible(m, id)
  }

  predicate Good(m: Manager) {
    Inv(m) && Settled(m)
  }

  /** The same objects under the same settings, on a list that has not grown. */
  predicate Extends(m: Manager, n: Manager) {
    && n.slots == m.slots && n.priv == m.priv && n.autoClear == m.autoClear && n.next == m.next
    && n.rows.Keys == m.rows.Keys
    && (forall id :: id in m.rows ==> n.rows[id].user == m.rows[id].user && n.rows[id].path == m.rows[id].path)
    && (forall id :: id in n.list ==> id in m.list)
  }

  /** A full table of uploads has not grown. */
  predicate Bounded(m: Manager, n: Manager) {
    n.slots > 0 ==> |n.uploading| <= |m.uploading| || |n.uploading| <= n.slots
  }

  predicate Kept(m: Manager, n: Manager) {
    Inv(n) && Extends(m, n) && Bounded(m, n)
  }

  // ----- single changes

  lemma UniqueKept(m: Manager, n: Manager)
    requires Listed(m) && UniquePaths(m) && Extends(m, n) && Listed(n)
    ensures UniquePaths(n)
  {
  }

  lemma MarkExtends(m: Manager, id: Id, s: TrState)
    requires Listed(m) && id in m.rows
    ensures Extends(m, Mark(m, id, s)) && Listed(Mark(m, id, s))
    ensures Mark(m, id, s).rows == m.rows[id := m.rows[id].(state := s)]
  {
    hide Follow;
  }

  /** Leaving the active states gives up the user's slot, if this upload holds it. */
  lemma MarkInactiveMaps(m: Manager, id: Id, s: TrState)
    requires id in m.rows && !Active(s)
    ensures Mark(m, id, s).uploading == Without(m.uploading, m.rows[id].user, id)
    ensures Mark(m, id, s).initiating == Without(m.initiating, m.rows[id].user, id)
  {
  }

  lemma MarkActiveMaps(m: Manager, id: Id, s: TrState)
    requires id in m.rows && Active(s)
    ensures Mark(m, id, s).uploading == m.uploading[m.rows[id].user := id]
    ensures Mark(m, id, s).initiating == if s == Transferring then m.initiating else m.initiating[m.rows[id].user := id]
  {
  }

  lemma MarkInactive(m: Manager, id: Id, s: TrState)
    requires Inv(m) && id in m.rows && !Active(s) && (m.rows[id].socket ==> s == Offline)
    ensures Kept(m, Mark(m, id, s))
  {
    hide Distinct, UniquePaths, OnePerUser, SocketsHeld, InitiatingWithin, Mark, Extends;
    MarkExtends(m, id, s);
    MarkShape(m, id, s);
    UniqueKept(m, Mark(m, id, s));
    MarkInactiveMaps(m, id, s);
    MarkInactiveOnePerUser(m, id, s);
    MarkInactiveSockets(m, id, s);
    WithoutLess(m.uploading, m.rows[id].user, id);
    Combine(m, Mark(m, id, s));
  }

  lemma WithoutLess(users: map<string, Id>, user: string, id: Id)
    ensures |Without(users, user, id)| <= |users|
  {
    if user in users && users[user] == id {
      assert users.Keys == (users - {user}).Keys + {user};
    }
  }

  lemma MarkInactiveSockets(m: Manager, id: Id, s: TrState)
    requires SocketsHeld(m) && InitiatingWithin(m) && OnePerUser(m) && id in m.rows && !Active(s) && (m.rows[id].socket ==> s == Offline)
    ensures SocketsHeld(Mark(m, id, s)) && InitiatingWithin(Mark(m, id, s))
  {
    hide Follow, Mark;
    MarkInactiveMaps(m, id, s);
    MarkRows(m, id, s);
  }

  lemma MarkInactiveOnePerUser(m: Manager, id: Id, s: TrState)
    requires OnePerUser(m) && id in m.rows && !Active(s)
    ensures OnePerUser(Mark(m, id, s))
  {
    MarkInactiveMaps(m, id, s);
  }

  lemma MarkActive(m: Manager, id: Id, s: TrState)
    requires Inv(m) && id in m.list && Active(s)
    requires m.rows[id].user in m.uploading ==> m.uploading[m.rows[id].user] == id
    ensures Inv(Mark(m, id, s)) && Extends(m, Mark(m, id, s))
    ensures Mark(m, id, s).uploading == m.uploading[m.rows[id].user := id]
  {
    hide Distinct, UniquePaths, OnePerUser, SocketsHeld, InitiatingWithin, Mark, Extends;
    MarkExtends(m, id, s);
    MarkShape(m, id, s);
    UniqueKept(m, Mark(m, id, s));
    MarkActiveMaps(m, id, s);
    MarkActiveOnePerUser(m, id, s);
    MarkActiveSockets(m, id, s);
  }

  lemma MarkShape(m: Manager, id: Id, s: TrState)
    requires id in m.rows
    ensures Mark(m, id, s).next == m.next && Mark(m, id, s).list == m.list && Mark(m, id, s).rows.Keys == m.rows.Keys
  {
    hide Follow;
  }

  lemma MarkActiveOnePerUser(m: Manager, id: Id, s: TrState)
    requires OnePerUser(m) && id in m.list && id in m.rows && Active(s)
    requires m.rows[id].user in m.uploading ==> m.uploading[m.rows[id].user] == id
    ensures OnePerUser(Mark(m, id, s))
  {
    hide Follow, Mark;
    MarkActiveMaps(m, id, s);
    MarkRows(m, id, s);
  }

  lemma MarkRows(m: Manager, id: Id, s: TrState)
    requires id in m.rows
    ensures Mark(m, id, s).rows == m.rows[id := m.rows[id].(state := s)] && Mark(m, id, s).list == m.list
  {
    hide Follow;
  }

  lemma MarkActiveSockets(m: Manager, id: Id, s: TrState)
    requires SocketsHeld(m) && InitiatingWithin(m) && OnePerUser(m) && id in m.rows && Active(s)
    requires m.rows[id].user in m.uploading ==> m.uploading[m.rows[id].user] == id
    ensures SocketsHeld(Mark(m, id, s)) && InitiatingWithin(Mark(m, id, s))
  {
    hide Follow, Mark, SocketsHeld, InitiatingWithin, OnePerUser;
    MarkActiveMaps(m, id, s);
    MarkRows(m, id, s);
    ActiveWithin(m, Mark(m, id, s), id, s);
    ActiveSocket(m, Mark(m, id, s), id, s);
  }

  lemma ActiveSocket(m: Manager, n: Manager, id: Id, s: TrState)
    requires SocketsHeld(m) && id in m.rows && Active(s) && n.rows == m.rows[id := m.rows[id].(state := s)]
    ensures SocketsHeld(n)
  {
  }

  lemma ActiveWithin(m: Manager, n: Manager, id: Id, s: TrState)
    requires InitiatingWithin(m) && OnePerUser(m) && id in m.rows && Active(s)
    requires m.rows[id].user in m.uploading ==> m.uploading[m.rows[id].user] == id
    requires n.rows == m.rows[id := m.rows[id].(state := s)] && n.uploading == m.uploading[m.rows[id].user := id]
    requires n.initiating == if s == Transferring then m.initiating else m.initiating[m.rows[id].user := id]
    ensures InitiatingWithin(n)
  {
    forall x | x in n.rows && Active(n.rows[x].state) && n.rows[x].state != Transferring
      ensures n.rows[x].user in n.initiating && n.initiating[n.rows[x].user] == x
    {
      if x != id {
        assert m.rows[x] == n.rows[x];
        assert m.rows[x].user in m.uploading && m.uploading[m.rows[x].user] == x;
      }
    }
  }

  // ----- looking for uploads to start

  /** The first candidate at or after i, if there is one. */
  lemma {:induction false} FirstFromIsFirst(m: Manager, i: nat, privileged: bool)
    requires Listed(m) && i <= |m.list|
    ensures match FirstFrom(m, i, privileged)
            case None => forall j :: i <= j < |m.list| ==> !Candidate(m, m.list[j], privileged)
            case Some(id) => exists k :: i <= k < |m.list| && m.list[k] == id && Candidate(m, id, privileged)
                                         && forall j :: i <= j < k ==> !Candidate(m, m.list[j], privileged)
    decreases |m.list| - i
  {
    if i < |m.list| && !Candidate(m, m.list[i], privileged) {
      FirstFromIsFirst(m, i + 1, privileged);
    }
  }

  /** The order in which waiting uploads are served: privileged users first, then by place in the list. */
  predicate Precedes(m: Manager, j: nat, k: nat)
    requires Listed(m) && j < |m.list| && k < |m.list|
  {
    var pj, pk := m.rows[m.list[j]].user in m.priv, m.rows[m.list[k]].user in m.priv;
    (pj && !pk) || (pj == pk && j < k)
  }

  /** The choice falls on the upload served before every other one that may start, if any may. */
  lemma PickIsFirst(m: Manager)
    requires Listed(m)
    ensures match Pick(m)
            case None => forall j :: 0 <= j < |m.list| ==> !Eligible(m, m.list[j])
            case Some(id) => exists k :: 0 <= k < |m.list| && m.list[k] == id && Eligible(m, id)
                                         && forall j :: 0 <= j < |m.list| && Eligible(m, m.list[j]) && j != k ==> Precedes(m, k, j)
  {
    FirstFromIsFirst(m, 0, true);
    FirstFromIsFirst(m, 0, false);
    match Pick(m)
    case None =>
      forall j | 0 <= j < |m.list| ensures !Eligible(m, m.list[j]) {
        assert !Candidate(m, m.list[j], false);
      }
    case Some(id) =>
      var privileged := FirstFrom(m, 0, true).Some?;
      var k :| 0 <= k < |m.list| && m.list[k] == id && Candidate(m, id, privileged)
               && forall j :: 0 <= j < k ==> !Candidate(m, m.list[j], privileged);
      forall j | 0 <= j < |m.list| && Eligible(m, m.list[j]) && j != k ensures Precedes(m, k, j) {
        assert !Candidate(m, m.list[j], privileged) || k < j;
      }
  }

  /** Some queued uploads have begun to start, and nothing else happened to any upload or any user's slot. */
  predicate Started(m: Manager, n: Manager)
    requires n.rows.Keys == m.rows.Keys
  {
    && (forall id :: id in m.rows ==> n.rows[id] == m.rows[id]
                                      || (m.rows[id].state == QueuedLocally && n.rows[id] == m.rows[id].(state := Initiating)))
    && (forall u :: u in m.uploading ==> u in n.uploading && n.uploading[u] == m.uploading[u])
  }

  lemma StartedTrans(a: Manager, b: Manager, c: Manager)
    requires b.rows.Keys == a.rows.Keys && c.rows.Keys == b.rows.Keys && Started(a, b) && Started(b, c)
    ensures Started(a, c)
  {
  }

  lemma KeptTrans(a: Manager, b: Manager, c: Manager)
    requires Kept(a, b) && Kept(b, c)
    ensures Kept(a, c)
  {
    hide Inv;
  }

  lemma MarkStarted(m: Manager, id: Id)
    requires id in m.rows && Eligible(m, id)
    ensures Started(m, Mark(m, id, Initiating))
  {
  }

  lemma StartOne(m: Manager, id: Id)
    requires Inv(m) && Pick(m) == Some(id) && HasFreeSlots(m)
    ensures id in m.list && Kept(m, Mark(m, id, Initiating)) && Started(m, Mark(m, id, Initiating))
  {
    PickStarts(m, id);
    hide Distinct, UniquePaths, Mark;
    MarkStarted(m, id);
    hide Started;
    MarkActive(m, id, Initiating);
    hide Extends;
  }

  lemma {:induction false} CheckKeeps(m: Manager)
    requires Inv(m)
    ensures var n := CheckUploads(m); Kept(m, n) && Settled(n) && Started(m, n)
    decreases |Queued(m)|
  {
    hide Distinct, UniquePaths, Mark, Pick, OnePerUser;
    if HasFreeSlots(m) {
      PickIsFirst(m);
      if Pick(m).Some? {
        var id := Pick(m).value;
        StartOne(m, id);
        PickStarts(m, id);
        var n := Mark(m, id, Initiating);
        CheckKeeps(n);
        KeptTrans(m, n, CheckUploads(n));
        StartedTrans(m, n, CheckUploads(n));
      }
    }
  }

  // ----- entering a state

  /** A change of an upload that leaves its names and its state alone. */
  lemma TouchKeeps(m: Manager, id: Id, r: Row)
    requires Inv(m) && id in m.rows
    requires r.user == m.rows[id].user && r.path == m.rows[id].path && r.state == m.rows[id].state
    requires r.socket ==> Active(r.state) || r.state == Offline
    ensures Kept(m, m.(rows := m.rows[id := r]))
    ensures Settled(m) ==> Settled(m.(rows := m.rows[id := r]))
  {
    hide Listed, Distinct, OnePerUser, UniquePaths, Settled, Extends, SocketsHeld, InitiatingWithin;
    var n := m.(rows := m.rows[id := r]);
    TouchSimple(m, id, r);
    TouchOnePerUser(m, id, r);
    MapsKept(m, n);
    Combine(m, n);
  }

  lemma TouchSimple(m: Manager, id: Id, r: Row)
    requires Listed(m) && UniquePaths(m) && id in m.rows
    requires r.user == m.rows[id].user && r.path == m.rows[id].path && r.state == m.rows[id].state
    ensures var n := m.(rows := m.rows[id := r]);
            Listed(n) && UniquePaths(n) && Extends(m, n) && (Settled(m) ==> Settled(n))
  {
    hide UniquePaths;
    UniqueKept(m, m.(rows := m.rows[id := r]));
  }

  lemma TouchOnePerUser(m: Manager, id: Id, r: Row)
    requires OnePerUser(m) && id in m.rows && r.user == m.rows[id].user && r.state == m.rows[id].state
    ensures OnePerUser(m.(rows := m.rows[id := r]))
  {
  }

  lemma FollowKeeps(m: Manager, id: Id)
    requires Inv(m) && id in m.rows
    ensures Kept(m, Follow(m, id)) && Follow(m, id).rows == m.rows && Follow(m, id).uploading == m.uploading
  {
    hide Distinct, UniquePaths, OnePerUser, SocketsHeld, InitiatingWithin, Extends, Follow;
    FollowMaps(m, id);
    var n := Follow(m, id);
    OthersKept(m, n);
    UniqueKept(m, n);
    Combine(m, n);
  }

  /** The maps already follow the states. */
  lemma FollowMaps(m: Manager, id: Id)
    requires OnePerUser(m) && InitiatingWithin(m) && id in m.rows
    ensures Follow(m, id).uploading == m.uploading && InitiatingWithin(Follow(m, id))
  {
  }

  lemma OthersKept(m: Manager, n: Manager)
    requires Listed(m) && n == m.(initiating := n.initiating)
    ensures Listed(n) && Extends(m, n) && OnePerUser(n) == OnePerUser(m) && SocketsHeld(n) == SocketsHeld(m)
  {
  }

  lemma NoTwinKept(m: Manager, n: Manager, id: Id)
    requires Listed(m) && Listed(n) && id in m.rows && Extends(m, n) && NoTwin(m, id)
    ensures NoTwin(n, id)
  {
  }

  lemma EraseKeeps(m: Manager, id: Id)
    requires Inv(m) && id in m.rows && !Active(m.rows[id].state)
    ensures Kept(m, m.(list := RemoveFirst(m.list, id)))
    ensures Settled(m) ==> Settled(m.(list := RemoveFirst(m.list, id)))
  {
    hide Listed, Distinct, RemoveFirst, OnePerUser, UniquePaths, Settled, Extends, SocketsHeld, InitiatingWithin;
    var n := m.(list := RemoveFirst(m.list, id));
    EraseSimple(m, id);
    EraseKeepsOnePerUser(m, id);
    RemoveFirstDistinct(m.list, id);
    MapsKept(m, n);
    Combine(m, n);
  }

  lemma MapsKept(m: Manager, n: Manager)
    requires SocketsHeld(m) && InitiatingWithin(m)
    requires n.uploading == m.uploading && n.initiating == m.initiating
    requires n.rows.Keys == m.rows.Keys
    requires forall x :: x in m.rows && n.rows[x].socket ==> m.rows[x].socket || Active(n.rows[x].state) || n.rows[x].state == Offline
    requires forall x :: x in m.rows ==> n.rows[x].state == m.rows[x].state && n.rows[x].user == m.rows[x].user
    ensures SocketsHeld(n) && InitiatingWithin(n)
  {
  }

  lemma Combine(m: Manager, n: Manager)
    requires Inv(m) && Extends(m, n) && |n.uploading| <= |m.uploading|
    requires Listed(n) && Distinct(n.list) && OnePerUser(n) && UniquePaths(n) && SocketsHeld(n) && InitiatingWithin(n)
    ensures Kept(m, n)
  {
    hide Listed, Distinct, OnePerUser, UniquePaths, SocketsHeld, InitiatingWithin;
  }

  lemma EraseSimple(m: Manager, id: Id)
    requires Listed(m) && UniquePaths(m)
    ensures var n := m.(list := RemoveFirst(m.list, id));
            Listed(n) && UniquePaths(n) && Extends(m, n) && (Settled(m) ==> Settled(n))
  {
    hide RemoveFirst, UniquePaths;
    UniqueKept(m, m.(list := RemoveFirst(m.list, id)));
  }

  lemma EraseKeepsOnePerUser(m: Manager, id: Id)
    requires OnePerUser(m) && id in m.rows && !Active(m.rows[id].state)
    ensures OnePerUser(m.(list := RemoveFirst(m.list, id)))
  {
    hide RemoveFirst;
  }

  lemma ClearKeeps(m: Manager, id: Id)
    requires Inv(m) && Settled(m) && id in m.rows && NoTwin(m, id) && !Active(m.rows[id].state)
    ensures var n := Clear(m, m.rows[id].user, m.rows[id].path); Kept(m, n) && Settled(n)
  {
    hide Distinct, UniquePaths, OnePerUser;
    FindFinds(m, m.rows[id].user, m.rows[id].path, 0);
    EraseKeeps(m, id);
  }

  /** Leaving the active states, with the search for successors. */
  lemma MarkAndCheck(m: Manager, id: Id, s: TrState)
    requires Inv(m) && id in m.rows && !Active(s) && (m.rows[id].socket ==> s == Offline)
    ensures var n := CheckUploads(Mark(m, id, s));
            Kept(m, n) && Settled(n) && n.rows[id].socket == m.rows[id].socket
            && (n.rows[id].state == s || (s == QueuedLocally && n.rows[id].state == Initiating))
  {
    hide Distinct, UniquePaths, OnePerUser;
    MarkInactive(m, id, s);
    CheckKeeps(Mark(m, id, s));
    KeptTrans(m, Mark(m, id, s), CheckUploads(Mark(m, id, s)));
    hide Kept, CheckUploads;
  }

  lemma EnterInactive(m: Manager, id: Id, s: TrState)
    requires Inv(m) && id in m.rows && NoTwin(m, id) && !Active(s) && (m.rows[id].socket ==> s == Offline)
    ensures var n := Enter(m, id, s);
            Kept(m, n) && Settled(n) && n.rows[id].socket == m.rows[id].socket
            && (n.rows[id].state == s || (s == QueuedLocally && n.rows[id].state == Initiating))
  {
    var a := if s == Finished then Follow(WithPosition(m, id, m.rows[id].size), id) else m;
    FinishPosition(m, id, s);
    MarkAndCheck(a, id, s);
    var c := CheckUploads(Mark(a, id, s));
    KeptTrans(m, a, c);
    if s == Finished && c.autoClear {
      NoTwinKept(m, c, id);
      ClearKeeps(c, id);
      KeptTrans(m, c, Enter(m, id, s));
    }
  }

  lemma FinishPosition(m: Manager, id: Id, s: TrState)
    requires Inv(m) && id in m.rows
    ensures var a := if s == Finished then Follow(WithPosition(m, id, m.rows[id].size), id) else m;
            Kept(m, a) && a.rows[id].socket == m.rows[id].socket && a.uploading == m.uploading && a.list == m.list
  {
    if s == Finished {
      var b := WithPosition(m, id, m.rows[id].size);
      TouchKeeps(m, id, m.rows[id].(position := m.rows[id].size));
      FollowKeeps(b, id);
      KeptTrans(m, b, Follow(b, id));
    } else {
      hide Inv;
    }
  }

  /** What an operation keeps between the calls of a run. */
  predicate Safe(m: Manager, n: Manager) {
    Good(n) && Extends(m, n) && Bounded(m, n)
  }

  lemma SafeTrans(a: Manager, b: Manager, c: Manager)
    requires Safe(a, b) && Safe(b, c)
    ensures Safe(a, c)
  {
    hide Good;
  }

  lemma SafeRefl(m: Manager)
    requires Good(m)
    ensures Safe(m, m)
  {
    hide Good;
  }

  lemma ClosingForm(e: Manager, id: Id, s: TrState)
    requires Listed(e) && id in e.rows && e.rows[id].state != s && Closes(s)
    ensures SetState(e, id, s) == Enter(WithSocket(e, id, false), id, s)
  {
    hide Enter, OnDisconnected;
  }

  lemma DroppingForm(m: Manager, id: Id, s: TrState)
    requires Listed(m) && id in m.rows && m.rows[id].state != s && Disconnects(s) && m.rows[id].socket
    ensures SetState(m, id, s) == Enter(WithSocket(OnDisconnected(m, id), id, false), id, s)
  {
    hide OnDisconnected, Enter;
  }

  lemma PlainForm(m: Manager, id: Id, s: TrState)
    requires Listed(m) && id in m.rows && m.rows[id].state != s && !Closes(s) && !(Disconnects(s) && m.rows[id].socket)
    ensures SetState(m, id, s) == Enter(m, id, s)
  {
    hide OnDisconnected, Enter;
  }

  lemma SameState(m: Manager, id: Id, s: TrState)
    requires Listed(m) && id in m.rows && m.rows[id].state == s
    ensures SetState(m, id, s) == m
  {
  }

  lemma NoSocketLeft(m: Manager, id: Id)
    requires SocketsHeld(m) && id in m.rows && !Active(m.rows[id].state) && m.rows[id].state != Offline
    ensures !m.rows[id].socket
  {
  }

  lemma CloseKeeps(m: Manager, id: Id, s: TrState)
    requires Good(m) && id in m.rows && NoTwin(m, id) && Closes(s)
    ensures var n := SetState(m, id, s); Safe(m, n) && n.rows[id].state == s && !n.rows[id].socket
  {
    hide Distinct, UniquePaths, OnePerUser, Enter, SetState, InitiatingWithin, SocketsHeld, Settled, Extends, Bounded, NoTwin;
    SafeRefl(m);
    if m.rows[id].state == s {
      SameState(m, id, s);
      NoSocketLeft(m, id);
    } else {
      var a := WithSocket(m, id, false);
      TouchKeeps(m, id, m.rows[id].(socket := false));
      NoTwinKept(m, a, id);
      EnterInactive(a, id, s);
      KeptTrans(m, a, Enter(a, id, s));
      ClosingForm(m, id, s);
    }
  }

  lemma DisconnectKeeps(m: Manager, id: Id)
    requires Good(m) && id in m.rows && NoTwin(m, id)
    ensures var n := OnDisconnected(m, id); Safe(m, n) && !n.rows[id].socket
  {
    hide Distinct, UniquePaths, OnePerUser, SetState;
    SafeRefl(m);
    if m.rows[id].state != RemoteError && m.rows[id].state != LocalError {
      CloseKeeps(m, id, if m.rows[id].position >= m.rows[id].size then Finished else ConnectionClosed);
    }
  }

  /** Entering any state that is not active, whatever the upload was doing. */
  lemma SetInactive(m: Manager, id: Id, s: TrState)
    requires Good(m) && id in m.rows && NoTwin(m, id) && (Disconnects(s) || Closes(s) || s == Offline)
    ensures var n := SetState(m, id, s);
            Safe(m, n) && (s != Offline ==> !n.rows[id].socket)
            && (n.rows[id].state == s || (s == QueuedLocally && n.rows[id].state == Initiating))
  {
    hide Distinct, UniquePaths, OnePerUser, SocketsHeld, InitiatingWithin, Settled, Extends, Bounded, NoTwin, Enter, SetState, OnDisconnected;
    if Closes(s) {
      CloseKeeps(m, id, s);
    } else if m.rows[id].state == s {
      SafeRefl(m);
      SameState(m, id, s);
      if s != Offline {
        NoSocketLeft(m, id);
      }
    } else if Disconnects(s) && m.rows[id].socket {
      SetDropping(m, id, s);
    } else {
      EnterInactive(m, id, s);
      PlainForm(m, id, s);
    }
  }

  /** Entering a state that first disconnects the socket. */
  lemma SetDropping(m: Manager, id: Id, s: TrState)
    requires Good(m) && id in m.rows && NoTwin(m, id) && m.rows[id].state != s && Disconnects(s) && m.rows[id].socket
    ensures var n := SetState(m, id, s);
            Safe(m, n) && !n.rows[id].socket && (n.rows[id].state == s || (s == QueuedLocally && n.rows[id].state == Initiating))
  {
    hide Distinct, UniquePaths, OnePerUser, SocketsHeld, InitiatingWithin, Settled, Extends, Bounded, NoTwin, Enter, SetState, OnDisconnected;
    DisconnectKeeps(m, id);
    var a := OnDisconnected(m, id);
    assert WithSocket(a, id, false) == a by { assert a.rows[id].(socket := false) == a.rows[id]; }
    NoTwinKept(m, a, id);
    EnterInactive(a, id, s);
    SafeTrans(m, a, Enter(a, id, s));
    DroppingForm(m, id, s);
  }

  /** Entering an active state, for an upload that has its user's slot or may take a free one. */
  lemma SetActive(m: Manager, id: Id, s: TrState)
    requires Good(m) && id in m.list && Active(s)
    requires if m.rows[id].user in m.uploading then m.uploading[m.rows[id].user] == id else HasFreeSlots(m)
    ensures var n := SetState(m, id, s);
            Safe(m, n) && n.list == m.list && n.rows[id] == m.rows[id].(state := s)
            && n.uploading == m.uploading[m.rows[id].user := id]
  {
    SetStateActive(m, id, s);
    if m.rows[id].state != s {
      MarkActiveSafe(m, id, s);
      MarkExtends(m, id, s);
      MarkActiveMaps(m, id, s);
      hide *;
    } else {
      SafeRefl(m);
      ActiveHolds(m, id);
      hide *;
      assert m.rows[id].(state := s) == m.rows[id];
    }
  }

  lemma SetStateActive(m: Manager, id: Id, s: TrState)
    requires Listed(m) && id in m.rows && Active(s)
    ensures SetState(m, id, s) == if m.rows[id].state == s then m else Mark(m, id, s)
    ensures SetState(m, id, s).list == m.list
  {
    hide SetState, Enter, Mark;
    if m.rows[id].state == s {
      SameState(m, id, s);
    } else {
      PlainForm(m, id, s);
      EnterActive(m, id, s);
    }
  }

  lemma EnterActive(m: Manager, id: Id, s: TrState)
    requires Listed(m) && id in m.rows && Active(s)
    ensures Enter(m, id, s) == Mark(m, id, s)
  {
    hide Mark, Follow, CheckUploads, Clear;
  }

  lemma MarkActiveSafe(m: Manager, id: Id, s: TrState)
    requires Good(m) && id in m.list && Active(s)
    requires if m.rows[id].user in m.uploading then m.uploading[m.rows[id].user] == id else HasFreeSlots(m)
    ensures Safe(m, Mark(m, id, s))
  {
    hide Distinct, UniquePaths, OnePerUser, InitiatingWithin, SocketsHeld, Mark;
    ActiveSettled(m, id, s);
    MarkActive(m, id, s);
    hide Settled, Extends;
  }

  lemma ActiveSettled(m: Manager, id: Id, s: TrState)
    requires Listed(m) && Settled(m) && id in m.list && Active(s)
    ensures Settled(Mark(m, id, s))
  {
    var n := Mark(m, id, s);
    assert n.list == m.list && n.rows == m.rows[id := m.rows[id].(state := s)];
    MarkActiveMaps(m, id, s);
    hide Mark;
    assert |n.uploading| >= |m.uploading|;
  }

  lemma ActiveHolds(m: Manager, id: Id)
    requires OnePerUser(m) && id in m.rows && Active(m.rows[id].state)
    ensures id in m.list && m.rows[id].user in m.uploading && m.uploading[m.rows[id].user] == id
    ensures m.uploading[m.rows[id].user := id] == m.uploading
  {
  }

  lemma DropKeeps(m: Manager, id: Id)
    requires Good(m) && id in m.rows && NoTwin(m, id)
    ensures var n := SetSocket(m, id, false); Safe(m, n) && !n.rows[id].socket
  {
    hide Distinct, UniquePaths, OnePerUser, OnDisconnected;
    SafeRefl(m);
    if m.rows[id].socket {
      DisconnectKeeps(m, id);
    }
    var a := if m.rows[id].socket then OnDisconnected(m, id) else m;
    assert WithSocket(a, id, false) == a by { assert a.rows[id].(socket := false) == a.rows[id]; }
  }

  lemma FailKeeps(m: Manager, id: Id, s: TrState)
    requires Good(m) && id in m.rows && NoTwin(m, id) && Disconnects(s)
    ensures Safe(m, Fail(m, id, s))
  {
    hide Distinct, UniquePaths, OnePerUser, SetSocket, SetState;
    DropKeeps(m, id);
    var a := SetSocket(m, id, false);
    NoTwinKept(m, a, id);
    SetInactive(a, id, s);
    SafeTrans(m, a, Fail(m, id, s));
  }
}
