/** The upload objects and their manager, as objects that change in place; UploadModel says what each method does. */
module Uploads {
  import opened Basics
  import opened UploadModel
  import Ascii
  import UploadQueue

  class Upload {
    ghost const id: Id
    const user: string
    const path: string
    const caseProblem: bool
    var state: TrState
    var ticket: nat
    var socket: bool
    var position: nat
    var size: nat

    ghost function AsRow(): Row
      reads this
    {
      Row(user, path, caseProblem, state, ticket, socket, position, size)
    }

    constructor (ghost id: Id, user: string, path: string, caseProblem: bool, size: nat, ticket: nat)
      ensures this.id == id && AsRow() == Row(user, path, caseProblem, Offline, ticket, false, 0, size)
    {
      this.id, this.user, this.path, this.caseProblem := id, user, path, caseProblem;
      state, this.ticket, socket, position, this.size := Offline, ticket, false, 0, size;
    }
  }

  class UploadManager {
    var uploads: seq<Upload>
    var uploading: map<string, Upload>
    var initiating: map<string, Upload>
    var upSlots: nat
    var privileged: set<string>
    var autoClear: bool
    var connected: map<Peer, nat>
    var callback: Option<Peer>
    /** Every upload object made so far, and the number of the next one. */
    ghost var objects: map<Id, Upload>
    ghost var next: Id

    ghost function Objects(): set<Upload>
      reads this
    {
      objects.Values
    }

    ghost predicate Known(u: Upload)
      reads this
    {
      u.id in objects && objects[u.id] == u
    }

    ghost predicate Valid()
      reads this
    {
      && (forall id :: id in objects ==> objects[id].id == id && id < next)
      && (forall u :: u in uploads ==> Known(u))
      && (forall name :: name in uploading ==> Known(uploading[name]))
      && (forall name :: name in initiating ==> Known(initiating[name]))
    }

    /** The manager as a value. */
    ghost function View(): (m: Manager)
      requires Valid()
      reads this, Objects()
      ensures Listed(m) && m.rows.Keys == objects.Keys
    {
      IdsKnown();
      Manager(
        Ids(uploads),
        map id | id in objects :: objects[id].AsRow(),
        Numbers(uploading),
        Numbers(initiating),
        upSlots, privileged, autoClear, next,
        connected, callback)
    }

    static ghost function Numbers(users: map<string, Upload>): map<string, Id> {
      map name | name in users :: users[name].id
    }

    static ghost function Ids(us: seq<Upload>): seq<Id> {
      seq(|us|, i requires 0 <= i < |us| => us[i].id)
    }

    constructor (upSlots: nat, privileged: set<string>, autoClear: bool)
      ensures Valid() && View() == Empty(upSlots, privileged, autoClear) && fresh(Objects())
    {
      uploads, uploading, initiating := [], map[], map[];
      this.upSlots, this.privileged, this.autoClear := upSlots, privileged, autoClear;
      connected, callback := map[], None;
      objects, next := map[], 0;
    }

    // ----- what the value says about the objects

    lemma IdsKnown()
      requires Valid()
      ensures forall id :: id in Ids(uploads) ==> id in objects
    {
      forall id | id in Ids(uploads) ensures id in objects {
        var i :| 0 <= i < |uploads| && Ids(uploads)[i] == id;
        assert uploads[i] in uploads;
      }
    }

    /** Only u has changed since. */
    twostate lemma OneChanged(u: Upload)
      requires old(Valid()) && Known(u) && unchanged(this)
      requires forall o :: o in Objects() && o != u ==> unchanged(o)
      ensures Valid() && View() == old(View()).(rows := old(View()).rows[u.id := u.AsRow()])
    {
      forall id | id in objects && id != u.id ensures objects[id].AsRow() == old(objects[id].AsRow()) {
        assert objects[id] != u;
        assert objects[id] in Objects();
      }
      assert View().rows == old(View()).rows[u.id := u.AsRow()];
    }

    lemma KnownRow(u: Upload)
      requires Valid() && Known(u)
      ensures u.id in View().rows && View().rows[u.id] == u.AsRow()
      ensures View().uploading == Numbers(uploading) && View().initiating == Numbers(initiating)
    {
    }

    lemma KnownServed(user: string)
      requires Valid()
      ensures user in View().uploading <==> user in uploading
      ensures user in uploading ==> Known(uploading[user]) && View().uploading[user] == uploading[user].id
                                    && uploading[user].id in View().rows
                                    && View().rows[uploading[user].id] == uploading[user].AsRow()
    {
    }

    lemma KnownSettings()
      requires Valid()
      ensures View().autoClear == autoClear && View().slots == upSlots && View().priv == privileged
      ensures View().list == Ids(uploads) && View().next == next
      ensures View().connected == connected && View().callback == callback
    {
    }

    /** Only the lists of users being served have changed since. */
    twostate lemma OnlyMaps()
      requires old(Valid()) && Valid()
      requires unchanged(`uploads) && unchanged(`upSlots) && unchanged(`privileged) && unchanged(`autoClear)
      requires unchanged(`objects) && unchanged(`next) && unchanged(`connected) && unchanged(`callback)
      requires forall o :: o in Objects() ==> unchanged(o)
      ensures View() == old(View()).(uploading := Numbers(uploading), initiating := Numbers(initiating))
    {
      hide Numbers;
      forall id | id in objects ensures objects[id].AsRow() == old(objects[id].AsRow()) {
        assert objects[id] in Objects();
      }
      assert View().rows == old(View()).rows;
    }

    // ----- changes of one upload

    method AddUploading(u: Upload)
      requires Valid() && Known(u)
      modifies this`uploading
      ensures Valid() && Known(u) && Numbers(uploading) == old(Numbers(uploading))[u.user := u.id]
    {
      if u.user !in uploading || uploading[u.user] != u {
        uploading := uploading[u.user := u];
      }
      assert Numbers(uploading) == old(Numbers(uploading))[u.user := u.id];
    }

    method AddInitiating(u: Upload)
      requires Valid() && Known(u)
      modifies this`initiating
      ensures Valid() && Known(u) && Numbers(initiating) == old(Numbers(initiating))[u.user := u.id]
    {
      if u.user !in initiating || initiating[u.user] != u {
        initiating := initiating[u.user := u];
      }
      assert Numbers(initiating) == old(Numbers(initiating))[u.user := u.id];
    }

    method RemoveUploading(u: Upload)
      requires Valid() && Known(u)
      modifies this`uploading
      ensures Valid() && Known(u) && Numbers(uploading) == Without(old(Numbers(uploading)), u.user, u.id)
    {
      if u.user in uploading && uploading[u.user] == u {
        uploading := uploading - {u.user};
      }
      assert Numbers(uploading) == Without(old(Numbers(uploading)), u.user, u.id);
    }

    method RemoveInitiating(u: Upload)
      requires Valid() && Known(u)
      modifies this`initiating
      ensures Valid() && Known(u) && Numbers(initiating) == Without(old(Numbers(initiating)), u.user, u.id)
    {
      if u.user in initiating && initiating[u.user] == u {
        initiating := initiating - {u.user};
      }
      assert Numbers(initiating) == Without(old(Numbers(initiating)), u.user, u.id);
    }

    /** Adds or removes the upload's user to or from the lists of users being served. */
    method OnUploadUpdated(u: Upload)
      requires Valid() && Known(u)
      modifies this`uploading, this`initiating
      ensures Valid() && View() == Follow(old(View()), u.id)
    {
      hide Numbers, Known, Valid, View;
      KnownRow(u);
      if u.state == Transferring {
        AddUploading(u);
      } else if u.state == Negotiating || u.state == Waiting || u.state == Establishing || u.state == Initiating || u.state == Connecting {
        AddUploading(u);
        AddInitiating(u);
      } else {
        RemoveUploading(u);
        RemoveInitiating(u);
      }
      OnlyMaps();
    }

    /** Stores a state and announces it. */
    method Announce(u: Upload, s: TrState)
      requires Valid() && Known(u)
      modifies this`uploading, this`initiating, u
      ensures Valid() && View() == Mark(old(View()), u.id, s)
    {
      u.state := s;
      OneChanged(u);
      OnUploadUpdated(u);
    }

    method SetPosition(u: Upload, position: nat)
      requires Valid() && Known(u)
      modifies this`uploading, this`initiating, u
      ensures Valid() && View() == Follow(WithPosition(old(View()), u.id, position), u.id)
    {
      u.position := position;
      OneChanged(u);
      OnUploadUpdated(u);
    }

    // ----- starting uploads

    predicate FreeSlots()
      reads this
    {
      |uploading| < upSlots || upSlots == 0
    }

    lemma FreeSlotsView()
      requires Valid()
      ensures FreeSlots() == HasFreeSlots(View())
    {
      assert View().uploading.Keys == uploading.Keys;
    }

    /** Starts uploads while a slot is free and one may start. */
    method Check()
      requires Valid()
      modifies this`uploading, this`initiating, Objects()
      ensures Valid() && View() == CheckUploads(old(View()))
      decreases |Queued(View())|
    {
      hide Valid, View, Mark, Pick;
      FreeSlotsView();
      if !FreeSlots() {
        return;
      }
      var candidate := Choose();
      if candidate.Some? {
        PickStarts(View(), candidate.value.id);
        Announce(candidate.value, Initiating);
        Check();
      }
    }

    /** The first privileged upload that may start, else the first that may. */
    method Choose() returns (candidate: Option<Upload>)
      requires Valid()
      ensures match candidate
              case None => Pick(View()) == None
              case Some(u) => Known(u) && Pick(View()) == Some(u.id)
    {
      ghost var v := View();
      candidate := None;
      var i := 0;
      while i < |uploads|
        invariant 0 <= i <= |uploads|
        invariant FirstFrom(v, 0, true) == FirstFrom(v, i, true)
        invariant match candidate
                  case None => FirstFrom(v, 0, false) == FirstFrom(v, i, false)
                  case Some(u) => Known(u) && FirstFrom(v, 0, false) == Some(u.id)
      {
        var u := uploads[i];
        assert Known(u) && v.list[i] == u.id && v.rows[u.id] == u.AsRow();
        if u.state == QueuedLocally && u.user !in uploading {
          if u.user in privileged {
            candidate := Some(u);
            break;
          }
          if candidate.None? {
            candidate := Some(u);
          }
        }
        i := i + 1;
      }
    }

    // ----- entering a state

    method Find(user: string, path: string) returns (found: Option<Upload>)
      requires Valid()
      ensures match found
              case None => UploadModel.Find(View(), user, path, 0) == None
              case Some(u) => Known(u) && UploadModel.Find(View(), user, path, 0) == Some(u.id)
    {
      ghost var v := View();
      var i := 0;
      while i < |uploads|
        invariant 0 <= i <= |uploads|
        invariant UploadModel.Find(v, user, path, 0) == UploadModel.Find(v, user, path, i)
      {
        assert Known(uploads[i]) && v.list[i] == uploads[i].id && v.rows[uploads[i].id] == uploads[i].AsRow();
        if uploads[i].user == user && uploads[i].path == path {
          return Some(uploads[i]);
        }
        i := i + 1;
      }
      found := None;
    }

    method FindByTicket(user: string, ticket: nat) returns (found: Option<Upload>)
      requires Valid()
      ensures match found
              case None => FindTicket(View(), user, ticket, 0) == None
              case Some(u) => Known(u) && FindTicket(View(), user, ticket, 0) == Some(u.id)
    {
      ghost var v := View();
      var i := 0;
      while i < |uploads|
        invariant 0 <= i <= |uploads|
        invariant FindTicket(v, user, ticket, 0) == FindTicket(v, user, ticket, i)
      {
        assert Known(uploads[i]) && v.list[i] == uploads[i].id && v.rows[uploads[i].id] == uploads[i].AsRow();
        if uploads[i].user == user && uploads[i].ticket == ticket {
          return Some(uploads[i]);
        }
        i := i + 1;
      }
      found := None;
    }

    static function Erased(us: seq<Upload>, u: Upload): (r: seq<Upload>)
      ensures forall x :: x in r ==> x in us
    {
      if us == [] then [] else if us[0] == u then us[1..] else [us[0]] + Erased(us[1..], u)
    }

    lemma {:induction false} ErasedIds(us: seq<Upload>, u: Upload)
      requires Valid() && Known(u) && forall x :: x in us ==> Known(x)
      ensures Ids(Erased(us, u)) == RemoveFirst(Ids(us), u.id)
      decreases |us|
    {
      if us != [] {
        assert Known(us[0]);
        assert Ids(us)[1..] == Ids(us[1..]);
        ErasedIds(us[1..], u);
      }
    }

    /** Takes an upload off the list. */
    method Erase(u: Upload)
      requires Valid() && Known(u)
      modifies this`uploads
      ensures Valid() && View() == old(View()).(list := RemoveFirst(old(View()).list, u.id))
    {
      ErasedIds(uploads, u);
      uploads := Erased(uploads, u);
      assert View().rows == old(View()).rows;
    }

    /** Takes an upload that is Finished and holds no socket off the list. */
    method ClearFinished(user: string, path: string)
      requires Valid()
      modifies this`uploads
      ensures Valid() && View() == Clear(old(View()), user, path)
    {
      hide Valid, View, UploadModel.Find, Clear, RemoveFirst;
      ClearForm(View(), user, path);
      assert Objects() == old(Objects());
      var found := Find(user, path);
      if found.Some? {
        Erase(found.value);
      }
    }

    static lemma ClearForm(m: Manager, user: string, path: string)
      requires Listed(m)
      ensures Clear(m, user, path)
              == match UploadModel.Find(m, user, path, 0)
                 case None => m
                 case Some(id) => m.(list := RemoveFirst(m.list, id))
    {
      hide UploadModel.Find, RemoveFirst;
    }

    method DropSocket(u: Upload)
      requires Valid() && Known(u)
      modifies u
      ensures Valid() && Known(u) && View() == WithSocket(old(View()), u.id, false)
    {
      u.socket := false;
      OneChanged(u);
    }

    /** Stores a new state, looks for uploads to start, and clears the upload if it has finished. */
    method EnterState(u: Upload, s: TrState)
      requires Valid() && Known(u)
      modifies this`uploads, this`uploading, this`initiating, Objects()
      ensures Valid() && Known(u) && View() == Enter(old(View()), u.id, s)
    {
      hide Valid, View, Mark, Follow, CheckUploads, Clear;
      KnownRow(u);
      if s == Finished {
        SetPosition(u, u.size);
      }
      Announce(u, s);
      if !Active(s) {
        Check();
      }
      KnownRow(u);
      KnownSettings();
      if s == Finished && autoClear {
        ClearFinished(u.user, u.path);
      }
    }

    /** Enters a state, with everything that follows from it. */
    method SetState(u: Upload, s: TrState)
      requires Valid() && Known(u)
      modifies this`uploads, this`uploading, this`initiating, Objects()
      ensures Valid() && Known(u) && View() == UploadModel.SetState(old(View()), u.id, s)
      decreases if Closes(s) then 0 else 2
    {
      hide Valid, View, Enter;
      KnownRow(u);
      if u.state == s {
        return;
      }
      if Disconnects(s) && u.socket {
        OnDisconnected(u);
        DropSocket(u);
      } else if Closes(s) {
        DropSocket(u);
      }
      EnterState(u, s);
    }

    /** The connection of the upload's socket is gone. */
    method OnDisconnected(u: Upload)
      requires Valid() && Known(u)
      modifies this`uploads, this`uploading, this`initiating, Objects()
      ensures Valid() && Known(u) && View() == UploadModel.OnDisconnected(old(View()), u.id)
      decreases 1
    {
      hide Valid, View;
      KnownRow(u);
      if u.state == RemoteError || u.state == LocalError {
        return;
      }
      SetState(u, if u.position >= u.size then Finished else ConnectionClosed);
    }

    /** Stops the socket the upload holds, if any, and lets it hold none, or a new one. */
    method SetSocket(u: Upload, socket: bool)
      requires Valid() && Known(u)
      modifies this`uploads, this`uploading, this`initiating, Objects()
      ensures Valid() && Known(u) && View() == UploadModel.SetSocket(old(View()), u.id, socket)
    {
      hide Valid, View;
      KnownRow(u);
      if u.socket {
        OnDisconnected(u);
      }
      Hold(u, socket);
    }

    method Hold(u: Upload, socket: bool)
      requires Valid() && Known(u)
      modifies u
      ensures Valid() && Known(u) && View() == WithSocket(old(View()), u.id, socket)
    {
      u.socket := socket;
      OneChanged(u);
    }

    /** Gives up on an upload. */
    method Fail(u: Upload, s: TrState)
      requires Valid() && Known(u)
      modifies this`uploads, this`uploading, this`initiating, Objects()
      ensures Valid() && Known(u) && View() == UploadModel.Fail(old(View()), u.id, s)
    {
      SetSocket(u, false);
      SetState(u, s);
    }

    // ----- requests from the user and from peers

    method Create(user: string, path: string, caseProblem: bool, size: nat, ticket: nat) returns (u: Upload)
      requires Valid()
      modifies this`uploads, this`objects, this`next
      ensures Valid() && fresh(u) && u.id == old(next) && Known(u) && Objects() == old(Objects()) + {u}
      ensures View() == UploadModel.Create(old(View()), user, path, caseProblem, size, ticket)
    {
      u := new Upload(next, user, path, caseProblem, size, ticket);
      uploads := uploads + [u];
      objects := objects[next := u];
      next := next + 1;
      Created(u);
    }

    /** Only the new upload has been added since. */
    twostate lemma Created(new u: Upload)
      requires old(Valid()) && u.id == old(next) && u.AsRow() == Row(u.user, u.path, u.caseProblem, Offline, u.ticket, false, 0, u.size)
      requires unchanged(`uploading) && unchanged(`initiating) && unchanged(`upSlots) && unchanged(`privileged) && unchanged(`autoClear)
      requires unchanged(`connected) && unchanged(`callback)
      requires uploads == old(uploads) + [u] && objects == old(objects)[u.id := u] && next == old(next) + 1
      requires forall o :: o in old(Objects()) ==> unchanged(o)
      ensures Valid() && Known(u) && Objects() == old(Objects()) + {u}
      ensures View() == UploadModel.Create(old(View()), u.user, u.path, u.caseProblem, u.size, u.ticket)
    {
      CreatedObjects(u);
      hide Valid, Numbers, Known;
      assert Ids(uploads) == old(Ids(uploads)) + [u.id];
      forall id | id in old(objects) ensures old(objects)[id].AsRow() == old(objects[id].AsRow()) {
        assert old(objects)[id] in old(Objects());
      }
      assert View().rows == old(View()).rows[u.id := u.AsRow()];
    }

    twostate lemma CreatedObjects(new u: Upload)
      requires old(Valid()) && u.id == old(next)
      requires unchanged(`uploading) && unchanged(`initiating)
      requires uploads == old(uploads) + [u] && objects == old(objects)[u.id := u] && next == old(next) + 1
      ensures Valid() && Known(u) && Objects() == old(Objects()) + {u} && u.id !in old(objects)
    {
      assert u.id !in old(objects);
      forall o | o in old(Objects()) ensures o in Objects() {
        var id :| id in old(objects) && old(objects)[id] == o;
        assert objects[id] == o;
      }
      assert u in Objects() by { assert objects[u.id] == u; }
    }

    /** Registers an upload, or queues a registered one again. */
    method Add(user: string, path: string, caseProblem: bool, force: bool, size: nat, ticket: nat)
      requires Valid()
      modifies this`uploads, this`uploading, this`initiating, this`objects, this`next, Objects()
      ensures Valid() && View() == UploadModel.Add(old(View()), user, path, caseProblem, force, size, ticket)
      ensures fresh(Objects() - old(Objects()))
    {
      hide Valid, View, UploadModel.SetState, UploadModel.Create, UploadModel.Find;
      var found := Find(user, path);
      match found
      case None =>
        KnownSettings();
        var u := Create(user, path, caseProblem, size, ticket);
        SetState(u, QueuedLocally);
      case Some(u) =>
        KnownRow(u);
        if force || (u.state != Aborted && u.state != LocalError) {
          SetState(u, QueuedLocally);
        }
    }

    method AbortUpload(u: Upload)
      requires Valid() && Known(u)
      modifies this`uploads, this`uploading, this`initiating, Objects()
      ensures Valid() && Known(u) && View() == AbortId(old(View()), u.id)
    {
      hide Valid, View, UploadModel.SetState, UploadModel.SetSocket;
      SetSocket(u, false);
      KnownRow(u);
      if u.state != Finished {
        SetState(u, Aborted);
      }
    }

    method Abort(user: string, path: string)
      requires Valid()
      modifies this`uploads, this`uploading, this`initiating, Objects()
      ensures Valid() && View() == UploadModel.Abort(old(View()), user, path)
    {
      hide Valid, View, AbortId, UploadModel.Find;
      var found := Find(user, path);
      if found.Some? {
        AbortUpload(found.value);
      }
    }

    /** Aborts an upload and takes it off the list. */
    method Remove(user: string, path: string)
      requires Valid()
      modifies this`uploads, this`uploading, this`initiating, Objects()
      ensures Valid() && View() == UploadModel.Remove(old(View()), user, path)
    {
      hide Valid, View, AbortId, RemoveFirst;
      var found := Find(user, path);
      if found.Some? {
        AbortUpload(found.value);
        Erase(found.value);
      }
    }

    method SetSize(u: Upload, size: nat)
      requires Valid() && Known(u)
      modifies u
      ensures Valid() && Known(u) && View() == WithSize(old(View()), u.id, size)
    {
      u.size := size;
      OneChanged(u);
    }

    method SetTicket(u: Upload, ticket: nat)
      requires Valid() && Known(u)
      modifies u
      ensures Valid() && Known(u) && View() == WithTicket(old(View()), u.id, ticket)
    {
      u.ticket := ticket;
      OneChanged(u);
    }

    method Advance(u: Upload, position: nat)
      requires Valid() && Known(u)
      modifies u
      ensures Valid() && Known(u) && View() == WithPosition(old(View()), u.id, position)
    {
      u.position := position;
      OneChanged(u);
    }

    // ----- the reply handler's connections

    /** Only the reply handler's connections have changed since. */
    twostate lemma OnlyConnections()
      requires old(Valid()) && unchanged(`uploads) && unchanged(`uploading) && unchanged(`initiating) && unchanged(`upSlots)
      requires unchanged(`privileged) && unchanged(`autoClear) && unchanged(`objects) && unchanged(`next)
      requires forall o :: o in Objects() ==> unchanged(o)
      ensures Valid() && View() == old(View()).(connected := connected, callback := callback)
    {
      hide Numbers;
      forall id | id in objects ensures objects[id].AsRow() == old(objects[id].AsRow()) {
        assert objects[id] in Objects();
      }
      assert View().rows == old(View()).rows;
    }

    /** Connects the reply handler to a peer's socket. */
    method ConnectReply(peer: Peer)
      requires Valid()
      modifies this`connected, this`callback
      ensures Valid() && View() == Connect(old(View()), peer) && objects == old(objects)
    {
      connected := connected[peer := (if peer in connected then connected[peer] else 0) + 1];
      callback := Some(peer);
      OnlyConnections();
    }

    /** Disconnects the remembered callback from this socket, if it is connected to it. */
    method DisconnectReply(peer: Peer)
      requires Valid()
      modifies this`connected, this`callback
      ensures Valid() && View() == Disconnect(old(View()), peer) && objects == old(objects)
    {
      if callback.Some? {
        if callback.value == peer && peer in connected && connected[peer] > 0 {
          connected := connected[peer := connected[peer] - 1];
        }
        callback := None;
      }
      OnlyConnections();
    }

    /** A peer's socket is destroyed. */
    method OnPeerGone(peer: Peer)
      requires Valid()
      modifies this`connected, this`callback
      ensures Valid() && View() == PeerGone(old(View()), peer)
    {
      connected := connected - {peer};
      if callback == Some(peer) {
        callback := None;
      }
      OnlyConnections();
    }

    /** Opens the file and announces the upload to its peer. */
    method Initiate(u: Upload, peer: Peer, file: Option<nat>, token: nat)
      requires Valid() && Known(u)
      modifies this`uploads, this`uploading, this`initiating, this`connected, this`callback, Objects()
      ensures Valid() && View() == UploadModel.Initiate(old(View()), u.id, peer, file, token)
    {
      hide Valid, View, UploadModel.SetState, UploadModel.Fail;
      KnownRow(u);
      if u.state != Initiating {
        return;
      }
      if file.None? {
        Fail(u, LocalError);
      } else {
        SetSize(u, file.value);
        SetState(u, Waiting);
        SetTicket(u, token);
        ConnectReply(peer);
      }
    }

    // ----- peers and the server

    /** What is left to do of a pass over uploads that sets those that leaving holds for to a state. */
    ghost function Rest(us: seq<Upload>, leaving: (Manager, Id) -> bool, s: TrState): Manager
      requires Valid() && forall u :: u in us ==> Known(u)
      reads this, Objects()
    {
      IdsOf(us);
      SetEach(View(), Ids(us), leaving, s)
    }

    lemma IdsOf(us: seq<Upload>)
      requires forall u :: u in us ==> Known(u)
      ensures forall id :: id in Ids(us) ==> id in objects
    {
      forall id | id in Ids(us) ensures id in objects {
        var i :| 0 <= i < |us| && Ids(us)[i] == id;
        assert us[i] in us;
      }
    }

    lemma RestStart(leaving: (Manager, Id) -> bool, s: TrState)
      requires Valid()
      ensures forall u :: u in uploads ==> Known(u)
      ensures Rest(uploads, leaving, s) == SetEach(View(), View().list, leaving, s)
      ensures Rest([], leaving, s) == View()
    {
    }

    lemma RestStep(us: seq<Upload>, leaving: (Manager, Id) -> bool, s: TrState)
      requires Valid() && us != [] && forall u :: u in us ==> Known(u)
      ensures us[0].id in objects
      ensures forall id :: id in Ids(us[1..]) ==> id in objects
      ensures Rest(us, leaving, s)
              == SetEach(if leaving(View(), us[0].id) then UploadModel.SetState(View(), us[0].id, s) else View(), Ids(us[1..]), leaving, s)
    {
      IdsOf(us);
      IdsOf(us[1..]);
      assert Known(us[0]);
      assert Ids(us)[0] == us[0].id;
      assert Ids(us)[1..] == Ids(us[1..]);
    }

    /** Offline uploads of the peer are queued again; the one being initiated, if any, is announced. */
    method OnPeerSocketReady(user: string, peer: Peer, file: Option<nat>, token: nat)
      requires Valid()
      modifies this`uploads, this`uploading, this`initiating, this`connected, this`callback, Objects()
      ensures Valid() && View() == PeerReady(old(View()), user, peer, file, token)
    {
      hide Valid, View, UploadModel.Initiate, SetEach, CheckUploads;
      QueueOffline(user);
      KnownServed(user);
      if user !in uploading || uploading[user].state != Initiating {
        return;
      }
      var u := uploading[user];
      Initiate(u, peer, file, token);
      Check();
    }

    method QueueOffline(user: string)
      requires Valid()
      modifies this`uploads, this`uploading, this`initiating, Objects()
      ensures Valid()
      ensures View() == SetEach(old(View()), old(View()).list, (x: Manager, id: Id) => WasOffline(x, id, user), QueuedLocally)
    {
      hide Valid, View, UploadModel.SetState, SetEach;
      var us := uploads;
      ghost var leaving := (x: Manager, id: Id) => WasOffline(x, id, user);
      RestStart(leaving, QueuedLocally);
      ghost var all := Rest(us, leaving, QueuedLocally);
      assert us[0..] == us;
      var i := 0;
      while i < |us|
        invariant 0 <= i <= |us|
        invariant Valid() && forall u :: u in us ==> Known(u)
        invariant all == Rest(us[i..], leaving, QueuedLocally)
      {
        RestStep(us[i..], leaving, QueuedLocally);
        KnownRow(us[i]);
        if us[i].user == user && us[i].state == Offline {
          SetState(us[i], QueuedLocally);
        }
        i := i + 1;
      }
      RestStart(leaving, QueuedLocally);
    }

    /** The connection to the peer of the upload being served cannot be made. */
    method OnPeerSocketUnavailable(user: string)
      requires Valid()
      modifies this`uploads, this`uploading, this`initiating, Objects()
      ensures Valid() && View() == Unavailable(old(View()), user)
    {
      hide Valid, View, UploadModel.Fail;
      KnownServed(user);
      if user in uploading {
        Fail(uploading[user], CannotConnect);
      }
    }

    method OnPeerOffline(user: string)
      requires Valid()
      modifies this`uploads, this`uploading, this`initiating, Objects()
      ensures Valid() && View() == PeerOffline(old(View()), user)
    {
      hide Valid, View, UploadModel.SetState, SetEach, NeedsPeer;
      var us := uploads;
      ghost var leaving := (x: Manager, id: Id) => GoesOffline(x, id, user);
      RestStart(leaving, Offline);
      ghost var all := Rest(us, leaving, Offline);
      assert us[0..] == us;
      var i := 0;
      while i < |us|
        invariant 0 <= i <= |us|
        invariant Valid() && forall u :: u in us ==> Known(u)
        invariant all == Rest(us[i..], leaving, Offline)
      {
        RestStep(us[i..], leaving, Offline);
        KnownRow(us[i]);
        if us[i].user == user && NeedsPeer(us[i].state) {
          SetState(us[i], Offline);
        }
        i := i + 1;
      }
      RestStart(leaving, Offline);
    }

    method OnServerLoggedInStateChanged(loggedIn: bool)
      requires Valid()
      modifies this`uploads, this`uploading, this`initiating, Objects()
      ensures Valid() && View() == LoggedIn(old(View()), loggedIn)
    {
      if loggedIn {
        Check();
      } else {
        LoseServer();
      }
    }

    /** Every upload that is not being served goes offline. */
    method LoseServer()
      requires Valid()
      modifies this`uploads, this`uploading, this`initiating, Objects()
      ensures Valid() && View() == SetEach(old(View()), old(View()).list, (x: Manager, id: Id) => LosesServer(x, id), Offline)
    {
      hide Valid, View, UploadModel.SetState, SetEach;
      var us := uploads;
      ghost var leaving := (x: Manager, id: Id) => LosesServer(x, id);
      RestStart(leaving, Offline);
      ghost var all := Rest(us, leaving, Offline);
      assert us[0..] == us;
      var i := 0;
      while i < |us|
        invariant 0 <= i <= |us|
        invariant Valid() && forall u :: u in us ==> Known(u)
        invariant all == Rest(us[i..], leaving, Offline)
      {
        RestStep(us[i..], leaving, Offline);
        KnownRow(us[i]);
        KnownServed(us[i].user);
        if !(us[i].user in uploading && uploading[us[i].user] == us[i]) && us[i].state != Finished
           && us[i].state != Aborted && us[i].state != Offline {
          SetState(us[i], Offline);
        }
        i := i + 1;
      }
      RestStart(leaving, Offline);
    }

    /** A new socket is made for the upload. */
    method Establish(u: Upload)
      requires Valid() && Known(u)
      modifies this`uploads, this`uploading, this`initiating, Objects()
      ensures Valid() && Known(u) && View() == UploadModel.Establish(old(View()), u.id)
    {
      SetState(u, Establishing);
      SetSocket(u, true);
    }

    /** The peer answers the announcement of an upload. */
    method OnPeerTransferReplyReceived(peer: Peer, user: string, ticket: nat, allowed: bool)
      requires Valid()
      modifies this`uploads, this`uploading, this`initiating, this`connected, this`callback, Objects()
      ensures Valid() && View() == Reply(old(View()), peer, user, ticket, allowed) && objects == old(objects)
    {
      hide Valid, View, FindTicket, UploadModel.SetState, UploadModel.Establish, UploadModel.Fail;
      var found := FindByTicket(user, ticket);
      if found.None? {
        return;
      }
      var u := found.value;
      KnownRow(u);
      if u.state != Waiting {
        return;
      }
      DisconnectReply(peer);
      if allowed {
        Establish(u);
        SetState(u, Waiting);
      } else {
        Fail(u, RemoteError);
      }
    }

    /** A reply comes in: the handler is called once for each connection there is by now. */
    method EmitTransferReply(peer: Peer, user: string, ticket: nat, allowed: bool)
      requires Valid()
      modifies this`uploads, this`uploading, this`initiating, this`connected, this`callback, Objects()
      ensures Valid() && View() == Run(old(View()), Message(old(View()), peer, user, ticket, allowed))
    {
      hide Valid, View, Reply;
      KnownSettings();
      var k := if peer in connected then connected[peer] else 0;
      ghost var e := EvReply(peer, user, ticket, allowed);
      ghost var all := Run(View(), Calls(e, k));
      while k > 0
        invariant Valid() && objects == old(objects)
        invariant all == Run(View(), Calls(e, k))
      {
        CallsStep(View(), e, k);
        OnPeerTransferReplyReceived(peer, user, ticket, allowed);
        k := k - 1;
      }
    }

    /** A peer asks for a file itself. */
    method OnTransferRequested(user: string, path: string, size: nat, token: nat, file: Option<nat>, ticket: nat)
      requires Valid()
      modifies this`uploads, this`uploading, this`initiating, this`objects, this`next, Objects()
      ensures Valid() && View() == Requested(old(View()), user, path, size, token, file, ticket)
    {
      hide Valid, View, UploadModel.Find, UploadModel.Add, UploadModel.GiveSlot;
      Add(user, path, false, false, size, token);
      var found := Find(user, path);
      FreeSlotsView();
      KnownServed(user);
      if found.Some? && FreeSlots() && user !in uploading && file.Some? {
        GiveSlot(found.value, file.value, ticket);
      }
    }

    /** The upload gets a socket that waits for its peer to connect. */
    method GiveSlot(u: Upload, size: nat, ticket: nat)
      requires Valid() && Known(u)
      modifies this`uploads, this`uploading, this`initiating, Objects()
      ensures Valid() && View() == UploadModel.GiveSlot(old(View()), u.id, size, ticket)
    {
      hide Valid, View, UploadModel.SetState, UploadModel.Establish;
      SetSize(u, size);
      Establish(u);
      SetState(u, Establishing);
      SetTicket(u, ticket);
      SetState(u, Waiting);
    }

    // ----- events of the socket an upload holds

    /** The upload's socket has lost its connection. */
    method OnSocketClosed(u: Upload)
      requires Valid() && Known(u) && u in uploads && u.socket
      modifies this`uploads, this`uploading, this`initiating, Objects()
      ensures Valid() && View() == SocketClosed(old(View()), u.id)
    {
      KnownListed(u);
      SetSocket(u, false);
    }

    lemma KnownListed(u: Upload)
      requires Valid() && u in uploads
      ensures u.id in View().list && View().rows[u.id] == u.AsRow()
    {
      var i :| 0 <= i < |uploads| && uploads[i] == u;
      assert View().list[i] == u.id;
    }

    /** The upload's socket cannot be connected. */
    method OnCannotConnect(u: Upload)
      requires Valid() && Known(u) && u in uploads && u.socket
      modifies this`uploads, this`uploading, this`initiating, Objects()
      ensures Valid() && View() == SocketCannotConnect(old(View()), u.id)
    {
      hide Valid, View, UploadModel.SetState, UploadModel.OnDisconnected;
      KnownListed(u);
      if u.state == RemoteError || u.state == LocalError {
        return;
      }
      SetState(u, CannotConnect);
      OnDisconnected(u);
    }

    /** The peer has sent the position to start from. */
    method FindPosition(u: Upload, pos: nat, readOk: bool)
      requires Valid() && Known(u) && u in uploads && u.socket
      modifies this`uploads, this`uploading, this`initiating, Objects()
      ensures Valid() && View() == StartAt(old(View()), u.id, pos, readOk)
    {
      hide Valid, View, UploadModel.SetState, UploadModel.Fail;
      KnownListed(u);
      if u.state != Waiting {
        return;
      }
      if pos > u.size {
        Fail(u, LocalError);
        return;
      }
      SetState(u, Transferring);
      Advance(u, pos);
      if !readOk {
        Fail(u, LocalError);
      }
    }

    /** Bytes have gone out to the peer. */
    method OnDataSent(u: Upload, count: nat, readOk: bool)
      requires Valid() && Known(u) && u in uploads && u.socket
      modifies this`uploads, this`uploading, this`initiating, Objects()
      ensures Valid() && View() == Sent(old(View()), u.id, count, readOk)
    {
      hide Valid, View, UploadModel.Fail;
      KnownListed(u);
      if u.state != Transferring {
        return;
      }
      Advance(u, u.position + count);
      if !readOk {
        Fail(u, LocalError);
      }
    }

    /** No reply came to the announcement of an upload. */
    method OnReplyTimeout(u: Upload)
      requires Valid() && Known(u) && u in uploads
      modifies this`uploads, this`uploading, this`initiating, Objects()
      ensures Valid() && View() == ReplyTimeout(old(View()), u.id)
    {
      hide Valid, View, UploadModel.Fail;
      KnownListed(u);
      Fail(u, CannotConnect);
    }

    lemma KnownAt(i: nat)
      requires Valid() && i < |uploads|
      ensures |View().list| == |uploads| && View().list[i] == uploads[i].id && uploads[i].id in View().rows
      ensures View().rows[uploads[i].id] == uploads[i].AsRow()
    {
      assert uploads[i] in uploads;
    }

    /** The number of slots has been set. */
    method OnSlotsSet(slots: nat)
      requires Valid()
      modifies this`upSlots, this`uploading, this`initiating, Objects()
      ensures Valid() && View() == CheckUploads(old(View()).(slots := slots))
    {
      ghost var before := View();
      upSlots := slots;
      assert View().rows == before.rows;
      Check();
    }

    /** The place in the queue of the upload with this path. */
    method QueueLength(user: string, stopAt: string) returns (count: nat)
      requires Valid()
      ensures count == UploadQueue.QueueLength(View(), user, stopAt)
    {
      hide UploadQueue.Counted, UploadQueue.FirstMatch, Valid, View;
      ghost var v := View();
      KnownSettings();
      var priv := user in privileged;
      count := 0;
      var found := false;
      var i := 0;
      while i < |uploads|
        invariant 0 <= i <= |uploads| && v == View()
        invariant UploadQueue.Counted(v, priv, stopAt, 0, false) == count + UploadQueue.Counted(v, priv, stopAt, i, found)
        invariant found <==> UploadQueue.FirstMatch(v, stopAt, 0) < i
        invariant !found ==> UploadQueue.FirstMatch(v, stopAt, 0) == UploadQueue.FirstMatch(v, stopAt, i)
      {
        var u := uploads[i];
        KnownAt(i);
        UploadQueue.PassStep(v, priv, stopAt, i, found);
        if u.state == QueuedLocally && (!priv || u.user in privileged) && !found {
          count := count + 1;
        }
        if found && u.state == QueuedLocally && !priv && u.user in privileged {
          count := count + 1;
        }
        if u.path == stopAt || (u.caseProblem && Ascii.Lower(u.path) == stopAt) {
          found := true;
        }
        i := i + 1;
      }
      UploadQueue.PassEnd(v, priv, stopAt, found);
      if !found {
        count := 0;
      }
    }
  }
}
