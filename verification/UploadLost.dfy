/** A run after which a request for an upload is lost. */
module UploadLost {
  import opened Basics
  import opened UploadModel
  import opened UploadProofs
  import opened UploadHandlers
  import opened UploadEffects
  import opened UploadOutcomes
  import opened UploadStates
  import UploadReply
  import UploadRuns

  /** An upload is announced, allowed and sent to its end while finished uploads are cleared; before its socket closes it is
      asked for again. */
  function SentAndAskedAgain(user: string, path: string, peer: Peer, size: nat, token: nat): seq<Event> {
    [EvAdd(user, path, false, false, size, 0), EvPeerReady(user, peer, Some(size), token), EvAutoClear(true),
     EvReply(peer, user, token, true), EvStartAt(0, 0, true), EvSent(0, size, true), EvAdd(user, path, false, false, size, 0)]
  }

  /** One upload under one slot, on its socket, somewhere in its file. */
  predicate Running(m: Manager, user: string, path: string, s: TrState, size: nat) {
    && Good(m) && m.list == [0] && 0 in m.rows && m.autoClear
    && m.rows[0].user == user && m.rows[0].path == path && m.rows[0].state == s && m.rows[0].socket
    && m.rows[0].size == size
  }

  lemma AllowedRuns(m: Manager, user: string, path: string, peer: Peer, size: nat, token: nat)
    requires m == One(user, path, Waiting, token, size, peer, 1).(autoClear := true) && Good(m)
    ensures Running(Reply(m, peer, user, token, true), user, path, Waiting, size)
  {
    hide Good, SetState, Establish, FindTicket;
    var d := Disconnect(m, peer);
    assert m.list[0] == 0;
    assert FindTicket(m, user, token, 0) == Some(0) by { OneTicket(m, user, token); }
    ConnectionsKeep(m, d);
    UploadReply.HarmlessKeeps(d, 0);
    UploadReply.HarmlessOnlySocket(d, 0);
    assert Reply(m, peer, user, token, true) == UploadReply.Allowed(d, 0);
  }

  lemma OneTicket(m: Manager, user: string, token: nat)
    requires m.list == [0] && 0 in m.rows && m.rows[0].user == user && m.rows[0].ticket == token
    ensures Listed(m) && FindTicket(m, user, token, 0) == Some(0)
  {
  }

  lemma OnePath(m: Manager, user: string, path: string)
    requires m.list == [0] && 0 in m.rows && m.rows[0].user == user && m.rows[0].path == path
    ensures Listed(m) && Find(m, user, path, 0) == Some(0)
  {
  }

  lemma StartedRuns(m: Manager, user: string, path: string, size: nat)
    requires Running(m, user, path, Waiting, size)
    ensures Listed(m)
    ensures var n := StartAt(m, 0, 0, true); Running(n, user, path, Transferring, size) && n.rows[0].position == 0
  {
    hide Inv, Settled, SetState, Mark, Extends, Bounded;
    UploadReply.InvListed(m);
    StartEnds(m, 0, 0, true);
    StartAtKeeps(m, 0, 0, true);
    SetStateActive(m, 0, Transferring);
    MarkClear(m, 0);
  }

  lemma MarkClear(m: Manager, id: Id)
    requires id in m.rows
    ensures Mark(m, id, Transferring).autoClear == m.autoClear && Mark(m, id, Transferring).list == m.list
  {
    hide Follow;
  }

  lemma SentRuns(m: Manager, user: string, path: string, size: nat)
    requires Running(m, user, path, Transferring, size) && m.rows[0].position == 0
    ensures Listed(m)
    ensures var n := Sent(m, 0, size, true); Running(n, user, path, Transferring, size) && n.rows[0].position == size
  {
    hide Inv, Settled, Extends, Bounded;
    UploadReply.InvListed(m);
    SentEnds(m, 0, size, true);
    SentKeeps(m, 0, size, true);
  }

  /** The request leaves the upload queued but off the list, where no search looks. */
  lemma AgainIsLost(m: Manager, user: string, path: string, size: nat)
    requires Running(m, user, path, Transferring, size) && m.rows[0].position == size
    ensures Listed(m)
    ensures var n := Add(m, user, path, false, false, size, 0);
            && 0 !in n.list && 0 in n.rows && n.rows[0].state == QueuedLocally
            && n.rows[0].user == user && n.rows[0].path == path
  {
    hide Inv, Settled, SetState, Find, Bounded;
    QueuedNames(m, 0);
    UploadReply.InvListed(m);
    OnePath(m, user, path);
    AddedAgain(m, user, path, false, false, size, 0);
    AddKeeps(m, user, path, false, false, size, 0);
    ActiveListed(Add(m, user, path, false, false, size, 0), 0);
  }

  lemma QueuedNames(m: Manager, id: Id)
    requires Good(m) && id in m.list
    ensures Listed(m) && id in m.rows
    ensures var n := SetState(m, id, QueuedLocally); n.rows[id].user == m.rows[id].user && n.rows[id].path == m.rows[id].path
  {
    hide Inv, Settled, SetState, Bounded, NoTwin;
    UploadReply.InvListed(m);
    ListedUnique(m, id);
    SetInactive(m, id, QueuedLocally);
  }

  lemma ActiveListed(n: Manager, id: Id)
    requires Inv(n) && id in n.rows && id !in n.list
    ensures !Active(n.rows[id].state)
  {
    hide Distinct, UniquePaths, SocketsHeld, InitiatingWithin;
  }

  lemma RunOn(m: Manager, events: seq<Event>)
    requires Listed(m) && events != []
    ensures Run(m, events) == Run(Step(m, events[0]), events[1..])
  {
    hide Step;
  }

  /** The upload is announced, and finished uploads are to be cleared. */
  lemma WaitsToClear(user: string, path: string, peer: Peer, size: nat, token: nat, events: seq<Event>)
    requires events == SentAndAskedAgain(user, path, peer, size, token)
    ensures var m := One(user, path, Waiting, token, size, peer, 1).(autoClear := true);
            Good(m) && Run(Empty(1, {}, false), events) == Run(m, events[3..])
  {
    hide Add, PeerReady, Run, UploadRuns.ProperRun, One, Good;
    var m0 := Empty(1, {}, false);
    var m1, m2 := One(user, path, Initiating, 0, size, peer, 0), One(user, path, Waiting, token, size, peer, 1);
    OneListed(user, path, Initiating, 0, size, peer, 0);
    OneListed(user, path, Waiting, token, size, peer, 1);
    FirstAdd(m0, user, path, size, peer);
    RunOn(m0, events);
    Announced(m1, user, path, peer, size, 0, token, 0);
    RunOn(m1, events[1..]);
    RunOn(m2, events[2..]);
    UploadRuns.EmptyGood(1, {}, false);
    UploadRuns.StepIff(m0, events[0]);
    UploadRuns.StepIff(m1, events[1]);
    UploadRuns.StepIff(m2, events[2]);
  }

  lemma OneListed(user: string, path: string, s: TrState, ticket: nat, size: nat, peer: Peer, k: nat)
    ensures Listed(One(user, path, s, ticket, size, peer, k))
  {
  }

  /** The upload is off the list, and waits in the queue all the same. */
  predicate Lost(n: Manager, user: string, path: string) {
    && 0 !in n.list && 0 in n.rows && n.rows[0].state == QueuedLocally
    && n.rows[0].user == user && n.rows[0].path == path
  }

  /** Started, sent to its end and asked for again, an upload whose reply has come is lost. */
  lemma RepliedIsLost(m: Manager, user: string, path: string, size: nat, events: seq<Event>)
    requires Running(m, user, path, Waiting, size)
    requires events == [EvStartAt(0, 0, true), EvSent(0, size, true), EvAdd(user, path, false, false, size, 0)]
    ensures Listed(m) && Lost(Run(m, events), user, path)
  {
    hide Add, StartAt, Sent, Run, Good, Listed;
    StartedRuns(m, user, path, size);
    RunOn(m, events);
    var t := StartAt(m, 0, 0, true);
    SentRuns(t, user, path, size);
    RunOn(t, events[1..]);
    var u := Sent(t, 0, size, true);
    AgainIsLost(u, user, path, size);
    RunOn(u, events[2..]);
    RunEnd(Add(u, user, path, false, false, size, 0), events[3..]);
  }

  /** From an empty manager, for all names, sizes and tickets, such a run ends with the upload queued and off the list. */
  lemma RequestIsLost(user: string, path: string, peer: Peer, size: nat, token: nat)
    ensures Lost(Run(Empty(1, {}, false), SentAndAskedAgain(user, path, peer, size, token)), user, path)
  {
    hide Add, Reply, StartAt, Sent, Run, One, Good, Listed, Running, Lost;
    var events := SentAndAskedAgain(user, path, peer, size, token);
    WaitsToClear(user, path, peer, size, token, events);
    var m := One(user, path, Waiting, token, size, peer, 1).(autoClear := true);
    UploadRuns.GoodListed(m);
    AllowedRuns(m, user, path, peer, size, token);
    RunOn(m, events[3..]);
    RepliedIsLost(Reply(m, peer, user, token, true), user, path, size, events[4..]);
  }
}
