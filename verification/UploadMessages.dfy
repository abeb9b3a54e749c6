/** A reply message calls the reply handler once for each of its connections to the socket: when all these calls are proper,
    and a run from the start in which the second one is not. */
module UploadMessages {
  import opened Basics
  import opened UploadModel
  import opened UploadProofs
  import opened UploadHandlers
  import opened UploadReply
  import opened UploadRuns
  import opened UploadStates

  /** The message concerns no waiting upload, refuses it, calls no handler, or calls it once where that is harmless, or more
      often where the socket that the first call makes may be closed again. */
  predicate MayCome(m: Manager, peer: Peer, user: string, ticket: nat, allowed: bool)
    requires Listed(m)
  {
    var f := FindTicket(m, user, ticket, 0);
    FindTicketFinds(m, user, ticket, 0);
    f.Some? && m.rows[f.value].state == Waiting && allowed && Connections(m, peer) > 0 ==>
      if Connections(m, peer) == 1 then Harmless(m, f.value) else MayClose(m, f.value)
  }

  /** After a harmless permission the next one finds the same upload, waiting on the socket that was made. */
  lemma ReplyAgain(m: Manager, peer: Peer, user: string, ticket: nat, id: Id)
    requires Good(m) && FindTicket(m, user, ticket, 0) == Some(id) && id in m.list && m.rows[id].state == Waiting && Harmless(m, id)
    ensures var n := Reply(m, peer, user, ticket, true);
            && Good(n) && FindTicket(n, user, ticket, 0) == Some(id) && id in n.list && id in n.rows
            && n.rows[id].state == Waiting && n.rows[id].socket && MayClose(n, id) == MayClose(m, id)
  {
    hide Inv, Settled, Allowed, FindTicket, SetState, Establish, Restarts;
    GoodListed(m);
    var d, n := Disconnect(m, peer), Reply(m, peer, user, ticket, true);
    AllowedReply(m, peer, user, ticket, id);
    ConnectionsKeep(m, d);
    HarmlessFrom(m, d, id);
    HarmlessKeeps(d, id);
    HarmlessOnlySocket(d, id);
    OnlySocketFrom(m, d, id, n);
    OnlySocketSame(m, id, n, user, ticket);
  }

  lemma AllowedReply(m: Manager, peer: Peer, user: string, ticket: nat, id: Id)
    requires Listed(m) && FindTicket(m, user, ticket, 0) == Some(id) && id in m.rows && m.rows[id].state == Waiting
    ensures Reply(m, peer, user, ticket, true) == Allowed(Disconnect(m, peer), id)
  {
    hide SetState, Establish, Disconnect, FindTicket;
  }

  lemma OnlySocketFrom(m: Manager, d: Manager, id: Id, n: Manager)
    requires id in m.rows && d == m.(connected := d.connected, callback := d.callback) && OnlySocket(d, id, n)
    ensures OnlySocket(m, id, n)
  {
  }

  /** Of calls for an upload that holds a socket, all are proper if the first is. */
  lemma {:induction false} LaterCalls(m: Manager, e: Event, id: Id, k: nat)
    requires Good(m) && e.EvReply? && e.allowed && FindTicket(m, e.user, e.ticket, 0) == Some(id)
    requires id in m.list && m.rows[id].state == Waiting && m.rows[id].socket
    ensures ProperRun(m, Calls(e, k)) <==> k == 0 || MayClose(m, id)
    decreases k
  {
    hide Good, MayClose, Reply, FindTicket;
    GoodListed(m);
    if k > 0 {
      assert Calls(e, k)[1..] == Calls(e, k - 1);
      if MayClose(m, id) {
        ReplyAgain(m, e.peer, e.user, e.ticket, id);
        LaterCalls(Step(m, e), e, id, k - 1);
      }
    }
  }

  /** Calls that leave a waiting upload alone, or refuse it, are all proper. */
  lemma {:induction false} OtherCalls(m: Manager, e: Event, k: nat)
    requires Good(m) && e.EvReply?
    requires !e.allowed || (Step(m, e) == m && Proper(m, e))
    ensures ProperRun(m, Calls(e, k))
    decreases k
  {
    hide Good, Reply, FindTicket, Harmless;
    GoodListed(m);
    if k > 0 {
      assert Calls(e, k)[1..] == Calls(e, k - 1);
      StepIff(m, e);
      OtherCalls(Step(m, e), e, k - 1);
    }
  }

  /** Of calls for a waiting upload, all are proper if the first is harmless and its socket may be closed by the next. */
  lemma PermissionIff(m: Manager, e: Event, id: Id, k: nat)
    requires Good(m) && e.EvReply? && e.allowed && FindTicket(m, e.user, e.ticket, 0) == Some(id)
    requires id in m.list && m.rows[id].state == Waiting && k > 0
    ensures ProperRun(m, Calls(e, k)) <==> if k == 1 then Harmless(m, id) else MayClose(m, id)
  {
    hide Good, Harmless, MayClose, Reply, FindTicket;
    GoodListed(m);
    MayCloseHarmless(m, id);
    assert Calls(e, k)[1..] == Calls(e, k - 1);
    if Harmless(m, id) {
      ReplyAgain(m, e.peer, e.user, e.ticket, id);
      LaterCalls(Step(m, e), e, id, k - 1);
    }
  }

  /** All calls that a reply message sets off are proper if and only if it may come. */
  lemma MessageIff(m: Manager, peer: Peer, user: string, ticket: nat, allowed: bool)
    requires Good(m)
    ensures ProperRun(m, Message(m, peer, user, ticket, allowed)) <==> MayCome(m, peer, user, ticket, allowed)
  {
    hide Good, FindTicket, Harmless, MayClose, Reply, Calls, ProperRun, Connections;
    GoodListed(m);
    FindTicketFinds(m, user, ticket, 0);
    var e, k, f := EvReply(peer, user, ticket, allowed), Connections(m, peer), FindTicket(m, user, ticket, 0);
    if !allowed || f.None? || m.rows[f.value].state != Waiting {
      NoPermission(m, peer, user, ticket);
      OtherCalls(m, e, k);
    } else if k > 0 {
      PermissionIff(m, e, f.value, k);
    } else {
      NoCalls(m, e);
    }
  }

  lemma NoCalls(m: Manager, e: Event)
    requires Listed(m)
    ensures ProperRun(m, Calls(e, 0))
  {
  }

  lemma MayCloseHarmless(m: Manager, id: Id)
    requires Listed(m) && id in m.rows
    ensures MayClose(m, id) ==> Harmless(m, id)
    ensures m.rows[id].socket && Harmless(m, id) ==> MayClose(m, id)
  {
  }

  lemma NoPermission(m: Manager, peer: Peer, user: string, ticket: nat)
    requires Listed(m)
    ensures var f := FindTicket(m, user, ticket, 0);
            f.None? || (f.value in m.rows && m.rows[f.value].state != Waiting) ==> Reply(m, peer, user, ticket, true) == m
  {
  }

  // ----- a run to a second permission

  /** The upload is announced, gets no reply in time, is asked for again, and is announced again on the same socket; meanwhile
      the same user asks for another file. */
  function TwiceAnnounced(user: string, x: string, y: string, peer: Peer, size: nat, first: nat, second: nat): seq<Event> {
    [EvAdd(user, x, false, false, size, 0), EvPeerReady(user, peer, Some(size), first), EvReplyTimeout(0),
     EvAdd(user, x, false, false, size, 0), EvPeerReady(user, peer, Some(size), second), EvAdd(user, y, false, false, size, 0)]
  }

  /** Where the run leads: x waits for the reply to its second ticket, and the handler is connected twice. */
  function TwiceConnected(user: string, x: string, y: string, peer: Peer, size: nat, second: nat): Manager {
    Behind(One(user, x, Waiting, second, size, peer, 2), user, y, size)
  }

  /** From an empty manager with one slot, whatever the names, the size and the tickets, this run leads there. */
  lemma TwiceAnnouncedRun(user: string, x: string, y: string, peer: Peer, size: nat, first: nat, second: nat)
    requires x != y
    ensures var events := TwiceAnnounced(user, x, y, peer, size, first, second);
            && Run(Empty(1, {}, false), events) == TwiceConnected(user, x, y, peer, size, second)
            && ProperRun(Empty(1, {}, false), events)
  {
    hide Add, PeerReady, ReplyTimeout, Run, ProperRun, One, Behind, Full, Unlisted;
    var m0 := Empty(1, {}, false);
    var m1, m2 := One(user, x, Initiating, 0, size, peer, 0), One(user, x, Waiting, first, size, peer, 1);
    var m3, m4 := One(user, x, CannotConnect, first, size, peer, 1), One(user, x, Initiating, first, size, peer, 1);
    var m5, m6 := One(user, x, Waiting, second, size, peer, 2), TwiceConnected(user, x, y, peer, size, second);
    var events := TwiceAnnounced(user, x, y, peer, size, first, second);
    FirstAdd(m0, user, x, size, peer);
    RunStep(m0, m1, events);
    Announced(m1, user, x, peer, size, 0, first, 0);
    RunStep(m1, m2, events[1..]);
    TimedOut(m2, user, x, peer, size, first, 1);
    RunStep(m2, m3, events[2..]);
    AskedAgain(m3, user, x, peer, size, first, 1);
    RunStep(m3, m4, events[3..]);
    Announced(m4, user, x, peer, size, first, second, 1);
    RunStep(m4, m5, events[4..]);
    OneFull(m5, user, x, peer, size, second);
    AddBehind(m5, user, y, size);
    RunStep(m5, m6, events[5..]);
    RunEnd(m6, events[6..]);
  }

  lemma OneFull(m: Manager, user: string, x: string, peer: Peer, size: nat, token: nat)
    requires m == One(user, x, Waiting, token, size, peer, 2)
    ensures Full(m) && forall y :: y != x ==> Unlisted(m, user, y)
  {
  }

  /** A second reply does come: in the state that this run leads to, one message that allows the transfer calls the handler
      twice; the first call is proper, and the second one breaks the invariant. */
  lemma SecondPermissionBreaks(user: string, x: string, y: string, peer: Peer, size: nat, first: nat, second: nat)
    requires x != y
    ensures var m := Run(Empty(1, {}, false), TwiceAnnounced(user, x, y, peer, size, first, second));
            var e := EvReply(peer, user, second, true);
            && Message(m, peer, user, second, true) == [e, e]
            && StepOk(m, e, Step(m, e)) && !StepOk(Step(m, e), e, Step(Step(m, e), e))
  {
    hide Step, Run, ProperRun, StepOk, Empty, TwiceAnnounced, FindTicket, TwiceConnected, Good;
    TwiceAnnouncedRun(user, x, y, peer, size, first, second);
    RunFromEmpty(1, {}, false, TwiceAnnounced(user, x, y, peer, size, first, second));
    BreaksThere(TwiceConnected(user, x, y, peer, size, second), user, x, y, peer, size, second);
  }

  lemma BreaksThere(m: Manager, user: string, x: string, y: string, peer: Peer, size: nat, second: nat)
    requires m == TwiceConnected(user, x, y, peer, size, second) && x != y && Good(m)
    ensures Listed(m)
    ensures var e := EvReply(peer, user, second, true);
            && Message(m, peer, user, second, true) == [e, e]
            && StepOk(m, e, Step(m, e)) && !StepOk(Step(m, e), e, Step(Step(m, e), e))
  {
    hide StepOk, Good, FindTicket, Harmless, MayClose, TwiceConnected, Reply;
    GoodListed(m);
    var e := EvReply(peer, user, second, true);
    ThereParts(m, user, x, y, peer, size, second);
    Twice(e);
    StepIff(m, e);
    ReplyAgain(m, peer, user, second, 0);
    MayCloseHarmless(Step(m, e), 0);
    StepIff(Step(m, e), e);
  }

  lemma Twice(e: Event)
    ensures Calls(e, 2) == [e, e]
  {
    assert Calls(e, 1) == [e];
  }

  lemma ThereParts(m: Manager, user: string, x: string, y: string, peer: Peer, size: nat, second: nat)
    requires m == TwiceConnected(user, x, y, peer, size, second) && Listed(m)
    ensures FindTicket(m, user, second, 0) == Some(0) && 0 in m.list && 0 in m.rows && m.rows[0].state == Waiting
    ensures Harmless(m, 0) && !MayClose(m, 0) && Connections(m, peer) == 2
  {
    assert m.list[0] == 0 && m.list[1] == 1;
    var freed := m.(uploading := m.uploading - {user});
    assert freed.uploading == map[];
    hide FirstFrom;
    PickIsFirst(freed);
    assert Eligible(freed, freed.list[1]);
  }
}
