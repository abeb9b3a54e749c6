/** The upload scheduler over whole runs. */
module UploadRuns {
  import opened Basics
  import opened UploadModel
  import opened UploadProofs
  import opened UploadHandlers
  import opened UploadReply

  /** A peer's permission comes for a waiting upload only when that upload may take a new socket; all else may come at any time. */
  predicate Proper(m: Manager, e: Event)
    requires Listed(m)
  {
    match e
    case EvReply(peer, user, ticket, true) =>
      var f := FindTicket(m, user, ticket, 0);
      FindTicketFinds(m, user, ticket, 0);
      f.Some? && m.rows[f.value].state == Waiting ==> Harmless(m, f.value)
    case _ => true
  }

  /** What a step keeps: the invariant, a settled queue, and a full table of uploads that has not grown. */
  predicate StepOk(m: Manager, e: Event, n: Manager) {
    && Good(n) && n.slots == (if e.EvSlots? then e.slots else m.slots) && Bounded(m, n)
  }

  lemma ReplyIff(m: Manager, peer: Peer, user: string, ticket: nat, allowed: bool)
    requires Good(m)
    ensures Stable(m, Reply(m, peer, user, ticket, allowed)) <==> Proper(m, EvReply(peer, user, ticket, allowed))
  {
    hide Distinct, OnePerUser, UniquePaths, SocketsHeld, InitiatingWithin, Settled, Fail, Bounded, SetState, Establish, Harmless;
    FindTicketFinds(m, user, ticket, 0);
    SafeRefl(m);
    SafeIsStable(m, m);
    match FindTicket(m, user, ticket, 0)
    case None =>
    case Some(id) =>
      ListedUnique(m, id);
      if m.rows[id].state == Waiting {
        var d := Disconnect(m, peer);
        ConnectionsKeep(m, d);
        StableFrom(m, d, Reply(m, peer, user, ticket, allowed));
        if allowed {
          AllowedIff(d, id);
          HarmlessFrom(m, d, id);
        } else {
          FailKeeps(d, id, RemoteError);
          SafeIsStable(d, Fail(d, id, RemoteError));
        }
      }
  }

  lemma StableFrom(m: Manager, d: Manager, n: Manager)
    requires d.slots == m.slots && d.uploading == m.uploading
    ensures Stable(m, n) == Stable(d, n)
  {
    hide Good;
  }

  lemma HarmlessFrom(m: Manager, d: Manager, id: Id)
    requires Listed(m) && id in m.rows && d == m.(connected := d.connected, callback := d.callback)
    ensures Listed(d) && Harmless(d, id) == Harmless(m, id)
  {
    var x, y := m.(uploading := m.uploading - {m.rows[id].user}), d.(uploading := d.uploading - {d.rows[id].user});
    FirstFromSame(x, y, 0, true);
    FirstFromSame(x, y, 0, false);
    hide FirstFrom;
  }

  lemma RequestSteps(m: Manager, e: Event)
    requires Good(m) && (e.EvAdd? || e.EvAbort? || e.EvRemove? || e.EvRequested?)
    ensures Stable(m, Step(m, e))
  {
    hide Distinct, OnePerUser, UniquePaths, SocketsHeld, InitiatingWithin, Settled, Bounded, Extends, AbortId, Add, Requested, RemoveFirst;
    SafeRefl(m);
    SafeIsStable(m, m);
    match e
    case EvAdd(user, path, caseProblem, force, size, token) => AddKeeps(m, user, path, caseProblem, force, size, token);
    case EvRequested(user, path, size, token, file, ticket) => RequestedKeeps(m, user, path, size, token, file, ticket);
    case EvAbort(user, path) =>
      FindFinds(m, user, path, 0);
      if Find(m, user, path, 0).Some? {
        var id := Find(m, user, path, 0).value;
        ListedUnique(m, id);
        AbortKeeps(m, id);
        SafeIsStable(m, Abort(m, user, path));
      }
    case EvRemove(user, path) =>
      FindFinds(m, user, path, 0);
      if Find(m, user, path, 0).Some? {
        var id := Find(m, user, path, 0).value;
        ListedUnique(m, id);
        RemoveKeeps(m, id);
        SafeIsStable(m, Remove(m, user, path));
      }
  }

  lemma PeerSteps(m: Manager, e: Event)
    requires Good(m) && (e.EvPeerReady? || e.EvPeerGone? || e.EvUnavailable? || e.EvPeerOffline? || e.EvLoggedIn?)
    ensures Safe(m, Step(m, e))
  {
    hide Good, Extends, Bounded, PeerReady, Unavailable, SetEach, LoggedIn;
    match e
    case EvPeerReady(user, peer, file, token) => PeerReadyKeeps(m, user, peer, file, token);
    case EvPeerGone(peer) => ConnectionsKeep(m, PeerGone(m, peer));
    case EvUnavailable(user) => UnavailableKeeps(m, user);
    case EvPeerOffline(user) => SetAllKeeps(m, (x: Manager, id: Id) => GoesOffline(x, id, user), Offline);
    case EvLoggedIn(loggedIn) => LoggedInKeeps(m, loggedIn);
  }

  lemma SocketSteps(m: Manager, e: Event)
    requires Good(m) && (e.EvSocketClosed? || e.EvSocketCannotConnect? || e.EvStartAt? || e.EvSent? || e.EvReplyTimeout?)
    ensures Safe(m, Step(m, e))
  {
    hide Good, Extends, Bounded, SocketClosed, SocketCannotConnect, StartAt, Sent, ReplyTimeout;
    match e
    case EvSocketClosed(id) => SocketClosedKeeps(m, id);
    case EvSocketCannotConnect(id) => SocketCannotConnectKeeps(m, id);
    case EvStartAt(id, pos, readOk) => StartAtKeeps(m, id, pos, readOk);
    case EvSent(id, count, readOk) => SentKeeps(m, id, count, readOk);
    case EvReplyTimeout(id) => ReplyTimeoutKeeps(m, id);
  }

  lemma ConfigSteps(m: Manager, e: Event)
    requires Good(m) && (e.EvSlots? || e.EvPrivileges? || e.EvAutoClear?)
    ensures StepOk(m, e, Step(m, e))
  {
    hide Good, Bounded, CheckUploads;
    GoodListed(m);
    match e
    case EvSlots(slots) => SlotsStep(m, slots);
    case EvPrivileges(priv) => SettingsStep(m, m.(priv := priv));
    case EvAutoClear(on) => SettingsStep(m, m.(autoClear := on));
  }

  lemma SlotsStep(m: Manager, slots: nat)
    requires Good(m)
    ensures var n := CheckUploads(m.(slots := slots)); Good(n) && n.slots == slots && Bounded(m, n)
  {
    hide Inv, Settled, CheckUploads;
    var a := m.(slots := slots);
    SettingsKeep(m, a);
    CheckKeeps(a);
  }

  lemma SettingsStep(m: Manager, n: Manager)
    requires Good(m) && n == m.(priv := n.priv, autoClear := n.autoClear)
    ensures Good(n) && n.slots == m.slots && Bounded(m, n)
  {
    hide Inv, Settled;
    SettingsKeep(m, n);
    SettingsSettled(m, n);
  }

  lemma SettingsKeep(m: Manager, n: Manager)
    requires Inv(m) && n == m.(slots := n.slots, priv := n.priv, autoClear := n.autoClear)
    ensures Inv(n) && Listed(n)
  {
    hide Distinct;
  }

  lemma SettingsSettled(m: Manager, n: Manager)
    requires Listed(m) && Listed(n) && Settled(m) && n == m.(priv := n.priv, autoClear := n.autoClear)
    ensures Settled(n)
  {
  }

  /** Every step from a good state keeps it good, except a permission that comes when it may not: that one never does. */
  lemma StepIff(m: Manager, e: Event)
    requires Good(m)
    ensures StepOk(m, e, Step(m, e)) <==> Proper(m, e)
  {
    hide Good, Bounded, Extends;
    assert Listed(m) by { GoodListed(m); }
    if e.EvReply? {
      ReplyIff(m, e.peer, e.user, e.ticket, e.allowed);
    } else if e.EvAdd? || e.EvAbort? || e.EvRemove? || e.EvRequested? {
      RequestSteps(m, e);
    } else if e.EvPeerReady? || e.EvPeerGone? || e.EvUnavailable? || e.EvPeerOffline? || e.EvLoggedIn? {
      PeerSteps(m, e);
      SafeIsStable(m, Step(m, e));
    } else if e.EvSlots? || e.EvPrivileges? || e.EvAutoClear? {
      ConfigSteps(m, e);
    } else {
      SocketSteps(m, e);
      SafeIsStable(m, Step(m, e));
    }
  }

  /** Every event of the run comes when it may. */
  predicate ProperRun(m: Manager, events: seq<Event>)
    requires Listed(m)
    decreases |events|
  {
    events == [] || (Proper(m, events[0]) && ProperRun(Step(m, events[0]), events[1..]))
  }

  lemma EmptyGood(slots: nat, priv: set<string>, autoClear: bool)
    ensures Good(Empty(slots, priv, autoClear))
  {
  }

  /** In every proper run: one active upload a user, exactly the recorded one, and no slot free that could be used. */
  lemma {:induction false} RunKeeps(m: Manager, events: seq<Event>)
    requires Good(m) && ProperRun(m, events)
    ensures Good(Run(m, events))
    decreases |events|
  {
    hide Good, Bounded, Step, Proper;
    GoodListed(m);
    if events != [] {
      StepIff(m, events[0]);
      RunKeeps(Step(m, events[0]), events[1..]);
    }
  }

  /** In every proper run from an empty manager the invariant holds at the end, and a fixed number of slots is kept to. */
  lemma RunFromEmpty(slots: nat, priv: set<string>, autoClear: bool, events: seq<Event>)
    requires ProperRun(Empty(slots, priv, autoClear), events)
    ensures Good(Run(Empty(slots, priv, autoClear), events))
    ensures slots > 0 && FixedSlots(events, slots) ==> |Run(Empty(slots, priv, autoClear), events).uploading| <= slots
  {
    hide Good, Run, ProperRun, FixedSlots;
    EmptyGood(slots, priv, autoClear);
    var m := Empty(slots, priv, autoClear);
    RunKeeps(m, events);
    if slots > 0 && FixedSlots(events, slots) {
      RunWithinSlots(m, events);
    }
  }

  lemma GoodListed(m: Manager)
    requires Good(m)
    ensures Listed(m)
  {
  }

  lemma Within(m: Manager, e: Event, n: Manager)
    requires StepOk(m, e, n) && m.slots > 0 && |m.uploading| <= m.slots && (e.EvSlots? ==> e.slots == m.slots)
    ensures |n.uploading| <= m.slots && n.slots == m.slots
  {
    hide Good;
  }

  predicate FixedSlots(events: seq<Event>, slots: nat) {
    forall i :: 0 <= i < |events| && events[i].EvSlots? ==> events[i].slots == slots
  }

  /** With a fixed number of slots, every proper run from the start keeps within them. */
  lemma {:induction false} RunWithinSlots(m: Manager, events: seq<Event>)
    requires Good(m) && ProperRun(m, events) && m.slots > 0 && FixedSlots(events, m.slots) && |m.uploading| <= m.slots
    ensures |Run(m, events).uploading| <= m.slots && Run(m, events).slots == m.slots
    decreases |events|
  {
    hide Good, Bounded, Step, Proper;
    GoodListed(m);
    if events != [] {
      StepIff(m, events[0]);
      var n := Step(m, events[0]);
      Within(m, events[0], n);
      assert forall i :: 0 <= i < |events[1..]| ==> events[1..][i] == events[i + 1];
      RunWithinSlots(n, events[1..]);
    }
  }
}
