/** Two linked bufferevents as values: what is written to one end is read from the other. */
module PairModel {
  import opened Basics

  type Byte = bv8

  /** Why reading or writing may be suspended: the watermark, a bandwidth limit, or something else. */
  datatype Reason = Watermark | Bandwidth | OtherReason

  /** One end. sent and got are all bytes ever written to it and read from it. */
  datatype Elt = Elt(
    input: seq<Byte>,
    output: seq<Byte>,
    reading: bool,
    writing: bool,
    readSuspended: set<Reason>,
    writeSuspended: set<Reason>,
    readHigh: nat,
    sent: seq<Byte>,
    got: seq<Byte>)

  /** One end and its partner. */
  datatype Pair = Pair(self: Elt, peer: Elt)

  const FRESH := Elt([], [], false, true, {}, {}, 0, [], [])

  function Swap(p: Pair): Pair {
    Pair(p.peer, p.self)
  }

  predicate WantsToTalk(src: Elt, dst: Elt) {
    src.writing && dst.reading && dst.readSuspended == {} && src.output != []
  }

  /** How many bytes a transfer moves. */
  function Amount(src: Elt, dst: Elt, ignoreMark: bool): (n: nat)
    ensures n <= |src.output|
  {
    if dst.readHigh != 0 then
      if |dst.input| < dst.readHigh then Min(dst.readHigh - |dst.input|, |src.output|)
      else if ignoreMark then |src.output| else 0
    else |src.output|
  }

  /** Suspends reading at the high mark, and lets it go on below. */
  function AtMark(e: Elt): Elt {
    if e.readHigh == 0 then e
    else if |e.input| >= e.readHigh then e.(readSuspended := e.readSuspended + {Watermark})
    else e.(readSuspended := e.readSuspended - {Watermark})
  }

  /** Moves bytes from the output of one end to the input of the other. */
  function Transfer(p: Pair, ignoreMark: bool): Pair {
    var k := Amount(p.self, p.peer, ignoreMark);
    if k == 0 then p
    else Pair(p.self.(output := p.self.output[k..]), AtMark(p.peer.(input := p.peer.input + p.self.output[..k])))
  }

  /** Hands over what there is, if both ends are willing. */
  function Talk(p: Pair): Pair {
    if WantsToTalk(p.self, p.peer) then Transfer(p, false) else p
  }

  // ----- operations on one end, self

  function Write(p: Pair, data: seq<Byte>): Pair {
    var q := p.(self := p.self.(output := p.self.output + data, sent := p.self.sent + data));
    if data == [] then q else Talk(q)
  }

  /** What enabling does once the flags are set. */
  function PairEnable(p: Pair, read: bool, write: bool): Pair {
    var q := if read then Swap(Talk(Swap(p))) else p;
    if write then Talk(q) else q
  }

  function Enable(p: Pair, read: bool, write: bool): Pair {
    var s := p.self;
    var q := p.(self := s.(reading := s.reading || read, writing := s.writing || write));
    PairEnable(q, read && s.readSuspended == {}, write && s.writeSuspended == {})
  }

  function Disable(p: Pair, read: bool, write: bool): Pair {
    p.(self := p.self.(reading := p.self.reading && !read, writing := p.self.writing && !write))
  }

  function SuspendRead(p: Pair, what: Reason): Pair {
    p.(self := p.self.(readSuspended := p.self.readSuspended + {what}))
  }

  function UnsuspendRead(p: Pair, what: Reason): Pair {
    var q := p.(self := p.self.(readSuspended := p.self.readSuspended - {what}));
    if q.self.readSuspended == {} && q.self.reading then PairEnable(q, true, false) else q
  }

  function SuspendWrite(p: Pair, what: Reason): Pair {
    p.(self := p.self.(writeSuspended := p.self.writeSuspended + {what}))
  }

  function UnsuspendWrite(p: Pair, what: Reason): Pair {
    var q := p.(self := p.self.(writeSuspended := p.self.writeSuspended - {what}));
    if q.self.writeSuspended == {} && q.self.writing then PairEnable(q, false, true) else q
  }

  /** The reaction of the watermark to a change of the input. */
  function MarkCallback(p: Pair): Pair {
    if p.self.readHigh == 0 then p
    else if |p.self.input| >= p.self.readHigh then SuspendRead(p, Watermark)
    else UnsuspendRead(p, Watermark)
  }

  /** Takes up to n bytes from the input. */
  function Read(p: Pair, n: nat): Pair {
    var k := Min(n, |p.self.input|);
    var q := p.(self := p.self.(input := p.self.input[k..], got := p.self.got + p.self.input[..k]));
    if k == 0 then p else MarkCallback(q)
  }

  function SetWatermark(p: Pair, high: nat): Pair {
    var q := p.(self := p.self.(readHigh := high));
    if high != 0 then
      if |q.self.input| > high then SuspendRead(q, Watermark)
      else if |q.self.input| < high then UnsuspendRead(q, Watermark)
      else q
    else UnsuspendRead(q, Watermark)
  }

  datatype FlushMode = Normal | Flush | Finished

  function FlushPair(p: Pair, read: bool, write: bool, mode: FlushMode): Pair {
    if mode == Normal then p
    else
      var q := if read then Swap(Transfer(Swap(p), true)) else p;
      if write then Transfer(q, true) else q
  }

  // ----- what always holds

  /** In order: what was written to one end is what the other has read, holds, and is still to get. */
  predicate Conserved(src: Elt, dst: Elt) {
    src.sent == dst.got + dst.input + src.output
  }

  /** Nothing waits that could be handed over. */
  predicate Settled(src: Elt, dst: Elt) {
    WantsToTalk(src, dst) && src.writeSuspended == {} ==> dst.readHigh != 0 && |dst.input| >= dst.readHigh
  }

  predicate Good(p: Pair) {
    Conserved(p.self, p.peer) && Conserved(p.peer, p.self) && Settled(p.self, p.peer) && Settled(p.peer, p.self)
  }

  /** An input that is above its mark has not grown. */
  predicate Marked(before: Elt, after: Elt) {
    after.readHigh != 0 && |after.input| > after.readHigh ==> |after.input| <= |before.input|
  }

  predicate WithinMarks(p: Pair, q: Pair) {
    Marked(p.self, q.self) && Marked(p.peer, q.peer)
  }

  /** Everything of an end but its buffers and the watermark's suspension. */
  predicate SameSettings(e: Elt, f: Elt) {
    && f.reading == e.reading && f.writing == e.writing && f.writeSuspended == e.writeSuspended && f.readHigh == e.readHigh
    && f.sent == e.sent && f.got == e.got
  }

  /** A transfer keeps the order, leaves nothing to hand over this way, and changes nothing the other way. */
  lemma TransferKeeps(p: Pair, ignoreMark: bool)
    requires Conserved(p.self, p.peer)
    ensures var q := Transfer(p, ignoreMark);
            Conserved(q.self, q.peer) && Settled(q.self, q.peer)
            && SameSettings(p.self, q.self) && SameSettings(p.peer, q.peer)
            && q.self.input == p.self.input && q.peer.output == p.peer.output && q.self.readSuspended == p.self.readSuspended
    ensures !ignoreMark ==> Marked(p.peer, Transfer(p, ignoreMark).peer)
  {
    var k := Amount(p.self, p.peer, ignoreMark);
    assert p.self.output == p.self.output[..k] + p.self.output[k..];
    assert p.peer.got + p.peer.input + p.self.output
        == p.peer.got + (p.peer.input + p.self.output[..k]) + p.self.output[k..];
  }

  lemma TalkKeeps(p: Pair)
    requires Conserved(p.self, p.peer) && Conserved(p.peer, p.self) && Settled(p.peer, p.self)
    ensures Good(Talk(p)) && WithinMarks(p, Talk(p))
    ensures SameSettings(p.self, Talk(p).self) && SameSettings(p.peer, Talk(p).peer)
  {
    hide Transfer;
    TransferKeeps(p, false);
  }

  lemma EnableKeeps(p: Pair, read: bool, write: bool)
    requires Conserved(p.self, p.peer) && Conserved(p.peer, p.self)
    requires (!write ==> Settled(p.self, p.peer)) && (!read ==> Settled(p.peer, p.self))
    ensures Good(PairEnable(p, read, write)) && WithinMarks(p, PairEnable(p, read, write))
  {
    hide Transfer;
    if read {
      TransferKeeps(Swap(p), false);
    }
    var q := if read then Swap(Talk(Swap(p))) else p;
    if write {
      TransferKeeps(q, false);
    }
  }

  lemma WriteKeeps(p: Pair, data: seq<Byte>)
    requires Good(p)
    ensures Good(Write(p, data)) && WithinMarks(p, Write(p, data))
  {
    hide Talk;
    var q := p.(self := p.self.(output := p.self.output + data, sent := p.self.sent + data));
    assert p.peer.got + p.peer.input + (p.self.output + data) == p.peer.got + p.peer.input + p.self.output + data;
    if data == [] {
      assert p.self.output + data == p.self.output;
    } else {
      TalkKeeps(q);
    }
  }

  lemma UnsuspendReadKeeps(p: Pair, what: Reason)
    requires Conserved(p.self, p.peer) && Conserved(p.peer, p.self) && Settled(p.self, p.peer)
    ensures Good(UnsuspendRead(p, what)) && WithinMarks(p, UnsuspendRead(p, what))
  {
    hide PairEnable;
    var q := p.(self := p.self.(readSuspended := p.self.readSuspended - {what}));
    if q.self.readSuspended == {} && q.self.reading {
      EnableKeeps(q, true, false);
    }
  }

  lemma SuspendReadKeeps(p: Pair, what: Reason)
    requires Conserved(p.self, p.peer) && Conserved(p.peer, p.self) && Settled(p.self, p.peer)
    ensures Good(SuspendRead(p, what)) && WithinMarks(p, SuspendRead(p, what))
  {
    assert what in SuspendRead(p, what).self.readSuspended;
  }

  lemma ReadKeeps(p: Pair, n: nat)
    requires Good(p)
    ensures Good(Read(p, n)) && WithinMarks(p, Read(p, n))
  {
    hide SuspendRead, UnsuspendRead;
    var k := Min(n, |p.self.input|);
    var q := p.(self := p.self.(input := p.self.input[k..], got := p.self.got + p.self.input[..k]));
    assert p.self.got + p.self.input == (p.self.got + p.self.input[..k]) + p.self.input[k..] by {
      assert p.self.input == p.self.input[..k] + p.self.input[k..];
    }
    if k != 0 && p.self.readHigh != 0 {
      if |q.self.input| >= q.self.readHigh {
        SuspendReadKeeps(q, Watermark);
      } else {
        UnsuspendReadKeeps(q, Watermark);
      }
      MarkedTrans(p, q, MarkCallback(q));
    }
  }

  lemma MarkedTrans(p: Pair, q: Pair, r: Pair)
    requires WithinMarks(q, r) && |q.self.input| <= |p.self.input| && |q.peer.input| <= |p.peer.input|
    ensures WithinMarks(p, r)
  {
  }

  lemma SetWatermarkKeeps(p: Pair, high: nat)
    requires Good(p)
    ensures Good(SetWatermark(p, high)) && WithinMarks(p, SetWatermark(p, high))
  {
    hide SuspendRead, UnsuspendRead;
    var q := p.(self := p.self.(readHigh := high));
    SuspendReadKeeps(q, Watermark);
    UnsuspendReadKeeps(q, Watermark);
  }

  lemma EnableFlagsKeep(p: Pair, read: bool, write: bool)
    requires Good(p)
    ensures Good(Enable(p, read, write)) && WithinMarks(p, Enable(p, read, write))
  {
    hide PairEnable;
    var s := p.self;
    var q := p.(self := s.(reading := s.reading || read, writing := s.writing || write));
    EnableKeeps(q, read && s.readSuspended == {}, write && s.writeSuspended == {});
  }

  lemma UnsuspendWriteKeeps(p: Pair, what: Reason)
    requires Good(p)
    ensures Good(UnsuspendWrite(p, what)) && WithinMarks(p, UnsuspendWrite(p, what))
  {
    hide PairEnable;
    var q := p.(self := p.self.(writeSuspended := p.self.writeSuspended - {what}));
    if q.self.writeSuspended == {} && q.self.writing {
      EnableKeeps(q, false, true);
    }
  }

  lemma FlushKeeps(p: Pair, read: bool, write: bool, mode: FlushMode)
    requires Good(p)
    ensures Good(FlushPair(p, read, write, mode))
  {
    hide Transfer;
    if mode != Normal {
      TransferKeeps(Swap(p), true);
      var q := if read then Swap(Transfer(Swap(p), true)) else p;
      TransferKeeps(q, true);
    }
  }

  // ----- runs

  datatype Call =
    | CallWrite(data: seq<Byte>)
    | CallRead(n: nat)
    | CallEnable(read: bool, write: bool)
    | CallDisable(read: bool, write: bool)
    | CallSetWatermark(high: nat)
    | CallSuspendRead(what: Reason)
    | CallUnsuspendRead(what: Reason)
    | CallSuspendWrite(what: Reason)
    | CallUnsuspendWrite(what: Reason)
    | CallFlush(read: bool, write: bool, mode: FlushMode)

  function Do(p: Pair, c: Call): Pair {
    match c
    case CallWrite(data) => Write(p, data)
    case CallRead(n) => Read(p, n)
    case CallEnable(read, write) => Enable(p, read, write)
    case CallDisable(read, write) => Disable(p, read, write)
    case CallSetWatermark(high) => SetWatermark(p, high)
    case CallSuspendRead(what) => SuspendRead(p, what)
    case CallUnsuspendRead(what) => UnsuspendRead(p, what)
    case CallSuspendWrite(what) => SuspendWrite(p, what)
    case CallUnsuspendWrite(what) => UnsuspendWrite(p, what)
    case CallFlush(read, write, mode) => FlushPair(p, read, write, mode)
  }

  /** Every call keeps the order of bytes and leaves nothing to hand over; only a flush fills an input above its mark. */
  lemma CallKeeps(p: Pair, c: Call)
    requires Good(p)
    ensures Good(Do(p, c)) && (!c.CallFlush? ==> WithinMarks(p, Do(p, c)))
  {
    hide Write, Read, Enable, SetWatermark, SuspendRead, UnsuspendRead, UnsuspendWrite, FlushPair;
    match c
    case CallWrite(data) => WriteKeeps(p, data);
    case CallRead(n) => ReadKeeps(p, n);
    case CallEnable(read, write) => EnableFlagsKeep(p, read, write);
    case CallDisable(read, write) =>
    case CallSetWatermark(high) => SetWatermarkKeeps(p, high);
    case CallSuspendRead(what) => SuspendReadKeeps(p, what);
    case CallUnsuspendRead(what) => UnsuspendReadKeeps(p, what);
    case CallSuspendWrite(what) => assert what in Do(p, c).self.writeSuspended;
    case CallUnsuspendWrite(what) => UnsuspendWriteKeeps(p, what);
    case CallFlush(read, write, mode) => FlushKeeps(p, read, write, mode);
  }

  /** Calls on either end, the second one where other is set. */
  datatype Event = Event(other: bool, call: Call)

  function Next(p: Pair, e: Event): Pair {
    if e.other then Swap(Do(Swap(p), e.call)) else Do(p, e.call)
  }

  function Run(p: Pair, events: seq<Event>): Pair
    decreases |events|
  {
    if events == [] then p else Run(Next(p, events[0]), events[1..])
  }

  /** In every run of calls on a new pair no byte is lost, doubled or moved out of order, and none waits without cause. */
  lemma {:induction false} RunKeeps(p: Pair, events: seq<Event>)
    requires Good(p)
    ensures Good(Run(p, events))
    decreases |events|
  {
    hide Do;
    if events != [] {
      var e := events[0];
      CallKeeps(if e.other then Swap(p) else p, e.call);
      RunKeeps(Next(p, e), events[1..]);
    }
  }

  /** On a new pair, whatever is called on either end: what has been read at one end is a prefix of what was written at
      the other, and bytes wait only where writing is suspended. */
  lemma RunFromFresh(events: seq<Event>)
    ensures Good(Run(Pair(FRESH, FRESH), events))
    ensures var q := Run(Pair(FRESH, FRESH), events);
            && q.peer.got <= q.self.sent && q.self.got <= q.peer.sent
            && (Waits(q.self, q.peer) ==> q.self.writeSuspended != {}) && (Waits(q.peer, q.self) ==> q.peer.writeSuspended != {})
  {
    hide Run;
    RunKeeps(Pair(FRESH, FRESH), events);
  }

  predicate NoFlush(events: seq<Event>) {
    forall i :: 0 <= i < |events| ==> !events[i].call.CallFlush? && !events[i].call.CallSetWatermark?
  }

  predicate BelowMarks(p: Pair) {
    (p.self.readHigh != 0 ==> |p.self.input| <= p.self.readHigh) && (p.peer.readHigh != 0 ==> |p.peer.input| <= p.peer.readHigh)
  }

  lemma MarkStays(p: Pair, c: Call)
    requires !c.CallSetWatermark?
    ensures Do(p, c).self.readHigh == p.self.readHigh && Do(p, c).peer.readHigh == p.peer.readHigh
  {
    hide Transfer;
    match c
    case CallWrite(data) => TransferMarks(p.(self := p.self.(output := p.self.output + data, sent := p.self.sent + data)), false);
    case CallRead(n) =>
      var k := Min(n, |p.self.input|);
      EnableMarks(p.(self := p.self.(input := p.self.input[k..], got := p.self.got + p.self.input[..k],
                                     readSuspended := p.self.readSuspended - {Watermark})), true, false);
    case CallEnable(read, write) =>
      var s := p.self;
      EnableMarks(p.(self := s.(reading := s.reading || read, writing := s.writing || write)),
                  read && s.readSuspended == {}, write && s.writeSuspended == {});
    case CallDisable(read, write) =>
    case CallSuspendRead(what) =>
    case CallUnsuspendRead(what) =>
      EnableMarks(p.(self := p.self.(readSuspended := p.self.readSuspended - {what})), true, false);
    case CallSuspendWrite(what) =>
    case CallUnsuspendWrite(what) =>
      EnableMarks(p.(self := p.self.(writeSuspended := p.self.writeSuspended - {what})), false, true);
    case CallFlush(read, write, mode) =>
      TransferMarks(Swap(p), true);
      TransferMarks(if read then Swap(Transfer(Swap(p), true)) else p, true);
  }

  lemma TransferMarks(p: Pair, ignoreMark: bool)
    ensures Transfer(p, ignoreMark).self.readHigh == p.self.readHigh && Transfer(p, ignoreMark).peer.readHigh == p.peer.readHigh
  {
  }

  lemma EnableMarks(p: Pair, read: bool, write: bool)
    ensures PairEnable(p, read, write).self.readHigh == p.self.readHigh && PairEnable(p, read, write).peer.readHigh == p.peer.readHigh
  {
    hide Transfer;
    TransferMarks(Swap(p), false);
    TransferMarks(if read then Swap(Talk(Swap(p))) else p, false);
  }

  /** With marks that stay and no flush, no run fills an input above its mark. */
  lemma {:induction false} RunBelowMarks(p: Pair, events: seq<Event>)
    requires Good(p) && BelowMarks(p) && NoFlush(events)
    ensures BelowMarks(Run(p, events))
    decreases |events|
  {
    hide Do, Good;
    if events != [] {
      var e := events[0];
      assert !e.call.CallFlush? && !e.call.CallSetWatermark?;
      var from := if e.other then Swap(p) else p;
      assert Good(from) by { SwapGood(p); }
      CallKeeps(from, e.call);
      MarkStays(from, e.call);
      var q := Next(p, e);
      assert Good(q) by { SwapGood(Do(from, e.call)); }
      assert forall i :: 0 <= i < |events[1..]| ==> events[1..][i] == events[i + 1];
      RunBelowMarks(q, events[1..]);
    }
  }

  lemma SwapGood(p: Pair)
    ensures Good(Swap(p)) == Good(p)
  {
  }

  // ----- where bytes stay behind

  /** Bytes wait although both ends are willing and there is room below the mark. */
  predicate Waits(src: Elt, dst: Elt) {
    WantsToTalk(src, dst) && (dst.readHigh == 0 || |dst.input| < dst.readHigh)
  }

  /** Enabling writing leaves bytes waiting if and only if it is suspended and there are bytes that the partner would take. */
  lemma EnableWaitsIff(p: Pair, read: bool)
    ensures var q := Enable(p, read, true);
            Waits(q.self, q.peer) <==>
              && p.self.writeSuspended != {} && p.self.output != []
              && p.peer.reading && p.peer.readSuspended == {}
              && (p.peer.readHigh == 0 || |p.peer.input| < p.peer.readHigh)
  {
  }

  /** A run on a new pair leaves a byte waiting for a partner that reads. */
  lemma SuspendedWriteWaits()
    ensures exists events :: Waits(Run(Pair(FRESH, FRESH), events).self, Run(Pair(FRESH, FRESH), events).peer)
  {
    hide Run;
    var fresh0 := Pair(FRESH, FRESH);
    var willing := fresh0.(peer := FRESH.(reading := true));
    var quiet := willing.(self := FRESH.(writing := false));
    var suspended := quiet.(self := quiet.self.(writeSuspended := {Bandwidth}));
    var written := suspended.(self := suspended.self.(output := [1], sent := [1]));
    var e0, e1 := Event(true, CallEnable(true, false)), Event(false, CallDisable(false, true));
    var e2, e3, e4 := Event(false, CallSuspendWrite(Bandwidth)), Event(false, CallWrite([1])), Event(false, CallEnable(false, true));
    assert {} + {Bandwidth} == {Bandwidth} && Bandwidth in {Bandwidth};
    assert Next(fresh0, e0) == willing && Next(willing, e1) == quiet && Next(quiet, e2) == suspended;
    assert Next(suspended, e3) == written;
    EnableWaitsIff(written, false);
    NoEvents(Next(written, e4));
    var events4 := [e4] + [];
    RunStep(written, e4, []);
    var events3 := [e3] + events4;
    RunStep(suspended, e3, events4);
    var events2 := [e2] + events3;
    RunStep(quiet, e2, events3);
    var events1 := [e1] + events2;
    RunStep(willing, e1, events2);
    var events0 := [e0] + events1;
    RunStep(fresh0, e0, events1);
    assert Waits(Run(fresh0, events0).self, Run(fresh0, events0).peer);
  }

  lemma RunStep(p: Pair, e: Event, events: seq<Event>)
    ensures Run(p, [e] + events) == Run(Next(p, e), events)
  {
  }

  lemma NoEvents(p: Pair)
    ensures Run(p, []) == p
  {
  }

  /** Whether a flush moves everything: without a mark, with the input at the mark already, or with all of it below. */
  predicate AllFits(src: Elt, dst: Elt) {
    dst.readHigh == 0 || |dst.input| >= dst.readHigh || |dst.input| + |src.output| <= dst.readHigh
  }

  /** A flush, which is to ignore the marks, stops at them all the same if an input is below: in either direction an output
      is emptied if and only if it was asked for and all of it fits, and otherwise the input ends exactly at its mark. */
  lemma FlushEmptiesIff(p: Pair, read: bool, write: bool, mode: FlushMode)
    ensures var q := FlushPair(p, read, write, mode);
            && (q.self.output == [] <==> p.self.output == [] || (mode != Normal && write && AllFits(p.self, p.peer)))
            && (q.peer.output == [] <==> p.peer.output == [] || (mode != Normal && read && AllFits(p.peer, p.self)))
    ensures var q := FlushPair(p, read, write, mode); mode != Normal ==>
            && (write && q.self.output != [] ==> |q.peer.input| == p.peer.readHigh)
            && (read && q.peer.output != [] ==> |q.self.input| == p.self.readHigh)
  {
  }
}
