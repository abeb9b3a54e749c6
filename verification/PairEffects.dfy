/** What each call on a pair of bufferevents changes, and what runs of calls say about the high mark. */
module PairEffects {
  import opened Basics
  import opened PairModel

  // ----- settings

  /** How a call changes the settings of the end it is made on. */
  predicate OwnSettings(e: Elt, c: Call, f: Elt) {
    && f.reading == (if c.CallEnable? then e.reading || c.read else if c.CallDisable? then e.reading && !c.read else e.reading)
    && f.writing == (if c.CallEnable? then e.writing || c.write else if c.CallDisable? then e.writing && !c.write else e.writing)
    && f.readHigh == (if c.CallSetWatermark? then c.high else e.readHigh)
    && f.writeSuspended == (if c.CallSuspendWrite? then e.writeSuspended + {c.what}
                            else if c.CallUnsuspendWrite? then e.writeSuspended - {c.what} else e.writeSuspended)
    && f.readSuspended - {Watermark} == (if c.CallSuspendRead? then e.readSuspended + {c.what}
                                         else if c.CallUnsuspendRead? then e.readSuspended - {c.what}
                                         else e.readSuspended) - {Watermark}
    && f.sent == e.sent + (if c.CallWrite? then c.data else [])
    && f.got == e.got + (if c.CallRead? then e.input[..Min(c.n, |e.input|)] else [])
  }

  /** The settings of the other end stay as they are, but for the watermark's own suspension. */
  predicate OtherSettings(e: Elt, f: Elt) {
    SameSettings(e, f) && f.readSuspended - {Watermark} == e.readSuspended - {Watermark}
  }

  lemma TransferSettings(p: Pair, ignoreMark: bool)
    ensures var q := Transfer(p, ignoreMark);
            SameSettings(p.self, q.self) && q.self.readSuspended == p.self.readSuspended && OtherSettings(p.peer, q.peer)
  {
  }

  lemma PairEnableSettings(p: Pair, read: bool, write: bool)
    ensures OtherSettings(p.self, PairEnable(p, read, write).self) && OtherSettings(p.peer, PairEnable(p, read, write).peer)
  {
    hide Transfer;
    TransferSettings(Swap(p), false);
    TransferSettings(if read then Swap(Talk(Swap(p))) else p, false);
  }

  lemma UnsuspendSettings(p: Pair, what: Reason)
    ensures var q := UnsuspendRead(p, what);
            OtherSettings(p.self.(readSuspended := p.self.readSuspended - {what}), q.self) && OtherSettings(p.peer, q.peer)
  {
    hide PairEnable;
    PairEnableSettings(p.(self := p.self.(readSuspended := p.self.readSuspended - {what})), true, false);
  }

  lemma BufferSettings(p: Pair, c: Call)
    requires c.CallWrite? || c.CallRead? || c.CallSetWatermark? || c.CallFlush?
    ensures OwnSettings(p.self, c, Do(p, c).self) && OtherSettings(p.peer, Do(p, c).peer)
  {
    hide Transfer, PairEnable, UnsuspendRead;
    match c
    case CallWrite(data) =>
      TransferSettings(p.(self := p.self.(output := p.self.output + data, sent := p.self.sent + data)), false);
    case CallRead(n) =>
      var k := Min(n, |p.self.input|);
      UnsuspendSettings(p.(self := p.self.(input := p.self.input[k..], got := p.self.got + p.self.input[..k])), Watermark);
    case CallSetWatermark(high) =>
      UnsuspendSettings(p.(self := p.self.(readHigh := high)), Watermark);
    case CallFlush(read, write, mode) =>
      TransferSettings(Swap(p), true);
      TransferSettings(if read then Swap(Transfer(Swap(p), true)) else p, true);
  }

  lemma FlagSettings(p: Pair, c: Call)
    requires !(c.CallWrite? || c.CallRead? || c.CallSetWatermark? || c.CallFlush?)
    ensures OwnSettings(p.self, c, Do(p, c).self) && OtherSettings(p.peer, Do(p, c).peer)
  {
    hide Transfer, PairEnable, UnsuspendRead;
    match c
    case CallEnable(read, write) =>
      var s := p.self;
      PairEnableSettings(p.(self := s.(reading := s.reading || read, writing := s.writing || write)),
                         read && s.readSuspended == {}, write && s.writeSuspended == {});
    case CallUnsuspendRead(what) => UnsuspendSettings(p, what);
    case CallUnsuspendWrite(what) =>
      PairEnableSettings(p.(self := p.self.(writeSuspended := p.self.writeSuspended - {what})), false, true);
    case CallDisable(read, write) =>
    case CallSuspendRead(what) =>
    case CallSuspendWrite(what) =>
  }

  /** Every call changes the settings it names, and no others. */
  lemma CallSettings(p: Pair, c: Call)
    ensures OwnSettings(p.self, c, Do(p, c).self) && OtherSettings(p.peer, Do(p, c).peer)
  {
    hide Do, OwnSettings, OtherSettings;
    if c.CallWrite? || c.CallRead? || c.CallSetWatermark? || c.CallFlush? {
      BufferSettings(p, c);
    } else {
      FlagSettings(p, c);
    }
  }

  // ----- the high mark

  /** The watermark suspends reading only where the input is at its mark or above, and always where it is above. */
  predicate MarkHolds(e: Elt) {
    && (Watermark in e.readSuspended ==> e.readHigh != 0 && |e.input| >= e.readHigh)
    && (e.readHigh != 0 && |e.input| > e.readHigh ==> Watermark in e.readSuspended)
  }

  predicate BothMarks(p: Pair) {
    MarkHolds(p.self) && MarkHolds(p.peer)
  }

  /** No caller takes the watermark's suspension for his own. */
  predicate OwnReason(c: Call) {
    !(c.CallSuspendRead? && c.what == Watermark) && !(c.CallUnsuspendRead? && c.what == Watermark)
  }

  lemma TransferMark(p: Pair, ignoreMark: bool)
    requires BothMarks(p)
    ensures BothMarks(Transfer(p, ignoreMark))
  {
  }

  lemma PairEnableMark(p: Pair, read: bool, write: bool)
    requires BothMarks(p)
    ensures BothMarks(PairEnable(p, read, write))
  {
    hide Transfer, MarkHolds;
    TransferMark(Swap(p), false);
    TransferMark(if read then Swap(Talk(Swap(p))) else p, false);
  }

  lemma UnsuspendMark(p: Pair, what: Reason)
    requires BothMarks(p.(self := p.self.(readSuspended := p.self.readSuspended - {what})))
    ensures BothMarks(UnsuspendRead(p, what))
  {
    hide PairEnable, MarkHolds;
    PairEnableMark(p.(self := p.self.(readSuspended := p.self.readSuspended - {what})), true, false);
  }

  /** A new mark takes effect at once: above it reading is suspended, and below it, or without one, it goes on until the
      input reaches the mark. With the input just at the mark all stays as it is. */
  lemma MarkIsSet(p: Pair, high: nat)
    ensures var q := SetWatermark(p, high);
            && q.self.readHigh == high
            && (0 < high < |p.self.input| ==> Watermark in q.self.readSuspended && q.self.input == p.self.input)
            && (0 < high == |p.self.input| ==> q == p.(self := p.self.(readHigh := high)))
            && (high == 0 ==> Watermark !in q.self.readSuspended)
            && (|p.self.input| < high && Watermark in q.self.readSuspended ==> |q.self.input| == high)
  {
    hide Amount;
    var q := p.(self := p.self.(readHigh := high, readSuspended := p.self.readSuspended - {Watermark}));
    TalkToMark(Swap(q));
  }

  lemma TalkToMark(p: Pair)
    requires Watermark !in p.peer.readSuspended
    ensures var q := Talk(p);
            && q.peer.readHigh == p.peer.readHigh
            && (Watermark in q.peer.readSuspended && |p.peer.input| < p.peer.readHigh ==> |q.peer.input| == p.peer.readHigh)
            && (p.peer.readHigh == 0 ==> Watermark !in q.peer.readSuspended)
  {
  }

  lemma SetWatermarkMark(p: Pair, high: nat)
    requires BothMarks(p)
    ensures BothMarks(SetWatermark(p, high))
  {
    hide UnsuspendRead;
    var q := p.(self := p.self.(readHigh := high));
    if high == 0 || |q.self.input| < high {
      UnsuspendMark(q, Watermark);
    }
  }

  lemma ReadMark(p: Pair, n: nat)
    requires BothMarks(p)
    ensures BothMarks(PairModel.Read(p, n))
  {
    hide UnsuspendRead;
    var k := Min(n, |p.self.input|);
    var q := p.(self := p.self.(input := p.self.input[k..], got := p.self.got + p.self.input[..k]));
    if k != 0 && q.self.readHigh != 0 && |q.self.input| < q.self.readHigh {
      UnsuspendMark(q, Watermark);
    }
  }

  lemma SmallCallMark(p: Pair, c: Call)
    requires BothMarks(p) && OwnReason(c) && (c.CallDisable? || c.CallSuspendRead? || c.CallUnsuspendRead? || c.CallSuspendWrite?)
    ensures BothMarks(Do(p, c))
  {
    hide UnsuspendRead;
    if c.CallUnsuspendRead? {
      UnsuspendMark(p, c.what);
    }
  }

  lemma CallMark(p: Pair, c: Call)
    requires BothMarks(p) && OwnReason(c)
    ensures BothMarks(Do(p, c))
  {
    hide Transfer, PairEnable, SetWatermark, PairModel.Read, UnsuspendRead;
    match c
    case CallWrite(data) =>
      TransferMark(p.(self := p.self.(output := p.self.output + data, sent := p.self.sent + data)), false);
    case CallRead(n) => ReadMark(p, n);
    case CallEnable(read, write) =>
      var s := p.self;
      PairEnableMark(p.(self := s.(reading := s.reading || read, writing := s.writing || write)),
                     read && s.readSuspended == {}, write && s.writeSuspended == {});
    case CallSetWatermark(high) => SetWatermarkMark(p, high);
    case CallUnsuspendWrite(what) =>
      PairEnableMark(p.(self := p.self.(writeSuspended := p.self.writeSuspended - {what})), false, true);
    case CallFlush(read, write, mode) =>
      TransferMark(Swap(p), true);
      TransferMark(if read then Swap(Transfer(Swap(p), true)) else p, true);
    case CallDisable(read, write) => SmallCallMark(p, c);
    case CallSuspendRead(what) => SmallCallMark(p, c);
    case CallUnsuspendRead(what) => SmallCallMark(p, c);
    case CallSuspendWrite(what) => SmallCallMark(p, c);
  }

  lemma {:induction false} RunMark(p: Pair, events: seq<Event>)
    requires BothMarks(p) && forall i :: 0 <= i < |events| ==> OwnReason(events[i].call)
    ensures BothMarks(Run(p, events))
    decreases |events|
  {
    hide Do, MarkHolds, OwnReason;
    if events != [] {
      var e := events[0];
      CallMark(if e.other then Swap(p) else p, e.call);
      assert forall i :: 0 <= i < |events[1..]| ==> events[1..][i] == events[i + 1];
      RunMark(Next(p, e), events[1..]);
    }
  }

  /** In every run on a new pair, flushes included, the watermark stops an end only at its mark or above, and always above. */
  lemma RunMarkFromFresh(events: seq<Event>)
    requires forall i :: 0 <= i < |events| ==> OwnReason(events[i].call)
    ensures BothMarks(Run(Pair(FRESH, FRESH), events))
  {
    hide Run, OwnReason;
    RunMark(Pair(FRESH, FRESH), events);
  }

  // ----- who gets bytes

  /** One end may get bytes from the other. */
  predicate MayGet(src: Elt, dst: Elt) {
    src.writing && dst.reading && dst.readSuspended == {}
  }

  lemma TalkMoves(p: Pair)
    ensures var q := Talk(p);
            && (q.peer.input != p.peer.input ==> MayGet(p.self, p.peer)) && q.self.input == p.self.input
            && q.self.writing == p.self.writing && q.self.reading == p.self.reading && q.self.readSuspended == p.self.readSuspended
            && q.peer.writing == p.peer.writing && q.peer.reading == p.peer.reading
            && q.peer.readSuspended <= p.peer.readSuspended + {Watermark}
  {
    hide Amount;
  }

  lemma PairEnableMoves(p: Pair, read: bool, write: bool)
    ensures var q := PairEnable(p, read, write);
            && (q.peer.input != p.peer.input ==> MayGet(p.self, p.peer)) && (q.self.input != p.self.input ==> MayGet(p.peer, p.self))
            && q.self.writing == p.self.writing && q.self.reading == p.self.reading
            && q.self.readSuspended <= p.self.readSuspended + {Watermark}
  {
    hide Talk, MayGet;
    TalkMoves(Swap(p));
    var q := if read then Swap(Talk(Swap(p))) else p;
    TalkMoves(q);
    SameMayGet(p, q);
  }

  lemma SameMayGet(p: Pair, q: Pair)
    requires q.self.writing == p.self.writing && q.peer.reading == p.peer.reading && q.peer.readSuspended == p.peer.readSuspended
    ensures MayGet(q.self, q.peer) == MayGet(p.self, p.peer)
  {
  }

  /** Bytes come only to an end that reads, is not suspended, and has a partner that writes; a flush asks neither. */
  lemma CallMovesOnly(p: Pair, c: Call)
    requires !c.CallFlush?
    ensures var q := Do(p, c);
            && (q.peer.input != p.peer.input ==> q.self.writing && p.peer.reading && p.peer.readSuspended == {})
            && (q.self.input != (if c.CallRead? then p.self.input[Min(c.n, |p.self.input|)..] else p.self.input)
                ==> p.peer.writing && q.self.reading && q.self.readSuspended <= {Watermark})
  {
    hide Talk, PairEnable;
    match c
    case CallWrite(data) =>
      TalkMoves(p.(self := p.self.(output := p.self.output + data, sent := p.self.sent + data)));
    case CallRead(n) =>
      var k := Min(n, |p.self.input|);
      PairEnableMoves(p.(self := p.self.(input := p.self.input[k..], got := p.self.got + p.self.input[..k],
                                         readSuspended := p.self.readSuspended - {Watermark})), true, false);
    case CallEnable(read, write) =>
      var s := p.self;
      PairEnableMoves(p.(self := s.(reading := s.reading || read, writing := s.writing || write)),
                      read && s.readSuspended == {}, write && s.writeSuspended == {});
    case CallDisable(read, write) =>
    case CallSetWatermark(high) =>
      PairEnableMoves(p.(self := p.self.(readHigh := high, readSuspended := p.self.readSuspended - {Watermark})), true, false);
    case CallSuspendRead(what) =>
    case CallUnsuspendRead(what) =>
      PairEnableMoves(p.(self := p.self.(readSuspended := p.self.readSuspended - {what})), true, false);
    case CallSuspendWrite(what) =>
    case CallUnsuspendWrite(what) =>
      PairEnableMoves(p.(self := p.self.(writeSuspended := p.self.writeSuspended - {what})), false, true);
  }

  // ----- bytes that arrive at a mark

  /** The watermark suspends an end exactly at its mark and above. */
  predicate MarkExact(e: Elt) {
    e.readHigh != 0 ==> (Watermark in e.readSuspended <==> |e.input| >= e.readHigh)
  }

  /** What a call has done to an end: nothing has arrived there, or its mark has been looked at since. */
  predicate Looked(e: Elt, f: Elt) {
    f.input == e.input || MarkExact(f)
  }

  /** As it was, or looked at since. */
  predicate SameOrLooked(e: Elt, f: Elt) {
    (f.input == e.input && f.readSuspended == e.readSuspended && f.readHigh == e.readHigh) || MarkExact(f)
  }

  lemma TransferLooks(p: Pair, ignoreMark: bool)
    ensures var q := Transfer(p, ignoreMark);
            SameOrLooked(p.peer, q.peer) && q.self.input == p.self.input && q.self.readSuspended == p.self.readSuspended
            && q.self.readHigh == p.self.readHigh
  {
    var k := Amount(p.self, p.peer, ignoreMark);
    assert k == 0 ==> p.peer.input + p.self.output[..k] == p.peer.input;
  }

  lemma EnableLooks(p: Pair, read: bool, write: bool)
    ensures SameOrLooked(p.self, PairEnable(p, read, write).self) && SameOrLooked(p.peer, PairEnable(p, read, write).peer)
  {
    hide Transfer;
    TransferLooks(Swap(p), false);
    TransferLooks(if read then Swap(Talk(Swap(p))) else p, false);
  }

  lemma FlushLooks(p: Pair, read: bool, write: bool, mode: FlushMode)
    ensures SameOrLooked(p.self, FlushPair(p, read, write, mode).self) && SameOrLooked(p.peer, FlushPair(p, read, write, mode).peer)
  {
    hide Transfer;
    TransferLooks(Swap(p), true);
    TransferLooks(if read then Swap(Transfer(Swap(p), true)) else p, true);
  }

  lemma ReadLooks(p: Pair, n: nat)
    ensures Looked(p.self, PairModel.Read(p, n).self) && Looked(p.peer, PairModel.Read(p, n).peer)
  {
    hide PairEnable;
    var k := Min(n, |p.self.input|);
    var q := p.(self := p.self.(input := p.self.input[k..], got := p.self.got + p.self.input[..k],
                                readSuspended := p.self.readSuspended - {Watermark}));
    EnableLooks(q, true, false);
  }

  /** Whenever a call makes bytes arrive at an end with a mark, or takes some from it, the watermark suspends that end
      afterwards if and only if its input is at the mark or above, whatever suspended it before. */
  lemma ArrivalLooks(p: Pair, c: Call)
    ensures Looked(p.self, Do(p, c).self) && Looked(p.peer, Do(p, c).peer)
  {
    hide Transfer, PairEnable, FlushPair, PairModel.Read;
    match c
    case CallWrite(data) =>
      TransferLooks(p.(self := p.self.(output := p.self.output + data, sent := p.self.sent + data)), false);
    case CallRead(n) => ReadLooks(p, n);
    case CallEnable(read, write) =>
      var s := p.self;
      EnableLooks(p.(self := s.(reading := s.reading || read, writing := s.writing || write)),
                  read && s.readSuspended == {}, write && s.writeSuspended == {});
    case CallDisable(read, write) =>
    case CallSetWatermark(high) =>
      EnableLooks(p.(self := p.self.(readHigh := high, readSuspended := p.self.readSuspended - {Watermark})), true, false);
    case CallSuspendRead(what) =>
    case CallUnsuspendRead(what) =>
      EnableLooks(p.(self := p.self.(readSuspended := p.self.readSuspended - {what})), true, false);
    case CallSuspendWrite(what) =>
    case CallUnsuspendWrite(what) =>
      EnableLooks(p.(self := p.self.(writeSuspended := p.self.writeSuspended - {what})), false, true);
    case CallFlush(read, write, mode) => FlushLooks(p, read, write, mode);
  }

  // ----- runs in which bytes arrive

  lemma PeerReads(p: Pair)
    requires p == Pair(FRESH, FRESH)
    ensures Next(p, Event(true, CallEnable(true, false))) == Pair(FRESH, FRESH.(reading := true))
  {
  }

  /** With a mark below what is written, exactly the bytes up to the mark arrive, the rest waits, and reading is suspended. */
  lemma MarkStopsWrite(high: nat, data: seq<Byte>)
    requires 0 < high < |data|
    ensures var events := [Event(true, CallEnable(true, false)), Event(true, CallSetWatermark(high)), Event(false, CallWrite(data))];
            var q := Run(Pair(FRESH, FRESH), events);
            q.peer.input == data[..high] && q.self.output == data[high..] && q.peer.readSuspended == {Watermark} && q.peer.readHigh == high
  {
    hide Run, Do;
    var fresh0, willing := Pair(FRESH, FRESH), Pair(FRESH, FRESH.(reading := true));
    var marked := Pair(FRESH, FRESH.(reading := true, readHigh := high));
    var e0, e1, e2 := Event(true, CallEnable(true, false)), Event(true, CallSetWatermark(high)), Event(false, CallWrite(data));
    PeerReads(fresh0);
    MarkSet(willing, high);
    MarkedWrite(marked, high, data);
    assert [e0] + ([e1] + ([e2] + [])) == [e0, e1, e2];
    RunStep(fresh0, e0, [e1] + ([e2] + []));
    RunStep(willing, e1, [e2] + []);
    RunStep(marked, e2, []);
    NoEvents(Next(marked, e2));
  }

  lemma MarkSet(p: Pair, high: nat)
    requires p == Pair(FRESH, FRESH.(reading := true)) && 0 < high
    ensures Next(p, Event(true, CallSetWatermark(high))) == Pair(FRESH, FRESH.(reading := true, readHigh := high))
  {
    assert {} - {Watermark} == {};
  }

  lemma MarkedWrite(p: Pair, high: nat, data: seq<Byte>)
    requires 0 < high < |data| && p == Pair(FRESH, FRESH.(reading := true, readHigh := high))
    ensures var q := Next(p, Event(false, CallWrite(data)));
            q.peer.input == data[..high] && q.self.output == data[high..] && q.peer.readSuspended == {Watermark} && q.peer.readHigh == high
  {
    assert [] + data == data && {} + {Watermark} == {Watermark};
  }

  /** What is written to an end is what a partner that reads gets. */
  lemma WrittenIsGot(data: seq<Byte>, n: nat)
    requires n >= |data|
    ensures var events := [Event(true, CallEnable(true, false)), Event(false, CallWrite(data)), Event(true, CallRead(n))];
            var q := Run(Pair(FRESH, FRESH), events);
            q.peer.got == data && q.peer.input == [] && q.self.output == []
  {
    hide Run, Do;
    var fresh0, willing := Pair(FRESH, FRESH), Pair(FRESH, FRESH.(reading := true));
    var there := Pair(FRESH.(sent := data), FRESH.(reading := true, input := data));
    var e0, e1, e2 := Event(true, CallEnable(true, false)), Event(false, CallWrite(data)), Event(true, CallRead(n));
    PeerReads(fresh0);
    PlainWrite(willing, data);
    PlainRead(there, data, n);
    assert [e0] + ([e1] + ([e2] + [])) == [e0, e1, e2];
    RunStep(fresh0, e0, [e1] + ([e2] + []));
    RunStep(willing, e1, [e2] + []);
    RunStep(there, e2, []);
    NoEvents(Next(there, e2));
  }

  lemma PlainWrite(p: Pair, data: seq<Byte>)
    requires p == Pair(FRESH, FRESH.(reading := true))
    ensures Next(p, Event(false, CallWrite(data))) == Pair(FRESH.(sent := data), FRESH.(reading := true, input := data))
  {
    assert [] + data == data && data[|data|..] == [] && data[..|data|] == data;
  }

  lemma PlainRead(p: Pair, data: seq<Byte>, n: nat)
    requires n >= |data| && p == Pair(FRESH.(sent := data), FRESH.(reading := true, input := data))
    ensures var q := Next(p, Event(true, CallRead(n))); q.peer.got == data && q.peer.input == [] && q.self.output == []
  {
    assert [] + data == data && data[..|data|] == data;
  }
}
