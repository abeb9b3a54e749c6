/** Two linked bufferevents as objects; PairModel says what each method does, seen from the end it is called on. */
module BuffereventPair {
  import opened Basics
  import opened PairModel

  class Bufferevent {
    var partner: Bufferevent?
    var input: seq<Byte>
    var output: seq<Byte>
    var reading: bool
    var writing: bool
    var readSuspended: set<Reason>
    var writeSuspended: set<Reason>
    var readHigh: nat
    var markCallback: bool
    ghost var sent: seq<Byte>
    ghost var got: seq<Byte>

    ghost predicate Linked()
      reads this, partner
    {
      && partner != null && partner != this && partner.partner == this
      && (markCallback <==> readHigh != 0) && (partner.markCallback <==> partner.readHigh != 0)
    }

    ghost function AsElt(): Elt
      reads this
    {
      Elt(input, output, reading, writing, readSuspended, writeSuspended, readHigh, sent, got)
    }

    ghost function View(): Pair
      requires Linked()
      reads this, partner
    {
      Pair(AsElt(), partner.AsElt())
    }

    ghost function Waiting(): nat
      requires Linked()
      reads this, partner
    {
      |output| + |partner.output|
    }

    constructor ()
      ensures partner == null && AsElt() == FRESH && !markCallback
    {
      partner, input, output := null, [], [];
      reading, writing, readSuspended, writeSuspended := false, true, {}, {};
      readHigh, markCallback, sent, got := 0, false, [], [];
    }

    /** A new pair of linked ends. */
    static method NewPair() returns (a: Bufferevent, b: Bufferevent)
      ensures fresh(a) && fresh(b) && a.Linked() && a.partner == b && a.View() == Pair(FRESH, FRESH)
    {
      a := new Bufferevent();
      b := new Bufferevent();
      a.partner := b;
      b.partner := a;
    }

    // ----- moving bytes

    predicate Wants(dst: Bufferevent)
      reads this, dst
    {
      writing && dst.reading && dst.readSuspended == {} && output != []
    }

    /** Moves up to n bytes at once, and then runs the callbacks of the buffer that has grown. */
    method RemoveBuffer(n: nat)
      requires Linked()
      modifies this, partner
      ensures Linked() && partner == old(partner)
      ensures var p := old(View());
              View() == if Min(n, |p.self.output|) == 0 then p
                        else Swap(MarkCallback(Swap(Pair(
                               p.self.(output := p.self.output[Min(n, |p.self.output|)..]),
                               p.peer.(input := p.peer.input + p.self.output[..Min(n, |p.self.output|)])))))
      decreases Waiting(), 0
    {
      var k := Min(n, |output|);
      if k != 0 {
        partner.input := partner.input + output[..k];
        output := output[k..];
        partner.InputChanged();
      }
    }

    /** Moves bytes to the partner. */
    method BeTransfer(ignoreMark: bool)
      requires Linked()
      modifies this, partner
      ensures Linked() && partner == old(partner)
      ensures View() == Transfer(old(View()), ignoreMark)
      decreases Waiting(), 1
    {
      hide MarkCallback;
      TransferIsRemove(View(), ignoreMark);
      if partner.readHigh != 0 {
        if |partner.input| < partner.readHigh {
          RemoveBuffer(partner.readHigh - |partner.input|);
        } else if ignoreMark {
          RemoveBuffer(|output|);
        }
      } else {
        RemoveBuffer(|output|);
      }
    }

    /** The watermark's callback, where it is set. */
    method InputChanged()
      requires Linked()
      modifies this, partner
      ensures Linked() && partner == old(partner)
      ensures View() == MarkCallback(old(View()))
      decreases Waiting(), 5
    {
      if markCallback {
        if |input| >= readHigh {
          SuspendReading(Watermark);
        } else {
          UnsuspendReading(Watermark);
        }
      }
    }

    // ----- suspending and enabling

    method SuspendReading(what: Reason)
      requires Linked()
      modifies this
      ensures Linked() && partner == old(partner)
      ensures View() == SuspendRead(old(View()), what)
    {
      readSuspended := readSuspended + {what};
    }

    method UnsuspendReading(what: Reason)
      requires Linked()
      modifies this, partner
      ensures Linked() && partner == old(partner)
      ensures View() == UnsuspendRead(old(View()), what)
      decreases Waiting(), 4
    {
      readSuspended := readSuspended - {what};
      if readSuspended == {} && reading {
        BeEnable(true, false);
      }
    }

    method SuspendWriting(what: Reason)
      requires Linked()
      modifies this
      ensures Linked() && partner == old(partner)
      ensures View() == SuspendWrite(old(View()), what)
    {
      writeSuspended := writeSuspended + {what};
    }

    method UnsuspendWriting(what: Reason)
      requires Linked()
      modifies this, partner
      ensures Linked() && partner == old(partner)
      ensures View() == UnsuspendWrite(old(View()), what)
      decreases Waiting(), 4
    {
      writeSuspended := writeSuspended - {what};
      if writeSuspended == {} && writing {
        BeEnable(false, true);
      }
    }

    /** What there is to hand over is handed over. */
    method BeEnable(read: bool, write: bool)
      requires Linked()
      modifies this, partner
      ensures Linked() && partner == old(partner)
      ensures View() == PairEnable(old(View()), read, write)
      decreases Waiting(), 3
    {
      ghost var p := View();
      if read && partner.Wants(this) {
        partner.BeTransfer(false);
        TransferLessens(Swap(p));
      }
      if write && Wants(partner) {
        BeTransfer(false);
      }
    }

    // ----- calls

    method EnableEvents(read: bool, write: bool)
      requires Linked()
      modifies this, partner
      ensures Linked() && partner == old(partner)
      ensures View() == Enable(old(View()), read, write)
    {
      hide PairEnable;
      var implRead, implWrite := read && readSuspended == {}, write && writeSuspended == {};
      reading, writing := reading || read, writing || write;
      BeEnable(implRead, implWrite);
    }

    method DisableEvents(read: bool, write: bool)
      requires Linked()
      modifies this
      ensures Linked() && partner == old(partner)
      ensures View() == Disable(old(View()), read, write)
    {
      reading, writing := reading && !read, writing && !write;
    }

    method WriteBytes(data: seq<Byte>)
      requires Linked()
      modifies this, partner
      ensures Linked() && partner == old(partner)
      ensures View() == Write(old(View()), data)
    {
      output := output + data;
      sent := sent + data;
      if data != [] && Wants(partner) {
        BeTransfer(false);
      }
    }

    method ReadBytes(n: nat) returns (data: seq<Byte>)
      requires Linked()
      modifies this, partner
      ensures Linked() && partner == old(partner)
      ensures View() == PairModel.Read(old(View()), n) && data == old(input[..Min(n, |input|)])
    {
      var k := Min(n, |input|);
      data := input[..k];
      if k != 0 {
        input := input[k..];
        got := got + data;
        InputChanged();
      }
    }

    method SetReadWatermark(high: nat)
      requires Linked()
      modifies this, partner
      ensures Linked() && partner == old(partner)
      ensures View() == SetWatermark(old(View()), high)
    {
      readHigh := high;
      markCallback := high != 0;
      if high != 0 {
        if |input| > high {
          SuspendReading(Watermark);
        } else if |input| < high {
          UnsuspendReading(Watermark);
        }
      } else {
        UnsuspendReading(Watermark);
      }
    }

    method FlushEvents(read: bool, write: bool, mode: FlushMode)
      requires Linked()
      modifies this, partner
      ensures Linked() && partner == old(partner)
      ensures View() == FlushPair(old(View()), read, write, mode)
    {
      if mode == Normal {
        return;
      }
      if read {
        partner.BeTransfer(true);
      }
      if write {
        BeTransfer(true);
      }
    }
  }

  /** The callbacks that a move sets off find nothing more to move. */
  lemma TransferIsRemove(p: Pair, ignoreMark: bool)
    ensures var k := Amount(p.self, p.peer, ignoreMark);
            var q := Pair(p.self.(output := p.self.output[k..]), p.peer.(input := p.peer.input + p.self.output[..k]));
            Transfer(p, ignoreMark) == if k == 0 then p else Swap(MarkCallback(Swap(q)))
  {
  }

  lemma TransferLessens(p: Pair)
    ensures |Transfer(p, false).self.output| <= |p.self.output| && Transfer(p, false).peer.output == p.peer.output
  {
  }
}
