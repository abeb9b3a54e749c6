/** Messages on a byte stream: a length, a code and data, however the stream is cut into arrivals. */
module Frames {
  import opened Octets
  import NetBuffer
  import opened Widths

  /** A message as its handlers see it: length is what the frame claims, data what lies inside the frame. */
  datatype Message = Message(code: nat, length: nat, data: seq<Octet>)

  /** Whether the buffer starts with a whole frame, and how many bytes the parser then takes. */
  datatype Parsed = More | Got(message: Message, taken: nat)

  /** Lengths are words: four more may wrap around, and so may the length less the code. */
  function Parse(buf: seq<Octet>, codeSize: nat): (p: Parsed)
    ensures p.Got? ==> p.taken <= |buf| && |buf| >= 4 + codeSize
  {
    if |buf| < 4 + codeSize then More
    else
      var len := Unpack(buf[..4]);
      var taken := (len + 4) % WORD;
      if |buf| < taken then More
      else Got(Message(Unpack(buf[4..4 + codeSize]), (len - codeSize) % WORD, Body(buf, codeSize, taken)), taken)
  }

  function Body(buf: seq<Octet>, codeSize: nat, taken: nat): seq<Octet>
    requires taken <= |buf|
  {
    if 4 + codeSize <= taken then buf[4 + codeSize..taken] else []
  }

  /** What the parser's loop does with a buffer: the messages it emits and the bytes it leaves,
      or that it goes on for ever with a frame of which it takes nothing. */
  datatype Outcome = Outcome(messages: seq<Message>, rest: seq<Octet>, stuck: bool)

  function Drain(buf: seq<Octet>, codeSize: nat): Outcome
    decreases |buf|
  {
    match Parse(buf, codeSize)
    case More => Outcome([], buf, false)
    case Got(message, taken) =>
      if taken == 0 then Outcome([], buf, true)
      else
        Before(message, Drain(buf[taken..], codeSize))
  }

  function Before(message: Message, o: Outcome): Outcome {
    o.(messages := [message] + o.messages)
  }

  // ----- the loop, in place

  class MessageProcessor {
    const codeSize: nat
    ghost var emitted: seq<Message>

    constructor (codeSize: nat)
      ensures this.codeSize == codeSize && emitted == []
    {
      this.codeSize, emitted := codeSize, [];
    }

    /** Emits the first message of the buffer if it is all there; handlers leave the buffer alone. */
    method ParseMessage(buffer: NetBuffer.Buffer) returns (taken: nat, again: bool)
      requires buffer.Valid()
      modifies this`emitted, buffer`pos, buffer`count
      ensures buffer.Valid()
      ensures match Parse(old(buffer.Contents()), codeSize)
              case More => !again && taken == 0 && buffer.Contents() == old(buffer.Contents()) && emitted == old(emitted)
              case Got(message, n) =>
                taken == n && buffer.Contents() == old(buffer.Contents())[n..] && emitted == old(emitted) + [message]
                && again == (buffer.Contents() != [])
    {
      hide Unpack;
      taken, again := 0, false;
      var count := buffer.count;
      ghost var all := buffer.Contents();
      if count < 4 + codeSize {
        return;
      }
      var inbuf := buffer.ptr[buffer.pos..buffer.pos + buffer.count];
      var len := Unpack(inbuf[..4]);
      var mtype := Unpack(inbuf[4..4 + codeSize]);
      if count < (len + 4) % WORD {
        return;
      }
      emitted := emitted + [Message(mtype, (len - codeSize) % WORD, Body(inbuf, codeSize, (len + 4) % WORD))];
      taken := (len + 4) % WORD;
      buffer.Seek(taken);
      again := buffer.count != 0;
    }

    /** Parses until the data runs out; stuck says that the loop would not end. */
    method OnDataReceived(buffer: NetBuffer.Buffer) returns (stuck: bool)
      requires buffer.Valid()
      modifies this`emitted, buffer`pos, buffer`count
      ensures buffer.Valid()
      ensures var o := Drain(old(buffer.Contents()), codeSize);
              stuck == o.stuck && (!stuck ==> buffer.Contents() == o.rest && emitted == old(emitted) + o.messages)
    {
      hide Parse;
      stuck := false;
      var again := true;
      while again
        invariant buffer.Valid()
        invariant var o := Drain(old(buffer.Contents()), codeSize);
                  var r := Drain(buffer.Contents(), codeSize);
                  o.stuck == r.stuck && o.rest == r.rest && old(emitted) + o.messages == emitted + r.messages
        invariant !again ==> Drain(buffer.Contents(), codeSize) == Outcome([], buffer.Contents(), false)
        decreases |buffer.Contents()|, again
      {
        ghost var before := buffer.Contents();
        ghost var done := emitted;
        DrainNothing(codeSize);
        var taken;
        taken, again := ParseMessage(buffer);
        if again && taken == 0 {
          return true;
        }
        assert forall m: Message, ms :: done + ([m] + ms) == done + [m] + ms;
      }
    }

    /** Puts a message on the stream behind its length. */
    method SendMessage(content: seq<Octet>, sendBuffer: NetBuffer.Buffer)
      requires sendBuffer.Valid()
      requires |content| + 8 + sendBuffer.count + sendBuffer.pos < NetBuffer.INT_LIMIT - NetBuffer.CHUNK_SIZE
      modifies sendBuffer, sendBuffer.ptr
      ensures sendBuffer.Valid() && sendBuffer.Contents() == old(sendBuffer.Contents()) + Frame(content)
    {
      var n := |content|;
      var buf := [n % 256, n / 256 % 256, n / 65536 % 256, n / 16777216 % 256];
      PackFour(n);
      sendBuffer.Append(buf);
      sendBuffer.Append(content);
    }
  }

  lemma PackFour(n: nat)
    ensures Pack(n, 4) == [n % 256, n / 256 % 256, n / 65536 % 256, n / 16777216 % 256]
  {
    assert Pack(n / 256 / 256 / 256, 1) == [n / 256 / 256 / 256 % 256] + Pack(n / 256 / 256 / 256 / 256, 0);
    assert Pack(n / 256 / 256, 2) == [n / 256 / 256 % 256] + Pack(n / 256 / 256 / 256, 1);
    assert Pack(n / 256, 3) == [n / 256 % 256] + Pack(n / 256 / 256, 2);
  }

  lemma DrainNothing(codeSize: nat)
    ensures Drain([], codeSize) == Outcome([], [], false)
  {
  }

  // ----- arrivals

  /** A frame that is there stays the same when more arrives. */
  lemma ParseStays(a: seq<Octet>, b: seq<Octet>, codeSize: nat)
    requires Parse(a, codeSize).Got?
    ensures Parse(a + b, codeSize) == Parse(a, codeSize)
  {
    var taken := Parse(a, codeSize).taken;
    assert (a + b)[..4] == a[..4] && (a + b)[4..4 + codeSize] == a[4..4 + codeSize];
    if 4 + codeSize <= taken {
      assert (a + b)[4 + codeSize..taken] == a[4 + codeSize..taken];
    }
  }

  /** Parsing what arrives second after the rest of what arrived first gives what parsing all at once gives. */
  lemma {:induction false} DrainConcat(a: seq<Octet>, b: seq<Octet>, codeSize: nat)
    ensures var o := Drain(a, codeSize);
            Drain(a + b, codeSize)
            == if o.stuck then Outcome(o.messages, o.rest + b, true)
               else var r := Drain(o.rest + b, codeSize); r.(messages := o.messages + r.messages)
    decreases |a|
  {
    hide Parse, Drain;
    DrainOnce(a, codeSize);
    match Parse(a, codeSize)
    case More =>
      Unchanged(Drain(a + b, codeSize));
    case Got(message, taken) =>
      ParseStays(a, b, codeSize);
      DrainOnce(a + b, codeSize);
      if taken == 0 {
        assert [] + b == b;
      } else {
        assert (a + b)[taken..] == a[taken..] + b;
        DrainConcat(a[taken..], b, codeSize);
        Assoc(message, Drain(a[taken..], codeSize), Drain(Drain(a[taken..], codeSize).rest + b, codeSize));
      }
  }

  lemma Unchanged(o: Outcome)
    ensures o.(messages := [] + o.messages) == o
  {
    assert [] + o.messages == o.messages;
  }

  lemma Assoc(m: Message, o: Outcome, r: Outcome)
    ensures [m] + (o.messages + r.messages) == [m] + o.messages + r.messages
  {
  }

  lemma DrainOnce(buf: seq<Octet>, codeSize: nat)
    ensures Parse(buf, codeSize).More? ==> Drain(buf, codeSize) == Outcome([], buf, false)
    ensures Parse(buf, codeSize).Got? && Parse(buf, codeSize).taken == 0 ==> Drain(buf, codeSize) == Outcome([], buf, true)
    ensures Parse(buf, codeSize).Got? && Parse(buf, codeSize).taken > 0 ==>
              Drain(buf, codeSize) == Before(Parse(buf, codeSize).message, Drain(buf[Parse(buf, codeSize).taken..], codeSize))
  {
    hide Parse;
  }

  /** Each arrival is put behind what is left and parsed, until one gets stuck. */
  function DrainAll(rest: seq<Octet>, arrivals: seq<seq<Octet>>, codeSize: nat): Outcome
    decreases |arrivals|
  {
    if arrivals == [] then Drain(rest, codeSize)
    else
      var o := Drain(rest + arrivals[0], codeSize);
      if o.stuck then Outcome(o.messages, o.rest + Flatten(arrivals[1..]), true)
      else var r := DrainAll(o.rest, arrivals[1..], codeSize); r.(messages := o.messages + r.messages)
  }

  function Flatten(arrivals: seq<seq<Octet>>): seq<Octet> {
    if arrivals == [] then [] else arrivals[0] + Flatten(arrivals[1..])
  }

  /** However a stream is cut, the messages, what is left, and whether the loop ends are the same. */
  lemma {:induction false} CutsDoNotMatter(rest: seq<Octet>, arrivals: seq<seq<Octet>>, codeSize: nat)
    ensures DrainAll(rest, arrivals, codeSize) == Drain(rest + Flatten(arrivals), codeSize)
    decreases |arrivals|
  {
    if arrivals == [] {
      assert rest + Flatten(arrivals) == rest;
    } else {
      var o := Drain(rest + arrivals[0], codeSize);
      assert rest + Flatten(arrivals) == (rest + arrivals[0]) + Flatten(arrivals[1..]);
      DrainConcat(rest + arrivals[0], Flatten(arrivals[1..]), codeSize);
      if !o.stuck {
        CutsDoNotMatter(o.rest, arrivals[1..], codeSize);
      }
    }
  }

  // ----- framing

  /** What sending a message puts on the stream. */
  function Frame(content: seq<Octet>): seq<Octet> {
    Pack(|content|, 4) + content
  }

  /** A message whose code is whole and whose length leaves room for four more. */
  predicate Sendable(content: seq<Octet>, codeSize: nat) {
    codeSize <= |content| < WORD - 4
  }

  function AsMessage(content: seq<Octet>, codeSize: nat): Message
    requires codeSize <= |content|
  {
    Message(Unpack(content[..codeSize]), |content| - codeSize, content[codeSize..])
  }

  function FrameAll(contents: seq<seq<Octet>>): seq<Octet> {
    if contents == [] then [] else Frame(contents[0]) + FrameAll(contents[1..])
  }

  function AsMessages(contents: seq<seq<Octet>>, codeSize: nat): seq<Message>
    requires forall c :: c in contents ==> Sendable(c, codeSize)
  {
    if contents == [] then []
    else
      assert Sendable(contents[0], codeSize);
      [AsMessage(contents[0], codeSize)] + AsMessages(contents[1..], codeSize)
  }

  lemma ParseFrame(content: seq<Octet>, rest: seq<Octet>, codeSize: nat)
    requires Sendable(content, codeSize)
    ensures Parse(Frame(content) + rest, codeSize) == Got(AsMessage(content, codeSize), |content| + 4)
  {
    hide Pack, Unpack;
    PackUnpack32(|content|);
    Slices(Pack(|content|, 4), content, rest, codeSize);
  }

  lemma Slices(head: seq<Octet>, content: seq<Octet>, rest: seq<Octet>, k: nat)
    requires |head| == 4 && k <= |content|
    ensures var buf := head + content + rest;
            buf[..4] == head && buf[4..4 + k] == content[..k] && buf[4 + k..|content| + 4] == content[k..]
  {
  }

  /** A stream of framed messages and the start of another gives back the messages and leaves that start. */
  lemma {:induction false} FramesComeBack(contents: seq<seq<Octet>>, rest: seq<Octet>, codeSize: nat)
    requires (forall c :: c in contents ==> Sendable(c, codeSize)) && Parse(rest, codeSize) == More
    ensures Drain(FrameAll(contents) + rest, codeSize) == Outcome(AsMessages(contents, codeSize), rest, false)
    decreases |contents|
  {
    hide Parse, Frame;
    if contents == [] {
      assert FrameAll(contents) + rest == rest;
    } else {
      var tail := FrameAll(contents[1..]) + rest;
      assert FrameAll(contents) + rest == Frame(contents[0]) + tail;
      ParseFrame(contents[0], tail, codeSize);
      FrameLength(contents[0]);
      assert (Frame(contents[0]) + tail)[|contents[0]| + 4..] == tail;
      FramesComeBack(contents[1..], rest, codeSize);
    }
  }

  /** However a stream of framed messages is cut, exactly these messages are emitted, and an unfinished frame is left. */
  lemma StreamArrives(contents: seq<seq<Octet>>, rest: seq<Octet>, arrivals: seq<seq<Octet>>, codeSize: nat)
    requires (forall c :: c in contents ==> Sendable(c, codeSize)) && Parse(rest, codeSize) == More
    requires Flatten(arrivals) == FrameAll(contents) + rest
    ensures DrainAll([], arrivals, codeSize) == Outcome(AsMessages(contents, codeSize), rest, false)
  {
    hide Drain, DrainAll, Parse;
    CutsDoNotMatter([], arrivals, codeSize);
    assert [] + Flatten(arrivals) == Flatten(arrivals);
    FramesComeBack(contents, rest, codeSize);
  }

  lemma FrameLength(content: seq<Octet>)
    ensures |Frame(content)| == |content| + 4
  {
  }

  // ----- lengths that frames claim

  /** A message has as many bytes as it claims if and only if its frame has room for the code, and four more do not wrap. */
  lemma LengthIsDataIff(buf: seq<Octet>, codeSize: nat)
    requires codeSize < WORD - 4 && Parse(buf, codeSize).Got?
    ensures var m, len := Parse(buf, codeSize).message, Unpack(buf[..4]);
            m.length == |m.data| <==> codeSize <= len < WORD - 4
  {
    hide Unpack, Body;
    Powers();
    var len := Unpack(buf[..4]);
    assert len < WORD;
    BodyLength(buf, codeSize, (len + 4) % WORD);
    if len < WORD - 4 {
      assert (len + 4) % WORD == len + 4;
    } else {
      assert (len + 4) % WORD == len + 4 - WORD;
    }
    if len < codeSize {
      assert (len - codeSize) % WORD == len - codeSize + WORD;
    } else {
      assert (len - codeSize) % WORD == len - codeSize;
    }
  }

  lemma BodyLength(buf: seq<Octet>, codeSize: nat, taken: nat)
    requires taken <= |buf|
    ensures |Body(buf, codeSize, taken)| == if 4 + codeSize <= taken then taken - 4 - codeSize else 0
  {
  }

  /** A frame too short for its code takes the code from what follows it, has no data and claims nearly 2^32 bytes. */
  lemma ShortFrameClaims(n: nat, rest: seq<Octet>, codeSize: nat)
    requires n < codeSize <= |rest| && codeSize < WORD - 4
    ensures Parse(Pack(n, 4) + rest, codeSize) == Got(Message(Unpack(rest[..codeSize]), WORD - (codeSize - n), []), n + 4)
  {
    hide Pack, Unpack;
    PackUnpack32(n);
    var buf := Pack(n, 4) + rest;
    assert buf[..4] == Pack(n, 4) && buf[4..4 + codeSize] == rest[..codeSize];
    assert (n - codeSize) % WORD == WORD - (codeSize - n);
  }

  // ----- the loop ends but for one length

  /** A frame at the start of the buffer gets the loop stuck exactly if its length is 2^32 - 4. */
  lemma StuckIff(buf: seq<Octet>, codeSize: nat)
    ensures Parse(buf, codeSize).Got? && Parse(buf, codeSize).taken == 0
            <==> |buf| >= 4 + codeSize && Unpack(buf[..4]) == WORD - 4
  {
    if |buf| >= 4 {
      Powers();
      assert Unpack(buf[..4]) < WORD;
    }
  }

  /** Such a frame: the loop emits it again and again. */
  lemma StuckForEver(buf: seq<Octet>, rest: seq<Octet>, codeSize: nat)
    requires buf == Pack(WORD - 4, 4) + rest && |rest| >= codeSize
    ensures Drain(buf, codeSize).stuck
  {
    PackUnpack32(WORD - 4);
    assert buf[..4] == Pack(WORD - 4, 4);
    StuckIff(buf, codeSize);
  }

  /** Every pass over a frame whose length is not that near to the limit takes at least four bytes. */
  lemma PassTakesFour(buf: seq<Octet>, codeSize: nat)
    requires Parse(buf, codeSize).Got? && Unpack(buf[..4]) < WORD - 4
    ensures Parse(buf, codeSize).taken >= 4
  {
  }
}
