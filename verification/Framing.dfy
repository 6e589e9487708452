/** The frame printer and the incremental frame parser. */
module Framing {
  import opened Bytes
  import Decimal

  const MIN_FRAME := 5

  datatype Message = Message(id: nat, data: seq<byte>)

  /** STX id FS data ETX. */
  function Frame(id: nat, data: seq<byte>): seq<byte> {
    [STX] + Decimal.Print(id) + [FS] + data + [ETX]
  }

  function Frames(ms: seq<Message>): seq<byte> {
    if ms == [] then [] else Frame(ms[0].id, ms[0].data) + Frames(ms[1..])
  }

  /** What the front of the input buffer holds. */
  datatype Next = NeedMore | Malformed | Got(msg: Message, rest: seq<byte>)

  /** The body of a frame, without STX and ETX. */
  function ParseBody(body: seq<byte>): Option<Message> {
    match Decimal.ReadUint(body)
    case None => None
    case Some((id, tail)) =>
      if tail == [] || tail[0] != FS then None else Some(Message(id, tail[1..]))
  }

  function NextFrame(buf: seq<byte>): (n: Next)
    ensures n.Got? ==> |n.rest| + MIN_FRAME <= |buf|
  {
    if |buf| < MIN_FRAME then NeedMore
    else if buf[0] != STX then Malformed
    else
      var e := FirstIndex(buf, ETX);
      if e == |buf| then NeedMore
      else if e + 1 < MIN_FRAME then Malformed
      else
        match ParseBody(buf[1..e])
        case None => Malformed
        case Some(m) => Got(m, buf[e + 1..])
  }

  /** What a malformed front leaves in the buffer: all of it where no frame starts,
      else what follows the frame. */
  function AfterMalformed(buf: seq<byte>): seq<byte> {
    if buf == [] || buf[0] != STX || FirstIndex(buf, ETX) == |buf| then buf else buf[FirstIndex(buf, ETX) + 1..]
  }

  /** Everything that can be taken off a buffer: the messages in order, and
      either what is left or the fact that the stream is malformed. */
  datatype Split = Split(msgs: seq<Message>, rest: seq<byte>, bad: bool)

  function SplitAll(buf: seq<byte>): (s: Split)
    ensures s.bad ==> s.rest == []
    decreases |buf|
  {
    match NextFrame(buf)
    case NeedMore => Split([], buf, false)
    case Malformed => Split([], [], true)
    case Got(m, rest) => Prepend([m], SplitAll(rest))
  }

  function Prepend(ms: seq<Message>, s: Split): Split {
    Split(ms + s.msgs, s.rest, s.bad)
  }

  // ----- chunk independence -----

  /** A verdict on the front of the buffer does not depend on bytes still to come. */
  lemma NextFrameStable(a: seq<byte>, b: seq<byte>)
    ensures NextFrame(a).Malformed? ==> NextFrame(a + b) == Malformed
    ensures NextFrame(a).Got? ==> NextFrame(a + b) == Got(NextFrame(a).msg, NextFrame(a).rest + b)
  {
    if !NextFrame(a).NeedMore? && a[0] == STX {
      FirstIndexExtend(a, b, ETX);
      var e := FirstIndex(a, ETX);
      assert (a + b)[1..e] == a[1..e];
      assert (a + b)[e + 1..] == a[e + 1..] + b;
    }
  }

  /** Splitting a concatenation is splitting the first part, then what it left
      together with the second. */
  lemma {:induction false} SplitConcat(a: seq<byte>, b: seq<byte>)
    ensures var s := SplitAll(a);
            SplitAll(a + b) == if s.bad then s else Prepend(s.msgs, SplitAll(s.rest + b))
    decreases |a|
  {
    hide NextFrame;
    NextFrameStable(a, b);
    match NextFrame(a)
    case NeedMore =>
      assert [] + SplitAll(a + b).msgs == SplitAll(a + b).msgs;
    case Malformed =>
    case Got(m, rest) =>
      SplitConcat(rest, b);
      var s := SplitAll(rest);
      if !s.bad {
        assert [m] + (s.msgs + SplitAll(s.rest + b).msgs) == [m] + s.msgs + SplitAll(s.rest + b).msgs;
      }
  }

  /** The state of a decoder: bytes kept, messages produced, stream broken. */
  datatype Decoder = Decoder(buf: seq<byte>, msgs: seq<Message>, bad: bool)

  const FRESH := Decoder([], [], false)

  /** One read event: append, then take off all complete frames. A broken stream
      is not read any more. */
  function Feed(d: Decoder, chunk: seq<byte>): Decoder {
    if d.bad then d
    else
      var s := SplitAll(d.buf + chunk);
      Decoder(s.rest, d.msgs + s.msgs, s.bad)
  }

  function FeedAll(d: Decoder, chunks: seq<seq<byte>>): Decoder
    decreases |chunks|
  {
    if chunks == [] then d else FeedAll(Feed(d, chunks[0]), chunks[1..])
  }

  function Concat(chunks: seq<seq<byte>>): seq<byte> {
    if chunks == [] then [] else chunks[0] + Concat(chunks[1..])
  }

  /** A decoder at rest holds no complete frame. */
  predicate Drained(d: Decoder) {
    if d.bad then d.buf == [] else SplitAll(d.buf) == Split([], d.buf, false)
  }

  lemma {:induction false} SplitLeavesDrained(buf: seq<byte>)
    ensures var s := SplitAll(buf); !s.bad ==> SplitAll(s.rest) == Split([], s.rest, false)
    decreases |buf|
  {
    match NextFrame(buf)
    case NeedMore =>
    case Malformed =>
    case Got(m, rest) => SplitLeavesDrained(rest);
  }

  /** However a stream is cut into reads, the decoder ends with the same
      messages and the same leftover, or the same failure, as from one read. */
  lemma {:induction false} ChunkIndependence(d: Decoder, chunks: seq<seq<byte>>)
    requires Drained(d)
    ensures FeedAll(d, chunks) == Feed(d, Concat(chunks))
    decreases |chunks|
  {
    hide NextFrame;
    hide SplitAll;
    if chunks == [] {
      assert d.buf + [] == d.buf;
      assert d.msgs + [] == d.msgs;
    } else {
      var c, more := chunks[0], Concat(chunks[1..]);
      var d1 := Feed(d, c);
      SplitLeavesDrained(d.buf + c);
      ChunkIndependence(d1, chunks[1..]);
      if !d.bad {
        SplitConcat(d.buf + c, more);
        assert d.buf + c + more == d.buf + (c + more);
        var s := SplitAll(d.buf + c);
        if !s.bad {
          assert d.msgs + (s.msgs + SplitAll(s.rest + more).msgs) == (d.msgs + s.msgs) + SplitAll(s.rest + more).msgs;
        }
      }
    }
  }

  // ----- round trip -----

  lemma ParsePrintedBody(id: nat, data: seq<byte>)
    requires id <= Decimal.MAX_UINT64
    ensures ParseBody(Decimal.Print(id) + [FS] + data) == Some(Message(id, data))
  {
    Decimal.ReadPrinted(id, [FS] + data);
    assert Decimal.Print(id) + [FS] + data == Decimal.Print(id) + ([FS] + data);
    assert ([FS] + data)[1..] == data;
  }

  /** A printed frame reads back as itself, whatever follows it, exactly when its
      data holds no ETX and the frame is not the one shape that is too short: a
      one-digit id without data. */
  lemma FrameReadsBack(id: nat, data: seq<byte>, tail: seq<byte>)
    requires id <= Decimal.MAX_UINT64
    ensures NextFrame(Frame(id, data) + tail) == Got(Message(id, data), tail)
            <==> ETX !in data && (data != [] || id >= 10)
  {
    var p := Decimal.Print(id);
    var f := Frame(id, data);
    var buf := f + tail;
    var n := |p| + |data| + 2;
    assert buf[n] == ETX;
    assert buf[..n] == [STX] + p + [FS] + data;
    assert buf[n + 1..] == tail;
    var e := FirstIndex(buf, ETX);
    assert forall j :: 0 <= j < |p| ==> buf[1 + j] == p[j];
    assert forall j :: 0 <= j < |data| ==> buf[|p| + 2 + j] == data[j];
    assert buf[|p| + 1] == FS;
    if ETX !in data {
      assert e == n;
      assert buf[1..n] == p + [FS] + data;
      ParsePrintedBody(id, data);
    } else {
      assert e < n;
      assert |buf[e + 1..]| > |tail|;
    }
  }

  predicate Printable(m: Message) {
    m.id <= Decimal.MAX_UINT64 && ETX !in m.data && (m.data != [] || m.id >= 10)
  }

  /** Any list of printable messages survives printing and parsing, with any
      incomplete tail left in the buffer. */
  lemma {:induction false} FramesRoundTrip(ms: seq<Message>, tail: seq<byte>)
    requires forall i :: 0 <= i < |ms| ==> Printable(ms[i])
    ensures SplitAll(Frames(ms) + tail) == Prepend(ms, SplitAll(tail))
    decreases |ms|
  {
    hide NextFrame;
    hide Frame;
    if ms == [] {
      assert Frames(ms) + tail == tail;
      assert [] + SplitAll(tail).msgs == SplitAll(tail).msgs;
    } else {
      FramesRoundTrip(ms[1..], tail);
      FrameReadsBack(ms[0].id, ms[0].data, Frames(ms[1..]) + tail);
      assert Frames(ms) + tail == Frame(ms[0].id, ms[0].data) + (Frames(ms[1..]) + tail);
      assert [ms[0]] + (ms[1..] + SplitAll(tail).msgs) == ms + SplitAll(tail).msgs;
    }
  }

  /** A parsed message never has an ETX. */
  lemma GotHasNoEtx(buf: seq<byte>)
    requires NextFrame(buf).Got?
    ensures ETX !in NextFrame(buf).msg.data
  {
    var e := FirstIndex(buf, ETX);
    var body := buf[1..e];
    assert ETX !in body;
    var k := Decimal.DigitRun(body);
    assert NextFrame(buf).msg.data == body[k..][1..];
  }

  /** A one-digit id without data is never taken for a frame. */
  lemma ShortIsNoFrame(id: nat, tail: seq<byte>)
    requires id < 10
    ensures !NextFrame(Frame(id, []) + tail).Got?
  {
    var buf := Frame(id, []) + tail;
    assert buf[3] == ETX;
  }

  /** Any list of messages survives printing and parsing if and only if every message
      in it is printable. */
  lemma {:induction false} FramesReadBackExactly(ms: seq<Message>)
    requires forall i :: 0 <= i < |ms| ==> ms[i].id <= Decimal.MAX_UINT64
    ensures SplitAll(Frames(ms)) == Split(ms, [], false) <==> forall i :: 0 <= i < |ms| ==> Printable(ms[i])
    decreases |ms|
  {
    hide NextFrame, Frame;
    if forall i :: 0 <= i < |ms| ==> Printable(ms[i]) {
      FramesRoundTrip(ms, []);
      assert Frames(ms) + [] == Frames(ms) && ms + [] == ms;
      EmptySplits();
    } else if SplitAll(Frames(ms)) == Split(ms, [], false) {
      var m, tail := ms[0], Frames(ms[1..]);
      FrameReadsBack(m.id, m.data, tail);
      var n := NextFrame(Frame(m.id, m.data) + tail);
      SplitFirst(Frames(ms), ms);
      GotHasNoEtx(Frames(ms));
      if m.data == [] && m.id < 10 {
        ShortIsNoFrame(m.id, tail);
      } else {
        FramesReadBackExactly(ms[1..]);
      }
    }
  }

  lemma EmptySplits()
    ensures SplitAll([]) == Split([], [], false)
  {
  }

  /** What splitting into `ms` says about the first frame and the rest. */
  lemma SplitFirst(buf: seq<byte>, ms: seq<Message>)
    requires SplitAll(buf) == Split(ms, [], false) && ms != []
    ensures NextFrame(buf).Got? && NextFrame(buf).msg == ms[0]
    ensures SplitAll(NextFrame(buf).rest) == Split(ms[1..], [], false)
  {
    hide NextFrame;
    if NextFrame(buf).Got? {
      var more := SplitAll(NextFrame(buf).rest);
      assert ([NextFrame(buf).msg] + more.msgs)[1..] == more.msgs;
    }
  }

  /** Frames of a concatenation. */
  lemma {:induction false} FramesConcat(a: seq<Message>, b: seq<Message>)
    ensures Frames(a + b) == Frames(a) + Frames(b)
    decreases |a|
  {
    hide Frame;
    if a == [] {
      assert a + b == b;
    } else {
      FramesConcat(a[1..], b);
      assert (a + b)[1..] == a[1..] + b;
      assert Frame(a[0].id, a[0].data) + (Frames(a[1..]) + Frames(b)) == Frames(a) + Frames(b);
    }
  }

  /** The printer, the chunked parser and the round trip together: a server that
      receives the printed frames in any pieces decodes exactly the messages. */
  lemma PrintedStreamDecodes(ms: seq<Message>, chunks: seq<seq<byte>>)
    requires forall i :: 0 <= i < |ms| ==> Printable(ms[i])
    requires Concat(chunks) == Frames(ms)
    ensures FeedAll(FRESH, chunks) == Decoder([], ms, false)
  {
    ChunkIndependence(FRESH, chunks);
    FramesRoundTrip(ms, []);
    assert Frames(ms) + [] == Frames(ms);
    assert [] + Concat(chunks) == Frames(ms);
  }

  /** The front of the buffer is a frame whose body is in order, and it is rejected
      all the same: only the length test after the ETX search can have done that. */
  predicate OnlyTooShort(buf: seq<byte>) {
    var e := FirstIndex(buf, ETX);
    1 <= e < |buf| && ParseBody(buf[1..e]).Some? && NextFrame(buf) == Malformed
  }

  /** The length test alone rejects exactly the frames of a one-digit id without
      data, when more bytes follow them. */
  lemma LengthTestExactly(buf: seq<byte>)
    requires |buf| >= MIN_FRAME && buf[0] == STX
    ensures OnlyTooShort(buf) <==> IsDigit(buf[1]) && buf[2] == FS && buf[3] == ETX
  {
    var e := FirstIndex(buf, ETX);
    if IsDigit(buf[1]) && buf[2] == FS && buf[3] == ETX {
      assert e == 3;
      ShortBody(buf[1..3]);
    }
    if OnlyTooShort(buf) {
      assert e <= 3;
      ShortBody(buf[1..e]);
      assert e == 3;
      assert buf[1..e][0] == buf[1] && buf[1..e][1] == buf[2];
    }
  }

  /** A body of at most two bytes parses exactly when it is a digit and FS. */
  lemma ShortBody(body: seq<byte>)
    requires |body| <= 2
    ensures ParseBody(body).Some? <==> |body| == 2 && IsDigit(body[0]) && body[1] == FS
  {
    if body != [] && IsDigit(body[0]) {
      var k := Decimal.DigitRun(body);
      assert body[..1][..0] == [];
      assert Decimal.Value(body[..1]) <= 9;
      if |body| == 2 && IsDigit(body[1]) {
        assert k == 2;
      } else {
        assert k == 1;
      }
    }
  }

  /** So the branch is reached: a complete frame with any byte behind it. */
  lemma ShortFrameIsReachable(b: byte)
    ensures OnlyTooShort([STX, 0x31, FS, ETX, b])
  {
    LengthTestExactly([STX, 0x31, FS, ETX, b]);
  }
}
