/** What leaves and what arrives: the peer's view of every connection of a run. */
module OnTheWire {
  import opened Bytes
  import opened Pool
  import opened Engine
  import opened Core
  import opened Invariant
  import opened Runs
  import opened Requests
  import Framing

  function Messages(ps: seq<Print>): seq<Framing.Message> {
    seq(|ps|, i requires 0 <= i < |ps| => ps[i].msg)
  }

  lemma {:induction false} StreamIsFrames(ps: seq<Print>)
    ensures Stream(ps) == Framing.Frames(Messages(ps))
    decreases |ps|
  {
    hide Framing.Frame;
    if ps != [] {
      var init, last := ps[..|ps| - 1], ps[|ps| - 1];
      StreamIsFrames(init);
      assert Messages(ps) == Messages(init) + [last.msg];
      Framing.FramesConcat(Messages(init), [last.msg]);
      assert [last.msg][1..] == [];
      assert Framing.Frames([last.msg]) == Framing.Frame(last.msg.id, last.msg.data) + Framing.Frames([]);
    }
  }

  /** A prefix of a stream of printable frames decodes, without error, to a
      prefix of the messages. */
  lemma PrefixDecodes(wire: seq<byte>, ms: seq<Framing.Message>)
    requires wire <= Framing.Frames(ms) && forall i :: 0 <= i < |ms| ==> Framing.Printable(ms[i])
    ensures var sp := Framing.SplitAll(wire); !sp.bad && sp.msgs <= ms
  {
    hide Framing.SplitAll, Framing.Frames;
    var all := Framing.Frames(ms);
    var tail := all[|wire|..];
    assert all == wire + tail;
    Framing.FramesRoundTrip(ms, []);
    assert all + [] == all;
    SplitNothing();
    Framing.SplitConcat(wire, tail);
    var sp := Framing.SplitAll(wire);
    assert Framing.Prepend(ms, Framing.Split([], [], false)).msgs == ms;
  }

  lemma SplitNothing()
    ensures Framing.SplitAll([]) == Framing.Split([], [], false)
  {
  }

  lemma AllPrintable(s: State, lo: nat, hi: nat)
    requires Inv(s) && NoEtxPrinted(s.hist.printed) && lo <= hi <= |s.hist.printed|
    ensures var ms := Messages(s.hist.printed[lo..hi]); forall i :: 0 <= i < |ms| ==> Framing.Printable(ms[i])
  {
    hide PoolOk, InSendOrder, WireOk, PastOk, InputOk, TraceOk, BatchOk, RepliesOk, DeliveredOk, Alive;
    var ms := Messages(s.hist.printed[lo..hi]);
    forall i | 0 <= i < |ms| ensures Framing.Printable(ms[i]) {
      assert ms[i] == s.hist.printed[lo + i].msg;
      assert Framed(s.hist.printed[lo + i].msg);
    }
  }

  /** What a peer decodes from connection number `c` of a state: the earlier ones
      in order, then the current one. */
  function WireOf(s: State, c: nat): seq<byte>
    requires c <= |s.hist.past|
  {
    if c < |s.hist.past| then s.hist.past[c].wire else s.hist.wire
  }

  function SliceOf(s: State, c: nat): (nat, nat)
    requires c <= |s.hist.past|
  {
    if c < |s.hist.past| then (s.hist.past[c].lo, s.hist.past[c].hi) else (s.hist.mark, |s.hist.printed|)
  }

  lemma SlicesOk(s: State, c: nat)
    requires Inv(s) && c <= |s.hist.past|
    ensures var (lo, hi) := SliceOf(s, c);
            lo <= hi <= |s.hist.printed| && WireOf(s, c) <= Stream(s.hist.printed[lo..hi])
  {
    hide PoolOk, PrintsOk, InSendOrder, InputOk, TraceOk, BatchOk, RepliesOk, DeliveredOk, Alive, Stream;
    if c < |s.hist.past| {
      assert PastOne(s.hist.past[c], s.hist.printed, s.hist.mark);
    } else {
      assert s.hist.printed[s.hist.mark..|s.hist.printed|] == s.hist.printed[s.hist.mark..];
      assert s.hist.wire <= s.hist.wire + s.link.outbuf;
    }
  }

  /** Slices of different connections do not overlap. */
  lemma {:induction false} SlicesApart(s: State, c: nat, d: nat)
    requires Inv(s) && c < d <= |s.hist.past|
    ensures SliceOf(s, c).1 <= SliceOf(s, d).0
    decreases d
  {
    hide PoolOk, PrintsOk, InSendOrder, InputOk, TraceOk, BatchOk, RepliesOk, DeliveredOk, Alive, Stream, WireOk;
    assert PastOne(s.hist.past[c], s.hist.printed, s.hist.mark);
    assert d < |s.hist.past| ==> Follows(s.hist.past, d);
    if c + 1 < d {
      SlicesApart(s, c, d - 1);
      assert PastOne(s.hist.past[d - 1], s.hist.printed, s.hist.mark);
    }
  }

  /** As long as no call has put an ETX into a parameter: whatever the network
      delivers, each connection decodes at the peer to a prefix of the messages
      printed for that connection, in `send` order. */
  lemma PeerDecodesPrefix(disablePing: bool, states: seq<State>, steps: seq<Step>, i: nat, c: nat)
    requires Execution(disablePing, states, steps) && i < |states|
    requires c <= |states[i].hist.past| && forall k :: 0 <= k < i ==> !SetsEtx(steps[k])
    ensures var s := states[i]; var (lo, hi) := SliceOf(s, c); var sp := Framing.SplitAll(WireOf(s, c));
            lo <= hi <= |s.hist.printed| && !sp.bad && sp.msgs <= Messages(s.hist.printed[lo..hi])
  {
    hide Execution, Inv, Stream, Framing.SplitAll, NoEtxPrinted, Framing.Frames, SetsEtx;
    InvAlways(disablePing, states, steps, i);
    PlainAlways(disablePing, states, steps, i);
    var s := states[i];
    SlicesOk(s, c);
    var (lo, hi) := SliceOf(s, c);
    AllPrintable(s, lo, hi);
    StreamIsFrames(s.hist.printed[lo..hi]);
    PrefixDecodes(WireOf(s, c), Messages(s.hist.printed[lo..hi]));
  }

  /** When all that was printed for a connection has left, it decodes at the peer to
      exactly the messages printed if and only if none of them holds an ETX. */
  lemma PeerDecodesExactly(disablePing: bool, states: seq<State>, steps: seq<Step>, i: nat, c: nat)
    requires Execution(disablePing, states, steps) && i < |states| && c <= |states[i].hist.past|
    requires SliceOf(states[i], c).0 <= SliceOf(states[i], c).1 <= |states[i].hist.printed|
    requires var s := states[i]; WireOf(s, c) == Stream(s.hist.printed[SliceOf(s, c).0..SliceOf(s, c).1])
    ensures var s := states[i]; var ps := s.hist.printed[SliceOf(s, c).0..SliceOf(s, c).1];
            Framing.SplitAll(WireOf(s, c)) == Framing.Split(Messages(ps), [], false) <==> NoEtxPrinted(ps)
  {
    hide Execution, Inv, Stream, Framing.SplitAll, Framing.Frames, WireOf, SliceOf;
    InvAlways(disablePing, states, steps, i);
    var s := states[i];
    var (lo, hi) := SliceOf(s, c);
    var ps := s.hist.printed[lo..hi];
    StreamIsFrames(ps);
    FramedSlice(s, lo, hi);
    Framing.FramesReadBackExactly(Messages(ps));
    forall k | 0 <= k < |ps| ensures Messages(ps)[k] == ps[k].msg {
    }
  }

  lemma FramedSlice(s: State, lo: nat, hi: nat)
    requires Inv(s) && lo <= hi <= |s.hist.printed|
    ensures forall k :: 0 <= k < hi - lo ==> Framed(s.hist.printed[lo..hi][k].msg)
  {
    hide PoolOk, InSendOrder, WireOk, PastOk, InputOk, TraceOk, BatchOk, RepliesOk, DeliveredOk, Alive, WasPrinted;
    forall k | 0 <= k < hi - lo ensures Framed(s.hist.printed[lo..hi][k].msg) {
      assert s.hist.printed[lo..hi][k] == s.hist.printed[lo + k];
      assert Framed(s.hist.printed[lo + k].msg);
    }
  }

  /** The peer never receives a transaction twice: message `a` of connection `c`
      and message `b` of connection `d` are the prints of different transactions,
      unless they are the same message of the same connection. */
  lemma PeerReceivesOnce(disablePing: bool, states: seq<State>, steps: seq<Step>, i: nat, c: nat, a: nat, d: nat, b: nat)
    requires Execution(disablePing, states, steps) && i < |states|
    requires c <= d <= |states[i].hist.past| && forall k :: 0 <= k < i ==> !SetsEtx(steps[k])
    requires a < |Framing.SplitAll(WireOf(states[i], c)).msgs| && b < |Framing.SplitAll(WireOf(states[i], d)).msgs|
    ensures var s := states[i]; var x, y := SliceOf(s, c).0 + a, SliceOf(s, d).0 + b;
            && x < |s.hist.printed| && y < |s.hist.printed|
            && Framing.SplitAll(WireOf(s, c)).msgs[a] == s.hist.printed[x].msg
            && Framing.SplitAll(WireOf(s, d)).msgs[b] == s.hist.printed[y].msg
            && (c != d || a != b ==> s.hist.printed[x].trans != s.hist.printed[y].trans)
  {
    hide Execution, Inv, Stream, Framing.SplitAll, NoEtxPrinted, WireOf, SetsEtx;
    var s := states[i];
    PeerDecodesPrefix(disablePing, states, steps, i, c);
    PeerDecodesPrefix(disablePing, states, steps, i, d);
    InvAlways(disablePing, states, steps, i);
    if c < d {
      SlicesApart(s, c, d);
    }
    var x, y := SliceOf(s, c).0 + a, SliceOf(s, d).0 + b;
    hide SliceOf;
    if x != y {
      PrintsDiffer(s, x, y);
    }
  }

  lemma PrintsDiffer(s: State, x: nat, y: nat)
    requires Inv(s) && x < |s.hist.printed| && y < |s.hist.printed| && x != y
    ensures s.hist.printed[x].trans != s.hist.printed[y].trans
  {
    hide PoolOk, InSendOrder, WireOk, PastOk, InputOk, TraceOk, BatchOk, RepliesOk, DeliveredOk, Alive;
  }

  /** With pings on, the first frame of a connection is the ping, and a second
      frame is printed only after the reply to that ping has been consumed. */
  lemma PingComesFirst(disablePing: bool, states: seq<State>, steps: seq<Step>, i: nat)
    requires Execution(disablePing, states, steps) && i < |states|
    requires !states[i].link.disablePing && states[i].link.io == Up && states[i].ctl.pc != Gone
    ensures var s := states[i]; var m := s.hist.mark;
            && m < |s.hist.printed| && s.hist.printed[m].ping
            && (m + 1 < |s.hist.printed| ==> !s.hist.printed[m + 1].ping && Replied(s.hist.replies, s.hist.printed[m]))
  {
    hide Execution, CoreOk, DeliveredOk, Coupled, PingOk, LogMatches, CtlOk, Replied;
    InvAlways(disablePing, states, steps, i);
  }

  /** What every quiescent state looks like. */
  lemma QuiescentCoupling(disablePing: bool, states: seq<State>, steps: seq<Step>, i: nat)
    requires Execution(disablePing, states, steps) && i < |states| && states[i].ctl.pc == Quiet
    ensures var l, p := states[i].link, states[i].pool;
            && (l.status == Connected ==> p.ready == [])
            && (l.status == Disconnected || l.status == IdleTimeout ==> p.pending == [])
            && (l.status == Connecting ==> |p.pending| <= 1 && forall h :: h in p.pending ==> l.pingTxn == Some(h))
            && (l.status == Disconnected <==> l.io == NoIo)
            && (l.io == NoIo ==> l.outbuf == [] && l.inbuf == [] && l.timer == NoTimer)
            && p.delayRm == []
  {
    hide Execution, CoreOk, DeliveredOk, FirstOk, LogMatches, NoPings;
    InvAlways(disablePing, states, steps, i);
  }

  /** At rest, looking an id up in the index agrees with scanning the queues, and
      every transaction is queued exactly once. */
  lemma IndexAgreesWithQueues(disablePing: bool, states: seq<State>, steps: seq<Step>, i: nat, id: nat, h: Handle)
    requires Execution(disablePing, states, steps) && i < |states| && states[i].ctl.pc == Quiet
    ensures var p := states[i].pool;
            && NoDup(AllQueued(p))
            && (id in p.idMap && p.idMap[id] == h <==> h in AllQueued(p) && h in p.txns && p.txns[h].id == id)
            && (h in p.txns <==> h in AllQueued(p))
  {
    hide Execution, PrintsOk, InSendOrder, WireOk, PastOk, InputOk, TraceOk, BatchOk, RepliesOk, DeliveredOk,
         Coupled, PingOk, FirstOk, LogMatches;
    InvAlways(disablePing, states, steps, i);
    var s := states[i];
    assert Away(s) == {};
    QueuedOnce(s.pool, {});
    LookupAgreesWithScan(s.pool, id, h);
    AllAreQueued(s.pool, h);
  }

  lemma AllAreQueued(p: Pool, h: Handle)
    requires PoolOk(p, {})
    ensures h in p.txns <==> h in AllQueued(p)
  {
    hide Ledger, NoDup;
  }
}
