/** The sections of the event handler around the ping, reading, and the draining
    of the deferred deletions keep the invariant. */
module PingSteps {
  import opened Bytes
  import opened Pool
  import opened Engine
  import opened Traces
  import opened Core
  import opened CoreMoves
  import opened Effects
  import opened Invariant
  import opened Steps
  import opened HandlerSteps
  import KeyValue
  import Framing

  // ----- connected -----

  lemma StepOnConnected(s: State, id: nat, n: nat)
    requires Inv(s) && Enabled(s, OnConnected(id, n))
    ensures Inv(Do(s, OnConnected(id, n)))
  {
    if s.link.disablePing {
      ConnectedPlain(s);
    } else {
      ConnectedPing(s, id, n);
    }
  }

  lemma ConnectedPlain(s: State)
    requires Inv(s) && s.ctl.pc == Quiet && s.link.io == Opening && s.link.disablePing
    ensures Inv(CleanupTake(Enter(s).(link := s.link.(io := Up)), FromConnected))
  {
    hide CoreOk, Exact, LogMatches, Replied, DeliveredOk;
    Entered(s);
    var r := CleanupTake(Enter(s).(link := s.link.(io := Up)), FromConnected);
    CoreTimer(s, r, {});
    ExactSame(s, r);
    ExactDelivered(r);
    assert Away(r) == {};
  }

  lemma ConnectedPing(s: State, id: nat, n: nat)
    requires Inv(s) && s.ctl.pc == Quiet && s.link.io == Opening && !s.link.disablePing
    requires FreeId(s.pool, id) && n <= |PingPrinted(s, id).link.outbuf|
    ensures Inv(DoOnConnected(s, id, n))
  {
    hide CoreOk, Exact, LogMatches, Replied, DeliveredOk, PingPrinted, FreeId, NoPings;
    Entered(s);
    InvParts(s);
    CorePing(s, id, {});
    CoreWrite(PingPrinted(s, id), n, {});
    PingParts(s, id);
    var r := DoOnConnected(s, id, n);
    CoreTimer(WriteOut(PingPrinted(s, id), n), r, {});
    ExactSame(s, r);
    ExactDelivered(r);
    assert Away(r) == {};
    assert r.pool.pending == [s.pool.next];
  }

  // ----- the connection timer -----

  lemma StepOnConnTimer(s: State)
    requires Inv(s) && Enabled(s, OnConnTimer)
    ensures Inv(Do(s, OnConnTimer))
  {
    if s.link.status == Connecting {
      PingTimedOut(s);
    } else {
      IdleTimerFired(s);
    }
  }

  lemma IdleTimerFired(s: State)
    requires Inv(s) && s.ctl.pc == Quiet && s.link.timer == Running && s.link.status != Connecting
    ensures Inv(DoOnConnTimer(s))
  {
    hide CoreOk, Exact, Replied, DeliveredOk, NoPings, LinkPhaseOf;
    Entered(s);
    var r := DoOnConnTimer(s);
    CoreTimer(s, r, {});
    ExactSame(s, r);
    ExactDelivered(r);
    assert Away(r) == {};
  }

  lemma PingTimedOut(s: State)
    requires Inv(s) && s.ctl.pc == Quiet && s.link.timer == Running && s.link.status == Connecting
    ensures Inv(CleanupTake(Enter(s), FromTimeout))
  {
    hide CoreOk, Exact, Replied, DeliveredOk, NoPings, LogMatches, TxnOk;
    Entered(s);
    InvParts(s);
    var h := s.link.pingTxn.value;
    var t := Goto(SetTimer(Enter(s), NoTimer), Cleanup(FromTimeout));
    CoreTimer(s, t, {});
    CorePull(t, h, {});
    var r := CleanupTake(Enter(s), FromTimeout);
    ExactSame(s, r);
    ExactDelivered(r);
    assert Away(r) == {h};
    assert {} + {h} == {h};
    assert r.pool.pending == [];
  }

  // ----- deleting the ping -----

  lemma StepDeletePing(s: State)
    requires Inv(s) && Enabled(s, DeletePing)
    ensures Inv(Do(s, DeletePing))
  {
    hide CoreOk, Emitted, Replied, NoPings, LogMatches, BuildResponse, TxnOk;
    var r := DoDeletePing(s);
    InvParts(s);
    if s.link.disablePing {
      assert Away(r) == Away(s);
      CoreTimer(s, r, Away(s));
    } else {
      var h := s.link.pingTxn.value;
      var t := Goto(s, Cleaned(s.ctl.pc.k));
      CoreTimer(s, t, Away(s));
      CoreDefer(t, h, Away(s));
      assert Away(r) == Away(s);
    }
  }

  // ----- becoming usable -----

  function IdleTimer(l: Link): Timer {
    if l.idleTimeout != 0 then Stopped else NoTimer
  }

  /** The connection announced, with its timer, before anything is sent. */
  function Announced(s: State): State {
    SetTimer(Emit(s.(link := s.link.(pingTxn := None, status := Connected)), ConnConnected), IdleTimer(s.link))
  }

  lemma {:induction false} PrintsOfPool(s: State, r: State, q: seq<Handle>)
    requires s.pool == r.pool
    ensures PrintsOf(s, q) == PrintsOf(r, q)
  {
    hide KeyValue.Payload;
    if q != [] {
      PrintsOfPool(s, r, q[1..]);
    }
  }

  /** Creating the stopped idle timer before or after the send loop is the same. */
  lemma OpenUpIs(s: State, away: set<Handle>)
    requires CoreOk(s, away) && s.link.timer == NoTimer
    ensures OpenUp(s) == SendMessages(Announced(s))
  {
    hide CoreOk, PromoteAll, PrintsOf, Stream;
    var a := Emit(s.(link := s.link.(pingTxn := None, status := Connected)), ConnConnected);
    var b := Announced(s);
    var c := s.(link := s.link.(pingTxn := None, status := Connected));
    CoreTimer(s, c, away);
    CoreEmit(c, ConnConnected, away);
    CoreTimer(a, b, away);
    PromoteAllIs(a, away);
    PromoteAllIs(b, away);
    PrintsOfPool(a, b, s.pool.ready);
    PrintsOfPool(a, s, s.pool.ready);
  }

  lemma OpenUpInv(s: State)
    requires Inv(s) && s.ctl.pc.Cleaned? && s.ctl.pc.k != FromTimeout
    ensures Inv(Goto(OpenUp(s), Deliver)) && Exact(OpenUp(s))
    ensures OpenUp(s).link.status == Connected && OpenUp(s).link.pingTxn == None && OpenUp(s).ctl.inUse
  {
    hide CoreOk, Emitted, LinkPhaseOf, Replied, PingIs, SendMessages, Stream;
    var away := Away(s);
    ExactIn(s);
    OpenUpIs(s, away);
    var c := s.(link := s.link.(pingTxn := None, status := Connected));
    CoreTimer(s, c, away);
    CoreEmit(c, ConnConnected, away);
    var a := Announced(s);
    CoreTimer(Emit(c, ConnConnected), a, away);
    ExactEmit(c, ConnConnected);
    LinkSnoc(s.hist.log, Queues(ConnConnected));
    var d := Goto(a, Deliver);
    CoreTimer(a, d, away);
    assert Away(d) == away;
    ExactSame(Emit(c, ConnConnected), d);
    ExactDelivered(d);
    assert NearlyInv(d);
    SendCompletes(d);
    SendGoto(a, Deliver, away);
    SendKeeps(a, away);
    hide Exact;
    ExactSame(a, OpenUp(s));
  }

  lemma ExactIn(s: State)
    requires Inv(s) && Cleaning(s.ctl.pc)
    ensures Exact(s)
  {
    hide CoreOk, Alive, Emitted;
  }

  /** Sending does not look at the control point. */
  lemma SendGoto(s: State, pc: Pc, away: set<Handle>)
    requires CoreOk(s, away)
    ensures SendMessages(Goto(s, pc)) == Goto(SendMessages(s), pc)
  {
    hide CoreOk, PromoteAll, PrintsOf, Stream;
    CoreTimer(s, Goto(s, pc), away);
    PromoteAllIs(s, away);
    PromoteAllIs(Goto(s, pc), away);
    PrintsOfPool(s, Goto(s, pc), s.pool.ready);
  }

  lemma SendKeeps(s: State, away: set<Handle>)
    requires CoreOk(s, away)
    ensures var r := SendMessages(s);
            && r.link.status == s.link.status && r.link.pingTxn == s.link.pingTxn && r.ctl == s.ctl
            && r.hist.log == s.hist.log && r.hist.delivered == s.hist.delivered
  {
    hide CoreOk, PromoteAll, PrintsOf, Stream;
    PromoteAllIs(s, away);
  }

  // ----- reading -----

  /** What reading leaves alone: everything but the pending transactions it
      completes, the bytes it takes off, and the reports. */
  predicate ReadKeeps(s: State, r: State) {
    && r.link == s.link.(inbuf := r.link.inbuf)
    && r.ctl == s.ctl.(batch := r.ctl.batch)
    && r.pool.ready == s.pool.ready && r.pool.delayRm == s.pool.delayRm && r.pool.next == s.pool.next
    && r.pool.txns.Keys == s.pool.txns.Keys
    && (forall h :: h in r.pool.txns && h in s.pool.txns ==> r.pool.txns[h].ping == s.pool.txns[h].ping)
    && (forall h :: h in r.pool.pending ==> h in s.pool.pending)
    && r.hist.printed == s.hist.printed && r.hist.mark == s.hist.mark && r.hist.delivered == s.hist.delivered
    && s.hist.replies <= r.hist.replies
  }

  lemma ReadKeepsTrans(s: State, m: State, r: State)
    requires ReadKeeps(s, m) && ReadKeeps(m, r)
    ensures ReadKeeps(s, r)
  {
    assert forall h :: h in s.pool.txns <==> h in s.pool.txns.Keys;
    assert forall h :: h in m.pool.txns <==> h in m.pool.txns.Keys;
  }

  lemma ConsumeKeeps(s: State, m: Framing.Message, rest: seq<byte>)
    ensures ReadKeeps(s, Consume(s, m, rest))
  {
  }

  lemma AnswerReportKeeps(s: State, h: Handle, m: Framing.Message)
    requires h in s.pool.txns && s.pool.txns[h].status == Status.Pending
    ensures var r := Report(Answer(s, h, m), h);
            && ReadKeeps(s, r)
            && r.hist.log == s.hist.log + [Queues(TransDone(h))]
            && r.ctl.batch == s.ctl.batch + [TransDone(h)]
            && (PingSettled(s) ==> PingSettled(r))
  {
    hide BuildResponse, Move;
    AnswerReportIs(s, h, m);
    MoveFrame(s.pool, h, Finished(s.pool.txns[h], BuildResponse(m.data), Answered(m.data)));
    hide Queue, Without, Report;
    assert Queue(s.pool, Status.Pending) == s.pool.pending by { QueuePending(s.pool); }
    assert Queue(s.pool, Status.Ready) == s.pool.ready by { QueuePending(s.pool); }
  }

  lemma QueuePending(p: Pool)
    ensures Queue(p, Status.Pending) == p.pending && Queue(p, Status.Ready) == p.ready
  {
  }

  /** A usable connection stays as usable through the whole read loop. */
  lemma {:induction false} ReadFrame(s: State, away: set<Handle>)
    requires CoreOk(s, away) && PingSettled(s) && Exact(s) && LinkPhaseOf(s.hist.log) == Live
    ensures var (r, end) := ReadLoop(s);
            ReadKeeps(s, r) && Exact(r) && LinkPhaseOf(r.hist.log) == Live && end != PingAnswered
    decreases |s.link.inbuf|
  {
    hide Framing.NextFrame, CoreOk, BuildResponse, Report, Answer, ReadLoop, Exact, LinkPhaseOf;
    ReadLoopFlat(s);
    var n := Framing.NextFrame(s.link.inbuf);
    if n.Got? {
      CoreConsume(s, away);
      var s1 := Consume(s, n.msg, n.rest);
      ExactSame(s, s1);
      ConsumeKeeps(s, n.msg, n.rest);
      var holder := PendingHolder(s.pool, n.msg.id);
      if holder == None {
        ReadFrame(s1, away);
        ReadKeepsTrans(s, s1, ReadLoop(s1).0);
      } else {
        var h := holder.value;
        var r := Report(Answer(s1, h, n.msg), h);
        HolderId(s, n.msg.id, away);
        CoreAnswerReport(s1, h, n.msg, away);
        AnswerReportKeeps(s1, h, n.msg);
        LinkSnoc(s.hist.log, Queues(TransDone(h)));
        ExactDone(s1, r, h);
        AnswerReportFrame(s1, h, n.msg);
        ReadFrame(r, away);
        ReadKeepsTrans(s1, r, ReadLoop(r).0);
        ReadKeepsTrans(s, s1, ReadLoop(r).0);
      }
    } else {
      hide ReadKeeps;
      ReadKeepsRefl(s);
    }
  }

  lemma ReadKeepsRefl(s: State)
    ensures ReadKeeps(s, s)
  {
  }

  lemma ExactDone(s: State, r: State, h: Handle)
    requires Exact(s) && r.hist.delivered == s.hist.delivered
    requires r.hist.log == s.hist.log + [Queues(TransDone(h))] && r.ctl.batch == s.ctl.batch + [TransDone(h)]
    ensures Exact(r)
  {
    ExactEmit(s, TransDone(h));
    ExactSame(Emit(s, TransDone(h)), r);
  }

  lemma RepliedMore(replies: seq<Reply>, more: seq<Reply>, pr: Print)
    requires Replied(replies, pr) && replies <= more
    ensures Replied(more, pr)
  {
    var i :| 0 <= i < |replies| && replies[i].trans == pr.trans && replies[i].msg.id == pr.msg.id;
    assert more[i] == replies[i];
  }

  lemma FirstMore(l: Link, printed: seq<Print>, mark: nat, replies: seq<Reply>, more: seq<Reply>, pc: Pc)
    requires FirstOk(l, printed, mark, replies, pc) && replies <= more
    ensures FirstOk(l, printed, mark, more, pc)
  {
    hide Replied;
    if mark < |printed| && Replied(replies, printed[mark]) {
      RepliedMore(replies, more, printed[mark]);
    }
  }

  predicate InUseStatus(st: ConnStatus) {
    st == Connected || st == Disconnecting || st == IdleTimeout
  }

  /** Reading on a usable connection. */
  lemma ReadOnUsable(s: State)
    requires Inv(Goto(s, Deliver)) && s.ctl.inUse && Exact(s) && InUseStatus(s.link.status) && PingSettled(s)
    ensures Inv(ReadOn(s))
  {
    hide CoreOk, Emitted, LinkPhaseOf, NoPings, PingIs, Exact, ReadLoop, PingSettled, DeliveredOk;
    var t := Goto(s, Deliver);
    var away := Parked(s.pool);
    assert Away(t) == away;
    CoreTimer(t, s, away);
    ReadFrame(s, away);
    CoreReadLoop(s, away);
    var (r, end) := ReadLoop(s);
    var u := if r.pool.pending == [] then ResetTimer(r) else r;
    CoreTimer(r, u, away);
    ExactSame(r, u);
    if end == Failed {
      ConnFailInv(u, true);
    } else {
      var v := EndRead(r, false);
      ReadEndsWell(s, r);
      CoreTimer(r, v, away);
      ExactSame(r, v);
      ExactDelivered(v);
      assert Away(v) == away;
      hide ReadKeeps;
    }
  }

  /** The end of a read that left the stream intact. */
  lemma ReadEndsWell(s: State, r: State)
    requires Inv(Goto(s, Deliver)) && InUseStatus(s.link.status) && ReadKeeps(s, r) && LinkPhaseOf(r.hist.log) == Live
    requires s.ctl.inUse
    ensures var v := EndRead(r, false);
            && Coupled(v.link, v.pool.ready, v.pool.pending, Deliver)
            && PingOk(v.link, v.pool.txns, v.pool.pending, v.pool.delayRm, v.pool.next, Deliver)
            && FirstOk(v.link, v.hist.printed, v.hist.mark, v.hist.replies, Deliver)
            && LogMatches(v.link.status, v.hist.log) && CtlOk(v.ctl, v.pool.delayRm)
            && v.ctl.pc == Deliver && v.pool == r.pool && v.hist == r.hist && v.ctl.batch == r.ctl.batch
            && v.link == r.link.(timer := v.link.timer)
  {
    hide CoreOk, DeliveredOk, LinkPhaseOf, Pinging, Replied;
    var v := EndRead(r, false);
    assert r.pool.pending != [] ==> s.pool.pending != [] by {
      if r.pool.pending != [] { assert r.pool.pending[0] in s.pool.pending; }
    }
    assert forall h :: h in r.pool.txns ==> h in r.pool.txns.Keys;
    FirstMore(s.link, s.hist.printed, s.hist.mark, s.hist.replies, r.hist.replies, Deliver);
    FirstLink(s.link, v.link, r.hist.printed, r.hist.mark, r.hist.replies, Deliver);
  }

  /** With the ping outstanding, only the ping can be completed. */
  lemma OnlyPingHolds(s: State, h: Handle)
    requires PoolOk(s.pool, {}) && s.pool.pending == [h]
    ensures forall id :: PendingHolder(s.pool, id).Some? ==> PendingHolder(s.pool, id).value == h
  {
    forall id | PendingHolder(s.pool, id).Some? ensures PendingHolder(s.pool, id).value == h {
      PendingHome(s.pool, PendingHolder(s.pool, id).value);
    }
  }

  lemma StepOnRead(s: State, input: Option<seq<byte>>)
    requires Inv(s) && Enabled(s, OnRead(input))
    ensures Inv(Do(s, OnRead(input)))
  {
    hide Inv, Emitted, ReadOn, Append;
    match input
    case None =>
      InvControl(s);
      ControlStep(s, Enter(s));
    case Some(b) =>
      AppendInv(s, b);
      if s.link.status == Connecting {
        ReadWhilePinging(s, b);
      } else {
        ReadOnUsable(Append(Enter(s), b));
      }
  }

  lemma AppendInv(s: State, b: seq<byte>)
    requires Inv(s) && s.ctl.pc == Quiet && s.link.io == Up
    ensures var t := Append(Enter(s), b);
            && Inv(t) && Exact(t) && Goto(t, Deliver) == t && t.ctl.inUse && CoreOk(t, {}) && Parked(t.pool) == {}
            && (s.link.status != Connecting ==> InUseStatus(t.link.status) && PingSettled(t))
  {
    hide CoreOk, Exact, LogMatches, Replied, DeliveredOk, PingIs;
    Entered(s);
    InvParts(s);
    var t := Append(Enter(s), b);
    CoreAppend(Enter(s), b, {});
    ExactSame(s, t);
    ExactDelivered(t);
    assert Away(t) == {};
    if s.link.status != Connecting && s.link.pingTxn.Some? && s.link.pingTxn.value in s.pool.txns {
      var h := s.link.pingTxn.value;
      if s.pool.txns[h].status == Status.Pending {
        PoolPart(s, {});
        PendingHome(s.pool, h) by { hide PoolOk; }
        assert false;
      }
    }
  }

  /** Reading before the connection is usable. */
  lemma ReadWhilePinging(s: State, b: seq<byte>)
    requires Inv(s) && s.ctl.pc == Quiet && s.link.io == Up && s.link.status == Connecting
    ensures Inv(ReadOn(Append(Enter(s), b)))
  {
    hide CoreOk, Exact, Replied, DeliveredOk, NoPings, ReadLoop, Append, LinkPhaseOf, PoolOk;
    AppendInv(s, b);
    var t := Append(Enter(s), b);
    PoolPart(t, {});
    AppendKeeps(s, b);
    var h := t.link.pingTxn.value;
    OnlyPingHolds(t, h);
    var ms := ReadForPing(t, h);
    CoreReadLoop(t, {});
    var (r, end) := ReadLoop(t);
    match end
    case Drained => ReadNothing(t, r, ms);
    case Failed =>
      ExactSame(t, r);
      ConnFailInv(r, true);
    case PingAnswered => ReadPing(t, r, ms, h);
  }

  lemma AppendKeeps(s: State, b: seq<byte>)
    ensures var t := Append(Enter(s), b);
            && t.pool == s.pool && t.link == s.link.(inbuf := t.link.inbuf) && t.ctl == Enter(s).ctl
            && t.hist == s.hist.(input := t.hist.input)
  {
  }

  lemma ReadNothing(t: State, r: State, ms: seq<Framing.Message>)
    requires Inv(t) && Exact(t) && t.ctl.pc == Deliver && CoreOk(r, {}) && Parked(t.pool) == {}
    requires r == Took(t, ms, r.link.inbuf) && t.link.status == Connecting && t.link.io == Up && t.pool.pending != []
    ensures Inv(EndRead(r, false))
  {
    hide CoreOk, Exact, Replied, DeliveredOk, NoPings, LogMatches;
    var v := EndRead(r, false);
    CoreTimer(r, v, {});
    ExactSame(t, v);
    ExactDelivered(v);
    assert Away(v) == Parked(t.pool);
  }

  lemma ReadPing(t: State, r: State, ms: seq<Framing.Message>, h: Handle)
    requires Inv(t) && Exact(t) && t.ctl.pc == Deliver && CoreOk(r, {}) && Parked(t.pool) == {}
    requires t.link.status == Connecting && t.link.io == Up && t.link.pingTxn == Some(h) && t.pool.pending == [h]
    requires ms != [] && PendingHolder(t.pool, ms[|ms| - 1].id) == Some(h)
    requires r == Answer(Took(t, ms, r.link.inbuf), h, ms[|ms| - 1])
    ensures Inv(CleanupTake(r, FromRead))
  {
    hide CoreOk, Exact, DeliveredOk, NoPings, LogMatches, BuildResponse, Move, TxnOk, Replied;
    var m := ms[|ms| - 1];
    var u := Settled(t.pool.txns[h], BuildResponse(m.data), Answered(m.data));
    InvParts(t);
    MoveFrame(t.pool, h, u);
    QueuePending(t.pool);
    assert Without([h], h) == [];
    hide Queue, Without;
    var v := CleanupTake(r, FromRead);
    var w := Goto(SetTimer(r, NoTimer), Cleanup(FromRead));
    CoreTimer(r, w, {});
    CorePull(w, h, {});
    ExactSame(t, v);
    ExactDelivered(v);
    assert Away(v) == {h} && {} + {h} == {h};
    PingReplied(t, h, m);
    assert r.pool.pending == [];
    assert v.pool.pending == [] by { WithoutNone(h); }
  }

  lemma WithoutNone(h: Handle)
    ensures Without([], h) == []
  {
  }

  /** The consumed reply is the reply to the frame that opened this connection. */
  lemma PingReplied(t: State, h: Handle, m: Framing.Message)
    requires Inv(t) && t.ctl.pc == Deliver && t.link.status == Connecting && t.link.io == Up && t.link.pingTxn == Some(h)
    requires PendingHolder(t.pool, m.id) == Some(h)
    ensures t.hist.mark < |t.hist.printed|
    ensures FirstOk(t.link, t.hist.printed, t.hist.mark, t.hist.replies + [Reply(h, m)], Cleanup(FromRead))
  {
    hide PoolOk, InSendOrder, WireOk, PastOk, InputOk, TraceOk, BatchOk, RepliesOk, DeliveredOk, LogMatches, CtlOk,
         Coupled, NoPings;
    HolderId(t, m.id, Away(t));
    var pr := t.hist.printed[t.hist.mark];
    assert SamePrint(pr, t.pool.txns[h]);
    var more := t.hist.replies + [Reply(h, m)];
    assert more[|t.hist.replies|] == Reply(h, m);
    assert Replied(more, pr);
  }

  // ----- going on -----

  lemma StepResume(s: State)
    requires Inv(s) && Enabled(s, ResumeHandler)
    ensures Inv(Do(s, ResumeHandler))
  {
    hide Inv, OpenUp, ReadOn, ConnFail, Exact;
    match s.ctl.pc.k
    case FromConnected => OpenUpInv(s);
    case FromRead =>
      OpenUpInv(s);
      ReadOnUsable(OpenUp(s));
    case FromTimeout => ResumeTimeout(s);
  }

  lemma ResumeTimeout(s: State)
    requires Inv(s) && s.ctl.pc == Cleaned(FromTimeout)
    ensures Inv(Goto(ConnFail(s.(link := s.link.(pingTxn := None)), true), Deliver))
  {
    hide CoreOk, Emitted, LinkPhaseOf, Replied, NoPings, PingIs, ConnFail;
    ExactIn(s);
    var t := s.(link := s.link.(pingTxn := None));
    assert Away(s) == Parked(s.pool);
    CoreTimer(s, t, Away(s));
    ExactSame(s, t);
    ConnFailInv(t, true);
  }

  // ----- the deferred deletions -----

  lemma PingDrain(l: Link, txns: map<Handle, Txn>, pending: seq<Handle>, delayRm: seq<Handle>, next: Handle, h: Handle, rest: seq<Handle>)
    requires PingOk(l, txns, pending, delayRm, next, Deliver) && h in delayRm && (forall g :: g in rest ==> g in delayRm)
    requires forall g :: g in pending ==> g in txns
    ensures PingOk(l, txns - {h}, Without(pending, h), rest, next, Deliver)
  {
    hide Without;
    if l.status == Connecting && l.io == Up {
      assert h !in pending;
    }
  }

  /** The invariant while the deferred list is worked off. */
  ghost predicate Draining(s: State) {
    && CoreOk(s, Parked(s.pool))
    && Coupled(s.link, s.pool.ready, s.pool.pending, Deliver)
    && PingOk(s.link, s.pool.txns, s.pool.pending, s.pool.delayRm, s.pool.next, Deliver)
    && FirstOk(s.link, s.hist.printed, s.hist.mark, s.hist.replies, Deliver)
    && s.ctl.batch == []
  }

  lemma DrainOne(s: State)
    requires Draining(s) && s.pool.delayRm != []
    ensures s.pool.delayRm[0] in s.pool.txns
    ensures var r := DeleteNow(s, DrainHead(s.pool));
            && Draining(r) && r.ctl == s.ctl && r.hist == s.hist && r.link.status == s.link.status
            && r.link == s.link.(timer := r.link.timer)
            && r.pool.delayRm == s.pool.delayRm[1..]
            && r.pool.freed == s.pool.freed + [s.pool.delayRm[0]]
            && r.pool.txns == s.pool.txns - {s.pool.delayRm[0]}
            && r.pool.ready == Without(s.pool.ready, s.pool.delayRm[0])
  {
    hide CoreOk, Coupled, PingOk, FirstOk, Erase, Without, NoDup, PoolOk;
    var p := s.pool;
    var h, rest := p.delayRm[0], p.delayRm[1..];
    QueueFacts(s, Parked(p));
    CoreDrainHead(s, Parked(p));
    HeadNotInTail(p.delayRm);
    DrainHeadFrame(s);
    var q := DrainHead(p);
    var r := DeleteNow(s, q);
    assert Parked(p) - {h} == Parked(q);
    CoreTimer(WithPool(s, q), r, Parked(q));
    CoupledErase(s.link, p.ready, p.pending, Deliver, h);
    PingDrain(s.link, p.txns, p.pending, p.delayRm, p.next, h, rest);
    hide DrainHead, Parked;
    PingLink(s.link, r.link, q.txns, q.pending, q.delayRm, q.next, Deliver);
    FirstLink(s.link, r.link, s.hist.printed, s.hist.mark, s.hist.replies, Deliver);
  }

  lemma DrainHeadFrame(s: State)
    requires CoreOk(s, Parked(s.pool)) && s.pool.delayRm != [] && s.pool.delayRm[0] in s.pool.txns
    ensures var p := s.pool; var h := p.delayRm[0]; var r := DrainHead(p);
            && r.txns == p.txns - {h} && r.delayRm == p.delayRm[1..] && r.next == p.next
            && r.ready == Without(p.ready, h) && r.pending == Without(p.pending, h)
            && r.freed == p.freed + [h]
  {
    hide CoreOk, Without, NoDup;
    QueueFacts(s, Parked(s.pool));
  }

  lemma {:induction false} DrainAllOk(s: State)
    requires Draining(s)
    ensures var r := DrainAll(s);
            && Draining(r) && r.ctl == s.ctl && r.hist == s.hist
            && r.link == s.link.(timer := r.link.timer)
            && r.pool.delayRm == [] && r.pool.freed == s.pool.freed + s.pool.delayRm
    decreases |s.pool.delayRm|
  {
    hide Draining, DeleteNow, DrainHead;
    if s.pool.delayRm == [] {
      assert s.pool.freed + [] == s.pool.freed;
    } else {
      DrainOne(s);
      var r := DeleteNow(s, DrainHead(s.pool));
      DrainAllOk(r);
      assert s.pool.freed + [s.pool.delayRm[0]] + s.pool.delayRm[1..] == s.pool.freed + s.pool.delayRm;
    }
  }

  lemma StepDrain(s: State)
    requires Inv(s) && Enabled(s, DrainDeferred)
    ensures Inv(Do(s, DrainDeferred))
  {
    hide CoreOk, Coupled, PingOk, FirstOk, LogMatches, Emitted, DrainAll;
    assert Away(s) == Parked(s.pool);
    DrainAllOk(s);
    var t := DrainAll(s);
    var r := DoDrain(s);
    assert Away(r) == {} && Parked(t.pool) == {};
    CoreTimer(t, r, {});
    CoupledPc(t.link, t.pool.ready, t.pool.pending, Deliver, r.ctl.pc);
    FirstPc(t.link, t.hist.printed, t.hist.mark, t.hist.replies, Deliver, r.ctl.pc);
    PingPc(t.link, t.pool.txns, t.pool.pending, t.pool.delayRm, t.pool.next, Deliver, r.ctl.pc);
  }

  // ----- all steps -----

  /** Every step of every kind keeps the invariant. */
  lemma StepKeepsInv(s: State, a: Step)
    requires Inv(s) && Enabled(s, a)
    ensures Inv(Do(s, a))
  {
    hide Inv, DoConnect, DoDisconnect, DoSetIdleTimeout;
    match a
    case New(id) => StepNew(s, id);
    case SetParam(h, key, value) => StepSetParam(s, h, key, value);
    case SetTimeout(h, secs) => StepSetTimeout(s, h, secs);
    case Send(h) => StepSend(s, h);
    case Delete(h) => StepDelete(s, h);
    case Connect(ok) => StepConnect(s, ok);
    case Disconnect => StepDisconnect(s);
    case SetIdleTimeout(secs) => StepSetIdleTimeout(s, secs);
    case Destroy => StepDestroy(s);
    case OnConnected(id, n) => StepOnConnected(s, id, n);
    case OnLinkLost(isError) => StepOnLinkLost(s, isError);
    case OnRead(input) => StepOnRead(s, input);
    case OnWrite(n) => StepOnWrite(s, n);
    case OnTransTimer(h) => StepOnTransTimer(s, h);
    case OnConnTimer => StepOnConnTimer(s);
    case DeletePing => StepDeletePing(s);
    case ResumeHandler => StepResume(s);
    case TakeEvent => StepTakeEvent(s);
    case CheckDestroy => StepCheckDestroy(s);
    case DrainDeferred => StepDrain(s);
    case Reconnect(ok) => StepReconnect(s, ok);
    case Finish => StepFinish(s);
  }
}
