/** Every small move of the engine keeps the core of the invariant. */
module CoreMoves {
  import opened Bytes
  import opened Pool
  import opened Engine
  import opened Traces
  import opened Core
  import KeyValue
  import Framing

  // ----- transactions entering, changing, leaving -----

  lemma CoreNew(s: State, id: nat, away: set<Handle>)
    requires CoreOk(s, away) && FreeId(s.pool, id)
    ensures CoreOk(DoNew(s, id), away)
  {
    hide PoolOk, PrintsOk, Paid, Orders, Sorted, WireOk, PastOk, InputOk, TraceOk, BatchOk, RepliesOk;
    var p, t := s.pool, Blank(id);
    AddOk(p, t, away);
    PrintsAdd(p.txns, p.next, s.hist.printed, t);
    OrdersEdit(p.txns, p.ready, p.next, t) by { ReadyAreOld(p, away); }
    TraceAdd(p.txns, p.next, s.hist.log, t);
    BatchGrow(p.txns, p.txns[p.next := t], s.ctl.batch);
    RepliesEdit(p.txns, s.hist.replies, p.next, t);
  }

  lemma ReadyAreOld(p: Pool, away: set<Handle>)
    requires PoolOk(p, away)
    ensures p.next !in p.ready && p.next !in p.txns
    ensures NoDup(p.ready) && NoDup(p.pending)
    ensures forall h :: h in p.ready ==> h in p.txns && p.txns[h].status == Status.Ready
    ensures forall h :: h in p.pending ==> h in p.txns && p.txns[h].status == Status.Pending
    ensures forall h :: h in p.txns ==> h < p.next
    ensures NoDup(p.delayRm) && forall h :: h in p.delayRm ==> h in p.txns
  {
    hide TxnsOk, Indexed, NoDup;
  }

  /** A change that keeps status and send number, and fits the events so far. */
  lemma CoreEdit(s: State, h: Handle, t: Txn, away: set<Handle>)
    requires CoreOk(s, away) && h in s.pool.txns
    requires SameTxn(s.pool.txns[h], t) && TxnOk(t) && t.status == s.pool.txns[h].status
    requires t.order == s.pool.txns[h].order && t.fate == s.pool.txns[h].fate
    requires t.timer ==> s.pool.txns[h].timer
    ensures CoreOk(WithPool(s, Edit(s.pool, h, t)), away)
  {
    hide PoolOk, PrintsOk, Paid, Orders, Sorted, WireOk, PastOk, InputOk, TraceOk, BatchOk, RepliesOk;
    var p := s.pool;
    EditOk(p, h, t, away);
    PrintsEdit(p.txns, p.next, s.hist.printed, h, t);
    OrdersEdit(p.txns, p.ready, h, t);
    PhaseFits(s, h, away);
    TraceEdit(p.txns, p.next, s.hist.log, h, t);
    BatchGrow(p.txns, p.txns[h := t], s.ctl.batch);
    RepliesKeep(p.txns, s.hist.replies, h, t);
  }

  lemma TxnFacts(p: Pool, away: set<Handle>, h: Handle)
    requires PoolOk(p, away) && h in p.txns
    ensures TxnOk(p.txns[h]) && h < p.next
  {
    hide QueuesOk, Indexed, TxnOk;
  }

  lemma IdInRange(p: Pool, away: set<Handle>, h: Handle)
    requires PoolOk(p, away) && h in p.txns
    ensures 1 <= p.txns[h].id <= MAX_ID
  {
    hide QueuesOk, Accounted, DeferredOk, TxnsOk;
  }

  lemma CoreKillTimer(s: State, h: Handle, away: set<Handle>)
    requires CoreOk(s, away) && h in s.pool.txns
    ensures CoreOk(WithPool(s, KillTimer(s.pool, h)), away)
  {
    hide PoolOk, PrintsOk, InSendOrder, WireOk, PastOk, InputOk, TraceOk, BatchOk, RepliesOk;
    TxnFacts(s.pool, away, h);
    CoreEdit(s, h, s.pool.txns[h].(timer := false), away);
  }

  lemma CoreMakeReady(s: State, h: Handle, away: set<Handle>)
    requires CoreOk(s, away) && h in s.pool.txns && Sendable(s.pool.txns[h])
    ensures CoreOk(MakeReady(s, h), away)
  {
    hide PoolOk, PrintsOk, InSendOrder, WireOk, PastOk, InputOk, TraceOk, BatchOk, RepliesOk, Without;
    var p := s.pool;
    var t := Queued(p.txns[h], s.hist.sends);
    TxnFacts(p, away, h);
    ReadyAreOld(p, away);
    MoveOk(p, h, t, away);
    PrintsEdit(p.txns, p.next, s.hist.printed, h, t);
    TrackSend(p.txns, p.ready, s.hist.printed, s.hist.sends, h, t);
    PhaseFits(s, h, away);
    TraceEdit(p.txns, p.next, s.hist.log, h, t);
    BatchGrow(p.txns, p.txns[h := t], s.ctl.batch);
    RepliesEdit(p.txns, s.hist.replies, h, t);
  }

  lemma CoreErase(s: State, h: Handle, away: set<Handle>)
    requires CoreOk(s, away) && h in s.pool.txns && h !in s.pool.delayRm && s.ctl.batch == []
    ensures CoreOk(WithPool(s, Erase(s.pool, h)), away - {h})
  {
    hide PoolOk, PrintsOk, InSendOrder, WireOk, PastOk, InputOk, TraceOk, RepliesOk, Without;
    var p := s.pool;
    ReadyAreOld(p, away);
    EraseOk(p, h, away);
    EraseReady(p, h, away);
    PrintsErase(p.txns, p.next, s.hist.printed, h);
    TrackErase(p.txns, p.ready, s.hist.printed, s.hist.sends, h);
    TraceErase(p.txns, p.next, s.hist.log, h);
    RepliesErase(p.txns, s.hist.replies, h);
  }

  lemma EraseReady(p: Pool, h: Handle, away: set<Handle>)
    requires PoolOk(p, away) && h in p.txns
    ensures Erase(p, h).ready == Without(p.ready, h)
  {
    hide PoolOk, Without, NoDup;
    ReadyAreOld(p, away);
  }

  lemma CoreDrainHead(s: State, away: set<Handle>)
    requires CoreOk(s, away) && s.pool.delayRm != [] && s.ctl.batch == []
    ensures s.pool.delayRm[0] in s.pool.txns
    ensures CoreOk(WithPool(s, DrainHead(s.pool)), away - {s.pool.delayRm[0]})
  {
    hide PoolOk, PrintsOk, InSendOrder, WireOk, PastOk, InputOk, TraceOk, RepliesOk, Without;
    var p := s.pool;
    var h := p.delayRm[0];
    DrainHeadOk(p, away);
    ReadyAreOld(p, away);
    assert h in p.txns;
    EraseReady(p, h, away);
    assert DrainHead(p).ready == Without(p.ready, h);
    PrintsErase(p.txns, p.next, s.hist.printed, h);
    TrackErase(p.txns, p.ready, s.hist.printed, s.hist.sends, h);
    TraceErase(p.txns, p.next, s.hist.log, h);
    RepliesErase(p.txns, s.hist.replies, h);
  }

  lemma CoreDefer(s: State, h: Handle, away: set<Handle>)
    requires CoreOk(s, away) && h in s.pool.txns && h !in s.pool.delayRm
    ensures CoreOk(WithPool(s, Defer(s.pool, h)), away)
  {
    hide PoolOk, PrintsOk, InSendOrder, WireOk, PastOk, InputOk, TraceOk, BatchOk, RepliesOk;
    DeferOk(s.pool, h, away);
    CoreKillTimer(s, h, away);
  }

  lemma CorePull(s: State, h: Handle, away: set<Handle>)
    requires CoreOk(s, away) && h in s.pool.txns && s.pool.txns[h].ping
    ensures CoreOk(WithPool(s, Pull(s.pool, Status.Pending, h)), away + {h})
  {
    hide PoolOk, PrintsOk, InSendOrder, WireOk, PastOk, InputOk, TraceOk, BatchOk, RepliesOk;
    PullPingOk(s.pool, h, away);
  }

  lemma CoreAway(s: State, away: set<Handle>, more: set<Handle>)
    requires CoreOk(s, away) && away <= more
    ensures CoreOk(s, more)
  {
    hide PoolOk, PrintsOk, InSendOrder, WireOk, PastOk, InputOk, TraceOk, BatchOk, RepliesOk;
    AwayOk(s.pool, away, more);
  }

  // ----- sending -----

  lemma NotPrintedBefore(s: State, h: Handle, away: set<Handle>)
    requires CoreOk(s, away) && h in s.pool.txns && !OnWire(s.pool.txns[h])
    ensures !WasPrinted(s.hist.printed, h)
  {
    hide PoolOk, WasPrinted;
  }

  function PrintOf(s: State, h: Handle): Print
    requires h in s.pool.txns
  {
    var t := s.pool.txns[h];
    Print(h, Framing.Message(t.id, KeyValue.Payload(t.request)), t.ping, t.order)
  }

  /** The parts of the state after promoting the first ready transaction. */
  lemma PromoteParts(s: State)
    requires HasHead(s.pool, s.pool.ready, Status.Ready)
    ensures var h := s.pool.ready[0]; var pr := PrintOf(s, h); var r := PromoteOne(s);
            && r.pool == Move(s.pool, h, Sent(s.pool.txns[h]))
            && r.pool.txns == s.pool.txns[h := Sent(s.pool.txns[h])]
            && r.pool.ready == s.pool.ready[1..] && r.pool.next == s.pool.next
            && r.link == s.link.(outbuf := s.link.outbuf + Framing.Frame(pr.msg.id, pr.msg.data))
            && r.hist == s.hist.(printed := s.hist.printed + [pr])
            && r.ctl == s.ctl
  {
    hide KeyValue.Payload, Framing.Frame;
    assert Without(s.pool.ready, s.pool.ready[0]) == s.pool.ready[1..];
  }

  lemma CorePromoteOne(s: State, away: set<Handle>)
    requires CoreOk(s, away) && s.pool.ready != []
    ensures HasHead(s.pool, s.pool.ready, Status.Ready)
    ensures CoreOk(PromoteOne(s), away)
  {
    hide PoolOk, PrintsOk, Paid, Orders, Sorted, WireOk, PastOk, InputOk, TraceOk, BatchOk, RepliesOk;
    hide PromoteOne, Move, Framing.Frame, KeyValue.Payload;
    var p := s.pool;
    var h := p.ready[0];
    ReadyAreOld(p, away);
    TxnFacts(p, away, h);
    NotPrintedBefore(s, h, away);
    PhaseFits(s, h, away);
    PromoteParts(s);
    var pr, u := PrintOf(s, h), Sent(p.txns[h]);
    KeyValue.PayloadNotEmpty(p.txns[h].request);
    IdInRange(p, away, h);
    MoveOk(p, h, u, away);
    PrintsSnoc(p.txns, p.next, s.hist.printed, u, pr);
    TrackPromote(p.txns, p.ready, s.hist.printed, pr, u);
    WirePrint(s.link.outbuf, s.hist.wire, s.hist.printed, s.hist.mark, pr);
    PastPrint(s.hist.past, s.hist.printed, s.hist.mark, pr);
    TraceEdit(p.txns, p.next, s.hist.log, h, u);
    BatchGrow(p.txns, p.txns[h := u], s.ctl.batch);
    RepliesEdit(p.txns, s.hist.replies, h, u);
  }

  lemma {:induction false} CorePromoteAll(s: State, away: set<Handle>)
    requires CoreOk(s, away)
    ensures CoreOk(PromoteAll(s), away)
    decreases |s.pool.ready|
  {
    hide CoreOk, PromoteOne;
    if s.pool.ready != [] {
      CorePromoteOne(s, away);
      CorePromoteAll(PromoteOne(s), away);
    }
  }

  lemma CoreSendMessages(s: State, away: set<Handle>)
    requires CoreOk(s, away)
    ensures CoreOk(SendMessages(s), away)
  {
    hide PromoteAll, PoolOk, PrintsOk, InSendOrder, WireOk, PastOk, InputOk, TraceOk, BatchOk, RepliesOk;
    CorePromoteAll(s, away);
  }

  function PingPrint(s: State, id: nat): Print {
    Print(s.pool.next, Framing.Message(id, KeyValue.Payload(KeyValue.PING_REQUEST)), true, 0)
  }

  /** The parts of the state after the ping is added and printed. */
  lemma PingParts(s: State, id: nat)
    ensures var pr := PingPrint(s, id); var r := PingPrinted(s, id);
            && r.pool == Add(s.pool, PingTxn(id))
            && r.pool.txns == s.pool.txns[s.pool.next := PingTxn(id)]
            && r.pool.ready == s.pool.ready && r.pool.next == s.pool.next + 1
            && r.link == s.link.(outbuf := s.link.outbuf + Framing.Frame(pr.msg.id, pr.msg.data))
            && r.hist == s.hist.(printed := s.hist.printed + [pr])
            && r.ctl == s.ctl
  {
    hide KeyValue.Payload, Framing.Frame;
  }

  lemma CorePing(s: State, id: nat, away: set<Handle>)
    requires CoreOk(s, away) && FreeId(s.pool, id)
    ensures CoreOk(PingPrinted(s, id), away)
  {
    hide PoolOk, PrintsOk, Paid, Orders, Sorted, WireOk, PastOk, InputOk, TraceOk, BatchOk, RepliesOk;
    hide PingPrinted, Add, Framing.Frame, KeyValue.Payload;
    var p, t, h, pr := s.pool, PingTxn(id), s.pool.next, PingPrint(s, id);
    AddOk(p, t, away);
    ReadyAreOld(p, away);
    PingParts(s, id);
    KeyValue.PayloadNotEmpty(KeyValue.PING_REQUEST);
    PrintsWiden(p.txns, p.next, s.hist.printed);
    PrintsSnoc(p.txns, p.next + 1, s.hist.printed, t, pr);
    OrdersEdit(p.txns, p.ready, h, t);
    PaidSnoc(s.hist.printed, pr);
    WirePrint(s.link.outbuf, s.hist.wire, s.hist.printed, s.hist.mark, pr);
    PastPrint(s.hist.past, s.hist.printed, s.hist.mark, pr);
    TraceAdd(p.txns, p.next, s.hist.log, t);
    BatchGrow(p.txns, p.txns[h := t], s.ctl.batch);
    RepliesEdit(p.txns, s.hist.replies, h, t);
  }

  lemma CoreWrite(s: State, n: nat, away: set<Handle>)
    requires CoreOk(s, away) && n <= |s.link.outbuf|
    ensures CoreOk(WriteOut(s, n), away)
  {
    hide PoolOk, PrintsOk, InSendOrder, WireOk, PastOk, InputOk, TraceOk, BatchOk, RepliesOk;
    WireWrite(s.link.outbuf, s.hist.wire, s.hist.printed, s.hist.mark, n);
  }

  // ----- losing the connection -----

  lemma CoreTearDown(s: State, away: set<Handle>)
    requires CoreOk(s, away)
    ensures CoreOk(TearDown(s), away)
  {
    hide PoolOk, PrintsOk, InSendOrder, WireOk, PastOk, InputOk, TraceOk, BatchOk, RepliesOk;
    PastClose(s.link.outbuf, s.hist.wire, s.hist.past, s.hist.printed, s.hist.mark, s.hist.frames);
    NothingRead();
  }

  lemma CoreEmit(s: State, e: Event, away: set<Handle>)
    requires CoreOk(s, away) && About(Queues(e)) == None
    ensures CoreOk(Emit(s, e), away)
  {
    hide PoolOk, PrintsOk, InSendOrder, WireOk, PastOk, InputOk, TraceOk, BatchOk, RepliesOk;
    TraceMark(s.pool.txns, s.pool.next, s.hist.log, Queues(e));
    BatchSnoc(s.pool.txns, s.ctl.batch, e);
  }

  lemma PhaseFits(s: State, h: Handle, away: set<Handle>)
    requires CoreOk(s, away) && h in s.pool.txns
    ensures Fits(s.pool.txns[h], PhaseOf(s.hist.log, h))
  {
    hide PoolOk;
  }

  lemma SelfUpdate(txns: map<Handle, Txn>, h: Handle)
    requires h in txns
    ensures txns[h := txns[h]] == txns
  {
  }

  lemma CoreNoConnect(s: State, h: Handle, away: set<Handle>)
    requires CoreOk(s, away) && h in s.pool.ready
    ensures CoreOk(Emit(s, TransNoConnect(h)), away)
  {
    hide PoolOk, PrintsOk, InSendOrder, WireOk, PastOk, InputOk, TraceOk, BatchOk, RepliesOk;
    var p := s.pool;
    ReadyAreOld(p, away);
    PhaseFits(s, h, away);
    TxnFacts(p, away, h);
    TraceEmit(p.txns, p.next, s.hist.log, h, p.txns[h], TransNoConnect(h));
    SelfUpdate(p.txns, h);
    BatchSnoc(p.txns, s.ctl.batch, TransNoConnect(h));
  }

  lemma {:induction false} CoreNoConnectAll(s: State, q: seq<Handle>, away: set<Handle>)
    requires CoreOk(s, away) && forall i :: 0 <= i < |q| ==> q[i] in s.pool.ready
    ensures CoreOk(NoConnectAll(s, q), away)
    decreases |q|
  {
    hide CoreOk;
    if q != [] {
      CoreNoConnect(s, q[0], away);
      CoreNoConnectAll(Emit(s, TransNoConnect(q[0])), q[1..], away);
    }
  }

  lemma CoreFailOne(s: State, away: set<Handle>)
    requires CoreOk(s, away) && s.pool.pending != []
    ensures HasHead(s.pool, s.pool.pending, Status.Pending)
    ensures CoreOk(FailOne(s), away)
  {
    hide PoolOk, PrintsOk, Paid, Orders, Sorted, WireOk, PastOk, InputOk, TraceOk, BatchOk, RepliesOk, Without, REFUSAL;
    var p := s.pool;
    var h := p.pending[0];
    ReadyAreOld(p, away);
    TxnFacts(p, away, h);
    PhaseFits(s, h, away);
    var u := Finished(p.txns[h], REFUSAL, Lost);
    MoveOk(p, h, u, away);
    PrintsEdit(p.txns, p.next, s.hist.printed, h, u);
    OrdersEdit(p.txns, p.ready, h, u);
    TraceEmit(p.txns, p.next, s.hist.log, h, u, TransError(h));
    BatchGrow(p.txns, p.txns[h := u], s.ctl.batch);
    BatchSnoc(p.txns[h := u], s.ctl.batch, TransError(h));
    RepliesEdit(p.txns, s.hist.replies, h, u);
  }

  lemma {:induction false} CoreFailAll(s: State, away: set<Handle>)
    requires CoreOk(s, away)
    ensures CoreOk(FailAll(s), away)
    decreases |s.pool.pending|
  {
    hide CoreOk, FailOne;
    if s.pool.pending != [] {
      CoreFailOne(s, away);
      CoreFailAll(FailOne(s), away);
    }
  }

  lemma CoreConnFail(s: State, isError: bool, away: set<Handle>)
    requires CoreOk(s, away)
    ensures CoreOk(ConnFail(s, isError), away)
  {
    hide CoreOk, NoConnectAll, FailAll, Emit;
    CoreTearDown(s, away);
    var s1 := TearDown(s);
    CoreNoConnectAll(s1, s.pool.ready, away);
    var s2 := if s.link.status == IdleTimeout then s1 else NoConnectAll(s1, s.pool.ready);
    CoreFailAll(s2, away);
    CoreEmit(FailAll(s2), FinalEvent(s.link.status, isError), away);
  }

  // ----- reading -----

  lemma CoreAppend(s: State, b: seq<byte>, away: set<Handle>)
    requires CoreOk(s, away)
    ensures CoreOk(Append(s, b), away)
  {
    hide PoolOk, PrintsOk, InSendOrder, WireOk, PastOk, InputOk, TraceOk, BatchOk, RepliesOk;
    InputAppend(s.hist.input, s.hist.frames, s.link.inbuf, b);
  }

  lemma CoreConsume(s: State, away: set<Handle>)
    requires CoreOk(s, away) && Framing.NextFrame(s.link.inbuf).Got?
    ensures var n := Framing.NextFrame(s.link.inbuf); CoreOk(Consume(s, n.msg, n.rest), away)
  {
    hide PoolOk, PrintsOk, InSendOrder, WireOk, PastOk, InputOk, TraceOk, BatchOk, RepliesOk, Framing.NextFrame;
    InputConsume(s.hist.input, s.hist.frames, s.link.inbuf);
  }

  /** Answering and reporting, as one move. */
  lemma CoreAnswerReport(s: State, h: Handle, m: Framing.Message, away: set<Handle>)
    requires CoreOk(s, away) && h in s.pool.txns && s.pool.txns[h].status == Status.Pending && m.id == s.pool.txns[h].id
    ensures CoreOk(Report(Answer(s, h, m), h), away)
  {
    hide BuildResponse;
    hide PoolOk, PrintsOk, Paid, Orders, Sorted, WireOk, PastOk, InputOk, TraceOk, BatchOk, RepliesOk, Without;
    var p := s.pool;
    TxnFacts(p, away, h);
    PhaseFits(s, h, away);
    var u := Finished(p.txns[h], BuildResponse(m.data), Answered(m.data));
    MoveOk(p, h, u, away);
    PrintsEdit(p.txns, p.next, s.hist.printed, h, u);
    OrdersEdit(p.txns, p.ready, h, u);
    TraceEmit(p.txns, p.next, s.hist.log, h, u, TransDone(h));
    BatchGrow(p.txns, p.txns[h := u], s.ctl.batch);
    BatchSnoc(p.txns[h := u], s.ctl.batch, TransDone(h));
    RepliesSnoc(p.txns, s.hist.replies, Reply(h, m));
    RepliesEdit(p.txns, s.hist.replies + [Reply(h, m)], h, u);
    AnswerReportIs(s, h, m);
  }

  lemma AnswerReportIs(s: State, h: Handle, m: Framing.Message)
    requires h in s.pool.txns
    ensures Report(Answer(s, h, m), h) ==
            Emit(s.(pool := Move(s.pool, h, Finished(s.pool.txns[h], BuildResponse(m.data), Answered(m.data))),
                    hist := s.hist.(replies := s.hist.replies + [Reply(h, m)], homes := s.hist.homes + [|s.hist.past|])), TransDone(h))
  {
    hide BuildResponse, Without;
    var u := Settled(s.pool.txns[h], BuildResponse(m.data), Answered(m.data));
    assert s.pool.txns[h := u][h := u.(timer := false)] == s.pool.txns[h := u.(timer := false)];
  }

  /** The ping has no timer and no report: answering it is a move by itself. */
  lemma CoreAnswerPing(s: State, h: Handle, m: Framing.Message, away: set<Handle>)
    requires CoreOk(s, away) && h in s.pool.txns && s.pool.txns[h].status == Status.Pending && m.id == s.pool.txns[h].id
    requires s.pool.txns[h].ping
    ensures CoreOk(Answer(s, h, m), away)
  {
    hide BuildResponse;
    hide PoolOk, PrintsOk, Paid, Orders, Sorted, WireOk, PastOk, InputOk, TraceOk, BatchOk, RepliesOk, Without;
    var p := s.pool;
    TxnFacts(p, away, h);
    var u := Settled(p.txns[h], BuildResponse(m.data), Answered(m.data));
    MoveOk(p, h, u, away);
    PrintsEdit(p.txns, p.next, s.hist.printed, h, u);
    OrdersEdit(p.txns, p.ready, h, u);
    TraceEdit(p.txns, p.next, s.hist.log, h, u);
    BatchGrow(p.txns, p.txns[h := u], s.ctl.batch);
    RepliesSnoc(p.txns, s.hist.replies, Reply(h, m));
    RepliesEdit(p.txns, s.hist.replies + [Reply(h, m)], h, u);
  }
}
