/** The event handler's sections keep the invariant. */
module HandlerSteps {
  import opened Bytes
  import opened Pool
  import opened Engine
  import opened Traces
  import opened Core
  import opened CoreMoves
  import opened Effects
  import opened Invariant
  import opened Steps

  // ----- queueing events -----

  predicate Exact(s: State) {
    s.hist.delivered + s.ctl.batch == Emitted(s.hist.log)
  }

  lemma {:induction false} EmittedMarks(log: seq<Mark>, es: seq<Event>)
    ensures Emitted(log + Marks(es)) == Emitted(log) + es
    decreases |es|
  {
    if es == [] {
      assert log + Marks(es) == log;
      assert Emitted(log) + es == Emitted(log);
    } else {
      var init, last := es[..|es| - 1], es[|es| - 1];
      EmittedMarks(log, init);
      assert log + Marks(es) == (log + Marks(init)) + [Queues(last)];
      EmittedSnoc(log + Marks(init), Queues(last));
      assert Emitted(log) + es == (Emitted(log) + init) + [last];
    }
  }

  lemma ExactEmitAll(s: State, es: seq<Event>)
    requires Exact(s)
    ensures Exact(EmitAll(s, es))
  {
    EmittedMarks(s.hist.log, es);
    hide Marks;
    assert s.hist.delivered + (s.ctl.batch + es) == (s.hist.delivered + s.ctl.batch) + es;
  }

  lemma ExactEmit(s: State, e: Event)
    requires Exact(s)
    ensures Exact(Emit(s, e))
  {
    ExactEmitAll(s, [e]);
    EmitAllOne(s, e);
  }

  predicate Losing(e: Event) {
    e.TransNoConnect? || e.TransError?
  }

  lemma {:induction false} LinkLosing(log: seq<Mark>, es: seq<Event>)
    requires LinkPhaseOf(log) == Trying || LinkPhaseOf(log) == Live
    requires forall i :: 0 <= i < |es| ==> Losing(es[i])
    ensures LinkPhaseOf(log + Marks(es)) == LinkPhaseOf(log)
    decreases |es|
  {
    if es == [] {
      assert log + Marks(es) == log;
    } else {
      var init, last := es[..|es| - 1], es[|es| - 1];
      LinkLosing(log, init);
      assert log + Marks(es) == (log + Marks(init)) + [Queues(last)];
      LinkSnoc(log + Marks(init), Queues(last));
    }
  }

  /** The report of a lost connection takes the connection log back to rest. */
  lemma LinkLossReport(s: State, isError: bool)
    requires LinkPhaseOf(s.hist.log) == Trying || LinkPhaseOf(s.hist.log) == Live
    ensures LinkPhaseOf(s.hist.log + Marks(LossReport(s, isError))) == Down
  {
    var es := (if s.link.status == IdleTimeout then [] else NoConnects(s.pool.ready)) + Errors(s.pool.pending);
    var e := FinalEvent(s.link.status, isError);
    LinkLosing(s.hist.log, es);
    LinkSnoc(s.hist.log + Marks(es), Queues(e));
    assert LossReport(s, isError) == es + [e];
    assert s.hist.log + Marks(es + [e]) == (s.hist.log + Marks(es)) + [Queues(e)];
  }

  // ----- losing the connection -----

  function Parked(p: Pool): set<Handle> {
    set h | h in p.delayRm
  }

  lemma ForsakenFrame(p: Pool)
    ensures var r := Forsaken(p);
            && r.pending == [] && r.ready == p.ready && r.delayRm == p.delayRm && r.next == p.next
            && (forall h :: h in r.txns <==> h in p.txns)
            && (forall h :: h in p.txns ==> r.txns[h].ping == p.txns[h].ping)
  {
    hide REFUSAL;
  }

  predicate PingRef(l: Link, txns: map<Handle, Txn>, next: Handle) {
    && (l.disablePing ==> l.pingTxn == None)
    && (l.pingTxn.Some? ==> l.pingTxn.value < next && (l.pingTxn.value in txns ==> txns[l.pingTxn.value].ping))
  }

  /** From any point of the handler, losing the connection restores the invariant. */
  lemma ConnFailInv(s: State, isError: bool)
    requires CoreOk(s, Parked(s.pool)) && Exact(s) && s.ctl.inUse && PingRef(s.link, s.pool.txns, s.pool.next)
    requires LinkPhaseOf(s.hist.log) == Trying || LinkPhaseOf(s.hist.log) == Live
    ensures Inv(Goto(ConnFail(s, isError), Deliver))
  {
    hide CoreOk, ConnFail, Emitted, LinkPhaseOf, LossReport, Forsaken, Marks, Exact;
    CoreConnFail(s, isError, Parked(s.pool));
    ConnFailIs(s, isError, Parked(s.pool));
    ForsakenFrame(s.pool);
    LinkLossReport(s, isError);
    var t := WithPool(TearDown(s), Forsaken(s.pool));
    assert Exact(t) by { ExactSame(s, t); }
    ExactEmitAll(t, LossReport(s, isError));
    var r := Goto(ConnFail(s, isError), Deliver);
    ExactSame(ConnFail(s, isError), r);
    CoreTimer(ConnFail(s, isError), r, Parked(s.pool));
    assert Away(r) == Parked(s.pool);
    ExactDelivered(r);
    hide DeliveredOk;
  }

  lemma ExactSame(s: State, r: State)
    requires Exact(s) && r.hist.delivered == s.hist.delivered && r.ctl.batch == s.ctl.batch && r.hist.log == s.hist.log
    ensures Exact(r)
  {
  }

  lemma ExactDelivered(s: State)
    requires Exact(s)
    ensures DeliveredOk(s.ctl, s.hist.delivered, s.hist.log)
  {
  }

  /** The state right after the handler took the lock. */
  lemma Entered(s: State)
    requires Inv(s) && s.ctl.pc == Quiet
    ensures CoreOk(s, {}) && CoreOk(Enter(s), {}) && Exact(s) && Exact(Enter(s))
    ensures Parked(s.pool) == {} && Away(s) == {} && s.ctl.batch == [] && s.pool.delayRm == []
    ensures PingRef(s.link, s.pool.txns, s.pool.next)
    ensures LogMatches(s.link.status, s.hist.log)
  {
    hide CoreOk, Coupled, Pinging, NoPings, FirstOk, LogMatches;
    assert Away(s) == {};
    CoreTimer(s, Enter(s), {});
  }

  lemma StepOnLinkLost(s: State, isError: bool)
    requires Inv(s) && Enabled(s, OnLinkLost(isError))
    ensures Inv(Do(s, OnLinkLost(isError)))
  {
    hide CoreOk, Inv, ConnFail, Exact, PingRef;
    Entered(s);
    NotDown(s);
    ConnFailInv(Enter(s), isError);
    ConnFailPc(Enter(s), isError);
  }

  lemma NotDown(s: State)
    requires Inv(s) && s.ctl.pc != Gone && s.link.io != NoIo
    ensures s.link.status != Disconnected
  {
    hide CoreOk, PingOk, FirstOk, LogMatches;
  }

  lemma ConnFailPc(s: State, isError: bool)
    requires s.ctl.pc == Deliver && CoreOk(s, Parked(s.pool))
    ensures Goto(ConnFail(s, isError), Deliver) == ConnFail(s, isError)
  {
    hide CoreOk, ConnFail, LossReport, Forsaken, Marks;
    ConnFailIs(s, isError, Parked(s.pool));
  }

  // ----- simple entries -----

  lemma StepOnWrite(s: State, n: nat)
    requires Inv(s) && Enabled(s, OnWrite(n))
    ensures Inv(Do(s, OnWrite(n)))
  {
    hide CoreOk, Exact, LogMatches, Replied, PingIs;
    Entered(s);
    CoreWrite(s, n, {});
    var r := Enter(WriteOut(s, n));
    CoreTimer(WriteOut(s, n), r, {});
    ExactSame(s, r);
    ExactDelivered(r);
    assert Away(r) == {};
    hide DeliveredOk;
  }

  lemma CoreTimeout(s: State, h: Handle, away: set<Handle>)
    requires CoreOk(s, away) && h in s.pool.txns && s.pool.txns[h].timer
    ensures var s1 := Emit(s, TransTimeout(h)); CoreOk(WithPool(s1, KillTimer(s1.pool, h)), away)
  {
    hide PoolOk, PrintsOk, Paid, Orders, Sorted, WireOk, PastOk, InputOk, TraceOk, BatchOk, RepliesOk;
    var p := s.pool;
    TxnFacts(p, away, h);
    PhaseFits(s, h, away);
    var t := p.txns[h].(timer := false);
    EditOk(p, h, t, away);
    PrintsEdit(p.txns, p.next, s.hist.printed, h, t);
    OrdersEdit(p.txns, p.ready, h, t);
    TraceEmit(p.txns, p.next, s.hist.log, h, t, TransTimeout(h));
    BatchGrow(p.txns, p.txns[h := t], s.ctl.batch);
    BatchSnoc(p.txns[h := t], s.ctl.batch, TransTimeout(h));
    RepliesKeep(p.txns, s.hist.replies, h, t);
  }

  /** A running transaction timer implies a connection in use. */
  lemma TimedIsLive(s: State, h: Handle)
    requires Inv(s) && s.ctl.pc == Quiet && h in s.pool.txns && s.pool.txns[h].timer
    ensures LinkPhaseOf(s.hist.log) == Live && h in s.pool.pending && !s.pool.txns[h].ping
  {
    hide CoreOk, FirstOk, CtlOk, DeliveredOk, LinkPhaseOf, PoolOk;
    Entered(s);
    InvParts(s);
    PoolPart(s, {});
    TimedTxn(s.pool.txns[h]);
    hide TxnOk;
    PendingHome(s.pool, h);
  }

  lemma TimedTxn(t: Txn)
    requires TxnOk(t) && t.timer
    ensures t.status == Status.Pending && !t.ping
  {
  }

  lemma PendingHome(p: Pool, h: Handle)
    requires PoolOk(p, {}) && h in p.txns && p.txns[h].status == Status.Pending
    ensures h in p.pending
  {
    hide Ledger, NoDup;
  }

  lemma StepOnTransTimer(s: State, h: Handle)
    requires Inv(s) && Enabled(s, OnTransTimer(h))
    ensures Inv(Do(s, OnTransTimer(h)))
  {
    hide CoreOk, Exact, Coupled, FirstOk, PingOk, LinkPhaseOf;
    Entered(s);
    TimedIsLive(s, h);
    var t := Enter(s);
    CoreTimeout(t, h, {});
    ExactEmit(t, TransTimeout(h));
    var r := DoOnTransTimer(s, h);
    ExactSame(Emit(t, TransTimeout(h)), r);
    ExactDelivered(r);
    LinkSnoc(s.hist.log, Queues(TransTimeout(h)));
    assert Away(r) == {};
    hide DeliveredOk;
    assert Coupled(r.link, r.pool.ready, r.pool.pending, r.ctl.pc) by { CoupledPc(s.link, s.pool.ready, s.pool.pending, s.ctl.pc, Deliver); }
    assert FirstOk(r.link, r.hist.printed, r.hist.mark, r.hist.replies, r.ctl.pc) by { FirstPc(s.link, s.hist.printed, s.hist.mark, s.hist.replies, s.ctl.pc, Deliver); }
    PingPc(s.link, s.pool.txns, s.pool.pending, s.pool.delayRm, s.pool.next, s.ctl.pc, Deliver);
    PingEdit(s.link, s.pool.txns, s.pool.pending, s.pool.delayRm, s.pool.next, Deliver, h, s.pool.txns[h].(timer := false));
  }

  // Away from the ping window the invariant does not look at the control point.

  lemma CoupledPc(l: Link, ready: seq<Handle>, pending: seq<Handle>, pc: Pc, to: Pc)
    requires Coupled(l, ready, pending, pc) && !Cleaning(to)
    ensures Coupled(l, ready, pending, to)
  {
  }

  lemma FirstPc(l: Link, printed: seq<Print>, mark: nat, replies: seq<Reply>, pc: Pc, to: Pc)
    requires FirstOk(l, printed, mark, replies, pc) && !Cleaning(to)
    ensures FirstOk(l, printed, mark, replies, to)
  {
    hide Replied;
  }

  lemma PingPc(l: Link, txns: map<Handle, Txn>, pending: seq<Handle>, delayRm: seq<Handle>, next: Handle, pc: Pc, to: Pc)
    requires PingOk(l, txns, pending, delayRm, next, pc) && !Cleaning(pc) && !Cleaning(to)
    ensures PingOk(l, txns, pending, delayRm, next, to)
  {
  }

  // ----- going on after the events -----

  /** Only the control state changes, and not into or out of the ping window. */
  lemma ControlStep(s: State, r: State)
    requires Inv(s) && s.ctl.pc != Gone && !Cleaning(s.ctl.pc)
    requires r.pool == s.pool && r.link == s.link && r.hist == s.hist.(delivered := r.hist.delivered)
    requires !Cleaning(r.ctl.pc) && r.ctl.pc != Gone
    requires CtlOk(r.ctl, r.pool.delayRm) && DeliveredOk(r.ctl, r.hist.delivered, r.hist.log)
    requires forall e :: e in r.ctl.batch ==> e in s.ctl.batch
    ensures Inv(r)
  {
    hide PoolOk, PrintsOk, InSendOrder, WireOk, PastOk, InputOk, TraceOk, RepliesOk, Coupled, PingOk, FirstOk,
         LogMatches, CtlOk, DeliveredOk;
    assert Away(r) == Away(s);
    assert BatchOk(r.pool.txns, r.ctl.batch) by { BatchLess(s.pool.txns, s.ctl.batch, r.ctl.batch); }
    CoupledPc(s.link, s.pool.ready, s.pool.pending, s.ctl.pc, r.ctl.pc);
    FirstPc(s.link, s.hist.printed, s.hist.mark, s.hist.replies, s.ctl.pc, r.ctl.pc);
    PingPc(s.link, s.pool.txns, s.pool.pending, s.pool.delayRm, s.pool.next, s.ctl.pc, r.ctl.pc);
  }

  lemma BatchLess(txns: map<Handle, Txn>, batch: seq<Event>, less: seq<Event>)
    requires BatchOk(txns, batch) && forall e :: e in less ==> e in batch
    ensures BatchOk(txns, less)
  {
    forall i | 0 <= i < |less|
      ensures var h := About(Queues(less[i])); h.Some? ==> h.value in txns
    {
      assert less[i] in batch;
    }
  }

  lemma InvControl(s: State)
    requires Inv(s) && s.ctl.pc != Gone
    ensures CtlOk(s.ctl, s.pool.delayRm) && DeliveredOk(s.ctl, s.hist.delivered, s.hist.log)
  {
    hide CoreOk, Coupled, PingOk, FirstOk, LogMatches, CtlOk, DeliveredOk;
  }

  lemma StepTakeEvent(s: State)
    requires Inv(s) && Enabled(s, TakeEvent)
    ensures Inv(Do(s, TakeEvent))
  {
    hide Inv, Emitted;
    InvControl(s);
    var r := DoTakeEvent(s);
    assert s.hist.delivered + s.ctl.batch == r.hist.delivered + r.ctl.batch;
    ControlStep(s, r);
  }

  lemma StepCheckDestroy(s: State)
    requires Inv(s) && Enabled(s, CheckDestroy)
    ensures Inv(Do(s, CheckDestroy))
  {
    hide Inv, Emitted;
    InvControl(s);
    var r := DoCheckDestroy(s);
    assert s.hist.delivered <= s.hist.delivered + s.ctl.batch;
    ControlStep(s, r);
  }

  lemma StepReconnect(s: State, ok: bool)
    requires Inv(s) && Enabled(s, Reconnect(ok))
    ensures Inv(Do(s, Reconnect(ok)))
  {
    hide Inv, Emitted;
    var t := if s.ctl.pc.reconnect then DoConnect(s, ok) else s;
    if s.ctl.pc.reconnect {
      StepConnect(s, ok);
    }
    InvControl(t);
    ControlStep(t, DoReconnect(s, ok));
  }

  lemma StepFinish(s: State)
    requires Inv(s) && Enabled(s, Finish)
    ensures Inv(Do(s, Finish))
  {
    hide Inv, Demolish;
    InvControl(s);
    if s.ctl.destroy {
      DemolishInv(s);
    } else {
      ControlStep(s, Goto(s, Quiet));
    }
  }
}
